/** The depth limit over whole runs: no agent is ever deeper than any bound that the
    configured limit and every contract's own limit respect. */
module DepthLimit {
  import opened Ids
  import opened Agents
  import opened Coordinator
  import L = Lifecycle

  predicate Within(cfg: L.Config, bound: nat) {
    && cfg.maxDepth <= bound
    && forall t :: t in cfg.registry && cfg.registry[t].maxDepth.Some? ==> cfg.registry[t].maxDepth.value <= bound
  }

  /** An admitted call waits with the depth it was checked for. */
  ghost predicate Shallow(l: L.Life, bound: nat) {
    && (forall k :: k in l.store.records ==> l.store.records[k].depth <= bound)
    && (forall t :: t in l.threads && (l.threads[t].Admitted? || l.threads[t].Holding?) ==>
          l.threads[t].caller.depth < bound)
  }

  lemma RefusalIsDeep(cfg: L.Config, l: L.Life, caller: Context, nodeType: L.NodeType, bound: nat)
    requires Within(cfg, bound) && L.Refusal(cfg, l, caller, nodeType).None?
    ensures caller.depth < bound
  {
  }

  lemma ReservingKeepsShallow(cfg: L.Config, l: L.Life, m: L.Move, bound: nat)
    requires Within(cfg, bound) && Shallow(l, bound) && L.Enabled(l, m) && Reserves(m)
    ensures Shallow(L.Do(cfg, l, m), bound)
  {
    if m.Admission? && L.Refusal(cfg, l, m.caller, m.nodeType).None? {
      RefusalIsDeep(cfg, l, m.caller, m.nodeType, bound);
    }
  }

  lemma OtherKeepsShallow(cfg: L.Config, l: L.Life, m: L.Move, bound: nat)
    requires Shallow(l, bound) && L.Enabled(l, m) && !Reserves(m)
    ensures Shallow(L.Do(cfg, l, m), bound)
  {
    match m
    case Finish(tid, child, terminal) => FinishKeepsShallow(l, tid, child, terminal, bound);
    case StatusWrite(tid) => StatusKeepsShallow(l, tid, bound);
    case SummaryWrite(tid) => SummaryKeepsShallow(l, tid, bound);
    case _ =>
  }

  lemma FinishKeepsShallow(l: L.Life, tid: nat, child: Context, terminal: ChildTerminal, bound: nat)
    requires Shallow(l, bound)
    ensures Shallow(L.FinishScope(l, tid, child, terminal), bound)
  {
  }

  lemma StatusKeepsShallow(l: L.Life, tid: nat, bound: nat)
    requires Shallow(l, bound) && tid in l.threads && l.threads[tid].Persisting?
    ensures Shallow(L.PersistStatus(l, tid), bound)
  {
  }

  lemma SummaryKeepsShallow(l: L.Life, tid: nat, bound: nat)
    requires Shallow(l, bound) && tid in l.threads && l.threads[tid].Summarizing?
    ensures Shallow(L.PersistSummary(l, tid), bound)
  {
  }

  lemma StepKeepsShallow(cfg: L.Config, s: System, e: Event, bound: nat)
    requires Within(cfg, bound) && Shallow(s.life, bound) && Enabled(s, e)
    ensures Shallow(Apply(cfg, s, e).life, bound)
  {
    match e
    case Local(m) =>
      if Reserves(m) {
        ReservingKeepsShallow(cfg, s.life, m, bound);
      } else {
        OtherKeepsShallow(cfg, s.life, m, bound);
      }
    case GroupOnly(_) =>
    case Join(_) =>
    case RecordStep(_) =>
    case ForceRecord(_, _) =>
  }

  lemma {:induction false} RunKeepsShallow(cfg: L.Config, s: System, run: seq<Event>, bound: nat)
    requires Within(cfg, bound) && Shallow(s.life, bound) && Feasible(cfg, s, run)
    ensures Shallow(Run(cfg, s, run).life, bound)
    decreases |run|
  {
    if run != [] {
      StepKeepsShallow(cfg, s, run[0], bound);
      RunKeepsShallow(cfg, Apply(cfg, s, run[0]), run[1..], bound);
    }
  }

  /** In every reachable state every agent's depth respects the limits. */
  lemma DepthOverRuns(cfg: L.Config, run: seq<Event>, bound: nat, k: AgentKey)
    requires Within(cfg, bound) && Feasible(cfg, Start(cfg), run)
    requires k in Run(cfg, Start(cfg), run).life.store.records
    ensures Run(cfg, Start(cfg), run).life.store.records[k].depth <= bound
  {
    RunKeepsShallow(cfg, Start(cfg), run, bound);
  }
}
