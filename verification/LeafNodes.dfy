/** The permission dimension of contracts over whole runs: an agent of a leaf node type
    never gets a child, unless a result is forced for it while it has not finished. */
module LeafNodes {
  import opened Ids
  import opened Agents
  import opened Coordinator
  import L = Lifecycle
  import S = AgentStore

  /** The type's contract does not let it spawn. */
  predicate LeafType(cfg: L.Config, t: L.NodeType) { t in cfg.registry && !cfg.registry[t].canSpawn }

  predicate Leaf(cfg: L.Config, l: L.Life, k: AgentKey) { k in l.nodeTypes && LeafType(cfg, l.nodeTypes[k]) }

  predicate Spawning(t: L.Thread, k: AgentKey) { (t.Admitted? || t.Holding?) && t.caller.Key() == k }

  /** No child, nobody on the way to make one, and either a leaf or finished. */
  ghost predicate Barren(cfg: L.Config, l: L.Life, k: AgentKey) {
    && k in l.scopes && (Leaf(cfg, l, k) || l.scopes[k].terminal.Some?)
    && (forall c :: !S.ChildOf(l.store, c, k))
    && (forall t :: t in l.threads ==> !Spawning(l.threads[t], k))
  }

  /** A barren agent is refused whenever it tries to spawn. */
  lemma BarrenIsRefused(cfg: L.Config, l: L.Life, caller: Context, nodeType: L.NodeType)
    requires L.Coherent(l) && Barren(cfg, l, caller.Key())
    ensures L.Refusal(cfg, l, caller, nodeType).Some?
  {
    assert L.ScopeOk(l, caller.Key());
  }

  lemma ReservingKeepsBarren(cfg: L.Config, l: L.Life, m: L.Move, k: AgentKey)
    requires L.Coherent(l) && Barren(cfg, l, k) && L.Enabled(l, m) && Reserves(m)
    ensures Barren(cfg, L.Do(cfg, l, m), k)
  {
    if m.Admission? && m.caller.Key() == k { BarrenIsRefused(cfg, l, m.caller, m.nodeType); }
    if m.Insertion? { InsertionKeepsBarren(cfg, l, m, k); }
  }

  lemma InsertionKeepsBarren(cfg: L.Config, l: L.Life, m: L.Move, k: AgentKey)
    requires L.Hierarchy(l) && Barren(cfg, l, k) && L.Enabled(l, m) && m.Insertion?
    ensures Barren(cfg, L.Do(cfg, l, m), k)
  {
    var t := l.threads[m.tid];
    assert !Spawning(t, k);
    var n := L.Do(cfg, l, m);
    forall c ensures !S.ChildOf(n.store, c, k) { assert !S.ChildOf(l.store, c, k); }
  }

  lemma FinishKeepsBarren(cfg: L.Config, l: L.Life, tid: nat, child: Context, terminal: ChildTerminal, k: AgentKey)
    requires Barren(cfg, l, k)
    ensures Barren(cfg, L.FinishScope(l, tid, child, terminal), k)
  {
    var n := L.FinishScope(l, tid, child, terminal);
    forall c ensures !S.ChildOf(n.store, c, k) { assert !S.ChildOf(l.store, c, k); }
  }

  lemma WriteKeepsBarren(cfg: L.Config, l: L.Life, m: L.Move, k: AgentKey)
    requires Barren(cfg, l, k) && L.Enabled(l, m) && (m.StatusWrite? || m.SummaryWrite?)
    ensures Barren(cfg, L.Do(cfg, l, m), k)
  {
    var n := L.Do(cfg, l, m);
    forall c ensures !S.ChildOf(n.store, c, k) { assert !S.ChildOf(l.store, c, k); }
  }

  lemma StatusKeepsBarren(cfg: L.Config, l: L.Life, m: L.Move, k: AgentKey)
    requires Barren(cfg, l, k) && L.Enabled(l, m)
    requires m.Root? || m.CancelMark? || m.Transit? || m.Awaiting? || m.Finalize?
    ensures Barren(cfg, L.Do(cfg, l, m), k)
  {
    var n := L.Do(cfg, l, m);
    forall c ensures !S.ChildOf(n.store, c, k) { assert !S.ChildOf(l.store, c, k); }
  }

  lemma LocalKeepsBarren(cfg: L.Config, l: L.Life, m: L.Move, k: AgentKey)
    requires L.Coherent(l) && Barren(cfg, l, k) && L.Enabled(l, m) && !m.RecordDone?
    ensures Barren(cfg, L.Do(cfg, l, m), k)
  {
    match m
    case Finish(tid, child, terminal) => FinishKeepsBarren(cfg, l, tid, child, terminal, k);
    case StatusWrite(_) => WriteKeepsBarren(cfg, l, m, k);
    case SummaryWrite(_) => WriteKeepsBarren(cfg, l, m, k);
    case Admission(_, _, _, _) => ReservingKeepsBarren(cfg, l, m, k);
    case Acquisition(_) => ReservingKeepsBarren(cfg, l, m, k);
    case Insertion(_, _, _, _) => ReservingKeepsBarren(cfg, l, m, k);
    case Joining(_, _) => ReservingKeepsBarren(cfg, l, m, k);
    case _ => StatusKeepsBarren(cfg, l, m, k);
  }

  /** A result forced for `k` while it has not finished drops its node type. */
  predicate Lifts(s: System, e: Event, k: AgentKey) {
    e.ForceRecord? && e.child.Key() == k && k in s.life.scopes && s.life.scopes[k].terminal.None?
  }

  lemma StepKeepsBarren(cfg: L.Config, s: System, e: Event, k: AgentKey)
    requires L.Coherent(s.life) && Enabled(s, e) && Barren(cfg, s.life, k) && !Lifts(s, e, k)
    ensures Barren(cfg, Apply(cfg, s, e).life, k)
  {
    match e
    case Local(m) => LocalKeepsBarren(cfg, s.life, m, k);
    case GroupOnly(_) =>
    case Join(_) =>
    case RecordStep(tid) => assert L.ThreadOk(s.life, s.life.threads[tid]);
    case ForceRecord(_, _) =>
  }

  /** No step of the run lifts the leaf. */
  ghost predicate NeverLifted(cfg: L.Config, s: System, run: seq<Event>, k: AgentKey)
    requires Feasible(cfg, s, run)
    decreases |run|
  {
    run == [] || (!Lifts(s, run[0], k) && NeverLifted(cfg, Apply(cfg, s, run[0]), run[1..], k))
  }

  /** Over every run a leaf stays without children, before and after it has finished. */
  lemma {:induction false} LeafNeverSpawns(cfg: L.Config, s: System, run: seq<Event>, k: AgentKey)
    requires Inv(cfg, s) && Barren(cfg, s.life, k) && Feasible(cfg, s, run) && NeverLifted(cfg, s, run, k)
    ensures Barren(cfg, Run(cfg, s, run).life, k)
    decreases |run|
  {
    if run != [] {
      StepKeepsInv(cfg, s, run[0]);
      StepKeepsBarren(cfg, s, run[0], k);
      LeafNeverSpawns(cfg, Apply(cfg, s, run[0]), run[1..], k);
    }
  }

  /** A freshly reserved agent of a leaf type starts out barren. */
  lemma NewLeafIsBarren(cfg: L.Config, l: L.Life, tid: nat, id: AgentId, caption: string, generation: nat)
    requires L.Coherent(l) && L.Enabled(l, L.Insertion(tid, id, caption, generation))
    requires LeafType(cfg, l.threads[tid].nodeType)
    requires l.threads[tid].caller.Child(id).Key() !in l.store.records
    ensures Barren(cfg, L.InsertChild(l, tid, id, caption, generation), l.threads[tid].caller.Child(id).Key())
  {
    var k := l.threads[tid].caller.Child(id).Key();
    var n := L.InsertChild(l, tid, id, caption, generation);
    assert L.ThreadOk(l, l.threads[tid]);
    forall c ensures !S.ChildOf(n.store, c, k) {
      if c in l.store.records { assert S.ParentOk(l.store, c); }
    }
    forall t | t in n.threads
      ensures !Spawning(n.threads[t], k)
    {
      assert t in l.threads && L.ThreadOk(l, l.threads[t]);
    }
  }

  /** After such a lift the leaf counts as general-purpose: it is admitted exactly if that
      type may spawn, the child's type is known, it is live and within depth. */
  lemma LiftedLeafSpawnsIff(cfg: L.Config, s: System, child: Context, terminal: ChildTerminal, nodeType: L.NodeType)
    requires Enabled(s, ForceRecord(child, terminal)) && child.Key() in s.life.scopes && Leaf(cfg, s.life, child.Key())
    requires s.life.scopes[child.Key()].status.Live() && nodeType in cfg.registry
    ensures L.Refusal(cfg, s.life, child, nodeType) == Some(L.ContractViolation(s.life.nodeTypes[child.Key()]))
    ensures var n := Apply(cfg, s, ForceRecord(child, terminal));
            L.Refusal(cfg, n.life, child, nodeType).None? <==>
              && L.GENERAL_PURPOSE in cfg.registry
              && var contract := cfg.registry[L.GENERAL_PURPOSE];
                 && contract.canSpawn
                 && child.depth < (if contract.maxDepth.Some? then contract.maxDepth.value else cfg.maxDepth)
  {
  }
}
