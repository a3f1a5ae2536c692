/** The node-type table does not leak: an entry belongs to an agent that has not finished
    or that some finisher has yet to record. */
module NodeTypes {
  import opened Ids
  import opened Agents
  import opened Coordinator
  import L = Lifecycle

  predicate Finishes(t: L.Thread, k: AgentKey)
  {
    (t.Persisting? || t.Summarizing? || t.Recording?) && t.child.Key() == k
  }

  ghost predicate BeingFinished(threads: map<nat, L.Thread>, k: AgentKey)
  {
    exists t :: t in threads && Finishes(threads[t], k)
  }

  ghost predicate EntryOk(l: L.Life, k: AgentKey) {
    k in l.scopes && (l.scopes[k].terminal.None? || BeingFinished(l.threads, k))
  }

  ghost predicate NoLeak(l: L.Life) { forall k {:trigger k in l.nodeTypes} :: k in l.nodeTypes ==> EntryOk(l, k) }

  /** A move of thread `tid` leaves every other finisher where it is. */
  lemma OthersStillFinish(a: map<nat, L.Thread>, b: map<nat, L.Thread>, tid: nat, k: AgentKey)
    requires BeingFinished(a, k) && a - {tid} == b - {tid}
    requires tid in a && Finishes(a[tid], k) ==> tid in b && Finishes(b[tid], k)
    ensures BeingFinished(b, k)
  {
    var t :| t in a && Finishes(a[t], k);
    if t != tid { assert t in a - {tid} && t in b && b[t] == a[t]; }
    assert t in b && Finishes(b[t], k);
  }

  lemma ReservingKeeps(cfg: L.Config, l: L.Life, m: L.Move, k: AgentKey)
    requires Reserves(m) && L.Enabled(l, m) && l.scopes.Keys == l.store.records.Keys
    requires k in L.Do(cfg, l, m).nodeTypes && (k in l.nodeTypes ==> EntryOk(l, k))
    ensures EntryOk(L.Do(cfg, l, m), k)
  {
    var n := L.Do(cfg, l, m);
    if k in l.nodeTypes && BeingFinished(l.threads, k) && l.scopes[k].terminal.Some? {
      OthersStillFinish(l.threads, n.threads, m.tid, k);
    }
  }

  lemma FinishKeeps(l: L.Life, tid: nat, child: Context, terminal: ChildTerminal, k: AgentKey)
    requires L.Enabled(l, L.Finish(tid, child, terminal)) && child.Key() in l.scopes && k in l.nodeTypes
    requires EntryOk(l, k)
    ensures EntryOk(L.FinishScope(l, tid, child, terminal), k)
  {
    var n := L.FinishScope(l, tid, child, terminal);
    if !child.Root() { assert Finishes(n.threads[tid], child.Key()); }
    if l.scopes[k].terminal.Some? { OthersStillFinish(l.threads, n.threads, tid, k); }
  }

  lemma WriteKeeps(cfg: L.Config, l: L.Life, m: L.Move, k: AgentKey)
    requires (m.StatusWrite? || m.SummaryWrite?) && L.Enabled(l, m) && L.Trusted(l.store, l.threads[m.tid].child)
    requires k in l.nodeTypes && EntryOk(l, k)
    ensures EntryOk(L.Do(cfg, l, m), k)
  {
    var n := L.Do(cfg, l, m);
    if l.scopes[k].terminal.Some? { OthersStillFinish(l.threads, n.threads, m.tid, k); }
  }

  lemma StatusMoveKeeps(cfg: L.Config, l: L.Life, m: L.Move, k: AgentKey)
    requires (m.Root? || m.CancelMark? || m.Transit? || m.Awaiting? || m.Finalize?) && L.Enabled(l, m)
    requires k in l.nodeTypes && EntryOk(l, k)
    ensures EntryOk(L.Do(cfg, l, m), k)
  {
  }

  lemma LocalKeepsNoLeak(cfg: L.Config, s: System, m: L.Move)
    requires L.Coherent(s.life) && NoLeak(s.life) && Enabled(s, Local(m))
    ensures NoLeak(L.Do(cfg, s.life, m))
  {
    var l, n := s.life, L.Do(cfg, s.life, m);
    if m.StatusWrite? || m.SummaryWrite? { assert L.ThreadOk(l, l.threads[m.tid]); }
    forall k | k in n.nodeTypes ensures EntryOk(n, k) { MoveKeepsEntry(cfg, l, m, k); }
  }

  lemma MoveKeepsEntry(cfg: L.Config, l: L.Life, m: L.Move, k: AgentKey)
    requires l.scopes.Keys == l.store.records.Keys && L.Enabled(l, m) && !m.RecordDone?
    requires m.StatusWrite? || m.SummaryWrite? ==> L.Trusted(l.store, l.threads[m.tid].child)
    requires (k in l.nodeTypes ==> EntryOk(l, k)) && k in L.Do(cfg, l, m).nodeTypes
    ensures EntryOk(L.Do(cfg, l, m), k)
  {
    match m
    case Finish(tid, child, terminal) => FinishKeeps(l, tid, child, terminal, k);
    case StatusWrite(_) => WriteKeeps(cfg, l, m, k);
    case SummaryWrite(_) => WriteKeeps(cfg, l, m, k);
    case Admission(_, _, _, _) => ReservingKeeps(cfg, l, m, k);
    case Acquisition(_) => ReservingKeeps(cfg, l, m, k);
    case Insertion(_, _, _, _) => ReservingKeeps(cfg, l, m, k);
    case Joining(_, _) => ReservingKeeps(cfg, l, m, k);
    case _ => StatusMoveKeeps(cfg, l, m, k);
  }

  /** A join or a recording: the thread that records takes the entry with it. */
  lemma ThreadKeepsNoLeak(l: L.Life, n: L.Life, tid: nat)
    requires NoLeak(l) && n.scopes == l.scopes && tid in l.threads && n.threads - {tid} == l.threads - {tid}
    requires n.nodeTypes.Keys <= l.nodeTypes.Keys
    requires forall k :: k in n.nodeTypes && Finishes(l.threads[tid], k) ==>
               tid in n.threads && Finishes(n.threads[tid], k)
    ensures NoLeak(n)
  {
    forall k | k in n.nodeTypes ensures EntryOk(n, k) {
      assert EntryOk(l, k);
      if l.scopes[k].terminal.Some? { OthersStillFinish(l.threads, n.threads, tid, k); }
    }
  }

  lemma StepKeepsNoLeak(cfg: L.Config, s: System, e: Event)
    requires L.Coherent(s.life) && NoLeak(s.life) && Enabled(s, e)
    ensures NoLeak(Apply(cfg, s, e).life)
  {
    match e
    case Local(m) => LocalKeepsNoLeak(cfg, s, m);
    case GroupOnly(_) =>
    case Join(tid) => ThreadKeepsNoLeak(s.life, Apply(cfg, s, e).life, tid);
    case RecordStep(tid) => ThreadKeepsNoLeak(s.life, L.Recorded(s.life, tid), tid);
    case ForceRecord(_, _) =>
      forall k | k in Apply(cfg, s, e).life.nodeTypes
        ensures EntryOk(Apply(cfg, s, e).life, k)
      {
        assert EntryOk(s.life, k);
      }
  }

  lemma {:induction false} RunKeepsNoLeak(cfg: L.Config, s: System, run: seq<Event>)
    requires Inv(cfg, s) && NoLeak(s.life) && Feasible(cfg, s, run)
    ensures NoLeak(Run(cfg, s, run).life)
    decreases |run|
  {
    if run != [] {
      StepKeepsInv(cfg, s, run[0]);
      StepKeepsNoLeak(cfg, s, run[0]);
      RunKeepsNoLeak(cfg, Apply(cfg, s, run[0]), run[1..]);
    }
  }

  /** In every reachable state without finishers in progress, only agents that have not
      finished have a node type. */
  lemma NodeTypesOverRuns(cfg: L.Config, run: seq<Event>, k: AgentKey)
    requires Feasible(cfg, Start(cfg), run)
    requires k in Run(cfg, Start(cfg), run).life.nodeTypes && !BeingFinished(Run(cfg, Start(cfg), run).life.threads, k)
    ensures var l := Run(cfg, Start(cfg), run).life; k in l.scopes && l.scopes[k].terminal.None?
  {
    StartInv(cfg);
    RunKeepsNoLeak(cfg, Start(cfg), run);
  }
}
