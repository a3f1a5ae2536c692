/** The states a coordinator goes through. A trace starts in the initial state and every
    state follows from the one before by one critical section, so it is a run. */
module History {
  import opened Ids
  import opened Agents
  import opened Coordinator
  import L = Lifecycle
  import S = AgentStore
  import R = CoordinatorRuns
  import CancelTree

  predicate Ended(s: System, k: AgentKey) { k in s.life.scopes && s.life.scopes[k].status.Terminal() }

  ghost predicate Linked(cfg: L.Config, a: System, b: System) { exists e :: Enabled(a, e) && Apply(cfg, a, e) == b }

  ghost predicate LinkAt(cfg: L.Config, h: seq<System>, i: nat)
    requires i + 1 < |h|
  {
    Linked(cfg, h[i], h[i + 1])
  }

  ghost predicate Trace(cfg: L.Config, h: seq<System>) {
    && h != [] && h[0] == Start(cfg)
    && (forall i :: 0 <= i < |h| - 1 ==> LinkAt(cfg, h, i))
    && Lasting(h)
  }

  /** Once a scope has ended it stays as it is. */
  ghost predicate Lasting(h: seq<System>) {
    forall i, j, k :: 0 <= i <= j < |h| && Ended(h[i], k) ==>
      Ended(h[j], k) && h[j].life.scopes[k] == h[i].life.scopes[k]
  }

  ghost predicate Extends(h: seq<System>, g: seq<System>) {
    |h| <= |g| && forall i :: 0 <= i < |h| ==> g[i] == h[i]
  }

  lemma TraceStart(cfg: L.Config)
    ensures Trace(cfg, [Start(cfg)])
  {
  }

  lemma EndedStays(cfg: L.Config, s: System, e: Event, k: AgentKey)
    requires Inv(cfg, s) && Enabled(s, e) && Ended(s, k)
    ensures Ended(Apply(cfg, s, e), k) && Apply(cfg, s, e).life.scopes[k] == s.life.scopes[k]
  {
    assert L.ScopeOk(s.life, k);
    R.StepKeepsTerminal(cfg, s, e, k);
  }

  lemma TraceStep(cfg: L.Config, h: seq<System>, e: Event)
    requires Trace(cfg, h) && Inv(cfg, h[|h| - 1]) && Enabled(h[|h| - 1], e)
    ensures Trace(cfg, h + [Apply(cfg, h[|h| - 1], e)])
  {
    var last := h[|h| - 1];
    var next := Apply(cfg, last, e);
    assert Linked(cfg, last, next);
    forall k | Ended(last, k) ensures Ended(next, k) && next.life.scopes[k] == last.life.scopes[k] {
      EndedStays(cfg, last, e, k);
    }
    LinkedNext(cfg, h, next);
    LastingNext(h, next);
  }

  lemma LinkedNext(cfg: L.Config, h: seq<System>, next: System)
    requires h != [] && Linked(cfg, h[|h| - 1], next)
    requires forall i :: 0 <= i < |h| - 1 ==> LinkAt(cfg, h, i)
    ensures var g := h + [next]; forall i :: 0 <= i < |g| - 1 ==> LinkAt(cfg, g, i)
  {
    var g := h + [next];
    forall i | 0 <= i < |g| - 1 ensures LinkAt(cfg, g, i) {
      if i < |h| - 1 { assert LinkAt(cfg, h, i); }
    }
  }

  lemma LastingNext(h: seq<System>, next: System)
    requires h != [] && Lasting(h)
    requires forall k :: Ended(h[|h| - 1], k) ==> Ended(next, k) && next.life.scopes[k] == h[|h| - 1].life.scopes[k]
    ensures Lasting(h + [next])
  {
    var g := h + [next];
    forall i, j, k | 0 <= i <= j < |g| && Ended(g[i], k)
      ensures Ended(g[j], k) && g[j].life.scopes[k] == g[i].life.scopes[k]
    {
      if i < |h| { assert g[i] == h[i] && Ended(h[|h| - 1], k); }
    }
  }

  lemma {:induction false} RunStep(cfg: L.Config, s: System, run: seq<Event>, e: Event)
    requires Feasible(cfg, s, run) && Enabled(Run(cfg, s, run), e)
    ensures Feasible(cfg, s, run + [e]) && Run(cfg, s, run + [e]) == Apply(cfg, Run(cfg, s, run), e)
    decreases |run|
  {
    if run == [] {
      assert run + [e] == [e] && [e][1..] == [];
    } else {
      assert (run + [e])[0] == run[0] && (run + [e])[1..] == run[1..] + [e];
      RunStep(cfg, Apply(cfg, s, run[0]), run[1..], e);
    }
  }

  /** Every state of a trace is reached by a run from the start: what holds over runs
      holds in every state a compound call goes through. */
  lemma {:induction false} TraceIsRun(cfg: L.Config, h: seq<System>, i: nat) returns (run: seq<Event>)
    requires Trace(cfg, h) && i < |h|
    ensures Feasible(cfg, Start(cfg), run) && Run(cfg, Start(cfg), run) == h[i]
  {
    if i == 0 {
      run := [];
    } else {
      var before := TraceIsRun(cfg, h, i - 1);
      assert LinkAt(cfg, h, i - 1);
      var e :| Enabled(h[i - 1], e) && Apply(cfg, h[i - 1], e) == h[i];
      RunStep(cfg, Start(cfg), before, e);
      run := before + [e];
    }
  }

  // ------------------------------------------------------------- reachable states

  ghost predicate Reach(cfg: L.Config, s: System) {
    exists run :: Feasible(cfg, Start(cfg), run) && Run(cfg, Start(cfg), run) == s
  }

  lemma ReachStart(cfg: L.Config)
    ensures Reach(cfg, Start(cfg))
  {
    assert Feasible(cfg, Start(cfg), []) && Run(cfg, Start(cfg), []) == Start(cfg);
  }

  lemma ReachNext(cfg: L.Config, s: System, e: Event)
    requires Reach(cfg, s) && Enabled(s, e)
    ensures Reach(cfg, Apply(cfg, s, e))
  {
    var run :| Feasible(cfg, Start(cfg), run) && Run(cfg, Start(cfg), run) == s;
    RunStep(cfg, Start(cfg), run, e);
  }

  lemma ReachInv(cfg: L.Config, s: System)
    requires Reach(cfg, s)
    ensures Inv(cfg, s)
  {
    var run :| Feasible(cfg, Start(cfg), run) && Run(cfg, Start(cfg), run) == s;
    ReachableInv(cfg, run);
  }

  // ------------------------------------------------------ the order of finishing

  /** The scopes of `log` before position `j` have ended, the one at `j` has not. */
  ghost predicate AtStage(s: System, log: seq<AgentKey>, j: nat)
    requires j < |log|
  {
    && (forall m :: 0 <= m < j ==> Ended(s, log[m]))
    && log[j] in s.life.scopes && !Ended(s, log[j])
  }

  ghost predicate Seen(h: seq<System>, from: nat, log: seq<AgentKey>, j: nat)
    requires j < |log|
  {
    exists i :: from <= i < |h| && AtStage(h[i], log, j)
  }

  /** From state `from` on, the scopes of `log` ended one after the other in its order. */
  ghost predicate Staged(h: seq<System>, from: nat, log: seq<AgentKey>) {
    forall j :: 0 <= j < |log| ==> Seen(h, from, log, j)
  }

  lemma StagedLater(h: seq<System>, g: seq<System>, from: nat, log: seq<AgentKey>)
    requires Extends(h, g) && Staged(h, from, log)
    ensures Staged(g, from, log)
  {
    forall j | 0 <= j < |log| ensures Seen(g, from, log, j) {
      assert Seen(h, from, log, j);
      var i :| from <= i < |h| && AtStage(h[i], log, j);
      assert AtStage(g[i], log, j);
    }
  }

  /** One stretch after another: what ended in the first has ended throughout the second. */
  lemma StagedJoin(h: seq<System>, from: nat, log: seq<AgentKey>, mid: nat, more: seq<AgentKey>)
    requires Lasting(h) && from <= mid < |h| && Staged(h, from, log) && Staged(h, mid, more)
    requires forall d :: d in log ==> Ended(h[mid], d)
    ensures Staged(h, from, log + more)
  {
    var all := log + more;
    forall j | 0 <= j < |all| ensures Seen(h, from, all, j) {
      if j < |log| {
        assert Seen(h, from, log, j);
        var i :| from <= i < |h| && AtStage(h[i], log, j);
        assert AtStage(h[i], all, j);
      } else {
        assert Seen(h, mid, more, j - |log|);
        var i :| mid <= i < |h| && AtStage(h[i], more, j - |log|);
        forall m | 0 <= m < j ensures Ended(h[i], all[m]) {
          if m < |log| { assert log[m] in log && Ended(h[mid], log[m]); } else { assert all[m] == more[m - |log|]; }
        }
        assert AtStage(h[i], all, j);
      }
    }
  }

  lemma StagedOne(h: seq<System>, at: nat, c: AgentKey)
    requires at < |h| && c in h[at].life.scopes && !Ended(h[at], c)
    ensures Staged(h, at, [c])
  {
    assert AtStage(h[at], [c], 0);
    assert Seen(h, at, [c], 0);
  }

  /** In every state: a scope of `log` has ended only if all of `log` below it have. */
  ghost predicate DescendantsFirst(t: S.Store, h: seq<System>, log: seq<AgentKey>) {
    forall i, a, d :: 0 <= i < |h| && a in log && d in log && S.Under(t, d, a) && Ended(h[i], a) ==> Ended(h[i], d)
  }

  /** A bottom-up log that is the order of ending puts descendants first in every state. */
  lemma StagedIsOrdered(t: S.Store, h: seq<System>, from: nat, log: seq<AgentKey>)
    requires Lasting(h) && Staged(h, from, log) && CancelTree.BottomUp(t, log)
    ensures DescendantsFirst(t, h, log)
  {
    forall i, a, d | 0 <= i < |h| && a in log && d in log && S.Under(t, d, a) && Ended(h[i], a) ensures Ended(h[i], d) {
      var x :| 0 <= x < |log| && log[x] == a;
      var y :| 0 <= y < |log| && log[y] == d;
      assert Seen(h, from, log, x);
      var w :| from <= w < |h| && AtStage(h[w], log, x);
      assert w < i && Ended(h[w], log[y]);
    }
  }
}
