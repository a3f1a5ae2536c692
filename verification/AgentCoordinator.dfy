/** The coordinator's compound operations, as sequential runs of its critical
    sections. What a child task does, and when, is left open: every await may end in
    any of the ways its `select!` allows. */
module AgentCoordinators {
  import opened Ids
  import opened Agents
  import opened Coordinator
  import opened CancelTree
  import opened CoordinatorSteps
  import L = Lifecycle
  import G = GroupProtocol
  import S = AgentStore
  import TG = TaskGroups
  import J = JoinTree
  import F = FailFast
  import H = History

  class AgentCoordinator {
    const cfg: L.Config
    var sys: System
    var tasks: set<AgentKey>

    /** Every state so far, the present one last. */
    ghost var history: seq<System>

    ghost predicate Here()
      reads this
    {
      Sound(cfg, sys) && Traced(cfg, history) && history != [] && history[|history| - 1] == sys
    }

    /** No other call is in progress. */
    ghost predicate Valid()
      reads this
    {
      Here() && sys.life.threads == map[]
    }

    constructor (cfg: L.Config)
      ensures Valid() && this.cfg == cfg && sys == Start(cfg) && tasks == {} && history == [Start(cfg)]
    {
      this.cfg := cfg;
      sys := Start(cfg);
      tasks := {};
      history := [Start(cfg)];
      new;
      StartInv(cfg);
      H.TraceStart(cfg);
    }

    /** One critical section. */
    method Step(e: Event)
      requires Here() && Enabled(sys, e)
      modifies this`sys, this`history
      ensures Here() && sys == Apply(cfg, old(sys), e) && history == old(history) + [sys]
    {
      TraceNext(cfg, history, e);
      Open(cfg, sys);
      StepKeepsInv(cfg, sys, e);
      sys := Apply(cfg, sys, e);
      history := history + [sys];
    }

    /** `register_task`: afterwards the coordinator awaits or aborts that task. */
    method RegisterTask(child: Context) returns (ok: bool)
      requires Valid()
      modifies this`tasks
      ensures ok <==> child.Key() in sys.life.scopes
      ensures tasks == if ok then old(tasks) + {child.Key()} else old(tasks)
    {
      ok := child.Key() in sys.life.scopes;
      if ok { tasks := tasks + {child.Key()}; }
    }

    // ----------------------------------------------------------------- finishing

    /** The scope step of `finish_child`. */
    method FinishScopeStep(child: Context, terminal: ChildTerminal)
      requires Here() && MayFinish(sys.life, child, terminal)
      requires L.Trusted(sys.life.store, child) && child.parent.Some?
      modifies this`sys, this`history
      ensures Here() && history == old(history) + [sys]
      ensures sys.life.scopes == FinishedScopes(old(sys).life.scopes, child.Key(), terminal)
      ensures sys.life.available == old(sys).life.available + (if Unfinished(old(sys).life, child.Key()) then 1 else 0)
      ensures sys.life.store == old(sys).life.store && sys.group == old(sys).group && sys.forced == old(sys).forced
      ensures Finishing(sys.life, child) && !sys.life.threads[0].Summarizing?
    {
      FinishStep(cfg, sys, child, terminal);
      Step(Local(L.Finish(0, child, terminal)));
    }

    method StatusStep(child: Context)
      requires Here() && Finishing(sys.life, child) && sys.life.threads[0].Persisting?
      modifies this`sys, this`history
      ensures Here() && history == old(history) + [sys]
      ensures Quiet(old(sys).life, sys.life) && sys.group == old(sys).group && sys.forced == old(sys).forced
      ensures Finishing(sys.life, child) && sys.life.threads[0].Summarizing?
    {
      WriteStep(cfg, sys, child, L.StatusWrite(0));
      Step(Local(L.StatusWrite(0)));
    }

    method SummaryStep(child: Context)
      requires Here() && Finishing(sys.life, child) && sys.life.threads[0].Summarizing?
      modifies this`sys, this`history
      ensures Here() && history == old(history) + [sys]
      ensures Quiet(old(sys).life, sys.life) && sys.group == old(sys).group && sys.forced == old(sys).forced
      ensures Finishing(sys.life, child) && sys.life.threads[0].Recording?
    {
      WriteStep(cfg, sys, child, L.SummaryWrite(0));
      Step(Local(L.SummaryWrite(0)));
    }

    method GroupStep(child: Context) returns (ok: bool)
      requires Here() && Finishing(sys.life, child) && sys.life.threads[0].Recording?
      modifies this`sys, this`history
      ensures Valid() && history == old(history) + [sys]
      ensures Quiet(old(sys).life, sys.life) && sys.forced == old(sys).forced
      ensures (ok, sys.group.side) == Recorded(old(sys).group.side, child, sys.life.scopes)
    {
      var t := sys.life.threads[0];
      ok := G.Record(sys.group.side, child.Key(), Sanitize(child.agent, t.terminal)).0.Ok?;
      Step(RecordStep(0));
      assert sys.life.threads == map[];
    }

    /** `finish_child`: whatever its result, the child is finished afterwards, with the
        first terminal that was reported; only the finisher that wins releases a permit. */
    method FinishChild(child: Context, terminal: ChildTerminal) returns (ok: bool)
      requires Here() && MayFinish(sys.life, child, terminal) && L.Trusted(sys.life.store, child)
      modifies this`sys, this`history
      ensures SameTree(old(sys).life.store, sys.life.store) && sys.forced == old(sys).forced
      ensures H.Extends(old(history), history)
      ensures child.parent.None? ==> !ok && sys == old(sys) && history == old(history)
      ensures child.parent.Some? ==>
                && Valid()
                && sys.life.scopes == FinishedScopes(old(sys).life.scopes, child.Key(), terminal)
                && sys.life.available ==
                   old(sys).life.available + (if Unfinished(old(sys).life, child.Key()) then 1 else 0)
                && (ok, sys.group.side) == Recorded(old(sys).group.side, child, sys.life.scopes)
    {
      RootContext(cfg, sys, child);
      if child.Root() { return false; }
      FinishScopeStep(child, terminal);
      if sys.life.threads[0].Persisting? {
        StatusStep(child);
        SummaryStep(child);
      }
      ok := GroupStep(child);
    }

    /** `finish_child` of a spawned agent, named by its key. */
    method FinishSpawned(k: AgentKey, terminal: ChildTerminal) returns (ok: bool)
      requires Valid() && Spawned(sys.life, k)
      modifies this`sys, this`history
      ensures Valid() && SameTree(old(sys).life.store, sys.life.store) && Spawned(sys.life, k)
      ensures H.Extends(old(history), history)
      ensures sys.life.scopes == FinishedScopes(old(sys).life.scopes, k, terminal)
      ensures sys.life.available == old(sys).life.available + (if Unfinished(old(sys).life, k) then 1 else 0)
      ensures (ok, sys.group.side) == Recorded(old(sys).group.side, ContextOf(old(sys).life.store, k), sys.life.scopes)
    {
      ok := FinishChild(ContextOf(sys.life.store, k), terminal);
    }

    // ---------------------------------------------------------------- cancelling

    /** The mark at the head of `cancel_descendants`. */
    method MarkCancelling(k: AgentKey)
      requires Valid() && k in sys.life.scopes && !sys.life.scopes[k].status.Terminal()
      modifies this`sys, this`history
      ensures Valid() && history == old(history) + [sys]
      ensures SameTree(old(sys).life.store, sys.life.store) && sys.life.available == old(sys).life.available
      ensures sys.life.scopes == old(sys).life.scopes[k := old(sys).life.scopes[k].(status := Cancelling)]
    {
      MarkEffect(sys.life, k);
      Step(Local(L.CancelMark(k)));
    }

    /** `await_cancelled_child`, when awaiting its task would end with `outcome`: a child
        that has not finished ends with what its task produced, or as cancelled when it has
        no task or does not stop in time, and the call fails exactly if its group refuses
        that result; only a panicking task leaves it as it was. */
    method AwaitCancelledChild(k: AgentKey, outcome: Outcome) returns (ok: bool)
      requires Valid() && Spawned(sys.life, k)
      modifies this
      ensures Valid() && SameTree(old(sys).life.store, sys.life.store) && H.Extends(old(history), history)
      ensures tasks == if Unfinished(old(sys).life, k) then old(tasks) - {k} else old(tasks)
      ensures !Unfinished(old(sys).life, k) ==> ok && sys == old(sys)
      ensures Unfinished(old(sys).life, k) && k in old(tasks) && outcome.JoinFailed? ==> !ok && sys == old(sys)
      ensures Unfinished(old(sys).life, k) && !(k in old(tasks) && outcome.JoinFailed?) ==>
                var terminal := if k in old(tasks) && outcome.Joined? then outcome.terminal
                  else ChildTerminal.Cancelled;
                && FinishedOne(old(sys).life, sys.life, k) && sys.life.scopes[k].terminal == Some(terminal)
                && (ok, sys.group.side) ==
                   Recorded(old(sys).group.side, ContextOf(old(sys).life.store, k), sys.life.scopes)
    {
      if sys.life.scopes[k].status.Terminal() { return true; }
      var terminal := ChildTerminal.Cancelled;
      if k in tasks {
        tasks := tasks - {k};
        if outcome.JoinFailed? { return false; }
        if outcome.Joined? { terminal := outcome.terminal; }
      }
      tasks := tasks - {k};
      ok := FinishSpawned(k, terminal);
      FinishIsOne(old(sys).life, sys.life, k, terminal);
    }

    /** `cancel_descendants`: on success exactly the live paths below `k` have finished, in
        the order of `log`, which is bottom-up, each releasing its permit, and nothing else
        has changed but the mark on `k`. `bound` is any bound on the depth of `tree`. */
    method CancelDescendants(k: AgentKey, ghost tree: S.Store, ghost bound: nat)
      returns (ok: bool, ghost log: seq<AgentKey>)
      requires Valid() && Bounded(tree, sys.life.store, bound)
      modifies this
      ensures Valid() && SameTree(tree, sys.life.store) && H.Extends(old(history), history) && tasks <= old(tasks)
      ensures ok && !Unfinished(old(sys).life, k) ==> sys == old(sys) && log == []
      ensures ok && Unfinished(old(sys).life, k) ==>
                && CancelledBelow(tree, old(sys).life.scopes, sys.life.scopes, k, log)
                && sys.life.available == old(sys).life.available + |log|
      ensures ok ==> H.Staged(history, |old(history)| - 1, log)
      decreases Height(tree, k, bound), 3
    {
      log := [];
      if k !in sys.life.scopes || sys.life.scopes[k].status.Terminal() { return true, []; }
      ghost var before, from := sys.life.scopes, |history| - 1;
      MarkCancelling(k);
      SameTreeTrans(tree, old(sys).life.store, sys.life.store);
      ok, log := Descend(k, tree, bound, before, from);
    }

    /** Both loops of `cancel_descendants`, once `k` is marked. */
    method Descend(k: AgentKey, ghost tree: S.Store, ghost bound: nat, ghost before: L.Scopes, ghost from: nat)
      returns (ok: bool, ghost log: seq<AgentKey>)
      requires Valid() && Bounded(tree, sys.life.store, bound) && from < |history| && k in before
      requires sys.life.scopes == before[k := before[k].(status := Cancelling)]
      modifies this
      ensures Valid() && SameTree(tree, sys.life.store) && H.Extends(old(history), history) && tasks <= old(tasks)
      ensures ok ==> CancelledBelow(tree, before, sys.life.scopes, k, log) && H.Staged(history, from, log)
      ensures ok ==> sys.life.available == old(sys).life.available + |log|
      decreases Height(tree, k, bound), 2
    {
      var live := LiveChildren(sys.life, k);
      BeginDescent(cfg, sys, tree, before, k);
      ok, log := CancelBelowChildren(k, live, tree, bound, before, from);
      if !ok { return; }
      ok, log := AwaitChildren(k, live, tree, before, log, from);
      if ok { AllDone(tree, before, sys.life.scopes, k, live, log); }
    }

    /** First loop of `cancel_descendants`: recurse into every live child. */
    method CancelBelowChildren(k: AgentKey, live: seq<AgentId>, ghost tree: S.Store, ghost bound: nat,
                               ghost before: L.Scopes, ghost from: nat)
      returns (ok: bool, ghost log: seq<AgentKey>)
      requires Valid() && Bounded(tree, sys.life.store, bound) && NoDuplicates(live) && from < |history|
      requires Midway(tree, before, sys.life.scopes, k, {}, {}, [])
      requires forall c: AgentKey :: LiveKid(tree, before, c, k) <==> c.session == k.session && c.agent in live
      modifies this
      ensures Valid() && SameTree(tree, sys.life.store) && H.Extends(old(history), history) && tasks <= old(tasks)
      ensures ok ==> Midway(tree, before, sys.life.scopes, k, KeysOf(k.session, live), {}, log)
      ensures ok ==> sys.life.available == old(sys).life.available + |log| && H.Staged(history, from, log)
      decreases Height(tree, k, bound), 1
    {
      log := [];
      assert KeysOf(k.session, live[..0]) == {} && live[..|live|] == live;
      for i := 0 to |live|
        invariant Valid() && SameTree(tree, sys.life.store) && H.Extends(old(history), history) && tasks <= old(tasks)
        invariant Midway(tree, before, sys.life.scopes, k, KeysOf(k.session, live[..i]), {}, log)
        invariant sys.life.available == old(sys).life.available + |log| && H.Staged(history, from, log)
      {
        ok, log := CancelBelowChild(k, live, i, tree, bound, before, log, from);
        if !ok { return; }
      }
      ok := true;
    }

    method CancelBelowChild(k: AgentKey, live: seq<AgentId>, i: nat, ghost tree: S.Store, ghost bound: nat,
                            ghost before: L.Scopes, ghost log0: seq<AgentKey>, ghost from: nat)
      returns (ok: bool, ghost log: seq<AgentKey>)
      requires Valid() && Bounded(tree, sys.life.store, bound) && NoDuplicates(live) && i < |live|
      requires from < |history| && H.Staged(history, from, log0)
      requires Midway(tree, before, sys.life.scopes, k, KeysOf(k.session, live[..i]), {}, log0)
      requires forall c: AgentKey :: LiveKid(tree, before, c, k) <==> c.session == k.session && c.agent in live
      modifies this
      ensures Valid() && SameTree(tree, sys.life.store) && H.Extends(old(history), history) && tasks <= old(tasks)
      ensures ok ==> Midway(tree, before, sys.life.scopes, k, KeysOf(k.session, live[..i + 1]), {}, log)
      ensures ok ==> sys.life.available == old(sys).life.available + |log| - |log0| && H.Staged(history, from, log)
      decreases Height(tree, k, bound), 0
    {
      ghost var sub;
      NextIsLive(tree, before, sys.life.scopes, k, log0, live, i);
      ok, sub := CancelDescendants(AgentKey(k.session, live[i]), tree, bound);
      log := log0 + sub;
      if ok {
        BelowNext(cfg, old(history), history, from, tree, before, old(sys).life.scopes, k, log0, live, i,
                  sys.life.scopes, sub);
      }
    }

    /** Second loop: await every child the first loop marked. */
    method AwaitChildren(k: AgentKey, live: seq<AgentId>, ghost tree: S.Store, ghost before: L.Scopes,
                         ghost log0: seq<AgentKey>, ghost from: nat)
      returns (ok: bool, ghost log: seq<AgentKey>)
      requires Valid() && S.Forest(tree) && SameTree(tree, sys.life.store) && NoDuplicates(live)
      requires from < |history| && H.Staged(history, from, log0)
      requires Midway(tree, before, sys.life.scopes, k, KeysOf(k.session, live), {}, log0)
      modifies this
      ensures Valid() && SameTree(tree, sys.life.store) && H.Extends(old(history), history) && tasks <= old(tasks)
      ensures ok ==> Midway(tree, before, sys.life.scopes, k, KeysOf(k.session, live), KeysOf(k.session, live), log)
      ensures ok ==> sys.life.available == old(sys).life.available + |log| - |log0| && H.Staged(history, from, log)
    {
      log := log0;
      assert KeysOf(k.session, live[..0]) == {} && live[..|live|] == live;
      for i := 0 to |live|
        invariant Valid() && SameTree(tree, sys.life.store) && H.Extends(old(history), history) && tasks <= old(tasks)
        invariant Midway(tree, before, sys.life.scopes, k, KeysOf(k.session, live), KeysOf(k.session, live[..i]), log)
        invariant sys.life.available == old(sys).life.available + |log| - |log0| && H.Staged(history, from, log)
      {
        var outcome: Outcome := *;
        ok, log := AwaitChild(k, live, i, outcome, tree, before, log, from);
        if !ok { return; }
      }
      ok := true;
    }

    method AwaitChild(k: AgentKey, live: seq<AgentId>, i: nat, outcome: Outcome, ghost tree: S.Store,
                      ghost before: L.Scopes, ghost log0: seq<AgentKey>, ghost from: nat)
      returns (ok: bool, ghost log: seq<AgentKey>)
      requires Valid() && S.Forest(tree) && SameTree(tree, sys.life.store) && NoDuplicates(live) && i < |live|
      requires from < |history| && H.Staged(history, from, log0)
      requires Midway(tree, before, sys.life.scopes, k, KeysOf(k.session, live), KeysOf(k.session, live[..i]), log0)
      modifies this
      ensures Valid() && SameTree(tree, sys.life.store) && H.Extends(old(history), history) && tasks <= old(tasks)
      ensures ok ==>
                Midway(tree, before, sys.life.scopes, k, KeysOf(k.session, live), KeysOf(k.session, live[..i + 1]), log)
      ensures ok ==> sys.life.available == old(sys).life.available + |log| - |log0| && H.Staged(history, from, log)
    {
      var c := AgentKey(k.session, live[i]);
      NextIsWaiting(tree, before, sys.life, k, log0, live, i);
      ok := AwaitCancelledChild(c, outcome);
      log := log0 + [c];
      SameTreeTrans(tree, old(sys).life.store, sys.life.store);
      if ok {
        AwaitNext(cfg, old(history), history, from, tree, before, old(sys).life.scopes, k, log0, live, i,
                  sys.life.scopes);
      }
    }

    /** `cancel_scope`: once everything below is awaited the caller is finished too, and then
        it and every live path below it have finished and released exactly their permits;
        in every state on the way a scope among them had finished only if all those below
        it had; the rest of the tree is untouched; and the whole subtree is finished exactly
        when beforehand finished scopes had only finished descendants and nothing below was
        Cancelling. This holds also when the call fails because the caller's group refuses
        the result; `history[at]` is the state before that. */
    method CancelScope(caller: Context) returns (ok: bool, ghost swept: bool, ghost at: nat,
                                                 ghost log: seq<AgentKey>)
      requires Valid() && L.Trusted(sys.life.store, caller)
      modifies this
      ensures Valid() && SameTree(old(sys).life.store, sys.life.store) && H.Extends(old(history), history)
      ensures caller.parent.None? ==> !ok && sys == old(sys)
      ensures ok ==> swept
      ensures swept ==> ScopeCancelled(old(sys).life, sys.life, caller.Key(), log)
      ensures swept ==> H.DescendantsFirst(old(sys).life.store, history, log)
      ensures swept ==> |old(history)| <= at + 1 && at < |history|
      ensures swept ==> (ok, sys.group.side) == Recorded(history[at].group.side, caller, sys.life.scopes)
    {
      swept, at, log := false, 0, [];
      RootContext(cfg, sys, caller);
      if caller.Root() { return false, false, at, []; }
      ok, log := CancelBelow(caller.Key());
      if !ok { return; }
      swept, at := true, |history| - 1;
      ok, log := FinishCancelled(caller, old(sys).life, log, |old(history)| - 1);
      CancelledInOrder(cfg, history, |old(history)| - 1, old(sys).life, sys.life, caller.Key(), log);
    }

    method CancelBelow(k: AgentKey) returns (ok: bool, ghost log: seq<AgentKey>)
      requires Valid() && Spawned(sys.life, k)
      modifies this
      ensures Valid() && SameTree(old(sys).life.store, sys.life.store) && H.Extends(old(history), history)
      ensures Spawned(sys.life, k)
      ensures ok ==> BelowCancelled(old(sys).life, sys.life, k, log) && H.Staged(history, |old(history)| - 1, log)
    {
      ghost var bound := DepthBounded(cfg, sys);
      ok, log := CancelDescendants(k, sys.life.store, bound);
      StillSpawned(cfg, old(sys), sys, k);
      if ok { BelowIsCancelled(cfg, old(sys), sys.life, k, log); }
    }

    /** The last step of `cancel_scope`: the scope itself finishes after its descendants. */
    method FinishCancelled(caller: Context, ghost l: L.Life, ghost below: seq<AgentKey>, ghost from: nat)
      returns (ok: bool, ghost log: seq<AgentKey>)
      requires Valid() && L.Trusted(l.store, caller) && caller.parent.Some? && Spawned(sys.life, caller.Key())
      requires SameTree(l.store, sys.life.store) && from < |history| && H.Staged(history, from, below)
      requires BelowCancelled(l, sys.life, caller.Key(), below)
      modifies this`sys, this`history
      ensures Valid() && SameTree(l.store, sys.life.store) && H.Extends(old(history), history)
      ensures ScopeCancelled(l, sys.life, caller.Key(), log) && H.Staged(history, from, log)
      ensures (ok, sys.group.side) == Recorded(old(sys).group.side, caller, sys.life.scopes)
    {
      SameContext(l.store, sys.life.store, caller);
      ok := FinishSpawned(caller.Key(), ChildTerminal.Cancelled);
      SameTreeTrans(l.store, old(sys).life.store, sys.life.store);
      log := CancelLog(l, caller.Key(), below);
      CancelRoot(l, old(sys).life, sys.life, caller.Key(), below);
      RootIsLast(cfg, old(history), history, from, l, caller.Key(), old(sys).life, below);
    }

    // ------------------------------------------------------------------- joining

    /** `await_child_terminal`, in every way its `select!` allows. */
    method AwaitChildTerminal(k: AgentKey) returns (r: Option<ChildTerminal>)
      requires Valid() && Spawned(sys.life, k)
      modifies this
      ensures Valid() && SameTree(old(sys).life.store, sys.life.store) && H.Extends(old(history), history)
      ensures old(tasks) - {k} <= tasks <= old(tasks)
      ensures k in sys.life.scopes && sys.life.scopes == old(sys).life.scopes[k := sys.life.scopes[k]]
      ensures r.Some? ==>
                && J.Awaits(old(sys).life.scopes[k], k in old(tasks), r.value, sys.life.scopes[k])
                && sys.life.available == old(sys).life.available + (if Unfinished(old(sys).life, k) then 1 else 0)
    {
      SoundScope(cfg, sys, k);
      if sys.life.scopes[k].status.Terminal() { return sys.life.scopes[k].terminal; }
      var handle := k in tasks;
      tasks := tasks - {k};
      var finished: bool := *;
      var first: ChildTerminal := *;
      var other := if finished || !handle then Some(first) else None;
      MeetFinisher(k, other);
      var notified: bool := *;
      if other.Some? && (notified || !handle) {
        J.AwaitsOther(old(sys).life.scopes[k], handle, first, sys.life.scopes[k]);
        return other;
      }
      r := MeetTask(k, old(sys).life.scopes[k], other);
    }

    /** Somebody else may finish the child while it is awaited. */
    method MeetFinisher(k: AgentKey, other: Option<ChildTerminal>)
      requires Valid() && Spawned(sys.life, k) && Unfinished(sys.life, k)
      modifies this`sys, this`history
      ensures Valid() && SameTree(old(sys).life.store, sys.life.store) && H.Extends(old(history), history)
      ensures Spawned(sys.life, k)
      ensures sys.life.scopes == old(sys).life.scopes[k := J.Finished(old(sys).life.scopes[k], other)]
      ensures sys.life.available == old(sys).life.available + (if other.Some? then 1 else 0)
    {
      if other.Some? { var _ := FinishSpawned(k, other.value); }
    }

    /** The task is joined, or has panicked. */
    method MeetTask(k: AgentKey, ghost before: L.Scope, ghost other: Option<ChildTerminal>)
      returns (r: Option<ChildTerminal>)
      requires Valid() && Spawned(sys.life, k) && !before.status.Terminal()
      requires sys.life.scopes[k] == J.Finished(before, other)
      modifies this`sys, this`history
      ensures Valid() && SameTree(old(sys).life.store, sys.life.store) && H.Extends(old(history), history)
      ensures k in sys.life.scopes && sys.life.scopes == old(sys).life.scopes[k := sys.life.scopes[k]]
      ensures r.Some? ==>
                && J.Awaits(before, true, r.value, sys.life.scopes[k])
                && sys.life.available == old(sys).life.available + (if Unfinished(old(sys).life, k) then 1 else 0)
    {
      var outcome: Outcome := *;
      if !outcome.Joined? { return None; }
      var ok := FinishSpawned(k, outcome.terminal);
      J.AwaitsTask(before, other, outcome.terminal, sys.life.scopes[k]);
      r := if ok then Some(outcome.terminal) else None;
    }

    /** `join_children`: on success every direct child was awaited, in one of the ways
        `JoinOutcome` allows, the result lists the answers in id order, permits rose by the
        number of children that finished meanwhile, and nobody else changed. */
    method JoinChildren(k: AgentKey)
      returns (r: Option<seq<ChildResult>>, ghost observed: map<AgentId, ChildTerminal>, ghost log: seq<AgentKey>)
      requires Valid()
      modifies this
      ensures Valid() && SameTree(old(sys).life.store, sys.life.store) && H.Extends(old(history), history)
      ensures OthersKeep(old(sys).life, sys.life, k)
      ensures r.Some? ==>
                Progress(old(sys).life, sys.life, old(tasks), k, S.DirectChildren(old(sys).life.store, k), r.value,
                         observed, log)
    {
      var ids := S.DirectChildren(sys.life.store, k);
      BeginJoin(cfg, sys, tasks, k);
      observed, log := map[], [];
      var results: seq<ChildResult> := [];
      assert ids[..0] == [] && ids[..|ids|] == ids;
      for i := 0 to |ids|
        invariant Valid() && SameTree(old(sys).life.store, sys.life.store) && H.Extends(old(history), history)
        invariant TasksLeft(old(tasks), tasks, k.session, ids, i) && OthersKeep(old(sys).life, sys.life, k)
        invariant Progress(old(sys).life, sys.life, old(tasks), k, ids[..i], results, observed, log)
      {
        var result;
        result, observed, log := JoinChild(k, ids, i, old(sys).life, old(tasks), results, observed, log);
        if result.None? { return None, observed, log; }
        results := results + [result.value];
      }
      r := Some(results);
    }

    method JoinChild(k: AgentKey, ids: seq<AgentId>, i: nat, ghost before: L.Life, ghost handles: set<AgentKey>,
                     ghost results: seq<ChildResult>, ghost observed0: map<AgentId, ChildTerminal>,
                     ghost log0: seq<AgentKey>)
      returns (r: Option<ChildResult>, ghost observed: map<AgentId, ChildTerminal>, ghost log: seq<AgentKey>)
      requires Valid() && SameTree(before.store, sys.life.store) && KidsOf(before.store, k, ids) && i < |ids|
      requires TasksLeft(handles, tasks, k.session, ids, i) && OthersKeep(before, sys.life, k)
      requires before.scopes.Keys == before.store.records.Keys
      requires Progress(before, sys.life, handles, k, ids[..i], results, observed0, log0)
      modifies this
      ensures Valid() && SameTree(before.store, sys.life.store) && H.Extends(old(history), history)
      ensures TasksLeft(handles, tasks, k.session, ids, i + 1) && OthersKeep(before, sys.life, k)
      ensures r.Some? ==> Progress(before, sys.life, handles, k, ids[..i + 1], results + [r.value], observed, log)
    {
      var c := AgentKey(k.session, ids[i]);
      NextTask(handles, tasks, k, ids, i);
      KidIsSpawned(before, sys.life, k, ids, i);
      observed, log := observed0, log0;
      var answer := AwaitChildTerminal(c);
      SameTreeTrans(before.store, old(sys).life.store, sys.life.store);
      KidChanged(before, old(sys).life, sys.life, k, ids, i);
      if answer.None? { return None, observed, log; }
      log := ProgressNext(before, old(sys).life, handles, k, ids, i, results, observed0, log0, sys.life, answer.value);
      observed := observed0[ids[i] := answer.value];
      r := Some(Sanitize(ids[i], answer.value));
    }

    // ---------------------------------------------------------------- collecting

    /** `transition_status_if_current`: compare and set; a missing scope is an error. */
    method TransitionIfCurrent(k: AgentKey, expected: Status, next: Status) returns (r: Option<bool>)
      requires Valid() && expected.Live() && next.Live()
      modifies this`sys, this`history
      ensures Valid() && SameTree(old(sys).life.store, sys.life.store) && sys.life.available == old(sys).life.available
      ensures H.Extends(old(history), history) && sys.group == old(sys).group && sys.forced == old(sys).forced
      ensures r.None? <==> k !in old(sys).life.scopes
      ensures r.Some? ==> r.value == (old(sys).life.scopes[k].status == expected)
      ensures sys.life.scopes ==
                if r == Some(true) then old(sys).life.scopes[k := old(sys).life.scopes[k].(status := next)]
                  else old(sys).life.scopes
    {
      if k !in sys.life.scopes { return None; }
      r := Some(sys.life.scopes[k].status == expected);
      TransitEffect(sys.life, k, expected, next);
      Step(Local(L.Transit(k, expected, next)));
    }

    /** The claim inside `collect_children_for_synthesis`. */
    method ClaimOwnGroup(k: AgentKey) returns (d: Option<TG.Delivery>)
      requires Valid()
      modifies this`sys, this`history
      ensures Valid() && sys.life == old(sys).life && sys.forced == old(sys).forced && history == old(history) + [sys]
      ensures (d, sys.group.side) == G.ClaimOwn(old(sys).group.side, k.session, k.agent)
    {
      d := G.ClaimOwn(sys.group.side, k.session, k.agent).0;
      Step(GroupOnly(G.OwnClaim(k.session, k.agent)));
    }

    /** `collect_children_for_synthesis`: whatever the outcome, an active owner is Running
        afterwards; on success all its direct children have finished and the result is the
        joined list or what was claimed in the state `history[at]` that followed the join. */
    method CollectChildrenForSynthesis(caller: Context)
      returns (r: Option<seq<ChildResult>>, ghost observed: map<AgentId, ChildTerminal>, ghost joined: seq<ChildResult>,
               ghost at: nat)
      requires Valid() && L.Trusted(sys.life.store, caller)
      modifies this
      ensures Valid() && SameTree(old(sys).life.store, sys.life.store) && H.Extends(old(history), history)
      ensures !Active(old(sys).life, caller) ==> r.None? && sys == old(sys)
      ensures Active(old(sys).life, caller) ==>
                && caller.Key() in sys.life.scopes
                && sys.life.scopes[caller.Key()] == old(sys).life.scopes[caller.Key()].(status := Running)
      ensures r.Some? ==>
                && ChildrenDone(sys.life, caller.Key())
                && SeenRightly(old(sys).life.scopes, old(tasks), sys.life, caller.Key(), observed, joined)
                && |old(history)| <= at + 1 && at < |history|
                && SeenRightly(old(sys).life.scopes, old(tasks), history[at].life, caller.Key(), observed, joined)
                && Refines(history[at], caller.Key(), old(sys).life.scopes, old(tasks), joined, r.value)
                && sys.group.side == G.ClaimOwn(history[at].group.side, caller.session, caller.agent).1
    {
      r, observed, joined, at := None, map[], [], |history| - 1;
      if Active(sys.life, caller) { r, observed, joined, at := CollectActive(caller.Key()); }
    }

    method CollectActive(k: AgentKey)
      returns (r: Option<seq<ChildResult>>, ghost observed: map<AgentId, ChildTerminal>, ghost joined: seq<ChildResult>,
               ghost at: nat)
      requires Valid() && k in sys.life.scopes
      requires sys.life.scopes[k].status.Running? || sys.life.scopes[k].status.WaitingForChildren?
      modifies this
      ensures Valid() && SameTree(old(sys).life.store, sys.life.store) && H.Extends(old(history), history)
      ensures k in sys.life.scopes && sys.life.scopes[k] == old(sys).life.scopes[k].(status := Running)
      ensures r.Some? ==>
                && ChildrenDone(sys.life, k)
                && SeenRightly(old(sys).life.scopes, old(tasks), sys.life, k, observed, joined)
                && |old(history)| <= at + 1 && at < |history|
                && SeenRightly(old(sys).life.scopes, old(tasks), history[at].life, k, observed, joined)
                && Refines(history[at], k, old(sys).life.scopes, old(tasks), joined, r.value)
                && sys.group.side == G.ClaimOwn(history[at].group.side, k.session, k.agent).1
    {
      BeginWaiting(k);
      ghost var waiting := sys.life;
      r, observed, joined, at := JoinAndClaim(k, old(sys).life.scopes);
      ghost var done := sys.life;
      EndWaiting(k, old(sys).life.scopes, old(tasks), r.Some?, observed, joined);
      SameTreeTrans(old(sys).life.store, waiting.store, done.store);
      SameTreeTrans(old(sys).life.store, done.store, sys.life.store);
    }

    method BeginWaiting(k: AgentKey)
      requires Valid() && k in sys.life.scopes
      requires sys.life.scopes[k].status.Running? || sys.life.scopes[k].status.WaitingForChildren?
      modifies this`sys, this`history
      ensures Valid() && SameTree(old(sys).life.store, sys.life.store) && H.Extends(old(history), history)
      ensures k in sys.life.scopes
      ensures sys.life.scopes[k] == old(sys).life.scopes[k].(status := sys.life.scopes[k].status)
      ensures sys.life.scopes[k].status.Running? || sys.life.scopes[k].status.WaitingForChildren?
      ensures SameEnds(old(sys).life.scopes, sys.life.scopes)
    {
      if LiveChildren(sys.life, k) != [] {
        var _ := TransitionIfCurrent(k, Running, WaitingForChildren);
      }
    }

    method EndWaiting(k: AgentKey, ghost before: L.Scopes, ghost handles: set<AgentKey>, ghost joinedAll: bool,
                      ghost observed: map<AgentId, ChildTerminal>, ghost joined: seq<ChildResult>)
      requires Valid() && k in sys.life.scopes
      requires sys.life.scopes[k].status.Running? || sys.life.scopes[k].status.WaitingForChildren?
      requires joinedAll ==> SeenRightly(before, handles, sys.life, k, observed, joined)
      modifies this`sys, this`history
      ensures Valid() && SameTree(old(sys).life.store, sys.life.store) && H.Extends(old(history), history)
      ensures sys.group == old(sys).group && sys.forced == old(sys).forced
      ensures k in sys.life.scopes && sys.life.scopes[k] == old(sys).life.scopes[k].(status := Running)
      ensures joinedAll ==> ChildrenDone(sys.life, k) && SeenRightly(before, handles, sys.life, k, observed, joined)
    {
      SoundHierarchy(cfg, sys);
      var _ := TransitionIfCurrent(k, WaitingForChildren, Running);
      SoundHierarchy(cfg, sys);
      if joinedAll { OwnMoveKeeps(before, handles, old(sys).life, sys.life, k, observed, joined); }
    }

    method JoinAndClaim(k: AgentKey, ghost before: L.Scopes)
      returns (r: Option<seq<ChildResult>>, ghost observed: map<AgentId, ChildTerminal>, ghost joined: seq<ChildResult>,
               ghost at: nat)
      requires Valid() && k in sys.life.scopes && SameEnds(before, sys.life.scopes)
      modifies this
      ensures Valid() && SameTree(old(sys).life.store, sys.life.store) && H.Extends(old(history), history)
      ensures k in sys.life.scopes && sys.life.scopes[k] == old(sys).life.scopes[k]
      ensures r.Some? ==>
                && SeenRightly(before, old(tasks), sys.life, k, observed, joined)
                && |old(history)| <= at + 1 && at < |history|
                && SeenRightly(before, old(tasks), history[at].life, k, observed, joined)
                && Refines(history[at], k, before, old(tasks), joined, r.value)
                && sys.group.side == G.ClaimOwn(history[at].group.side, k.session, k.agent).1
    {
      r, observed := JoinSince(k, before);
      joined, at := [], |history| - 1;
      if r.Some? {
        joined := r.value;
        var delivered := ClaimAfterJoin(k, r.value, before, old(tasks));
        r := Some(delivered);
      }
    }

    /** The join, seen from a state in which the same scopes had ended. */
    method JoinSince(k: AgentKey, ghost before: L.Scopes)
      returns (r: Option<seq<ChildResult>>, ghost observed: map<AgentId, ChildTerminal>)
      requires Valid() && k in sys.life.scopes && SameEnds(before, sys.life.scopes)
      modifies this
      ensures Valid() && SameTree(old(sys).life.store, sys.life.store) && H.Extends(old(history), history)
      ensures k in sys.life.scopes && sys.life.scopes[k] == old(sys).life.scopes[k]
      ensures r.Some? ==> SeenRightly(before, old(tasks), sys.life, k, observed, r.value)
      ensures r.Some? ==> var d := G.ClaimOwn(sys.group.side, k.session, k.agent).0;
                          Refines(sys, k, before, old(tasks), r.value, if d.Some? then d.value.results else r.value)
    {
      SoundHierarchy(cfg, sys);
      NotOwnChild(sys.life.store, k);
      ghost var log;
      r, observed, log := JoinChildren(k);
      if r.Some? { JoinSettlesSince(cfg, before, old(sys).life, sys, old(tasks), k, r.value, observed, log); }
    }

    /** The claim after the join; without a delivery the joined list is the result. */
    method ClaimAfterJoin(k: AgentKey, joined: seq<ChildResult>, ghost before: L.Scopes, ghost handles: set<AgentKey>)
      returns (r: seq<ChildResult>)
      requires Valid()
      requires var d := G.ClaimOwn(sys.group.side, k.session, k.agent).0;
               Refines(sys, k, before, handles, joined, if d.Some? then d.value.results else joined)
      modifies this`sys, this`history
      ensures Valid() && sys.life == old(sys).life && history == old(history) + [sys]
      ensures Refines(old(sys), k, before, handles, joined, r)
      ensures sys.group.side == G.ClaimOwn(old(sys).group.side, k.session, k.agent).1
    {
      var d := ClaimOwnGroup(k);
      r := if d.Some? then d.value.results else joined;
    }

    // ---------------------------------------------------------------- finalizing

    /** `join_children_failfast`: on success every direct child has finished, and so has
        everything live below each child that comes after a failed one. */
    method JoinChildrenFailFast(k: AgentKey)
      returns (r: Option<seq<ChildResult>>, ghost observed: map<AgentId, ChildTerminal>)
      requires Valid()
      modifies this
      ensures Valid() && SameTree(old(sys).life.store, sys.life.store) && H.Extends(old(history), history)
      ensures r.Some? ==>
                FastJoined(old(sys).life, sys.life, old(tasks), k, S.DirectChildren(old(sys).life.store, k), r.value,
                           observed)
    {
      var ids := S.DirectChildren(sys.life.store, k);
      BeginJoin(cfg, sys, tasks, k);
      ghost var bound := DepthBound(sys.life.store, sys.life.store.records.Keys);
      observed := map[];
      var results: seq<ChildResult> := [];
      var failed := false;
      assert ids[..0] == [] && ids[..|ids|] == ids;
      for i := 0 to |ids|
        invariant Valid() && SameTree(old(sys).life.store, sys.life.store) && H.Extends(old(history), history)
        invariant tasks <= old(tasks) && FastJoined(old(sys).life, sys.life, old(tasks), k, ids[..i], results, observed)
        invariant failed <==> F.AnyFailing(ids[..i], observed)
      {
        var terminal;
        terminal, observed := JoinChildFast(k, ids, i, failed, old(sys).life, old(tasks), bound, results, observed);
        if terminal.None? { return None, observed; }
        failed := failed || F.Failing(terminal.value);
        results := results + [Sanitize(ids[i], terminal.value)];
      }
      r := Some(results);
    }

    method JoinChildFast(k: AgentKey, ids: seq<AgentId>, i: nat, failed: bool, ghost before: L.Life,
                         ghost handles: set<AgentKey>, ghost bound: nat, ghost results: seq<ChildResult>,
                         ghost observed0: map<AgentId, ChildTerminal>)
      returns (r: Option<ChildTerminal>, ghost observed: map<AgentId, ChildTerminal>)
      requires Valid() && Bounded(before.store, sys.life.store, bound) && KidsOf(before.store, k, ids) && i < |ids|
      requires tasks <= handles && FastJoined(before, sys.life, handles, k, ids[..i], results, observed0)
      requires failed <==> F.AnyFailing(ids[..i], observed0)
      modifies this
      ensures Valid() && SameTree(before.store, sys.life.store) && H.Extends(old(history), history) && tasks <= handles
      ensures r.Some? ==>
                && FastJoined(before, sys.life, handles, k, ids[..i + 1], results + [Sanitize(ids[i], r.value)],
                              observed)
                && (F.AnyFailing(ids[..i + 1], observed) <==> failed || F.Failing(r.value))
    {
      var c := AgentKey(k.session, ids[i]);
      observed := observed0;
      r := AwaitMaybeCancelled(c, failed, before.store, bound);
      if r.Some? {
        MoreTasks(c, old(sys).life.scopes, old(tasks), handles, sys.life.scopes, r.value);
        F.Next(before.store, before.scopes, handles, old(sys).life.scopes, k, ids, i, observed0, sys.life.scopes,
               r.value);
        J.JoinListNext(ids, i, observed0, r.value);
        FailedNext(ids, i, observed0, r.value);
        observed := observed0[ids[i] := r.value];
      }
    }

    /** Awaits a child, cancelling its live subtree first once a sibling has failed. */
    method AwaitMaybeCancelled(c: AgentKey, failed: bool, ghost tree: S.Store, ghost bound: nat)
      returns (r: Option<ChildTerminal>)
      requires Valid() && Bounded(tree, sys.life.store, bound) && c in tree.records && tree.records[c].parent.Some?
      modifies this
      ensures Valid() && SameTree(tree, sys.life.store) && H.Extends(old(history), history) && tasks <= old(tasks)
      ensures r.Some? ==>
                && F.Handled(tree, old(sys).life.scopes, sys.life.scopes, c)
                && (failed ==> F.Swept(tree, old(sys).life.scopes, sys.life.scopes, c))
                && J.SawOne(c, old(sys).life.scopes, old(tasks), sys.life.scopes, r.value)
    {
      SoundHierarchy(cfg, sys);
      ghost var log := [];
      if failed {
        var ok;
        ok, log := CancelDescendants(c, tree, bound);
        if !ok { return None; }
      }
      ghost var mid, left := sys.life, tasks;
      SoundHierarchy(cfg, sys);
      r := AwaitChildTerminal(c);
      SameTreeTrans(tree, mid.store, sys.life.store);
      if r.Some? {
        HandledChild(tree, old(sys).life.scopes, old(tasks), mid.scopes, left, sys.life.scopes, c, log, failed,
                     r.value);
      }
    }

    method WriteOwnStatus(k: AgentKey, m: L.Move)
      requires Valid() && Unfinished(sys.life, k) && (m == L.Awaiting(k) || m == L.Finalize(k))
      modifies this`sys, this`history
      ensures Valid() && SameTree(old(sys).life.store, sys.life.store) && sys.life.available == old(sys).life.available
      ensures history == old(history) + [sys]
      ensures Unfinished(sys.life, k) && sys.life.scopes == old(sys).life.scopes[k := sys.life.scopes[k]]
    {
      StatusMoveEffect(cfg, sys.life, k, m);
      Step(Local(m));
    }

    /** `finalize_scope`: on success a spawned agent has finished with the requested outcome,
        `history[at]` being the state before that, its group's answer is the call's, and the
        result lists what was observed of the children. If it had not finished before, in no
        state has it finished while a direct child had not. If it had, its terminal is
        replaced, no permit is released and the invariant is not promised. */
    method FinalizeScope(caller: Context, outcome: ChildTerminal, policy: JoinPolicy)
      returns (r: Option<seq<ChildResult>>, ghost observed: map<AgentId, ChildTerminal>, ghost at: nat)
      requires Valid() && L.Trusted(sys.life.store, caller)
      modifies this
      ensures SameTree(old(sys).life.store, sys.life.store) && H.Extends(old(history), history)
      ensures caller.parent.None? ==> r.None? && sys == old(sys)
      ensures caller.parent.None? || Unfinished(old(sys).life, caller.Key()) ==> Valid()
      ensures r.Some? ==>
                && |old(history)| <= at < |history|
                && sys.life.scopes ==
                   history[at].life.scopes[caller.Key() := L.Scope(outcome.ToStatus(), false, Some(outcome))]
                && sys.life.available ==
                   history[at].life.available + (if Unfinished(old(sys).life, caller.Key()) then 1 else 0)
                && (true, sys.group.side) == Recorded(history[at].group.side, caller, sys.life.scopes)
                && (Unfinished(old(sys).life, caller.Key()) ==>
                      ChildrenFirst(old(sys).life.store, history, caller.Key()))
                && SeenRightly(old(sys).life.scopes, old(tasks), history[at].life, caller.Key(), observed, r.value)
    {
      r, observed, at := None, map[], |history|;
      RootContext(cfg, sys, caller);
      if caller.Root() { return; }
      if sys.life.scopes[caller.Key()].status.Terminal() {
        r, observed, at := FinalizeFinished(caller, outcome, policy);
      } else {
        r, observed, at := FinalizeSpawned(caller, outcome, policy);
      }
    }

    /** On a finished caller there is no waiting mark, and nothing stops the last two writes. */
    method FinalizeFinished(caller: Context, outcome: ChildTerminal, policy: JoinPolicy)
      returns (r: Option<seq<ChildResult>>, ghost observed: map<AgentId, ChildTerminal>, ghost at: nat)
      requires Valid() && L.Trusted(sys.life.store, caller) && !caller.Root()
      requires Spawned(sys.life, caller.Key()) && !Unfinished(sys.life, caller.Key())
      modifies this
      ensures SameTree(old(sys).life.store, sys.life.store) && H.Extends(old(history), history)
      ensures r.Some? ==>
                && |old(history)| <= at < |history|
                && sys.life.scopes ==
                   history[at].life.scopes[caller.Key() := L.Scope(outcome.ToStatus(), false, Some(outcome))]
                && sys.life.available == history[at].life.available
                && (true, sys.group.side) == Recorded(history[at].group.side, caller, sys.life.scopes)
                && SeenRightly(old(sys).life.scopes, old(tasks), history[at].life, caller.Key(), observed, r.value)
    {
      at := |history|;
      r, observed := JoinUnder(caller.Key(), policy, old(sys).life.scopes);
      ghost var joined := sys.life;
      if r.None? { return; }
      SameContext(old(sys).life.store, joined.store, caller);
      var ok;
      ok, at := ReplaceTerminal(caller, outcome, old(sys).life.scopes, old(tasks), observed, r.value);
      SameTreeTrans(old(sys).life.store, joined.store, sys.life.store);
      if !ok { r := None; }
    }

    method ReplaceTerminal(caller: Context, outcome: ChildTerminal, ghost before: L.Scopes,
                           ghost handles: set<AgentKey>, ghost observed: map<AgentId, ChildTerminal>,
                           ghost joined: seq<ChildResult>)
      returns (ok: bool, ghost at: nat)
      requires Valid() && L.Trusted(sys.life.store, caller) && !caller.Root()
      requires Spawned(sys.life, caller.Key()) && !Unfinished(sys.life, caller.Key())
      requires SeenRightly(before, handles, sys.life, caller.Key(), observed, joined)
      modifies this`sys, this`history
      ensures SameTree(old(sys).life.store, sys.life.store) && H.Extends(old(history), history)
      ensures |old(history)| <= at < |history|
      ensures SeenRightly(before, handles, history[at].life, caller.Key(), observed, joined)
      ensures sys.life.scopes ==
                history[at].life.scopes[caller.Key() := L.Scope(outcome.ToStatus(), false, Some(outcome))]
      ensures sys.life.available == history[at].life.available
      ensures (ok, sys.group.side) == Recorded(history[at].group.side, caller, sys.life.scopes)
    {
      TerminalReplaced(cfg, sys, caller, outcome, before, handles, observed, joined);
      sys := Reopened(sys, caller.Key());
      at := |history|;
      history := history + [sys];
      ok := G.Record(sys.group.side, caller.Key(), Sanitize(caller.agent, outcome)).0.Ok?;
      sys := FinishedAgain(sys, caller, outcome);
      history := history + [sys];
    }

    method FinalizeSpawned(caller: Context, outcome: ChildTerminal, policy: JoinPolicy)
      returns (r: Option<seq<ChildResult>>, ghost observed: map<AgentId, ChildTerminal>, ghost at: nat)
      requires Valid() && L.Trusted(sys.life.store, caller)
      requires Spawned(sys.life, caller.Key()) && Unfinished(sys.life, caller.Key())
      modifies this
      ensures Valid() && SameTree(old(sys).life.store, sys.life.store) && H.Extends(old(history), history)
      ensures r.Some? ==>
                && |old(history)| <= at < |history|
                && sys.life.scopes ==
                   history[at].life.scopes[caller.Key() := L.Scope(outcome.ToStatus(), false, Some(outcome))]
                && sys.life.available == history[at].life.available + 1
                && (true, sys.group.side) == Recorded(history[at].group.side, caller, sys.life.scopes)
                && ChildrenFirst(old(sys).life.store, history, caller.Key())
                && SeenRightly(old(sys).life.scopes, old(tasks), history[at].life, caller.Key(), observed, r.value)
    {
      at := |history|;
      BeginFinal(caller.Key());
      ghost var waiting := sys.life;
      r, observed := JoinUnder(caller.Key(), policy, old(sys).life.scopes);
      ghost var joined := sys.life;
      SameTreeTrans(old(sys).life.store, waiting.store, joined.store);
      if r.None? { return; }
      var ok;
      ok, at := FinishOwner(caller, outcome, old(sys).life.store, old(sys).life.scopes, old(tasks), observed, r.value);
      SameTreeTrans(old(sys).life.store, joined.store, sys.life.store);
      if !ok { r := None; }
    }

    /** `finalize_scope` waits while any direct child is live. */
    method BeginFinal(k: AgentKey)
      requires Valid() && Spawned(sys.life, k) && Unfinished(sys.life, k)
      modifies this`sys, this`history
      ensures Valid() && SameTree(old(sys).life.store, sys.life.store) && H.Extends(old(history), history)
      ensures Spawned(sys.life, k) && Unfinished(sys.life, k) && SameEnds(old(sys).life.scopes, sys.life.scopes)
    {
      if LiveChildren(sys.life, k) != [] { WriteOwnStatus(k, L.Awaiting(k)); }
    }

    /** The end of `finalize_scope`: mark the owner as finalizing, then finish it. */
    method FinishOwner(caller: Context, outcome: ChildTerminal, ghost tree: S.Store, ghost before: L.Scopes,
                       ghost handles: set<AgentKey>, ghost observed: map<AgentId, ChildTerminal>,
                       ghost joined: seq<ChildResult>)
      returns (ok: bool, ghost at: nat)
      requires Valid() && Spawned(sys.life, caller.Key()) && Unfinished(sys.life, caller.Key())
      requires SameTree(tree, sys.life.store) && L.Trusted(tree, caller)
      requires SeenRightly(before, handles, sys.life, caller.Key(), observed, joined)
      modifies this`sys, this`history
      ensures Valid() && SameTree(old(sys).life.store, sys.life.store) && H.Extends(old(history), history)
      ensures |old(history)| <= at < |history|
      ensures SeenRightly(before, handles, history[at].life, caller.Key(), observed, joined)
      ensures ChildrenFirst(tree, history, caller.Key())
      ensures sys.life.scopes ==
                history[at].life.scopes[caller.Key() := L.Scope(outcome.ToStatus(), false, Some(outcome))]
      ensures sys.life.available == history[at].life.available + 1
      ensures (ok, sys.group.side) == Recorded(history[at].group.side, caller, sys.life.scopes)
    {
      var k := caller.Key();
      FinalizeMark(k, before, handles, observed, joined);
      at := |history| - 1;
      ghost var finalizing := sys.life;
      SameTreeTrans(tree, old(sys).life.store, finalizing.store);
      SameContext(tree, finalizing.store, caller);
      ok := FinishSpawned(k, outcome);
      SameTreeTrans(old(sys).life.store, finalizing.store, sys.life.store);
      ChildrenEndFirst(cfg, tree, history, at, k);
    }

    method FinalizeMark(k: AgentKey, ghost before: L.Scopes, ghost handles: set<AgentKey>,
                        ghost observed: map<AgentId, ChildTerminal>, ghost joined: seq<ChildResult>)
      requires Valid() && Spawned(sys.life, k) && Unfinished(sys.life, k)
      requires SeenRightly(before, handles, sys.life, k, observed, joined)
      modifies this`sys, this`history
      ensures Valid() && SameTree(old(sys).life.store, sys.life.store) && history == old(history) + [sys]
      ensures Spawned(sys.life, k) && Unfinished(sys.life, k)
      ensures ChildrenDone(sys.life, k) && SeenRightly(before, handles, sys.life, k, observed, joined)
    {
      SoundHierarchy(cfg, sys);
      WriteOwnStatus(k, L.Finalize(k));
      SoundHierarchy(cfg, sys);
      OwnMoveKeeps(before, handles, old(sys).life, sys.life, k, observed, joined);
    }

    method JoinUnder(k: AgentKey, policy: JoinPolicy, ghost before: L.Scopes)
      returns (r: Option<seq<ChildResult>>, ghost observed: map<AgentId, ChildTerminal>)
      requires Valid() && Spawned(sys.life, k) && SameEnds(before, sys.life.scopes)
      modifies this
      ensures Valid() && SameTree(old(sys).life.store, sys.life.store) && H.Extends(old(history), history)
      ensures r.Some? ==> Spawned(sys.life, k) && sys.life.scopes[k] == old(sys).life.scopes[k]
      ensures r.Some? ==> SeenRightly(before, old(tasks), sys.life, k, observed, r.value)
      ensures r.Some? && policy.FailFast? ==>
                F.Progress(old(sys).life.store, old(sys).life.scopes, old(tasks), sys.life.scopes, k.session,
                           S.DirectChildren(old(sys).life.store, k), observed)
    {
      SoundHierarchy(cfg, sys);
      NotOwnChild(sys.life.store, k);
      if policy.FailFast? {
        r, observed := JoinChildrenFailFast(k);
        if r.Some? { FastSettles(cfg, old(sys).life, sys, old(tasks), k, r.value, observed); }
      } else {
        ghost var log;
        r, observed, log := JoinChildren(k);
        if r.Some? { JoinSettles(cfg, old(sys).life, sys, old(tasks), k, r.value, observed, log); }
      }
      if r.Some? { SameEndsSee(before, old(sys).life.scopes, old(tasks), sys.life, k, observed, r.value); }
    }

    // ----------------------------------------------------------------- reserving

    /** `reserve_child`: a refusal, before or after the permit was taken, leaves scopes,
        records and permits as they were; a reservation takes one permit for one new
        running scope. Without a free permit the call is still waiting. */
    method ReserveChild(caller: Context, nodeType: L.NodeType, id: AgentId, caption: string, target: Option<GroupId>)
      returns (r: Reservation)
      requires Valid() && L.Trusted(sys.life.store, caller)
      modifies this`sys, this`history
      ensures Here() && sys.group == old(sys).group && sys.forced == old(sys).forced && H.Extends(old(history), history)
      ensures r == Refused <==> L.Refusal(cfg, old(sys).life, caller, nodeType).Some?
                                || (old(sys).life.available > 0
                                    && caller.Child(id).Key() in old(sys).life.store.records)
      ensures r == StillWaiting ==> sys == old(sys) && old(sys).life.available == 0
      ensures r == Refused ==> sys.life == old(sys).life
      ensures r.Reserved? ==>
                r.child == caller.Child(id) && NewScope(old(sys).life, sys.life, r.child, nodeType, target)
    {
      if L.Refusal(cfg, sys.life, caller, nodeType).Some? { return Refused; }
      if sys.life.available == 0 { return StillWaiting; }
      var taken := caller.Child(id).Key() in sys.life.store.records;
      SoundHierarchy(cfg, sys);
      TakePermit(caller, nodeType, target);
      EnterChild(caller, nodeType, id, caption, target, old(sys).life);
      r := if taken then Refused else Reserved(caller.Child(id));
    }

    /** The checks have passed: the call takes a permit, which is then in flight. */
    method TakePermit(caller: Context, nodeType: L.NodeType, target: Option<GroupId>)
      requires Valid() && L.Trusted(sys.life.store, caller)
      requires L.Refusal(cfg, sys.life, caller, nodeType).None? && sys.life.available > 0
      modifies this`sys, this`history
      ensures Here() && sys.group == old(sys).group && sys.forced == old(sys).forced && H.Extends(old(history), history)
      ensures sys.life ==
                old(sys).life.(available := old(sys).life.available - 1,
                               threads := map[0 := L.Holding(caller, nodeType, target)])
    {
      AdmitEffect(cfg, sys, caller, nodeType, target);
      Step(Local(L.Admission(0, caller, nodeType, target)));
      AcquireEffect(cfg, sys, caller, nodeType, target);
      Step(Local(L.Acquisition(0)));
    }

    /** Record, scope and node type of the new child; a taken id gives the permit back. */
    method EnterChild(caller: Context, nodeType: L.NodeType, id: AgentId, caption: string, target: Option<GroupId>,
                      ghost l: L.Life)
      requires Here() && l.threads == map[] && l.available > 0 && l.scopes.Keys == l.store.records.Keys
      requires sys.life == l.(available := l.available - 1, threads := map[0 := L.Holding(caller, nodeType, target)])
      modifies this`sys, this`history
      ensures Here() && sys.group == old(sys).group && sys.forced == old(sys).forced && H.Extends(old(history), history)
      ensures if caller.Child(id).Key() in l.store.records then sys.life == l
              else NewScope(l, sys.life, caller.Child(id), nodeType, target)
    {
      var generation := TG.CurrentGeneration(sys.group.side.store, caller.session);
      InsertEffect(l, sys.life, caller, nodeType, id, caption, generation, target);
      Step(Local(L.Insertion(0, id, caption, generation)));
    }

    /** `reserve_child_in_group`: when it fails, permits and both indexes are as before
        and the only possible trace is a scope that is already cancelled; when it
        succeeds the child holds a permit and waits in exactly that group. */
    method ReserveChildInGroup(caller: Context, nodeType: L.NodeType, id: AgentId, caption: string, group: GroupId)
      returns (r: Reservation)
      requires Valid() && L.Trusted(sys.life.store, caller)
      modifies this`sys, this`history
      ensures Valid() && sys.forced == old(sys).forced && H.Extends(old(history), history)
      ensures r == StillWaiting ==> sys == old(sys)
      ensures r == Refused ==>
                && sys.life.available == old(sys).life.available && sys.group.side == old(sys).group.side
                && Abandoned(old(sys).life.scopes, sys.life.scopes, caller.Child(id).Key())
      ensures r.Reserved? ==>
                && r.child == caller.Child(id) && NewScope(old(sys).life, sys.life, r.child, nodeType, None)
                && (Ok(()), sys.group.side) == G.Register(old(sys).group.side, caller.Key(), r.child.Key(), group)
    {
      NotYetMapped(cfg, sys, caller.Child(id).Key());
      r := ReserveChild(caller, nodeType, id, caption, Some(group));
      if !r.Reserved? { return; }
      var joined := JoinGroup(caller, r.child, group);
      if joined { return; }
      ghost var held := sys.life.scopes;
      AbandonChild(r.child);
      AbandonedAfter(old(sys).life.scopes, held, sys.life.scopes, r.child.Key());
      r := Refused;
    }

    /** A reserved child that could not join its group is cancelled. */
    method AbandonChild(child: Context)
      requires Here() && sys.life.threads == map[0 := L.Unwinding(child)] && child.parent.Some?
      requires L.Trusted(sys.life.store, child) && Unfinished(sys.life, child.Key())
      requires child.Key() !in sys.group.side.childGroups
      modifies this`sys, this`history
      ensures Valid() && H.Extends(old(history), history)
      ensures sys.forced == old(sys).forced && sys.group.side == old(sys).group.side
      ensures sys.life.scopes == FinishedScopes(old(sys).life.scopes, child.Key(), ChildTerminal.Cancelled)
      ensures sys.life.available == old(sys).life.available + 1
    {
      var _ := FinishChild(child, ChildTerminal.Cancelled);
    }

    method JoinGroup(caller: Context, child: Context, group: GroupId) returns (joined: bool)
      requires Here() && sys.life.threads == map[0 := L.Registering(child, group)]
      requires child.parent == Some(caller.agent) && child.session == caller.session
      modifies this`sys, this`history
      ensures Here() && sys.forced == old(sys).forced && H.Extends(old(history), history)
      ensures sys.life == old(sys).life.(threads := if joined then map[] else map[0 := L.Unwinding(child)])
      ensures joined == G.Register(old(sys).group.side, caller.Key(), child.Key(), group).0.Ok?
      ensures sys.group.side == G.Register(old(sys).group.side, caller.Key(), child.Key(), group).1
    {
      joined := G.Register(sys.group.side, caller.Key(), child.Key(), group).0.Ok?;
      Step(Join(0));
      assert sys.life.threads == if joined then map[] else map[0 := L.Unwinding(child)];
    }
  }
}
