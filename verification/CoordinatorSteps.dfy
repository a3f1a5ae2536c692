/** What single steps and stretches of steps of a compound call do to the coordinator. */
module CoordinatorSteps {
  import opened Ids
  import opened Agents
  import opened Coordinator
  import opened CancelTree
  import L = Lifecycle
  import G = GroupProtocol
  import S = AgentStore
  import TG = TaskGroups
  import R = CoordinatorRuns
  import J = JoinTree
  import F = FailFast
  import H = History

  /** How awaiting a task handle can end. */
  datatype Outcome = Joined(terminal: ChildTerminal) | JoinFailed | TimedOut

  /** The invariant is large and most steps of a compound call only pass it on. Behind a
      quantifier over a one-point type it is not unfolded until a proof names the point. */
  datatype Seal = Seal

  ghost predicate Opened(cfg: L.Config, s: System, seal: Seal) { Inv(cfg, s) }

  /** The invariant of the whole system, kept folded until a proof opens it. */
  ghost predicate Sound(cfg: L.Config, s: System) { forall x: Seal {:trigger Opened(cfg, s, x)} :: Opened(cfg, s, x) }

  lemma Open(cfg: L.Config, s: System)
    requires Sound(cfg, s)
    ensures Inv(cfg, s)
  {
    assert Opened(cfg, s, Seal);
  }

  ghost predicate TraceOpened(cfg: L.Config, h: seq<System>, seal: Seal) { H.Trace(cfg, h) }

  /** `h` is a run of the state machine, kept folded likewise. */
  ghost predicate Traced(cfg: L.Config, h: seq<System>) {
    forall x: Seal {:trigger TraceOpened(cfg, h, x)} :: TraceOpened(cfg, h, x)
  }

  lemma OpenTrace(cfg: L.Config, h: seq<System>)
    requires Traced(cfg, h)
    ensures H.Trace(cfg, h)
  {
    assert TraceOpened(cfg, h, Seal);
  }

  /** The last state of a run follows from it by a step that is enabled there. */
  lemma TraceNext(cfg: L.Config, h: seq<System>, e: Event)
    requires Traced(cfg, h) && h != [] && Sound(cfg, h[|h| - 1]) && Enabled(h[|h| - 1], e)
    ensures Traced(cfg, h + [Apply(cfg, h[|h| - 1], e)])
  {
    Open(cfg, h[|h| - 1]);
    OpenTrace(cfg, h);
    H.TraceStep(cfg, h, e);
  }

  lemma StagedMore(cfg: L.Config, h: seq<System>, g: seq<System>, from: nat, log: seq<AgentKey>, mid: nat,
                   more: seq<AgentKey>)
    requires Traced(cfg, g) && H.Extends(h, g) && H.Staged(h, from, log) && from <= mid < |g| && H.Staged(g, mid, more)
    requires forall d :: d in log ==> H.Ended(g[mid], d)
    ensures H.Staged(g, from, log + more)
  {
    OpenTrace(cfg, g);
    H.StagedLater(h, g, from, log);
    H.StagedJoin(g, from, log, mid, more);
  }

  ghost predicate MidwayOpened(t: S.Store, before: L.Scopes, now: L.Scopes, k: AgentKey, marked: set<AgentKey>,
                               done: set<AgentKey>, log: seq<AgentKey>, seal: Seal) {
    Partway(t, before, now, k, marked, done, log)
  }

  /** `Partway`, kept folded likewise. */
  ghost predicate Midway(t: S.Store, before: L.Scopes, now: L.Scopes, k: AgentKey, marked: set<AgentKey>,
                         done: set<AgentKey>, log: seq<AgentKey>) {
    forall x: Seal {:trigger MidwayOpened(t, before, now, k, marked, done, log, x)} ::
      MidwayOpened(t, before, now, k, marked, done, log, x)
  }

  lemma OpenMidway(t: S.Store, before: L.Scopes, now: L.Scopes, k: AgentKey, marked: set<AgentKey>, done: set<AgentKey>,
                   log: seq<AgentKey>)
    requires Midway(t, before, now, k, marked, done, log)
    ensures Partway(t, before, now, k, marked, done, log)
  {
    assert MidwayOpened(t, before, now, k, marked, done, log, Seal);
  }

  /** The next live child is untouched so far, and one level further down. */
  lemma NextIsLive(t: S.Store, before: L.Scopes, now: L.Scopes, k: AgentKey, log: seq<AgentKey>, live: seq<AgentId>,
                   i: nat)
    requires i < |live| && NoDuplicates(live) && S.Forest(t)
    requires Midway(t, before, now, k, KeysOf(k.session, live[..i]), {}, log)
    requires forall c: AgentKey :: LiveKid(t, before, c, k) <==> c.session == k.session && c.agent in live
    ensures var c := AgentKey(k.session, live[i]);
            && c in now && !now[c].status.Terminal()
            && c in t.records && k in t.records && t.records[c].depth == t.records[k].depth + 1
  {
    OpenMidway(t, before, now, k, KeysOf(k.session, live[..i]), {}, log);
    KidIsUnmarked(t, before, now, k, log, live, i);
  }

  lemma NextIsWaiting(t: S.Store, before: L.Scopes, l: L.Life, k: AgentKey, log: seq<AgentKey>, live: seq<AgentId>,
                      i: nat)
    requires i < |live| && NoDuplicates(live) && SameTree(t, l.store)
    requires Midway(t, before, l.scopes, k, KeysOf(k.session, live), KeysOf(k.session, live[..i]), log)
    ensures Spawned(l, AgentKey(k.session, live[i])) && Unfinished(l, AgentKey(k.session, live[i]))
  {
    OpenMidway(t, before, l.scopes, k, KeysOf(k.session, live), KeysOf(k.session, live[..i]), log);
    KidIsWaiting(t, before, l.scopes, k, log, live, i);
  }

  lemma AllDone(t: S.Store, before: L.Scopes, now: L.Scopes, k: AgentKey, live: seq<AgentId>, log: seq<AgentKey>)
    requires S.Forest(t) && Midway(t, before, now, k, KeysOf(k.session, live), KeysOf(k.session, live), log)
    requires forall c: AgentKey :: LiveKid(t, before, c, k) ==> c.session == k.session && c.agent in live
    ensures CancelledBelow(t, before, now, k, log)
  {
    OpenMidway(t, before, now, k, KeysOf(k.session, live), KeysOf(k.session, live), log);
    Complete(t, before, now, k, KeysOf(k.session, live), log);
  }

  /** What was logged up to the last state of `h` had ended by then. */
  lemma StagedAfter(cfg: L.Config, h: seq<System>, g: seq<System>, from: nat, log: seq<AgentKey>, now: L.Scopes,
                    more: seq<AgentKey>)
    requires Traced(cfg, g) && h != [] && h[|h| - 1].life.scopes == now && H.Extends(h, g) && from < |h|
    requires H.Staged(h, from, log) && H.Staged(g, |h| - 1, more)
    requires forall d :: d in log ==> d in now && now[d].status.Terminal()
    ensures H.Staged(g, from, log + more)
  {
    StagedMore(cfg, h, g, from, log, |h| - 1, more);
  }

  /** One more child cancelled below: the tree and the order of finishing. */
  lemma BelowNext(cfg: L.Config, h: seq<System>, g: seq<System>, from: nat, t: S.Store, before: L.Scopes,
                  now: L.Scopes, k: AgentKey, log: seq<AgentKey>, live: seq<AgentId>, i: nat, next: L.Scopes,
                  sub: seq<AgentKey>)
    requires Traced(cfg, g) && h != [] && h[|h| - 1].life.scopes == now && H.Extends(h, g) && from < |h|
    requires H.Staged(h, from, log) && H.Staged(g, |h| - 1, sub)
    requires i < |live| && NoDuplicates(live)
    requires S.Forest(t) && Midway(t, before, now, k, KeysOf(k.session, live[..i]), {}, log)
    requires forall c: AgentKey :: LiveKid(t, before, c, k) <==> c.session == k.session && c.agent in live
    requires CancelledBelow(t, now, next, AgentKey(k.session, live[i]), sub)
    ensures Midway(t, before, next, k, KeysOf(k.session, live[..i + 1]), {}, log + sub) && H.Staged(g, from, log + sub)
  {
    OpenMidway(t, before, now, k, KeysOf(k.session, live[..i]), {}, log);
    StagedAfter(cfg, h, g, from, log, now, sub);
    MarkNext(t, before, now, k, log, live, i, next, sub);
  }

  /** One more child awaited: the tree and the order of finishing. */
  lemma AwaitNext(cfg: L.Config, h: seq<System>, g: seq<System>, from: nat, t: S.Store, before: L.Scopes,
                  now: L.Scopes, k: AgentKey, log: seq<AgentKey>, live: seq<AgentId>, i: nat, next: L.Scopes)
    requires Traced(cfg, g) && h != [] && h[|h| - 1].life.scopes == now && H.Extends(h, g) && from < |h|
    requires H.Staged(h, from, log)
    requires i < |live| && NoDuplicates(live) && S.Forest(t)
    requires Midway(t, before, now, k, KeysOf(k.session, live), KeysOf(k.session, live[..i]), log)
    requires var c := AgentKey(k.session, live[i]); c in next && next[c].status.Terminal() && next == now[c := next[c]]
    ensures Midway(t, before, next, k, KeysOf(k.session, live), KeysOf(k.session, live[..i + 1]),
                   log + [AgentKey(k.session, live[i])])
    ensures H.Staged(g, from, log + [AgentKey(k.session, live[i])])
  {
    var c := AgentKey(k.session, live[i]);
    OpenMidway(t, before, now, k, KeysOf(k.session, live), KeysOf(k.session, live[..i]), log);
    KidIsWaiting(t, before, now, k, log, live, i);
    H.StagedOne(g, |h| - 1, c);
    StagedAfter(cfg, h, g, from, log, now, [c]);
    FinishNext(t, before, now, k, log, live, i, next);
  }

  lemma SoundHierarchy(cfg: L.Config, s: System)
    requires Sound(cfg, s)
    ensures S.Forest(s.life.store) && s.life.scopes.Keys == s.life.store.records.Keys
  {
    Open(cfg, s);
  }

  lemma SoundScope(cfg: L.Config, s: System, k: AgentKey)
    requires Sound(cfg, s) && k in s.life.scopes
    ensures s.life.scopes[k].status.Terminal() <==> s.life.scopes[k].terminal.Some?
  {
    Open(cfg, s);
    assert L.ScopeOk(s.life, k);
  }

  /** Two stores with the same hierarchy, whatever their statuses and summaries. */
  ghost predicate SameTree(a: S.Store, b: S.Store) {
    && a.children == b.children && a.records.Keys == b.records.Keys
    && forall k :: k in a.records ==>
         b.records[k].parent == a.records[k].parent && b.records[k].depth == a.records[k].depth
  }

  function ContextOf(store: S.Store, k: AgentKey): Context
    requires k in store.records
  {
    Context(k.session, k.agent, store.records[k].parent, store.records[k].depth)
  }

  /** The scopes after `k` finished with `terminal`, unless it had finished before. */
  function FinishedScopes(scopes: L.Scopes, k: AgentKey, terminal: ChildTerminal): L.Scopes {
    if k !in scopes || scopes[k].status.Terminal() then scopes
      else scopes[k := L.Scope(terminal.ToStatus(), false, Some(terminal))]
  }

  /** The one call in progress finishes `child`, with the terminal that won, and comes
      to its store or group step. */
  predicate Finishing(l: L.Life, child: Context) {
    && l.threads.Keys == {0} && (l.threads[0].Persisting? || l.threads[0].Summarizing? || l.threads[0].Recording?)
    && l.threads[0].child == child
    && child.Key() in l.scopes && l.scopes[child.Key()].terminal == Some(l.threads[0].terminal)
  }

  /** L.Scopes, permits and hierarchy are untouched. */
  ghost predicate Quiet(l: L.Life, n: L.Life) {
    n.scopes == l.scopes && n.available == l.available && SameTree(l.store, n.store)
  }

  /** What recording the stored terminal of `child` reports and leaves behind. */
  function Recorded(side: G.Side, child: Context, scopes: L.Scopes): (bool, G.Side) {
    if child.Key() in scopes && scopes[child.Key()].terminal.Some? then
      var (r, next) := G.Record(side, child.Key(), Sanitize(child.agent, scopes[child.Key()].terminal.value));
      (r.Ok?, next)
    else (true, side)
  }

  lemma SoundThread(cfg: L.Config, s: System)
    requires Sound(cfg, s) && 0 in s.life.threads
    ensures L.ThreadOk(s.life, s.life.threads[0])
  {
    Open(cfg, s);
  }

  lemma WriteIsQuiet(l: L.Life, child: Context)
    requires Finishing(l, child) && L.ThreadOk(l, l.threads[0])
    ensures l.threads[0].Persisting? ==>
              var n := L.PersistStatus(l, 0); Quiet(l, n) && Finishing(n, child) && n.threads[0].Summarizing?
    ensures l.threads[0].Summarizing? ==>
              var n := L.PersistSummary(l, 0); Quiet(l, n) && Finishing(n, child) && n.threads[0].Recording?
  {
  }

  /** A store write of the one finisher in progress, as a step of the whole system. */
  lemma WriteStep(cfg: L.Config, s: System, child: Context, m: L.Move)
    requires Sound(cfg, s) && Finishing(s.life, child)
    requires (m == L.StatusWrite(0) && s.life.threads[0].Persisting?)
             || (m == L.SummaryWrite(0) && s.life.threads[0].Summarizing?)
    ensures Enabled(s, Local(m))
    ensures var n := Apply(cfg, s, Local(m));
            && Quiet(s.life, n.life) && Finishing(n.life, child) && n.group == s.group && n.forced == s.forced
            && (m.StatusWrite? ==> n.life.threads[0].Summarizing?) && (m.SummaryWrite? ==> n.life.threads[0].Recording?)
  {
    SoundThread(cfg, s);
    WriteIsQuiet(s.life, child);
  }

  /** No call is in progress but possibly a failed reservation that cancels its child. */
  predicate MayFinish(l: L.Life, child: Context, terminal: ChildTerminal) {
    l.threads == map[] || (l.threads == map[0 := L.Unwinding(child)] && terminal == ChildTerminal.Cancelled)
  }

  /** A trusted context without parent is a root's. */
  lemma RootContext(cfg: L.Config, s: System, c: Context)
    requires Sound(cfg, s) && L.Trusted(s.life.store, c)
    ensures c.Root() <==> c.parent.None?
    ensures c.parent.Some? ==> Spawned(s.life, c.Key())
  {
    SoundHierarchy(cfg, s);
    assert S.ParentOk(s.life.store, c.Key());
  }

  /** The scope step of a finisher, as a step of the whole system. */
  lemma FinishStep(cfg: L.Config, s: System, child: Context, terminal: ChildTerminal)
    requires Sound(cfg, s) && MayFinish(s.life, child, terminal) && L.Trusted(s.life.store, child) && child.parent.Some?
    ensures Enabled(s, Local(L.Finish(0, child, terminal)))
    ensures var n := Apply(cfg, s, Local(L.Finish(0, child, terminal)));
            && n.life.scopes == FinishedScopes(s.life.scopes, child.Key(), terminal) && n.life.store == s.life.store
            && n.life.available == s.life.available + (if Unfinished(s.life, child.Key()) then 1 else 0)
            && n.group == s.group && n.forced == s.forced
            && Finishing(n.life, child) && !n.life.threads[0].Summarizing?
  {
    SoundSpawned(cfg, s, child.Key());
    FinishEffect(s.life, child, terminal);
  }

  lemma SoundSpawned(cfg: L.Config, s: System, k: AgentKey)
    requires Sound(cfg, s) && k in s.life.store.records
    ensures k in s.life.scopes && L.ScopeOk(s.life, k)
  {
    Open(cfg, s);
    assert L.ScopeOk(s.life, k);
  }

  lemma FinishEffect(l: L.Life, child: Context, terminal: ChildTerminal)
    requires MayFinish(l, child, terminal) && child.parent.Some? && child.Key() in l.scopes
    requires child.Key() in l.store.records
    requires L.ScopeOk(l, child.Key()) && l.store.records[child.Key()].parent == child.parent
    ensures var n := L.FinishScope(l, 0, child, terminal);
            && n.scopes == FinishedScopes(l.scopes, child.Key(), terminal) && n.store == l.store && Finishing(n, child)
            && n.available == l.available + (if l.scopes[child.Key()].status.Terminal() then 0 else 1)
            && (n.threads[0].Persisting? || n.threads[0].Recording?)
  {
  }

  /** `live_direct_children`, in id order; a child without a scope counts by its record. */
  function LiveOf(l: L.Life, session: SessionId, ids: seq<AgentId>): (r: seq<AgentId>)
    ensures forall c :: c in r <==> c in ids && StatusIn(l, AgentKey(session, c)).Live()
  {
    if ids == [] then []
    else (if StatusIn(l, AgentKey(session, ids[0])).Live() then [ids[0]] else []) + LiveOf(l, session, ids[1..])
  }

  function StatusIn(l: L.Life, k: AgentKey): Status {
    if k in l.scopes then l.scopes[k].status else if k in l.store.records then l.store.records[k].status else Cancelling
  }

  function LiveChildren(l: L.Life, k: AgentKey): seq<AgentId> { LiveOf(l, k.session, S.DirectChildren(l.store, k)) }

  lemma {:induction false} LiveOfDistinct(l: L.Life, session: SessionId, ids: seq<AgentId>)
    requires NoDuplicates(ids)
    ensures NoDuplicates(LiveOf(l, session, ids))
  {
    if ids != [] {
      assert ids == [ids[0]] + ids[1..];
      LiveOfDistinct(l, session, ids[1..]);
    }
  }

  lemma SameTreeChildOf(t: S.Store, store: S.Store, c: AgentKey, k: AgentKey)
    requires SameTree(t, store)
    ensures S.ChildOf(t, c, k) <==> S.ChildOf(store, c, k)
  {
  }

  /** The live children are exactly the live kids of the tree, each once. */
  lemma LiveChildrenComplete(l: L.Life, t: S.Store, k: AgentKey)
    requires S.Forest(l.store) && l.scopes.Keys == l.store.records.Keys && SameTree(t, l.store)
    ensures NoDuplicates(LiveChildren(l, k))
    ensures forall c: AgentKey ::
              LiveKid(t, l.scopes, c, k) <==> c.session == k.session && c.agent in LiveChildren(l, k)
  {
    S.DirectChildrenComplete(l.store, k);
    StrictlySortedDistinct(S.DirectChildren(l.store, k));
    LiveOfDistinct(l, k.session, S.DirectChildren(l.store, k));
    forall c: AgentKey ensures LiveKid(t, l.scopes, c, k) <==> c.session == k.session && c.agent in LiveChildren(l, k) {
      SameTreeChildOf(t, l.store, c, k);
      if LiveKid(t, l.scopes, c, k) { assert c.agent in S.ChildSet(l.store, k); }
      if c.session == k.session && c.agent in LiveChildren(l, k) {
        assert c.agent in S.ChildSet(l.store, k);
        var x :| x in l.store.records && S.ChildOf(l.store, x, k) && x.agent == c.agent;
        assert x == c;
      }
    }
  }

  predicate Spawned(l: L.Life, k: AgentKey) {
    k in l.scopes && k in l.store.records && l.store.records[k].parent.Some?
  }

  predicate Unfinished(l: L.Life, k: AgentKey) { k in l.scopes && !l.scopes[k].status.Terminal() }

  ghost predicate FinishedOne(l: L.Life, n: L.Life, k: AgentKey) {
    && k in n.scopes && n.scopes[k].status.Terminal() && n.scopes == l.scopes[k := n.scopes[k]]
    && n.available == l.available + 1
  }

  lemma FinishIsOne(l: L.Life, n: L.Life, k: AgentKey, terminal: ChildTerminal)
    requires Unfinished(l, k) && n.scopes == FinishedScopes(l.scopes, k, terminal) && n.available == l.available + 1
    ensures FinishedOne(l, n, k)
  {
  }

  ghost predicate Bounded(t: S.Store, store: S.Store, bound: nat) {
    S.Forest(t) && SameTree(t, store) && forall d :: d in t.records ==> t.records[d].depth <= bound
  }

  ghost function Height(t: S.Store, k: AgentKey, bound: nat): nat {
    if k in t.records && t.records[k].depth <= bound then bound - t.records[k].depth + 1 else 0
  }

  lemma {:induction false} DepthBound(t: S.Store, keys: set<AgentKey>) returns (bound: nat)
    requires keys <= t.records.Keys
    ensures forall d :: d in keys ==> t.records[d].depth <= bound
  {
    if keys == {} {
      bound := 0;
    } else {
      var d :| d in keys;
      var b := DepthBound(t, keys - {d});
      bound := if t.records[d].depth > b then t.records[d].depth else b;
    }
  }

  lemma DepthBounded(cfg: L.Config, s: System) returns (bound: nat)
    requires Sound(cfg, s)
    ensures Bounded(s.life.store, s.life.store, bound)
  {
    SoundHierarchy(cfg, s);
    bound := DepthBound(s.life.store, s.life.store.records.Keys);
  }

  lemma StillSpawned(cfg: L.Config, s: System, t: System, k: AgentKey)
    requires Sound(cfg, t) && SameTree(s.life.store, t.life.store) && Spawned(s.life, k)
    ensures Spawned(t.life, k)
  {
    SoundHierarchy(cfg, t);
  }

  lemma SameContext(a: S.Store, b: S.Store, c: Context)
    requires SameTree(a, b) && L.Trusted(a, c)
    ensures c.Key() in b.records && ContextOf(b, c.Key()) == c
  {
  }

  lemma SameTreeTrans(a: S.Store, b: S.Store, c: S.Store)
    requires SameTree(a, b) && SameTree(b, c)
    ensures SameTree(a, c)
  {
  }

  /** Marking `k` itself changes nothing about its children. */
  lemma MarkKeepsLive(t: S.Store, before: L.Scopes, now: L.Scopes, k: AgentKey)
    requires S.Forest(t) && k in before && now == before[k := before[k].(status := Cancelling)]
    ensures forall c :: LiveKid(t, before, c, k) <==> LiveKid(t, now, c, k)
    ensures Partway(t, before, now, k, {}, {}, [])
  {
    forall c ensures LiveKid(t, before, c, k) <==> LiveKid(t, now, c, k) {
      if S.ChildOf(t, c, k) { assert S.ParentOk(t, c); }
    }
  }

  /** Everything the descent needs once `k` is marked. */
  lemma BeginDescent(cfg: L.Config, s: System, t: S.Store, before: L.Scopes, k: AgentKey)
    requires Sound(cfg, s) && S.Forest(t) && SameTree(t, s.life.store)
    requires k in before && s.life.scopes == before[k := before[k].(status := Cancelling)]
    ensures NoDuplicates(LiveChildren(s.life, k)) && Midway(t, before, s.life.scopes, k, {}, {}, [])
    ensures forall c: AgentKey ::
              LiveKid(t, before, c, k) <==> c.session == k.session && c.agent in LiveChildren(s.life, k)
  {
    SoundHierarchy(cfg, s);
    LiveChildrenComplete(s.life, t, k);
    MarkKeepsLive(t, before, s.life.scopes, k);
  }

  function KeysOf(session: SessionId, ids: seq<AgentId>): set<AgentKey> { set c | c in ids :: AgentKey(session, c) }

  lemma KeysOfNext(session: SessionId, ids: seq<AgentId>, i: nat)
    requires i < |ids|
    ensures KeysOf(session, ids[..i + 1]) == KeysOf(session, ids[..i]) + {AgentKey(session, ids[i])}
  {
    assert ids[..i + 1] == ids[..i] + [ids[i]];
  }

  /** The next live child is untouched so far, and one level further down. */
  lemma KidIsUnmarked(t: S.Store, before: L.Scopes, now: L.Scopes, k: AgentKey, log: seq<AgentKey>, live: seq<AgentId>,
                      i: nat)
    requires i < |live| && NoDuplicates(live)
    requires S.Forest(t) && Partway(t, before, now, k, KeysOf(k.session, live[..i]), {}, log)
    requires forall c: AgentKey :: LiveKid(t, before, c, k) <==> c.session == k.session && c.agent in live
    ensures var c := AgentKey(k.session, live[i]);
            && LiveKid(t, before, c, k) && c !in KeysOf(k.session, live[..i]) && c in now && now[c] == before[c]
            && c in t.records && k in t.records && t.records[c].depth == t.records[k].depth + 1
  {
    var c := AgentKey(k.session, live[i]);
    assert LiveKid(t, before, c, k) && S.ParentOk(t, c);
    UntouchedChild(t, before, now, k, KeysOf(k.session, live[..i]), {}, log, c, c);
  }

  lemma MarkNext(t: S.Store, before: L.Scopes, now: L.Scopes, k: AgentKey, log: seq<AgentKey>, live: seq<AgentId>,
                 i: nat, next: L.Scopes, sub: seq<AgentKey>)
    requires i < |live| && NoDuplicates(live)
    requires S.Forest(t) && Partway(t, before, now, k, KeysOf(k.session, live[..i]), {}, log)
    requires forall c: AgentKey :: LiveKid(t, before, c, k) <==> c.session == k.session && c.agent in live
    requires CancelledBelow(t, now, next, AgentKey(k.session, live[i]), sub)
    ensures Partway(t, before, next, k, KeysOf(k.session, live[..i + 1]), {}, log + sub)
  {
    KidIsUnmarked(t, before, now, k, log, live, i);
    MarkChild(t, before, now, k, KeysOf(k.session, live[..i]), log, AgentKey(k.session, live[i]), next, sub);
    KeysOfNext(k.session, live, i);
  }

  lemma FinishNext(t: S.Store, before: L.Scopes, now: L.Scopes, k: AgentKey, log: seq<AgentKey>, live: seq<AgentId>,
                   i: nat, next: L.Scopes)
    requires i < |live| && NoDuplicates(live) && S.Forest(t)
    requires Partway(t, before, now, k, KeysOf(k.session, live), KeysOf(k.session, live[..i]), log)
    requires var c := AgentKey(k.session, live[i]); c in next && next[c].status.Terminal() && next == now[c := next[c]]
    ensures Partway(t, before, next, k, KeysOf(k.session, live), KeysOf(k.session, live[..i + 1]),
                    log + [AgentKey(k.session, live[i])])
  {
    var c := AgentKey(k.session, live[i]);
    KidIsWaiting(t, before, now, k, log, live, i);
    FinishKid(t, before, now, k, KeysOf(k.session, live), KeysOf(k.session, live[..i]), log, c, next[c]);
    KeysOfNext(k.session, live, i);
  }

  lemma KidIsWaiting(t: S.Store, before: L.Scopes, now: L.Scopes, k: AgentKey, log: seq<AgentKey>, live: seq<AgentId>,
                     i: nat)
    requires i < |live| && NoDuplicates(live)
    requires Partway(t, before, now, k, KeysOf(k.session, live), KeysOf(k.session, live[..i]), log)
    ensures var c := AgentKey(k.session, live[i]);
            && c in KeysOf(k.session, live) && c !in KeysOf(k.session, live[..i])
            && S.ChildOf(t, c, k) && c in now && !now[c].status.Terminal()
  {
    var c := AgentKey(k.session, live[i]);
    assert c in KeysOf(k.session, live);
  }

  lemma MarkEffect(l: L.Life, k: AgentKey)
    requires k in l.scopes && !l.scopes[k].status.Terminal()
    ensures var n := L.Mark(l, k);
            && n.scopes == l.scopes[k := l.scopes[k].(status := Cancelling)] && n.available == l.available
            && SameTree(l.store, n.store) && n.threads == l.threads
  {
  }

  ghost predicate BelowEffect(l: L.Life, m: L.Life, k: AgentKey, below: seq<AgentKey>, seal: Seal) {
    && S.Forest(l.store) && l.scopes.Keys == l.store.records.Keys && k in l.scopes
    && (if l.scopes[k].status.Terminal() then m == l && below == []
        else CancelledBelow(l.store, l.scopes, m.scopes, k, below) && m.available == l.available + |below|)
  }

  /** Everything below `k` has been cancelled, unless `k` had finished; kept folded. */
  ghost predicate BelowCancelled(l: L.Life, m: L.Life, k: AgentKey, below: seq<AgentKey>) {
    forall x: Seal {:trigger BelowEffect(l, m, k, below, x)} :: BelowEffect(l, m, k, below, x)
  }

  lemma BelowIsCancelled(cfg: L.Config, s: System, m: L.Life, k: AgentKey, below: seq<AgentKey>)
    requires Sound(cfg, s) && k in s.life.scopes
    requires !Unfinished(s.life, k) ==> m == s.life && below == []
    requires Unfinished(s.life, k) ==>
               && CancelledBelow(s.life.store, s.life.scopes, m.scopes, k, below)
               && m.available == s.life.available + |below|
    ensures BelowCancelled(s.life, m, k, below)
  {
    SoundHierarchy(cfg, s);
  }

  /** Everything `cancel_scope` promises about the scopes when it succeeds on a spawned
      agent `k`: exactly `log` has finished, one permit each; the whole subtree is finished
      exactly if it was cancellable, and then `log` is what was unfinished in it. */
  ghost predicate CancelEffect(l: L.Life, n: L.Life, k: AgentKey, log: seq<AgentKey>, seal: Seal) {
    && k in l.scopes && CancelledAll(l.store, l.scopes, n.scopes, k, log)
    && n.available == l.available + |log|
    && ((forall d :: d in n.scopes && InSub(l.store, d, k) ==> n.scopes[d].status.Terminal())
        <==> Cancellable(l.store, l.scopes, k))
    && (Cancellable(l.store, l.scopes, k) ==>
          forall d :: d in l.scopes ==> (d in log <==> InSub(l.store, d, k) && !l.scopes[d].status.Terminal()))
  }

  /** That effect, kept folded. */
  ghost predicate ScopeCancelled(l: L.Life, n: L.Life, k: AgentKey, log: seq<AgentKey>) {
    forall x: Seal {:trigger CancelEffect(l, n, k, log, x)} :: CancelEffect(l, n, k, log, x)
  }

  lemma OpenCancelled(l: L.Life, n: L.Life, k: AgentKey, log: seq<AgentKey>)
    requires ScopeCancelled(l, n, k, log)
    ensures CancelEffect(l, n, k, log, Seal)
  {
    assert CancelEffect(l, n, k, log, Seal);
  }

  lemma WholeScope(l: L.Life, n: L.Life, k: AgentKey, log: seq<AgentKey>)
    requires S.Forest(l.store) && l.scopes.Keys == l.store.records.Keys && k in l.scopes
    requires CancelledAll(l.store, l.scopes, n.scopes, k, log) && n.available == l.available + |log|
    ensures ScopeCancelled(l, n, k, log)
  {
    AllFinishedIff(l.store, l.scopes, n.scopes, k, log);
    if Cancellable(l.store, l.scopes, k) { LogIsUnfinished(l.store, l.scopes, n.scopes, k, log); }
  }

  /** The last step of `cancel_scope`, after everything below `k` has been cancelled. */
  lemma CancelRoot(l: L.Life, m: L.Life, n: L.Life, k: AgentKey, log: seq<AgentKey>)
    requires BelowCancelled(l, m, k, log)
    requires n.scopes == FinishedScopes(m.scopes, k, ChildTerminal.Cancelled)
    requires n.available == m.available + (if Unfinished(m, k) then 1 else 0)
    ensures ScopeCancelled(l, n, k, CancelLog(l, k, log))
  {
    assert BelowEffect(l, m, k, log, Seal);
    if l.scopes[k].status.Terminal() {
      WholeScope(l, n, k, []);
    } else {
      CancelOpenRoot(l, m, n, k, log);
      WholeScope(l, n, k, log + [k]);
    }
  }

  lemma CancelOpenRoot(l: L.Life, m: L.Life, n: L.Life, k: AgentKey, log: seq<AgentKey>)
    requires S.Forest(l.store) && k in l.scopes && !l.scopes[k].status.Terminal()
    requires CancelledBelow(l.store, l.scopes, m.scopes, k, log) && m.available == l.available + |log|
    requires n.scopes == FinishedScopes(m.scopes, k, ChildTerminal.Cancelled)
    requires n.available == m.available + (if Unfinished(m, k) then 1 else 0)
    ensures CancelledAll(l.store, l.scopes, n.scopes, k, log + [k]) && n.available == l.available + |log + [k]|
  {
    FinishRoot(l.store, l.scopes, m.scopes, k, log, L.Scope(Status.Cancelled, false, Some(ChildTerminal.Cancelled)));
  }

  /** The order of finishing, once the scope itself has finished after what lay below it. */
  lemma RootIsLast(cfg: L.Config, h: seq<System>, g: seq<System>, from: nat, l: L.Life, k: AgentKey, m: L.Life,
                   below: seq<AgentKey>)
    requires Traced(cfg, g) && h != [] && h[|h| - 1].life == m && H.Extends(h, g)
    requires from < |h| && H.Staged(h, from, below) && BelowCancelled(l, m, k, below)
    ensures H.Staged(g, from, CancelLog(l, k, below))
  {
    assert BelowEffect(l, m, k, below, Seal);
    if !l.scopes[k].status.Terminal() {
      H.StagedOne(g, |h| - 1, k);
      StagedAfter(cfg, h, g, from, below, m.scopes, [k]);
    }
  }

  ghost function CancelLog(l: L.Life, k: AgentKey, below: seq<AgentKey>): seq<AgentKey> {
    if k in l.scopes && l.scopes[k].status.Terminal() then [] else below + [k]
  }

  /** The scopes that `cancel_scope` finishes have ended bottom-up. */
  lemma CancelledInOrder(cfg: L.Config, h: seq<System>, from: nat, l: L.Life, n: L.Life, k: AgentKey,
                         log: seq<AgentKey>)
    requires Traced(cfg, h) && H.Staged(h, from, log) && ScopeCancelled(l, n, k, log)
    ensures H.DescendantsFirst(l.store, h, log)
  {
    OpenTrace(cfg, h);
    OpenCancelled(l, n, k, log);
    assert BottomUp(l.store, log);
    H.StagedIsOrdered(l.store, h, from, log);
  }

  /** In no state has `k` ended while a direct child has not. */
  ghost predicate ChildrenFirst(t: S.Store, h: seq<System>, k: AgentKey) {
    forall i, c :: 0 <= i < |h| && H.Ended(h[i], k) && S.ChildOf(t, c, k) ==> H.Ended(h[i], c)
  }

  lemma ChildrenEndFirst(cfg: L.Config, t: S.Store, h: seq<System>, at: nat, k: AgentKey)
    requires Traced(cfg, h) && at < |h| && SameTree(t, h[at].life.store)
    requires ChildrenDone(h[at].life, k) && Unfinished(h[at].life, k)
    ensures ChildrenFirst(t, h, k)
  {
    OpenTrace(cfg, h);
    forall i, c | 0 <= i < |h| && H.Ended(h[i], k) && S.ChildOf(t, c, k) ensures H.Ended(h[i], c) {
      assert i > at;
      SameTreeChildOf(t, h[at].life.store, c, k);
      assert J.Done(h[at].life.scopes, c) && H.Ended(h[at], c);
    }
  }

  /** The same scopes have ended, with the same terminals. */
  ghost predicate SameEnds(a: L.Scopes, b: L.Scopes) {
    a.Keys == b.Keys && forall k :: k in a ==> (a[k].status.Terminal() <==> b[k].status.Terminal())
  }

  lemma SameEndsSee(a: L.Scopes, b: L.Scopes, handles: set<AgentKey>, l: L.Life, k: AgentKey,
                    observed: map<AgentId, ChildTerminal>, joined: seq<ChildResult>)
    requires SameEnds(a, b) && SeenRightly(b, handles, l, k, observed, joined)
    ensures SeenRightly(a, handles, l, k, observed, joined)
  {
    var ids := S.DirectChildren(l.store, k);
    forall c | c in ids ensures J.SawOne(AgentKey(k.session, c), a, handles, l.scopes, observed[c]) {
      assert J.SawOne(AgentKey(k.session, c), b, handles, l.scopes, observed[c]);
    }
  }

  lemma SameEndsSettle(a: L.Scopes, b: L.Scopes, handles: set<AgentKey>, at: System, k: AgentKey,
                       observed: map<AgentId, ChildTerminal>, joined: seq<ChildResult>)
    requires SameEnds(a, b) && SeenRightly(b, handles, at.life, k, observed, joined)
    requires var d := G.ClaimOwn(at.group.side, k.session, k.agent).0;
             Refines(at, k, b, handles, joined, if d.Some? then d.value.results else joined)
    ensures SeenRightly(a, handles, at.life, k, observed, joined)
    ensures var d := G.ClaimOwn(at.group.side, k.session, k.agent).0;
            Refines(at, k, a, handles, joined, if d.Some? then d.value.results else joined)
  {
    SameEndsSee(a, b, handles, at.life, k, observed, joined);
    var d := G.ClaimOwn(at.group.side, k.session, k.agent).0;
    OpenRefines(at, k, b, handles, joined, if d.Some? then d.value.results else joined);
    assert forall c :: J.MayRace(c, b, handles) ==> J.MayRace(c, a, handles);
  }

  /** What a join leaves behind, seen from a state in which the same scopes had ended. */
  lemma JoinSettlesSince(cfg: L.Config, before: L.Scopes, m: L.Life, at: System, handles: set<AgentKey>, k: AgentKey,
                         joined: seq<ChildResult>, observed: map<AgentId, ChildTerminal>, log: seq<AgentKey>)
    requires Sound(cfg, at) && S.Forest(m.store) && SameTree(m.store, at.life.store) && SameEnds(before, m.scopes)
    requires Progress(m, at.life, handles, k, S.DirectChildren(m.store, k), joined, observed, log)
    ensures SeenRightly(before, handles, at.life, k, observed, joined)
    ensures var d := G.ClaimOwn(at.group.side, k.session, k.agent).0;
            Refines(at, k, before, handles, joined, if d.Some? then d.value.results else joined)
  {
    JoinSettles(cfg, m, at, handles, k, joined, observed, log);
    SameEndsSettle(before, m.scopes, handles, at, k, observed, joined);
  }

  ghost predicate KidsOf(store: S.Store, k: AgentKey, ids: seq<AgentId>) {
    NoDuplicates(ids) && forall c :: c in ids ==> S.ChildOf(store, AgentKey(k.session, c), k)
  }

  /** The tasks of children not yet awaited are still registered. */
  ghost predicate TasksLeft(handles: set<AgentKey>, tasks: set<AgentKey>, session: SessionId, ids: seq<AgentId>, i: nat)
    requires i <= |ids|
  {
    tasks <= handles && forall d :: d in handles && !J.Among(session, ids[..i], d) ==> d in tasks
  }

  lemma NextTask(handles: set<AgentKey>, tasks: set<AgentKey>, k: AgentKey, ids: seq<AgentId>, i: nat)
    requires i < |ids| && NoDuplicates(ids) && TasksLeft(handles, tasks, k.session, ids, i)
    ensures AgentKey(k.session, ids[i]) in tasks <==> AgentKey(k.session, ids[i]) in handles
    ensures forall left :: tasks - {AgentKey(k.session, ids[i])} <= left <= tasks ==>
              TasksLeft(handles, left, k.session, ids, i + 1)
  {
    assert !J.Among(k.session, ids[..i], AgentKey(k.session, ids[i]));
    assert ids[..i + 1] == ids[..i] + [ids[i]];
  }

  lemma BeginJoin(cfg: L.Config, s: System, tasks: set<AgentKey>, k: AgentKey)
    requires Sound(cfg, s)
    ensures S.Forest(s.life.store) && s.life.scopes.Keys == s.life.store.records.Keys
    ensures var ids := S.DirectChildren(s.life.store, k);
            KidsOf(s.life.store, k, ids) && TasksLeft(tasks, tasks, k.session, ids, 0)
    ensures Progress(s.life, s.life, tasks, k, [], [], map[], [])
    ensures FastJoined(s.life, s.life, tasks, k, [], [], map[])
  {
    SoundHierarchy(cfg, s);
    KidsAreChildren(s.life.store, k);
  }

  lemma KidIsSpawned(before: L.Life, l: L.Life, k: AgentKey, ids: seq<AgentId>, i: nat)
    requires KidsOf(before.store, k, ids) && i < |ids| && SameTree(before.store, l.store)
    requires before.scopes.Keys == before.store.records.Keys && l.scopes.Keys == before.scopes.Keys
    ensures Spawned(l, AgentKey(k.session, ids[i]))
  {
    assert S.ChildOf(before.store, AgentKey(k.session, ids[i]), k);
  }

  lemma KidChanged(before: L.Life, m: L.Life, n: L.Life, k: AgentKey, ids: seq<AgentId>, i: nat)
    requires KidsOf(before.store, k, ids) && i < |ids| && OthersKeep(before, m, k)
    requires AgentKey(k.session, ids[i]) in m.scopes && AgentKey(k.session, ids[i]) in n.scopes
    requires n.scopes == m.scopes[AgentKey(k.session, ids[i]) := n.scopes[AgentKey(k.session, ids[i])]]
    ensures OthersKeep(before, n, k)
  {
    assert S.ChildOf(before.store, AgentKey(k.session, ids[i]), k);
  }

  lemma MoreTasks(c: AgentKey, before: L.Scopes, tasks: set<AgentKey>, handles: set<AgentKey>, now: L.Scopes,
                  answer: ChildTerminal)
    requires tasks <= handles && J.SawOne(c, before, tasks, now, answer)
    ensures J.SawOne(c, before, handles, now, answer)
  {
  }

  /** A child handled by the fail-fast join: cancelled below if a sibling failed, awaited. */
  lemma HandledChild(t: S.Store, before: L.Scopes, handles: set<AgentKey>, mid: L.Scopes, tasks: set<AgentKey>,
                     now: L.Scopes, c: AgentKey, log: seq<AgentKey>, failed: bool, answer: ChildTerminal)
    requires c in before && tasks <= handles
    requires if !failed || before[c].status.Terminal() then mid == before else CancelledBelow(t, before, mid, c, log)
    requires c in mid && c in now && now == mid[c := now[c]] && J.Awaits(mid[c], c in tasks, answer, now[c])
    ensures F.Handled(t, before, now, c) && (failed ==> F.Swept(t, before, now, c))
    ensures J.SawOne(c, before, handles, now, answer)
  {
    J.AwaitsEnds(mid[c], c in tasks, answer, now[c]);
    if failed {
      F.CancelThenAwait(t, before, mid, now, c, log);
    }
  }

  lemma TransitEffect(l: L.Life, k: AgentKey, expected: Status, next: Status)
    requires k in l.scopes
    ensures var n := L.Transition(l, k, expected, next);
            && n.scopes == MovedScopes(l.scopes, k, expected, next) && n.available == l.available
            && SameTree(l.store, n.store) && n.threads == l.threads
  {
  }

  /** Only direct children of `k` may have changed. */
  ghost predicate OthersKeep(l: L.Life, n: L.Life, k: AgentKey) {
    && n.scopes.Keys == l.scopes.Keys
    && forall d :: d in l.scopes && !S.ChildOf(l.store, d, k) ==> n.scopes[d] == l.scopes[d]
  }

  /** The children `ids` of `k` have been joined with these answers and results; `log`
      lists those that finished meanwhile, one permit each. */
  ghost predicate Progress(l: L.Life, n: L.Life, handles: set<AgentKey>, k: AgentKey, ids: seq<AgentId>,
                           results: seq<ChildResult>, observed: map<AgentId, ChildTerminal>, log: seq<AgentKey>) {
    && J.JoinOutcome(k.session, ids, l.scopes, handles, observed, n.scopes)
    && J.Finishers(k.session, ids, l.scopes, log) && n.available == l.available + |log|
    && results == R.JoinList(ids, observed)
  }

  lemma KidsAreChildren(store: S.Store, k: AgentKey)
    requires S.Forest(store)
    ensures NoDuplicates(S.DirectChildren(store, k))
    ensures forall c :: c in S.DirectChildren(store, k) <==> S.ChildOf(store, AgentKey(k.session, c), k)
  {
    S.DirectChildrenComplete(store, k);
    StrictlySortedDistinct(S.DirectChildren(store, k));
    forall c ensures c in S.ChildSet(store, k) <==> S.ChildOf(store, AgentKey(k.session, c), k) {
      if S.ChildOf(store, AgentKey(k.session, c), k) { assert AgentKey(k.session, c) in store.records; }
    }
  }

  lemma ProgressNext(l: L.Life, m: L.Life, handles: set<AgentKey>, k: AgentKey, ids: seq<AgentId>, i: nat,
                     results: seq<ChildResult>, observed: map<AgentId, ChildTerminal>, log: seq<AgentKey>,
                     n: L.Life, answer: ChildTerminal) returns (more: seq<AgentKey>)
    requires i < |ids| && NoDuplicates(ids) && Progress(l, m, handles, k, ids[..i], results, observed, log)
    requires var c := AgentKey(k.session, ids[i]);
             && J.AwaitedAt(k.session, ids[i], m.scopes, handles, answer, n.scopes)
               && n.scopes == m.scopes[c := n.scopes[c]]
             && n.available == m.available + (if Unfinished(m, c) then 1 else 0)
    ensures Progress(l, n, handles, k, ids[..i + 1], results + [Sanitize(ids[i], answer)], observed[ids[i] := answer],
                     more)
  {
    var c := AgentKey(k.session, ids[i]);
    assert ids[..i + 1] == ids[..i] + [ids[i]] && !J.Among(k.session, ids[..i], c);
    J.OutcomeNext(k.session, ids, i, l.scopes, handles, observed, m.scopes, n.scopes, answer);
    J.FinishersNext(k.session, ids, i, l.scopes, log);
    J.JoinListNext(ids, i, observed, answer);
    more := if l.scopes[c].status.Terminal() then log else log + [c];
  }

  /** The same hierarchy has the same direct children. */
  lemma SameTreeChildren(a: S.Store, b: S.Store, k: AgentKey)
    requires S.Forest(a) && S.Forest(b) && SameTree(a, b)
    ensures S.DirectChildren(a, k) == S.DirectChildren(b, k)
  {
    S.DirectChildrenComplete(a, k);
    S.DirectChildrenComplete(b, k);
    assert S.ChildSet(a, k) == S.ChildSet(b, k) by {
      forall c | c in a.records ensures S.ChildOf(a, c, k) <==> S.ChildOf(b, c, k) { SameTreeChildOf(a, b, c, k); }
    }
  }

  lemma NotOwnChild(store: S.Store, k: AgentKey)
    requires S.Forest(store)
    ensures !S.ChildOf(store, k, k)
  {
    assert k in store.records ==> S.ParentOk(store, k);
  }

  /** What the claim of owner `k` in state `at` hands over, after it has joined its
      children: the joined list itself if nothing can be claimed, else the delivery. If the
      delivered group was open and nothing in it was forced, and when the join began no
      member was both unfinished and backed by a task, that is the joined list filtered to
      the members, in the same order. */
  ghost predicate RefinesOpened(at: System, k: AgentKey, before: L.Scopes, handles: set<AgentKey>,
                                joined: seq<ChildResult>, delivered: seq<ChildResult>, seal: Seal) {
    var d := G.ClaimOwn(at.group.side, k.session, k.agent).0;
    if d.None? then delivered == joined
    else
      && delivered == d.value.results && d.value.group in at.group.side.store.groups
      && var members := at.group.side.store.groups[d.value.group].children;
         R.OpenUnforced(at, d.value.group)
           && (forall c :: c in members ==> !J.MayRace(AgentKey(k.session, c), before, handles))
         ==> delivered == R.OnlyMembers(joined, members)
  }

  /** The same, kept folded. */
  ghost predicate Refines(at: System, k: AgentKey, before: L.Scopes, handles: set<AgentKey>,
                          joined: seq<ChildResult>, delivered: seq<ChildResult>) {
    forall x: Seal {:trigger RefinesOpened(at, k, before, handles, joined, delivered, x)} ::
      RefinesOpened(at, k, before, handles, joined, delivered, x)
  }

  lemma OpenRefines(at: System, k: AgentKey, before: L.Scopes, handles: set<AgentKey>,
                    joined: seq<ChildResult>, delivered: seq<ChildResult>)
    requires Refines(at, k, before, handles, joined, delivered)
    ensures RefinesOpened(at, k, before, handles, joined, delivered, Seal)
  {
    assert RefinesOpened(at, k, before, handles, joined, delivered, Seal);
  }

  /** An open unforced group delivers the stored terminals of its members. */
  lemma ClaimDelivers(cfg: L.Config, at: System, k: AgentKey)
    requires Inv(cfg, at)
    ensures var d := G.ClaimOwn(at.group.side, k.session, k.agent).0;
            d.Some? && R.OpenUnforced(at, d.value.group) ==>
              var members := at.group.side.store.groups[d.value.group].children;
              && d.value.results == J.StoredList(k.session, Sorted(members), at.life.scopes)
              && (forall c :: c in members ==> c in S.DirectChildren(at.life.store, k))
  {
    var d := G.ClaimOwn(at.group.side, k.session, k.agent).0;
    R.ClaimedGroup(at, k.session, k.agent);
    if d.Some? && R.OpenUnforced(at, d.value.group) {
      var g := at.group.side.store.groups[d.value.group];
      forall c | c in g.children
        ensures R.StoredResult(at.life.scopes, g, c) && SettledScope(at.life, AgentKey(k.session, c))
      {
        assert L.ScopeOk(at.life, AgentKey(k.session, c));
      }
      StoredAsDelivered(at, g, k);
    }
  }

  predicate SettledScope(l: L.Life, k: AgentKey) {
    k in l.scopes && (l.scopes[k].terminal.Some? ==> l.scopes[k].status.Terminal())
  }

  lemma StoredAsDelivered(at: System, g: TG.Group, k: AgentKey)
    requires S.Forest(at.life.store) && g.session == k.session && g.owner == k.agent && g.results.Keys == g.children
    requires forall c :: c in g.children ==> MemberOf(at.life.store, g, c) && R.StoredResult(at.life.scopes, g, c)
    requires forall c :: c in g.children ==> SettledScope(at.life, AgentKey(k.session, c))
    ensures TG.ResultList(Sorted(g.children), g.results) == J.StoredList(k.session, Sorted(g.children), at.life.scopes)
    ensures forall c :: c in g.children ==> c in S.DirectChildren(at.life.store, k)
  {
    MembersListed(at, g, k);
    SameResults(g, at.life, k);
  }

  lemma MembersListed(at: System, g: TG.Group, k: AgentKey)
    requires S.Forest(at.life.store) && g.session == k.session && g.owner == k.agent
    requires forall c :: c in g.children ==> MemberOf(at.life.store, g, c)
    ensures forall c :: c in g.children ==> c in S.DirectChildren(at.life.store, k)
  {
    forall c | c in g.children ensures c in S.DirectChildren(at.life.store, k) { R.MemberIsListed(at, g, c); }
  }

  lemma SameResults(g: TG.Group, l: L.Life, k: AgentKey)
    requires g.session == k.session && g.results.Keys == g.children
    requires forall c :: c in g.children ==> R.StoredResult(l.scopes, g, c) && SettledScope(l, AgentKey(k.session, c))
    ensures TG.ResultList(Sorted(g.children), g.results) == J.StoredList(k.session, Sorted(g.children), l.scopes)
  {
    var ids := Sorted(g.children);
    forall i | 0 <= i < |ids|
      ensures TG.ResultList(ids, g.results)[i] == J.StoredList(k.session, ids, l.scopes)[i]
    {
      var c := ids[i];
      assert c in ids && c in g.children && SettledScope(l, AgentKey(k.session, c)) && R.StoredResult(l.scopes, g, c);
    }
  }

  lemma ClaimRefines(cfg: L.Config, at: System, k: AgentKey, before: L.Scopes, handles: set<AgentKey>,
                     observed: map<AgentId, ChildTerminal>, joined: seq<ChildResult>)
    requires Sound(cfg, at)
    requires J.Saw(k.session, S.DirectChildren(at.life.store, k), before, handles, at.life.scopes, observed)
    requires joined == R.JoinList(S.DirectChildren(at.life.store, k), observed)
    ensures var d := G.ClaimOwn(at.group.side, k.session, k.agent).0;
            Refines(at, k, before, handles, joined, if d.Some? then d.value.results else joined)
  {
    Open(cfg, at);
    var d := G.ClaimOwn(at.group.side, k.session, k.agent).0;
    R.ClaimedGroup(at, k.session, k.agent);
    if d.Some? {
      var members := at.group.side.store.groups[d.value.group].children;
      if R.OpenUnforced(at, d.value.group)
        && (forall c :: c in members ==> !J.MayRace(AgentKey(k.session, c), before, handles)) {
        ClaimDelivers(cfg, at, k);
        S.DirectChildrenComplete(at.life.store, k);
        J.AgreesFrom(k.session, S.DirectChildren(at.life.store, k), members, before, handles, observed, at.life.scopes);
      }
    }
  }

  function MovedScopes(scopes: L.Scopes, k: AgentKey, expected: Status, next: Status): L.Scopes
    requires k in scopes
  {
    if scopes[k].status == expected then scopes[k := scopes[k].(status := next)] else scopes
  }

  /** `active_owner_status` succeeds for a spawned owner. */
  predicate Active(l: L.Life, caller: Context) {
    && !caller.Root() && caller.Key() in l.scopes
    && (l.scopes[caller.Key()].status.Running? || l.scopes[caller.Key()].status.WaitingForChildren?)
  }

  ghost predicate ChildrenDone(l: L.Life, k: AgentKey) {
    forall c :: S.ChildOf(l.store, c, k) ==> J.Done(l.scopes, c)
  }

  /** `joined` lists what was observed of every direct child, and that is what is stored
      unless the child was unfinished and had a task in `before`. */
  ghost predicate SeenRightly(before: L.Scopes, handles: set<AgentKey>, l: L.Life, k: AgentKey,
                              observed: map<AgentId, ChildTerminal>, joined: seq<ChildResult>) {
    && J.Saw(k.session, S.DirectChildren(l.store, k), before, handles, l.scopes, observed)
    && joined == R.JoinList(S.DirectChildren(l.store, k), observed)
  }

  lemma SawMeansDone(before: L.Scopes, handles: set<AgentKey>, l: L.Life, k: AgentKey,
                     observed: map<AgentId, ChildTerminal>)
    requires S.Forest(l.store) && J.Saw(k.session, S.DirectChildren(l.store, k), before, handles, l.scopes, observed)
    ensures ChildrenDone(l, k)
  {
    KidsAreChildren(l.store, k);
    forall c | S.ChildOf(l.store, c, k) ensures J.Done(l.scopes, c) {
      assert c == AgentKey(k.session, c.agent);
      assert c.agent in S.DirectChildren(l.store, k);
      assert J.SawOne(c, before, handles, l.scopes, observed[c.agent]);
    }
  }

  /** What a join leaves behind, seen from the state it ends in. */
  lemma JoinSettles(cfg: L.Config, m: L.Life, at: System, handles: set<AgentKey>, k: AgentKey, joined: seq<ChildResult>,
                    observed: map<AgentId, ChildTerminal>, log: seq<AgentKey>)
    requires Sound(cfg, at) && S.Forest(m.store) && SameTree(m.store, at.life.store)
    requires Progress(m, at.life, handles, k, S.DirectChildren(m.store, k), joined, observed, log)
    ensures SeenRightly(m.scopes, handles, at.life, k, observed, joined) && ChildrenDone(at.life, k)
    ensures var d := G.ClaimOwn(at.group.side, k.session, k.agent).0;
            Refines(at, k, m.scopes, handles, joined, if d.Some? then d.value.results else joined)
  {
    SoundHierarchy(cfg, at);
    SameTreeChildren(m.store, at.life.store, k);
    J.OutcomeIsSeen(k.session, S.DirectChildren(m.store, k), m.scopes, handles, observed, at.life.scopes);
    SawMeansDone(m.scopes, handles, at.life, k, observed);
    ClaimRefines(cfg, at, k, m.scopes, handles, observed, joined);
  }

  /** A change of the owner's own status does not disturb what its join left. */
  lemma OwnMoveKeeps(before: L.Scopes, handles: set<AgentKey>, l: L.Life, n: L.Life, k: AgentKey,
                     observed: map<AgentId, ChildTerminal>, joined: seq<ChildResult>)
    requires S.Forest(l.store) && S.Forest(n.store) && SameTree(l.store, n.store)
    requires k in n.scopes && n.scopes == l.scopes[k := n.scopes[k]]
    requires SeenRightly(before, handles, l, k, observed, joined)
    ensures ChildrenDone(n, k) && SeenRightly(before, handles, n, k, observed, joined)
  {
    SameTreeChildren(l.store, n.store, k);
    NotOwnChild(l.store, k);
    KidsAreChildren(l.store, k);
    forall c | c in S.DirectChildren(l.store, k)
      ensures J.SawOne(AgentKey(k.session, c), before, handles, n.scopes, observed[c])
    {
      assert J.SawOne(AgentKey(k.session, c), before, handles, l.scopes, observed[c]);
    }
    SawMeansDone(before, handles, n, k, observed);
  }

  datatype JoinPolicy = AllRequired | BestEffort | FailFast

  ghost predicate FastJoined(l: L.Life, n: L.Life, handles: set<AgentKey>, k: AgentKey, ids: seq<AgentId>,
                             results: seq<ChildResult>, observed: map<AgentId, ChildTerminal>) {
    && F.Progress(l.store, l.scopes, handles, n.scopes, k.session, ids, observed)
    && results == R.JoinList(ids, observed)
  }

  lemma FailedNext(ids: seq<AgentId>, i: nat, observed: map<AgentId, ChildTerminal>, terminal: ChildTerminal)
    requires i < |ids| && NoDuplicates(ids)
    ensures F.AnyFailing(ids[..i + 1], observed[ids[i] := terminal])
            <==> F.AnyFailing(ids[..i], observed) || F.Failing(terminal)
  {
    assert ids[..i + 1] == ids[..i] + [ids[i]];
    if F.Failing(terminal) { assert ids[i] in ids[..i + 1]; }
    if b :| b in ids[..i] && b in observed && F.Failing(observed[b]) { assert b in ids[..i + 1]; }
  }

  lemma StatusMoveEffect(cfg: L.Config, l: L.Life, k: AgentKey, m: L.Move)
    requires Unfinished(l, k) && (m == L.Awaiting(k) || m == L.Finalize(k))
    ensures L.Enabled(l, m)
    ensures var n := L.Do(cfg, l, m);
            && Unfinished(n, k) && n.scopes == l.scopes[k := n.scopes[k]] && n.available == l.available
            && SameTree(l.store, n.store) && n.threads == l.threads
  {
  }

  lemma OwnerIsOutside(store: S.Store, k: AgentKey)
    requires S.Forest(store)
    ensures F.Outside(store, k, k.session, S.DirectChildren(store, k))
  {
    KidsAreChildren(store, k);
    forall c | c in S.DirectChildren(store, k) ensures !InSub(store, k, AgentKey(k.session, c)) {
      var kid := AgentKey(k.session, c);
      assert S.ParentOk(store, kid);
      if S.Under(store, k, kid) { S.UnderIsDeeper(store, k, kid); }
    }
  }

  lemma FastSettles(cfg: L.Config, m: L.Life, at: System, handles: set<AgentKey>, k: AgentKey, joined: seq<ChildResult>,
                    observed: map<AgentId, ChildTerminal>)
    requires Sound(cfg, at) && S.Forest(m.store) && SameTree(m.store, at.life.store) && k in m.scopes
    requires FastJoined(m, at.life, handles, k, S.DirectChildren(m.store, k), joined, observed)
    ensures SeenRightly(m.scopes, handles, at.life, k, observed, joined) && ChildrenDone(at.life, k)
    ensures k in at.life.scopes && at.life.scopes[k] == m.scopes[k]
  {
    SoundHierarchy(cfg, at);
    SameTreeChildren(m.store, at.life.store, k);
    OwnerIsOutside(m.store, k);
    SawMeansDone(m.scopes, handles, at.life, k, observed);
  }

  // ------------------------------------------- finalizing a scope that has finished

  /** The unconditional write of `finalize_scope`. */
  function Reopened(s: System, k: AgentKey): System { s.(life := L.BeginFinalize(s.life, k)) }

  lemma FinishedHoldsNone(cfg: L.Config, s: System, k: AgentKey)
    requires Sound(cfg, s) && k in s.life.scopes && !Unfinished(s.life, k)
    ensures !s.life.scopes[k].permit
  {
    Open(cfg, s);
    assert L.ScopeOk(s.life, k);
  }

  lemma ReopenFinished(cfg: L.Config, s: System, k: AgentKey)
    requires Sound(cfg, s) && Spawned(s.life, k) && !Unfinished(s.life, k)
    ensures var n := Reopened(s, k);
            && n.life.scopes == s.life.scopes[k := s.life.scopes[k].(status := Finalizing)]
            && !n.life.scopes[k].permit
            && n.life.available == s.life.available && SameTree(s.life.store, n.life.store)
            && S.Forest(s.life.store) && S.Forest(n.life.store)
  {
    FinishedHoldsNone(cfg, s, k);
    SoundHierarchy(cfg, s);
    S.RewriteKeepsForest(s.life.store, k, s.life.store.records[k].(status := Finalizing));
  }

  /** `finish_child` right after that write: it finds no terminal status and wins again. */
  function WonAgain(l: L.Life, child: Context, outcome: ChildTerminal): (n: L.Life)
    requires l.threads == map[] && L.Trusted(l.store, child) && !child.Root()
    requires child.Key() in l.scopes && !l.scopes[child.Key()].status.Terminal()
    ensures n.scopes == l.scopes[child.Key() := L.Scope(outcome.ToStatus(), false, Some(outcome))]
    ensures n.available == l.available + (if l.scopes[child.Key()].permit then 1 else 0)
    ensures SameTree(l.store, n.store)
  {
    var won := L.FinishScope(l, 0, child, outcome);
    L.Recorded(L.PersistSummary(L.PersistStatus(won, 0), 0), 0)
  }

  function FinishedAgain(s: System, child: Context, outcome: ChildTerminal): System
    requires s.life.threads == map[] && L.Trusted(s.life.store, child) && !child.Root()
    requires child.Key() in s.life.scopes && !s.life.scopes[child.Key()].status.Terminal()
  {
    s.(life := WonAgain(s.life, child, outcome), group := G.Step(s.group, Recording(child, outcome)))
  }

  /** The two writes on a finished caller: the joined children are still seen in between,
      the new terminal replaces the old one, no permit is released, and the group is offered
      the new result. */
  lemma TerminalReplaced(cfg: L.Config, s: System, caller: Context, outcome: ChildTerminal, before: L.Scopes,
                         handles: set<AgentKey>, observed: map<AgentId, ChildTerminal>, joined: seq<ChildResult>)
    requires Sound(cfg, s) && s.life.threads == map[] && L.Trusted(s.life.store, caller) && !caller.Root()
    requires Spawned(s.life, caller.Key()) && !Unfinished(s.life, caller.Key())
    requires SeenRightly(before, handles, s.life, caller.Key(), observed, joined)
    ensures var k := caller.Key();
            var m := Reopened(s, k);
            && m.life.threads == map[] && m.group == s.group && L.Trusted(m.life.store, caller) && Unfinished(m.life, k)
            && SeenRightly(before, handles, m.life, k, observed, joined)
            && var n := FinishedAgain(m, caller, outcome);
               && n.life.scopes == m.life.scopes[k := L.Scope(outcome.ToStatus(), false, Some(outcome))]
               && n.life.available == m.life.available && SameTree(s.life.store, n.life.store)
               && (G.Record(m.group.side, k, Sanitize(caller.agent, outcome)).0.Ok?, n.group.side) ==
                  Recorded(m.group.side, caller, n.life.scopes)
  {
    var k := caller.Key();
    ReopenFinished(cfg, s, k);
    var m := Reopened(s, k);
    OwnMoveKeeps(before, handles, s.life, m.life, k, observed, joined);
    SameTreeTrans(s.life.store, m.life.store, FinishedAgain(m, caller, outcome).life.store);
  }

  datatype Reservation = Reserved(child: Context) | Refused | StillWaiting

  /** One more running scope, one permit less; a child that has yet to join is on its way. */
  ghost predicate NewScope(l: L.Life, n: L.Life, child: Context, nodeType: L.NodeType, target: Option<GroupId>) {
    && child.Key() !in l.scopes && n.scopes == l.scopes[child.Key() := L.Scope(Running, true, None)]
    && l.available == n.available + 1 && n.nodeTypes == l.nodeTypes[child.Key() := nodeType]
    && L.Trusted(n.store, child)
    && n.threads == if target.Some? then map[0 := L.Registering(child, target.value)] else map[]
  }

  /** No new scope, or one that was cancelled at once and holds no permit. */
  ghost predicate Abandoned(before: L.Scopes, now: L.Scopes, child: AgentKey) {
    now == before || (child !in before
                      && now == before[child := L.Scope(Status.Cancelled, false, Some(ChildTerminal.Cancelled))])
  }

  /** A permit is taken in two steps, when nothing refuses the caller. */
  lemma AdmitEffect(cfg: L.Config, s: System, caller: Context, nodeType: L.NodeType, target: Option<GroupId>)
    requires s.life.threads == map[] && L.Trusted(s.life.store, caller)
    requires L.Refusal(cfg, s.life, caller, nodeType).None?
    ensures var e := Local(L.Admission(0, caller, nodeType, target));
            && Enabled(s, e)
            && Apply(cfg, s, e) == s.(life := s.life.(threads := map[0 := L.Admitted(caller, nodeType, target)]))
  {
  }

  lemma AcquireEffect(cfg: L.Config, s: System, caller: Context, nodeType: L.NodeType, target: Option<GroupId>)
    requires s.life.threads == map[0 := L.Admitted(caller, nodeType, target)] && s.life.available > 0
    ensures var e := Local(L.Acquisition(0));
            && Enabled(s, e)
            && Apply(cfg, s, e) == s.(life := s.life.(available := s.life.available - 1,
                                                     threads := map[0 := L.Holding(caller, nodeType, target)]))
  {
  }

  lemma InsertEffect(l: L.Life, m: L.Life, caller: Context, nodeType: L.NodeType, id: AgentId, caption: string,
                     generation: nat, target: Option<GroupId>)
    requires l.threads == map[] && l.available > 0 && l.scopes.Keys == l.store.records.Keys
    requires m == l.(available := l.available - 1, threads := map[0 := L.Holding(caller, nodeType, target)])
    ensures var n := L.InsertChild(m, 0, id, caption, generation);
            if caller.Child(id).Key() in l.store.records then n == l
              else NewScope(l, n, caller.Child(id), nodeType, target)
  {
    var n := L.InsertChild(m, 0, id, caption, generation);
    assert m.threads - {0} == map[];
    var waits := caller.Child(id).Key() !in l.store.records && target.Some?;
    assert n.threads == if waits then map[0 := L.Registering(caller.Child(id), target.value)] else map[];
  }

  lemma AbandonedAfter(before: L.Scopes, held: L.Scopes, now: L.Scopes, child: AgentKey)
    requires child !in before && held == before[child := L.Scope(Running, true, None)]
    requires now == FinishedScopes(held, child, ChildTerminal.Cancelled)
    ensures Abandoned(before, now, child)
  {
  }

  lemma NotYetMapped(cfg: L.Config, s: System, k: AgentKey)
    requires Sound(cfg, s)
    ensures k !in s.life.scopes ==> k !in s.group.side.childGroups
  {
    Open(cfg, s);
  }
}
