/** The fail-fast join: children are joined in order, and once one has failed the live
    subtree of every later child is cancelled before that child is awaited. */
module FailFast {
  import opened Ids
  import opened Agents
  import opened CancelTree
  import S = AgentStore
  import L = Lifecycle
  import J = JoinTree

  predicate Failing(t: ChildTerminal) { t.Failed? || t.Cancelled? }

  ghost predicate AnyFailing(ids: seq<AgentId>, observed: map<AgentId, ChildTerminal>) {
    exists b :: b in ids && b in observed && Failing(observed[b])
  }

  ghost predicate Outside(t: S.Store, x: AgentKey, session: SessionId, ids: seq<AgentId>) {
    forall c :: c in ids ==> !InSub(t, x, AgentKey(session, c))
  }

  /** Finished scopes stay as they are. */
  ghost predicate Later(before: L.Scopes, now: L.Scopes) {
    && now.Keys == before.Keys
    && forall d :: d in before && before[d].status.Terminal() ==> now[d] == before[d]
  }

  ghost predicate Swept(t: S.Store, before: L.Scopes, now: L.Scopes, c: AgentKey) {
    c in before && !before[c].status.Terminal() ==>
      forall d :: LivePath(t, before, d, c) ==> d in now && now[d].status.Terminal()
  }

  /** One child handled: it is finished, nothing outside its subtree has changed. */
  ghost predicate Handled(t: S.Store, before: L.Scopes, now: L.Scopes, c: AgentKey) {
    && Later(before, now) && J.Done(now, c)
    && forall x :: x in before && !InSub(t, x, c) ==> now[x] == before[x]
  }

  lemma CancelThenAwait(t: S.Store, before: L.Scopes, mid: L.Scopes, now: L.Scopes, c: AgentKey, log: seq<AgentKey>)
    requires c in before
    requires if before[c].status.Terminal() then mid == before else CancelledBelow(t, before, mid, c, log)
    requires c in mid && J.Done(now, c) && now == mid[c := now[c]] && (mid[c].status.Terminal() ==> now[c] == mid[c])
    ensures Handled(t, before, now, c) && Swept(t, before, now, c)
  {
    if !before[c].status.Terminal() {
      forall d | d in before && before[d].status.Terminal() ensures now[d] == before[d] {
        assert d in log ==> LivePath(t, before, d, c);
      }
      forall x | x in before && !InSub(t, x, c) ensures now[x] == before[x] {
        assert x in log ==> LivePath(t, before, x, c);
      }
      forall d | LivePath(t, before, d, c) ensures d in now && now[d].status.Terminal() {
        assert d in log;
      }
    }
  }

  /** The children `ids` have been joined with these outcomes. */
  ghost predicate Progress(t: S.Store, before: L.Scopes, handles: set<AgentKey>, now: L.Scopes, session: SessionId,
                           ids: seq<AgentId>, observed: map<AgentId, ChildTerminal>) {
    && Later(before, now) && J.Saw(session, ids, before, handles, now, observed)
    && (forall x {:trigger Outside(t, x, session, ids)} ::
          x in before && Outside(t, x, session, ids) ==> now[x] == before[x])
    && (forall i, j :: 0 <= i < j < |ids| && ids[i] in observed && Failing(observed[ids[i]]) ==>
          Swept(t, before, now, AgentKey(session, ids[j])))
  }

  /** What lies in the subtree of the next child is still as it was. */
  lemma NextUntouched(t: S.Store, before: L.Scopes, handles: set<AgentKey>, now: L.Scopes, k: AgentKey,
                      ids: seq<AgentId>, i: nat, observed: map<AgentId, ChildTerminal>, x: AgentKey)
    requires S.Forest(t) && i < |ids| && NoDuplicates(ids)
    requires forall c :: c in ids ==> S.ChildOf(t, AgentKey(k.session, c), k)
    requires Progress(t, before, handles, now, k.session, ids[..i], observed)
    requires x in before && InSub(t, x, AgentKey(k.session, ids[i]))
    ensures now[x] == before[x]
  {
    forall b | b in ids[..i] ensures !InSub(t, x, AgentKey(k.session, b)) {
      assert b in ids && ids[i] in ids;
      if InSub(t, x, AgentKey(k.session, b)) {
        SiblingsApart(t, k, AgentKey(k.session, b), AgentKey(k.session, ids[i]), x);
      }
    }
    assert Outside(t, x, k.session, ids[..i]);
  }

  lemma SweptStays(t: S.Store, before: L.Scopes, now: L.Scopes, next: L.Scopes, c: AgentKey)
    requires Swept(t, before, now, c) && Later(now, next)
    ensures Swept(t, before, next, c)
  {
  }

  /** A sweep seen from the state in which the child was handled is one seen from the start. */
  lemma SweptFromStart(t: S.Store, before: L.Scopes, now: L.Scopes, next: L.Scopes, c: AgentKey)
    requires S.Forest(t) && before.Keys == now.Keys
    requires forall x :: x in before && InSub(t, x, c) ==> now[x] == before[x]
    requires Swept(t, now, next, c)
    ensures Swept(t, before, next, c)
  {
    if c in before && !before[c].status.Terminal() {
      assert InSub(t, c, c);
      forall d | LivePath(t, before, d, c) ensures d in next && next[d].status.Terminal() {
        assert forall x :: x in before && S.Under(t, x, c) ==> InSub(t, x, c);
        LivePathFrame(t, before, now, d, c);
      }
    }
  }

  /** The next child has been handled, possibly after its live subtree was cancelled. */
  lemma Next(t: S.Store, before: L.Scopes, handles: set<AgentKey>, now: L.Scopes, k: AgentKey, ids: seq<AgentId>,
             i: nat, observed: map<AgentId, ChildTerminal>, next: L.Scopes, answer: ChildTerminal)
    requires S.Forest(t) && i < |ids| && NoDuplicates(ids)
    requires forall c :: c in ids ==> S.ChildOf(t, AgentKey(k.session, c), k)
    requires Progress(t, before, handles, now, k.session, ids[..i], observed)
    requires var c := AgentKey(k.session, ids[i]);
             && Handled(t, now, next, c) && J.SawOne(c, now, handles, next, answer)
             && (AnyFailing(ids[..i], observed) ==> Swept(t, now, next, c))
    ensures Progress(t, before, handles, next, k.session, ids[..i + 1], observed[ids[i] := answer])
  {
    SawNext(t, before, handles, now, k, ids, i, observed, next, answer);
    SweptNext(t, before, handles, now, k, ids, i, observed, next, answer);
    assert ids[..i + 1] == ids[..i] + [ids[i]];
    forall x | x in before && Outside(t, x, k.session, ids[..i + 1]) ensures next[x] == before[x] {
      assert Outside(t, x, k.session, ids[..i]);
    }
  }

  lemma SawNext(t: S.Store, before: L.Scopes, handles: set<AgentKey>, now: L.Scopes, k: AgentKey, ids: seq<AgentId>,
                i: nat, observed: map<AgentId, ChildTerminal>, next: L.Scopes, answer: ChildTerminal)
    requires i < |ids| && NoDuplicates(ids) && Later(before, now)
    requires J.Saw(k.session, ids[..i], before, handles, now, observed)
    requires Later(now, next) && J.SawOne(AgentKey(k.session, ids[i]), now, handles, next, answer)
    ensures Later(before, next) && J.Saw(k.session, ids[..i + 1], before, handles, next, observed[ids[i] := answer])
  {
    assert ids[..i + 1] == ids[..i] + [ids[i]];
    forall c | c in ids[..i] ensures J.SawOne(AgentKey(k.session, c), before, handles, next, observed[c]) {
      assert J.SawOne(AgentKey(k.session, c), before, handles, now, observed[c]);
    }
  }

  lemma SweptNext(t: S.Store, before: L.Scopes, handles: set<AgentKey>, now: L.Scopes, k: AgentKey, ids: seq<AgentId>,
                  i: nat, observed: map<AgentId, ChildTerminal>, next: L.Scopes, answer: ChildTerminal)
    requires S.Forest(t) && i < |ids| && NoDuplicates(ids)
    requires forall c :: c in ids ==> S.ChildOf(t, AgentKey(k.session, c), k)
    requires Progress(t, before, handles, now, k.session, ids[..i], observed) && Later(now, next)
    requires AnyFailing(ids[..i], observed) ==> Swept(t, now, next, AgentKey(k.session, ids[i]))
    ensures var done, more := ids[..i + 1], observed[ids[i] := answer];
            forall a, b :: 0 <= a < b < |done| && done[a] in more && Failing(more[done[a]])
                           ==> Swept(t, before, next, AgentKey(k.session, done[b]))
  {
    var c := AgentKey(k.session, ids[i]);
    assert ids[..i + 1] == ids[..i] + [ids[i]];
    var done, more := ids[..i + 1], observed[ids[i] := answer];
    forall a, b | 0 <= a < b < |done| && done[a] in more && Failing(more[done[a]])
      ensures Swept(t, before, next, AgentKey(k.session, done[b]))
    {
      assert ids[..i][a] == ids[a];
      if b < i {
        assert ids[..i][b] == ids[b];
        SweptStays(t, before, now, next, AgentKey(k.session, ids[b]));
      } else {
        assert ids[a] in ids[..i];
        forall x | x in before && InSub(t, x, c)
          ensures now[x] == before[x]
        {
          NextUntouched(t, before, handles, now, k, ids, i, observed, x);
        }
        SweptFromStart(t, before, now, next, c);
      }
    }
  }
}
