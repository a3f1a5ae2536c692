/** Recursive cancellation seen from the tree: which scopes a top-down walk over
    live children reaches, and how its two loops accumulate their effect. */
module CancelTree {
  import opened Ids
  import opened Agents
  import opened AgentStore
  import D = AgentDirectory
  import L = Lifecycle

  predicate LiveIn(scopes: L.Scopes, k: AgentKey) { k in scopes && scopes[k].status.Live() }

  /** `d` lies below `k` and every scope on the way down to it, itself included, is live. */
  ghost predicate LivePath(t: Store, scopes: L.Scopes, d: AgentKey, k: AgentKey)
    decreases if d in t.records then t.records[d].depth else 0
  {
    Under(t, d, k) && LiveIn(scopes, d) &&
    var p := AgentKey(d.session, t.records[d].parent.value);
    p == k || (p in t.records && t.records[p].depth < t.records[d].depth && LivePath(t, scopes, p, k))
  }

  ghost predicate InSub(t: Store, x: AgentKey, c: AgentKey) { x == c || Under(t, x, c) }

  ghost predicate LiveKid(t: Store, scopes: L.Scopes, c: AgentKey, k: AgentKey)
  {
    ChildOf(t, c, k) && LiveIn(scopes, c)
  }

  /** Different children of one parent have nothing below them in common. */
  lemma SiblingsApart(t: Store, k: AgentKey, b: AgentKey, c: AgentKey, x: AgentKey)
    requires Forest(t) && ChildOf(t, b, k) && ChildOf(t, c, k) && InSub(t, x, b) && InSub(t, x, c)
    ensures b == c
  {
    assert ParentOk(t, b) && ParentOk(t, c);
    if x == b && x != c {
      UnderIsDeeper(t, x, c);
    } else if x == c && x != b {
      UnderIsDeeper(t, x, b);
    } else if x != b {
      D.AncestorAtDepth(t, x, b, c);
    }
  }

  lemma {:induction false} LivePathDown(t: Store, scopes: L.Scopes, d: AgentKey, c: AgentKey, k: AgentKey)
    requires Forest(t) && LiveKid(t, scopes, c, k) && (d == c || LivePath(t, scopes, d, c))
    ensures LivePath(t, scopes, d, k)
    decreases t.records[d].depth
  {
    assert ParentOk(t, d);
    if d != c {
      UnderIsDeeper(t, d, c);
      UnderTrans(t, d, c, k);
      LivePathDown(t, scopes, AgentKey(d.session, t.records[d].parent.value), c, k);
    }
  }

  lemma {:induction false} LivePathUp(t: Store, scopes: L.Scopes, d: AgentKey, k: AgentKey) returns (c: AgentKey)
    requires Forest(t) && LivePath(t, scopes, d, k)
    ensures LiveKid(t, scopes, c, k) && (d == c || LivePath(t, scopes, d, c))
    decreases t.records[d].depth
  {
    assert ParentOk(t, d);
    var p := AgentKey(d.session, t.records[d].parent.value);
    if p == k {
      c := d;
    } else {
      c := LivePathUp(t, scopes, p, k);
      assert p == c || Under(t, p, c);
    }
  }

  /** A walk below `c` depends only on the scopes below `c`. */
  lemma {:induction false} LivePathFrame(t: Store, a: L.Scopes, b: L.Scopes, d: AgentKey, c: AgentKey)
    requires Forest(t) && a.Keys == b.Keys
    requires forall x :: x in a && Under(t, x, c) ==> a[x] == b[x]
    ensures LivePath(t, a, d, c) <==> LivePath(t, b, d, c)
    decreases if d in t.records then t.records[d].depth else 0
  {
    if Under(t, d, c) {
      assert ParentOk(t, d);
      var p := AgentKey(d.session, t.records[d].parent.value);
      if p != c { LivePathFrame(t, a, b, p, c); }
    }
  }

  /** Nothing becomes terminal before what lies below it. */
  ghost predicate BottomUp(t: Store, log: seq<AgentKey>) {
    forall i, j :: 0 <= i < |log| && 0 <= j < |log| && Under(t, log[j], log[i]) ==> j < i
  }

  /** Between its two loops: `k` is marked, the children in `marked` are marked and
      all reachable below them finished, the children in `done` finished themselves. */
  ghost predicate Partway(t: Store, before: L.Scopes, now: L.Scopes, k: AgentKey, marked: set<AgentKey>,
                          done: set<AgentKey>, log: seq<AgentKey>) {
    && now.Keys == before.Keys && k in before && done <= marked
    && (forall c :: c in marked ==> LiveKid(t, before, c, k))
    && now[k] == before[k].(status := Cancelling)
    && (forall c :: c in marked && c !in done ==> now[c] == before[c].(status := Cancelling))
    && NoDuplicates(log) && BottomUp(t, log)
    && (forall d {:trigger Logged(t, before, marked, done, d)} :: d in log <==> Logged(t, before, marked, done, d))
    && (forall d :: d in log ==> d in now && now[d].status.Terminal())
    && (forall d :: d in before && d != k && d !in marked && d !in log ==> now[d] == before[d])
  }

  ghost predicate Logged(t: Store, before: L.Scopes, marked: set<AgentKey>, done: set<AgentKey>, d: AgentKey) {
    d in done || exists c :: c in marked && LivePath(t, before, d, c)
  }

  /** The whole effect of cancelling below `k`. */
  ghost predicate CancelledBelow(t: Store, before: L.Scopes, now: L.Scopes, k: AgentKey, log: seq<AgentKey>) {
    && now.Keys == before.Keys && k in before
    && now[k] == before[k].(status := Cancelling)
    && NoDuplicates(log) && BottomUp(t, log)
    && (forall d {:trigger LivePath(t, before, d, k)} :: d in log <==> LivePath(t, before, d, k))
    && (forall d :: d in log ==> d in now && now[d].status.Terminal())
    && (forall d :: d in before && d != k && d !in log ==> now[d] == before[d])
  }

  lemma LoggedInSub(t: Store, before: L.Scopes, marked: set<AgentKey>, done: set<AgentKey>, d: AgentKey)
    returns (b: AgentKey)
    requires done <= marked && Logged(t, before, marked, done, d)
    ensures b in marked && InSub(t, d, b)
  {
    if d in done { b := d; } else { b :| b in marked && LivePath(t, before, d, b); }
  }

  /** What lies in the part of an unmarked child is still untouched. */
  lemma UntouchedChild(t: Store, before: L.Scopes, now: L.Scopes, k: AgentKey, marked: set<AgentKey>,
                       done: set<AgentKey>, log: seq<AgentKey>, c: AgentKey, x: AgentKey)
    requires Forest(t) && Partway(t, before, now, k, marked, done, log) && ChildOf(t, c, k) && c !in marked
    requires x in before && InSub(t, x, c)
    ensures x !in log && x !in marked && x != k && now[x] == before[x]
  {
    assert ParentOk(t, c);
    if x == k { UnderIsDeeper(t, x, c); }
    if x in marked { SiblingsApart(t, k, x, c, x); }
    if x in log {
      assert Logged(t, before, marked, done, x);
      var b := LoggedInSub(t, before, marked, done, x);
      SiblingsApart(t, k, b, c, x);
    }
  }

  lemma JoinBottomUp(t: Store, a: seq<AgentKey>, b: seq<AgentKey>)
    requires BottomUp(t, a) && BottomUp(t, b) && NoDuplicates(a) && NoDuplicates(b)
    requires forall x, y :: x in a && y in b ==> x != y && !Under(t, y, x)
    ensures BottomUp(t, a + b) && NoDuplicates(a + b)
  {
    var s := a + b;
    assert forall i :: 0 <= i < |s| ==> if i < |a| then s[i] in a else s[i] in b;
    forall i, j | 0 <= i < |s| && 0 <= j < |s| && Under(t, s[j], s[i]) ensures j < i {
      if i >= |a| && j >= |a| { assert Under(t, b[j - |a|], b[i - |a|]); }
    }
    forall i, j | 0 <= i < j < |s| ensures s[i] != s[j] {
      if i < |a| && j >= |a| { assert s[i] in a && s[j] in b; }
    }
  }

  /** First loop, one more child: its whole part is cancelled below it. */
  lemma MarkChild(t: Store, before: L.Scopes, now: L.Scopes, k: AgentKey, marked: set<AgentKey>, log: seq<AgentKey>,
                  c: AgentKey, next: L.Scopes, sub: seq<AgentKey>)
    requires Forest(t) && Partway(t, before, now, k, marked, {}, log)
    requires LiveKid(t, before, c, k) && c !in marked && CancelledBelow(t, now, next, c, sub)
    ensures Partway(t, before, next, k, marked + {c}, {}, log + sub)
  {
    assert now[c] == before[c] by { UntouchedChild(t, before, now, k, marked, {}, log, c, c); }
    forall x | x in now && Under(t, x, c)
      ensures now[x] == before[x]
    {
      UntouchedChild(t, before, now, k, marked, {}, log, c, x);
    }
    forall d ensures d in sub <==> LivePath(t, before, d, c) { LivePathFrame(t, now, before, d, c); }
    forall x, y | x in log && y in sub
      ensures x != y && !Under(t, y, x)
    {
      MarkApart(t, before, now, k, marked, log, c, x, y);
    }
    JoinBottomUp(t, log, sub);
    MarkLogs(t, before, marked, log, c, sub);
    MarkScopes(t, before, now, k, marked, log, c, next, sub);
  }

  lemma MarkApart(t: Store, before: L.Scopes, now: L.Scopes, k: AgentKey, marked: set<AgentKey>, log: seq<AgentKey>,
                  c: AgentKey, x: AgentKey, y: AgentKey)
    requires Forest(t) && Partway(t, before, now, k, marked, {}, log) && ChildOf(t, c, k) && c !in marked
    requires x in log && LivePath(t, before, y, c)
    ensures x != y && !Under(t, y, x)
  {
    assert Logged(t, before, marked, {}, x);
    var b := LoggedInSub(t, before, marked, {}, x);
    if x == y {
      SiblingsApart(t, k, b, c, x);
    } else if Under(t, y, x) {
      UnderTrans(t, y, x, b);
      SiblingsApart(t, k, b, c, y);
    }
  }

  lemma MarkLogs(t: Store, before: L.Scopes, marked: set<AgentKey>, log: seq<AgentKey>, c: AgentKey, sub: seq<AgentKey>)
    requires forall d {:trigger Logged(t, before, marked, {}, d)} :: d in log <==> Logged(t, before, marked, {}, d)
    requires forall d :: d in sub <==> LivePath(t, before, d, c)
    ensures forall d {:trigger Logged(t, before, marked + {c}, {}, d)} ::
              d in log + sub <==> Logged(t, before, marked + {c}, {}, d)
  {
    forall d ensures d in log + sub <==> Logged(t, before, marked + {c}, {}, d) {
      assert d in log <==> Logged(t, before, marked, {}, d);
      if Logged(t, before, marked, {}, d) {
        var b :| b in marked && LivePath(t, before, d, b);
        assert b in marked + {c};
      }
      if d in sub { assert c in marked + {c}; }
    }
  }

  lemma MarkScopes(t: Store, before: L.Scopes, now: L.Scopes, k: AgentKey, marked: set<AgentKey>, log: seq<AgentKey>,
                   c: AgentKey, next: L.Scopes, sub: seq<AgentKey>)
    requires Forest(t) && Partway(t, before, now, k, marked, {}, log)
    requires LiveKid(t, before, c, k) && c !in marked && CancelledBelow(t, now, next, c, sub) && now[c] == before[c]
    ensures next.Keys == before.Keys && next[k] == before[k].(status := Cancelling)
    ensures forall b :: b in marked + {c} ==> next[b] == before[b].(status := Cancelling)
    ensures forall d :: d in log + sub ==> d in next && next[d].status.Terminal()
    ensures forall d :: d in before && d != k && d !in marked + {c} && d !in log + sub ==> next[d] == before[d]
  {
    assert ParentOk(t, c);
    forall x | x in sub ensures Under(t, x, c) { assert LivePath(t, now, x, c); }
    assert k != c && k !in sub by { if k in sub { UnderIsDeeper(t, k, c); } }
    forall b | b in marked ensures b != c && b !in sub {
      if b in sub { SiblingsApart(t, k, b, c, b); }
    }
    forall x | x in log ensures x != c && x !in sub {
      if x == c || x in sub { UntouchedChild(t, before, now, k, marked, {}, log, c, x); }
    }
  }

  lemma KidNotLogged(t: Store, before: L.Scopes, k: AgentKey, marked: set<AgentKey>, done: set<AgentKey>, c: AgentKey,
                     x: AgentKey)
    requires Forest(t) && (forall b :: b in marked ==> ChildOf(t, b, k)) && done <= marked
    requires c in marked && c !in done && Logged(t, before, marked, done, x)
    ensures x != c && !Under(t, c, x)
  {
    if x == c {
      var e :| e in marked && LivePath(t, before, c, e);
      SiblingsApart(t, k, e, c, c);
      UnderIsDeeper(t, c, e);
    } else if Under(t, c, x) {
      var b := LoggedInSub(t, before, marked, done, x);
      UnderTrans(t, c, x, b);
      SiblingsApart(t, k, b, c, c);
      UnderIsDeeper(t, c, x);
      UnderIsDeeper(t, x, c);
    }
  }

  /** Second loop, one more child: it finishes after everything below it. */
  lemma FinishKid(t: Store, before: L.Scopes, now: L.Scopes, k: AgentKey, marked: set<AgentKey>, done: set<AgentKey>,
                  log: seq<AgentKey>, c: AgentKey, scope: L.Scope)
    requires Forest(t) && Partway(t, before, now, k, marked, done, log)
    requires c in marked && c !in done && scope.status.Terminal()
    ensures c !in log && now[c] == before[c].(status := Cancelling)
    ensures Partway(t, before, now[c := scope], k, marked, done + {c}, log + [c])
  {
    assert ParentOk(t, c);
    assert !Under(t, c, c) by { if Under(t, c, c) { UnderIsDeeper(t, c, c); } }
    forall x | x in log ensures x != c && !Under(t, c, x) {
      assert Logged(t, before, marked, done, x);
      KidNotLogged(t, before, k, marked, done, c, x);
    }
    JoinBottomUp(t, log, [c]);
    forall d ensures d in log + [c] <==> Logged(t, before, marked, done + {c}, d) {
      assert d in log <==> Logged(t, before, marked, done, d);
    }
  }

  /** Both loops over all live children: exactly the live paths were finished. */
  lemma Complete(t: Store, before: L.Scopes, now: L.Scopes, k: AgentKey, kids: set<AgentKey>, log: seq<AgentKey>)
    requires Forest(t) && Partway(t, before, now, k, kids, kids, log)
    requires forall c :: LiveKid(t, before, c, k) ==> c in kids
    ensures CancelledBelow(t, before, now, k, log)
  {
    forall d ensures d in log <==> LivePath(t, before, d, k) {
      assert d in log <==> Logged(t, before, kids, kids, d);
      if LivePath(t, before, d, k) {
        var c := LivePathUp(t, before, d, k);
      }
      if Logged(t, before, kids, kids, d) {
        var c: AgentKey;
        if d in kids { c := d; } else { c :| c in kids && LivePath(t, before, d, c); }
        LivePathDown(t, before, d, c, k);
      }
    }
  }

  // ------------------------------------------------------ cancelling a whole scope

  /** The effect of `cancel_scope` on `k`: nothing if it had finished, otherwise `k`
      and every live path below it finish, bottom-up, and nothing else changes. */
  ghost predicate CancelledAll(t: Store, before: L.Scopes, now: L.Scopes, k: AgentKey, log: seq<AgentKey>)
    requires k in before
  {
    if before[k].status.Terminal() then now == before && log == []
    else
      && now.Keys == before.Keys && NoDuplicates(log) && BottomUp(t, log)
      && (forall d {:trigger LivePath(t, before, d, k)} :: d in log <==> d == k || LivePath(t, before, d, k))
      && (forall d :: d in log ==> d in now && now[d].status.Terminal())
      && (forall d :: d in before && d !in log ==> now[d] == before[d])
  }

  lemma FinishRoot(t: Store, before: L.Scopes, now: L.Scopes, k: AgentKey, log: seq<AgentKey>, scope: L.Scope)
    requires Forest(t) && CancelledBelow(t, before, now, k, log) && !before[k].status.Terminal()
    requires scope.status.Terminal()
    ensures k !in log && CancelledAll(t, before, now[k := scope], k, log + [k])
  {
    assert !Under(t, k, k) by { if Under(t, k, k) { UnderIsDeeper(t, k, k); } }
    forall x | x in log ensures x != k && !Under(t, k, x) {
      assert LivePath(t, before, x, k);
      UnderIsDeeper(t, x, k);
      if Under(t, k, x) { UnderIsDeeper(t, k, x); }
    }
    JoinBottomUp(t, log, [k]);
  }

  /** Finished scopes have only finished descendants, and no scope strictly below `k`
      is already being cancelled by someone else. */
  ghost predicate Cancellable(t: Store, scopes: L.Scopes, k: AgentKey) {
    && (forall a, d :: a in scopes && d in scopes && InSub(t, a, k) && Under(t, d, a) ==>
          (scopes[a].status.Terminal() ==> scopes[d].status.Terminal()))
    && (forall d :: d in scopes && Under(t, d, k) ==> scopes[d].status != Cancelling)
  }

  lemma {:induction false} CleanPath(t: Store, scopes: L.Scopes, d: AgentKey, k: AgentKey)
    requires Forest(t) && scopes.Keys == t.records.Keys && Cancellable(t, scopes, k)
    requires Under(t, d, k) && !scopes[d].status.Terminal()
    ensures LivePath(t, scopes, d, k)
    decreases t.records[d].depth
  {
    assert ParentOk(t, d);
    var p := AgentKey(d.session, t.records[d].parent.value);
    if p != k {
      assert Under(t, d, p) && InSub(t, p, k);
      CleanPath(t, scopes, p, k);
    }
  }

  lemma {:induction false} LivePathThrough(t: Store, scopes: L.Scopes, d: AgentKey, a: AgentKey, k: AgentKey)
    requires Forest(t) && LivePath(t, scopes, d, k) && Under(t, d, a) && Under(t, a, k)
    ensures LiveIn(scopes, a)
    decreases t.records[d].depth
  {
    assert ParentOk(t, d);
    UnderIsDeeper(t, a, k);
    var p := AgentKey(d.session, t.records[d].parent.value);
    if p == k { UnderIsDeeper(t, d, a); } else if p != a { LivePathThrough(t, scopes, p, a, k); }
  }

  /** Cancelling leaves the whole subtree finished exactly when it was cancellable. */
  lemma AllFinishedIff(t: Store, before: L.Scopes, now: L.Scopes, k: AgentKey, log: seq<AgentKey>)
    requires Forest(t) && before.Keys == t.records.Keys && k in before && CancelledAll(t, before, now, k, log)
    ensures (forall d :: d in now && InSub(t, d, k) ==> now[d].status.Terminal()) <==> Cancellable(t, before, k)
  {
    if Cancellable(t, before, k) {
      forall d | d in now && InSub(t, d, k) ensures now[d].status.Terminal() {
        if before[k].status.Terminal() {
          if d != k { assert InSub(t, k, k) && Under(t, d, k); }
        } else if !before[d].status.Terminal() && d != k {
          CleanPath(t, before, d, k);
        } else if d == k {
          assert LivePath(t, before, k, k) || k in log;
        }
      }
    }
    if !Cancellable(t, before, k) { LeftBehind(t, before, now, k, log); }
  }

  /** In a cancellable subtree the scopes that finish are exactly the unfinished ones. */
  lemma LogIsUnfinished(t: Store, before: L.Scopes, now: L.Scopes, k: AgentKey, log: seq<AgentKey>)
    requires Forest(t) && before.Keys == t.records.Keys && k in before && CancelledAll(t, before, now, k, log)
    requires Cancellable(t, before, k)
    ensures forall d :: d in before ==> (d in log <==> InSub(t, d, k) && !before[d].status.Terminal())
  {
    forall d | d in before ensures d in log <==> InSub(t, d, k) && !before[d].status.Terminal() {
      if before[k].status.Terminal() {
        if d != k && Under(t, d, k) { assert InSub(t, k, k); }
      } else {
        if d in log && d != k { assert LivePath(t, before, d, k); }
        if d == k { assert LivePath(t, before, k, k) || k in log; }
        if d != k && Under(t, d, k) && !before[d].status.Terminal() { CleanPath(t, before, d, k); }
      }
    }
  }

  lemma LeftBehind(t: Store, before: L.Scopes, now: L.Scopes, k: AgentKey, log: seq<AgentKey>)
    requires Forest(t) && before.Keys == t.records.Keys && k in before && CancelledAll(t, before, now, k, log)
    requires !Cancellable(t, before, k)
    ensures exists d :: d in now && InSub(t, d, k) && !now[d].status.Terminal()
  {
    if exists d :: d in before && Under(t, d, k) && before[d].status == Cancelling {
      var d :| d in before && Under(t, d, k) && before[d].status == Cancelling;
      UnderIsDeeper(t, d, k);
      assert !LivePath(t, before, d, k);
      assert d in now && InSub(t, d, k) && !now[d].status.Terminal();
    } else {
      var a, d :| a in before && d in before && InSub(t, a, k) && Under(t, d, a) && before[a].status.Terminal()
        && !before[d].status.Terminal();
      UnderTrans(t, d, a, k);
      UnderIsDeeper(t, d, k);
      if LivePath(t, before, d, k) && a != k { LivePathThrough(t, before, d, a, k); }
      assert d in now && InSub(t, d, k) && !now[d].status.Terminal();
    }
  }
}
