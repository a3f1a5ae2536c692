/** The in-memory hierarchy store: agent records and a child index. */
module AgentStore {
  import opened Ids
  import opened Agents

  datatype ChildSummary = ChildSummary(text: string, errorCode: Option<string>)

  datatype Record = Record(
    session: SessionId, agent: AgentId, parent: Option<AgentId>, depth: nat, generation: nat,
    status: Status, caption: string, summary: Option<ChildSummary>)
  {
    function Key(): AgentKey { AgentKey(session, agent) }
    function ParentOf(): ParentKey { ParentKey(session, parent) }
  }

  datatype ParentKey = ParentKey(session: SessionId, parent: Option<AgentId>)

  datatype Store = Store(records: map<AgentKey, Record>, children: map<ParentKey, seq<AgentId>>)

  datatype StoreError = NotVisible | AlreadyExists | AgentNotFound(agent: AgentId)

  const Empty := Store(map[], map[])

  function ChildIds(s: Store, p: ParentKey): seq<AgentId> {
    if p in s.children then s.children[p] else []
  }

  function Insert(s: Store, r: Record): (Result<(), StoreError>, Store) {
    if r.Key() in s.records then (Err(AlreadyExists), s)
    else (Ok(()), Store(s.records[r.Key() := r], s.children[r.ParentOf() := ChildIds(s, r.ParentOf()) + [r.agent]]))
  }

  function UpdateStatus(s: Store, k: AgentKey, status: Status): (Result<(), StoreError>, Store) {
    if k !in s.records then (Err(AgentNotFound(k.agent)), s)
    else (Ok(()), s.(records := s.records[k := s.records[k].(status := status)]))
  }

  function SetSummary(s: Store, k: AgentKey, summary: ChildSummary): (Result<(), StoreError>, Store) {
    if k !in s.records then (Err(AgentNotFound(k.agent)), s)
    else (Ok(()), s.(records := s.records[k := s.records[k].(summary := Some(summary))]))
  }

  // ------------------------------------------------------------------- forest

  predicate ParentOk(s: Store, k: AgentKey)
    requires k in s.records
  {
    match s.records[k].parent
    case None => s.records[k].depth == 0
    case Some(p) =>
      AgentKey(k.session, p) in s.records && s.records[k].depth == s.records[AgentKey(k.session, p)].depth + 1
  }

  predicate Lists(s: Store, p: ParentKey, c: AgentId) { c in ChildIds(s, p) }

  predicate HasParent(s: Store, k: AgentKey, p: Option<AgentId>) { k in s.records && s.records[k].parent == p }

  /** Every non-root record's parent exists one level above it, and the child index
      lists exactly the records with that parent, each once. */
  ghost predicate Forest(s: Store) {
    && (forall k :: k in s.records ==> s.records[k].Key() == k)
    && (forall k {:trigger ParentOk(s, k)} :: k in s.records ==> ParentOk(s, k))
    && (forall p, c {:trigger Lists(s, p, c)} :: Lists(s, p, c) <==> HasParent(s, AgentKey(p.session, c), p.parent))
    && (forall p :: NoDuplicates(ChildIds(s, p)))
  }

  lemma InsertKeepsForest(s: Store, r: Record)
    requires Forest(s)
    requires r.parent.None? ==> r.depth == 0
    requires r.parent.Some? ==> var p := AgentKey(r.session, r.parent.value);
                                p in s.records && r.depth == s.records[p].depth + 1
    ensures Forest(Insert(s, r).1)
  {
    if r.Key() !in s.records {
      var t := Insert(s, r).1;
      assert !Lists(s, r.ParentOf(), r.agent);
      forall k | k in t.records ensures ParentOk(t, k) {
        if k != r.Key() { assert ParentOk(s, k); }
      }
      forall p, c ensures Lists(t, p, c) <==> HasParent(t, AgentKey(p.session, c), p.parent) {
        assert Lists(s, p, c) <==> HasParent(s, AgentKey(p.session, c), p.parent);
      }
      forall p ensures NoDuplicates(ChildIds(t, p)) {
        assert NoDuplicates(ChildIds(s, p));
        assert ChildIds(t, p) == if p == r.ParentOf() then ChildIds(s, p) + [r.agent] else ChildIds(s, p);
      }
    }
  }

  /** Rewriting a record without moving it keeps the forest. */
  lemma RewriteKeepsForest(s: Store, k: AgentKey, r: Record)
    requires Forest(s) && k in s.records
    requires r.Key() == k && r.parent == s.records[k].parent && r.depth == s.records[k].depth
    ensures Forest(s.(records := s.records[k := r]))
  {
    var t := s.(records := s.records[k := r]);
    forall j | j in t.records ensures ParentOk(t, j) { assert ParentOk(s, j); }
    forall p, c ensures Lists(t, p, c) <==> HasParent(t, AgentKey(p.session, c), p.parent) {
      assert Lists(s, p, c) <==> HasParent(s, AgentKey(p.session, c), p.parent);
    }
    assert forall p :: ChildIds(t, p) == ChildIds(s, p);
  }

  // -------------------------------------------------------------- descendants

  /** `k` lies strictly below `a`: some chain of parent links leads from it to `a`. */
  ghost predicate Under(s: Store, k: AgentKey, a: AgentKey)
    decreases if k in s.records then s.records[k].depth else 0
  {
    k in s.records && s.records[k].parent.Some? && k.session == a.session &&
    var p := AgentKey(k.session, s.records[k].parent.value);
    p == a || (p in s.records && s.records[p].depth < s.records[k].depth && Under(s, p, a))
  }

  predicate ChildOf(s: Store, k: AgentKey, p: AgentKey) {
    k in s.records && k.session == p.session && s.records[k].parent == Some(p.agent)
  }

  lemma {:induction false} UnderIsDeeper(s: Store, k: AgentKey, a: AgentKey)
    requires Forest(s) && Under(s, k, a)
    ensures a in s.records && s.records[a].depth < s.records[k].depth
    decreases s.records[k].depth
  {
    assert ParentOk(s, k);
    var p := AgentKey(k.session, s.records[k].parent.value);
    if p != a { UnderIsDeeper(s, p, a); }
  }

  lemma {:induction false} UnderTrans(s: Store, d: AgentKey, c: AgentKey, k: AgentKey)
    requires Forest(s) && Under(s, d, c) && (c == k || Under(s, c, k))
    ensures Under(s, d, k)
    decreases s.records[d].depth
  {
    assert ParentOk(s, d);
    var p := AgentKey(d.session, s.records[d].parent.value);
    if p != c && c != k { UnderTrans(s, p, c, k); }
  }

  /** A set holding the children of `a` and closed under children holds everything below `a`. */
  lemma {:induction false} ClosedCoversUnder(s: Store, a: AgentKey, done: set<AgentKey>, k: AgentKey)
    requires Forest(s) && Under(s, k, a)
    requires forall c :: c in s.records && ChildOf(s, c, a) ==> c in done
    requires forall c, p :: p in done && c in s.records && ChildOf(s, c, p) ==> c in done
    ensures k in done
    decreases s.records[k].depth
  {
    var p := AgentKey(k.session, s.records[k].parent.value);
    if p != a {
      ClosedCoversUnder(s, a, done, p);
      assert ChildOf(s, k, p);
    } else {
      assert ChildOf(s, k, a);
    }
  }

  ghost function Below(s: Store, a: AgentKey): set<AgentKey> { set k | k in s.records && Under(s, k, a) }

  predicate ParentSeen(s: Store, k: AgentKey, root: AgentKey, done: set<AgentKey>) {
    k in s.records && k.session == root.session && s.records[k].parent.Some?
    && (s.records[k].parent.value == root.agent || AgentKey(k.session, s.records[k].parent.value) in done)
  }

  /** The visited-free worklist: what was emitted or still queued is exactly what
      has the root or an emitted agent for its parent. */
  ghost predicate Frontier(s: Store, root: AgentKey, done: set<AgentKey>, queue: seq<AgentId>) {
    && NoDuplicates(queue)
    && (forall k :: k in done ==> k.session == root.session && k.agent !in queue && Under(s, k, root))
    && (forall k {:trigger ParentSeen(s, k, root, done)} ::
          ParentSeen(s, k, root, done) <==> k in done || (k.session == root.session && k.agent in queue))
  }

  lemma FrontierStart(s: Store, root: AgentKey)
    requires Forest(s)
    ensures Frontier(s, root, {}, ChildIds(s, ParentKey(root.session, Some(root.agent))))
  {
    var pk := ParentKey(root.session, Some(root.agent));
    forall k: AgentKey ensures ParentSeen(s, k, root, {}) <==> k.session == root.session && k.agent in ChildIds(s, pk) {
      assert Lists(s, pk, k.agent) <==> HasParent(s, AgentKey(root.session, k.agent), Some(root.agent));
    }
  }

  lemma FrontierHead(s: Store, root: AgentKey, done: set<AgentKey>, rest: seq<AgentId>, q: AgentId)
    requires Forest(s) && Frontier(s, root, done, rest + [q])
    ensures var k := AgentKey(root.session, q);
            k in s.records && k !in done && Under(s, k, root) && k != root
  {
    var k := AgentKey(root.session, q);
    assert (rest + [q])[|rest|] == q;
    assert ParentSeen(s, k, root, done) && ParentOk(s, k);
    UnderIsDeeper(s, k, root);
  }

  lemma IndexedChildren(s: Store, k: AgentKey)
    requires Forest(s)
    ensures forall c: AgentKey ::
              c.session == k.session && c.agent in ChildIds(s, ParentKey(k.session, Some(k.agent)))
              <==> ChildOf(s, c, k)
  {
    forall c: AgentKey
      ensures c.session == k.session && c.agent in ChildIds(s, ParentKey(k.session, Some(k.agent)))
              <==> ChildOf(s, c, k)
    {
      assert Lists(s, ParentKey(k.session, Some(k.agent)), c.agent)
        <==> HasParent(s, AgentKey(k.session, c.agent), Some(k.agent));
    }
  }

  /** No child of the popped agent was seen before, because its parent was not yet emitted. */
  lemma FrontierKids(s: Store, root: AgentKey, done: set<AgentKey>, k: AgentKey)
    requires Forest(s) && k in s.records && k !in done && k != root && k.session == root.session
    ensures forall c: AgentKey | ChildOf(s, c, k) :: !ParentSeen(s, c, root, done) && c != k
    ensures forall c: AgentKey ::
              ParentSeen(s, c, root, done + {k}) <==> ParentSeen(s, c, root, done) || ChildOf(s, c, k)
  {
    forall c: AgentKey | ChildOf(s, c, k) ensures !ParentSeen(s, c, root, done) && c != k {
      assert ParentOk(s, c);
    }
  }

  lemma JoinDistinct(a: seq<AgentId>, q: AgentId, b: seq<AgentId>)
    requires NoDuplicates(a + [q]) && NoDuplicates(b)
    requires forall c :: c in b ==> c !in a && c != q
    ensures NoDuplicates(a + b) && q !in a + b
  {
    assert forall i :: 0 <= i < |a| ==> (a + [q])[i] == a[i];
    assert (a + [q])[|a|] == q;
    forall i, j | 0 <= i < j < |a + b| ensures (a + b)[i] != (a + b)[j] {
      if i < |a| <= j { assert b[j - |a|] in b && a[i] in a; }
    }
  }

  /** Popping `q` and pushing its children keeps the worklist property. */
  lemma FrontierPop(s: Store, root: AgentKey, done: set<AgentKey>, rest: seq<AgentId>, q: AgentId)
    requires Forest(s) && Frontier(s, root, done, rest + [q])
    ensures Frontier(s, root, done + {AgentKey(root.session, q)}, rest + ChildIds(s, ParentKey(root.session, Some(q))))
  {
    var k := AgentKey(root.session, q);
    var kids := ChildIds(s, ParentKey(root.session, Some(q)));
    FrontierHead(s, root, done, rest, q);
    IndexedChildren(s, k);
    FrontierKids(s, root, done, k);
    forall c | c in kids ensures c !in rest && c != q {
      assert ChildOf(s, AgentKey(root.session, c), k);
      assert !ParentSeen(s, AgentKey(root.session, c), root, done);
    }
    assert NoDuplicates(kids);
    JoinDistinct(rest, q, kids);
    forall c | c in done ensures c.agent !in kids {
      assert ParentSeen(s, c, root, done);
    }
  }

  /** The ids that have a record, in index order. */
  function Existing(s: Store, session: SessionId, ids: seq<AgentId>): (r: seq<AgentId>)
    ensures forall c :: c in r <==> c in ids && AgentKey(session, c) in s.records
  {
    if ids == [] then []
    else (if AgentKey(session, ids[0]) in s.records then [ids[0]] else []) + Existing(s, session, ids[1..])
  }

  /** `direct_children`: the children of `k`, ordered by id. */
  function DirectChildren(s: Store, k: AgentKey): seq<AgentId> {
    SortIds(Existing(s, k.session, ChildIds(s, ParentKey(k.session, Some(k.agent)))))
  }

  function ChildSet(s: Store, k: AgentKey): set<AgentId> { set c | c in s.records && ChildOf(s, c, k) :: c.agent }

  lemma {:induction false} ExistingAll(s: Store, session: SessionId, ids: seq<AgentId>)
    requires forall c :: c in ids ==> AgentKey(session, c) in s.records
    ensures Existing(s, session, ids) == ids
  {
    if ids != [] { ExistingAll(s, session, ids[1..]); }
  }

  /** On a forest `direct_children` lists exactly the agents with that parent, once, in order. */
  lemma DirectChildrenComplete(s: Store, k: AgentKey)
    requires Forest(s)
    ensures DirectChildren(s, k) == Sorted(ChildSet(s, k))
  {
    var ids := ChildIds(s, ParentKey(k.session, Some(k.agent)));
    IndexedChildren(s, k);
    forall c | c in ids ensures AgentKey(k.session, c) in s.records { assert ChildOf(s, AgentKey(k.session, c), k); }
    ExistingAll(s, k.session, ids);
    assert NoDuplicates(ids);
    SortIdsSorted(ids);
    assert Elements(ids) == ChildSet(s, k) by {
      forall c | c in ids ensures c in ChildSet(s, k) { assert ChildOf(s, AgentKey(k.session, c), k); }
      forall c | c in ChildSet(s, k) ensures c in ids {
        var x :| x in s.records && ChildOf(s, x, k) && x.agent == c;
      }
    }
  }
}
