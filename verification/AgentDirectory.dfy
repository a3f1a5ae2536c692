/** Reads over the hierarchy: the store object, its worklist of descendants and
    the recursive directory projection. */
module AgentDirectory {
  import opened Ids
  import opened Agents
  import opened AgentStore

  const MAX_DIRECTORY_DEPTH := 5

  datatype DirectoryEntry = DirectoryEntry(
    agent: AgentId, status: Status, caption: string, summary: Option<string>, depth: nat, children: seq<DirectoryEntry>)

  /** Every agent id in the tree, as often as it occurs. */
  ghost function EntryIds(e: DirectoryEntry): multiset<AgentId> { multiset{e.agent} + EntriesIds(e.children) }

  ghost function EntriesIds(es: seq<DirectoryEntry>): multiset<AgentId> {
    if es == [] then multiset{} else EntryIds(es[0]) + EntriesIds(es[1..])
  }

  lemma {:induction false} EntriesIdsAppend(es: seq<DirectoryEntry>, e: DirectoryEntry)
    ensures EntriesIds(es + [e]) == EntriesIds(es) + EntryIds(e)
  {
    if es == [] {
      assert es + [e] == [e];
    } else {
      assert (es + [e])[1..] == es[1..] + [e];
      EntriesIdsAppend(es[1..], e);
    }
  }

  predicate SortedEntries(es: seq<DirectoryEntry>) {
    forall i, j :: 0 <= i < j < |es| ==> !Less(es[j].agent, es[i].agent)
  }

  lemma InsertKeepsSorted(e: DirectoryEntry, es: seq<DirectoryEntry>)
    requires SortedEntries(es)
    ensures SortedEntries(InsertEntry(e, es))
  {
    if es != [] {
      if Less(es[0].agent, e.agent) {
        InsertKeepsSorted(e, es[1..]);
        var r := InsertEntry(e, es[1..]);
        forall j | 0 <= j < |r| ensures !Less(r[j].agent, es[0].agent) {
          assert r[j] in r;
          if r[j] == e {
            if Less(e.agent, es[0].agent) { LessTransitive(e.agent, es[0].agent, e.agent); LessIrreflexive(e.agent); }
          } else {
            var i :| 0 <= i < |es[1..]| && es[1..][i] == r[j];
            assert es[i + 1] == r[j];
          }
        }
      } else {
        forall j | 0 <= j < |es| ensures !Less(es[j].agent, e.agent) {
          if j > 0 && Less(es[j].agent, e.agent) {
            LessTotal(es[0].agent, es[j].agent);
            if es[0].agent != es[j].agent { LessTransitive(es[0].agent, es[j].agent, e.agent); }
          }
        }
      }
    }
  }

  function InsertEntry(e: DirectoryEntry, es: seq<DirectoryEntry>): (r: seq<DirectoryEntry>)
    ensures EntriesIds(r) == EntryIds(e) + EntriesIds(es)
    ensures forall x :: x in r <==> x == e || x in es
  {
    if es == [] then [e] else if Less(es[0].agent, e.agent) then [es[0]] + InsertEntry(e, es[1..]) else [e] + es
  }

  function SortEntries(es: seq<DirectoryEntry>): (r: seq<DirectoryEntry>)
    ensures EntriesIds(r) == EntriesIds(es)
    ensures SortedEntries(r)
    ensures forall x :: x in r <==> x in es
  {
    if es == [] then [] else
      InsertKeepsSorted(es[0], SortEntries(es[1..]));
      InsertEntry(es[0], SortEntries(es[1..]))
  }

  ghost predicate WellKeyed(s: Store) { forall k :: k in s.records ==> s.records[k].Key() == k }

  function IdsIn(session: SessionId, ks: set<AgentKey>): set<AgentId> {
    set k | k in ks && k.session == session :: k.agent
  }

  /** What a projection of `r` may emit: everything below it down to the depth cap. */
  ghost function Reach(s: Store, k: AgentKey): set<AgentKey> {
    set d | d in s.records && Under(s, d, k) && s.records[d].depth <= MAX_DIRECTORY_DEPTH
  }

  /** The agents a list of siblings contributes. */
  ghost function Cover(s: Store, session: SessionId, ids: seq<AgentId>): set<AgentKey> {
    set d | d in s.records && s.records[d].depth <= MAX_DIRECTORY_DEPTH
            && exists c :: c in ids && (d == AgentKey(session, c) || Under(s, d, AgentKey(session, c)))
  }

  lemma IdsSplit(session: SessionId, a: set<AgentKey>, b: set<AgentKey>)
    requires a !! b
    ensures multiset(IdsIn(session, a + b)) == multiset(IdsIn(session, a)) + multiset(IdsIn(session, b))
  {
    assert IdsIn(session, a + b) == IdsIn(session, a) + IdsIn(session, b);
    assert IdsIn(session, a) !! IdsIn(session, b);
  }

  lemma IdsOne(session: SessionId, id: AgentId)
    ensures IdsIn(session, {AgentKey(session, id)}) == {id}
  {
    assert AgentKey(session, id) in {AgentKey(session, id)};
  }

  /** Two ancestors of one agent at the same depth are the same. */
  lemma {:induction false} AncestorAtDepth(s: Store, k: AgentKey, a: AgentKey, b: AgentKey)
    requires Forest(s) && Under(s, k, a) && Under(s, k, b)
    requires a in s.records && b in s.records && s.records[a].depth == s.records[b].depth
    ensures a == b
    decreases s.records[k].depth
  {
    assert ParentOk(s, k);
    var p := AgentKey(k.session, s.records[k].parent.value);
    if p == a && p != b {
      UnderIsDeeper(s, p, b);
    } else if p != a && p == b {
      UnderIsDeeper(s, p, a);
    } else if p != a {
      AncestorAtDepth(s, p, a, b);
    }
  }

  /** An agent strictly below `k` is a child of `k` or lies below one. */
  lemma {:induction false} UnderViaChild(s: Store, d: AgentKey, k: AgentKey) returns (c: AgentKey)
    requires Forest(s) && Under(s, d, k)
    ensures ChildOf(s, c, k) && (d == c || Under(s, d, c))
    decreases s.records[d].depth
  {
    assert ParentOk(s, d);
    var p := AgentKey(d.session, s.records[d].parent.value);
    if p == k { c := d; } else { c := UnderViaChild(s, p, k); }
  }

  function Kids(s: Store, k: AgentKey): seq<AgentId> { ChildIds(s, ParentKey(k.session, Some(k.agent))) }

  lemma CoverIsReach(s: Store, k: AgentKey)
    requires Forest(s) && k in s.records
    ensures Cover(s, k.session, Kids(s, k)) == Reach(s, k)
  {
    IndexedChildren(s, k);
    forall d | d in Cover(s, k.session, Kids(s, k)) ensures d in Reach(s, k) {
      var c :| c in Kids(s, k) && (d == AgentKey(k.session, c) || Under(s, d, AgentKey(k.session, c)));
      assert ChildOf(s, AgentKey(k.session, c), k);
      if d != AgentKey(k.session, c) { UnderTrans(s, d, AgentKey(k.session, c), k); }
    }
    forall d | d in Reach(s, k) ensures d in Cover(s, k.session, Kids(s, k)) {
      var c := UnderViaChild(s, d, k);
      assert c.agent in Kids(s, k) && c == AgentKey(k.session, c.agent);
    }
  }

  lemma CoverAppend(s: Store, session: SessionId, ids: seq<AgentId>, c: AgentId)
    requires AgentKey(session, c) in s.records && s.records[AgentKey(session, c)].depth <= MAX_DIRECTORY_DEPTH
    ensures Cover(s, session, ids + [c]) ==
            Cover(s, session, ids) + {AgentKey(session, c)} + Reach(s, AgentKey(session, c))
  {
    assert c in ids + [c] && forall x :: x in ids + [c] <==> x in ids || x == c;
  }

  /** Siblings contribute disjoint parts of the tree. */
  lemma SiblingsDisjoint(s: Store, k: AgentKey, i: int)
    requires Forest(s) && k in s.records && 0 <= i < |Kids(s, k)|
    ensures var c := AgentKey(k.session, Kids(s, k)[i]);
            && ChildOf(s, c, k) && s.records[c].depth == s.records[k].depth + 1
            && c !in Cover(s, k.session, Kids(s, k)[..i])
            && forall d :: Under(s, d, c) ==> d !in Cover(s, k.session, Kids(s, k)[..i]) && d != c
  {
    var kids := Kids(s, k);
    var c := AgentKey(k.session, kids[i]);
    IndexedChildren(s, k);
    assert ParentOk(s, c) && NoDuplicates(kids);
    forall d | d in Cover(s, k.session, kids[..i]) ensures d != c && !Under(s, d, c) {
      var x :| x in kids[..i] && (d == AgentKey(k.session, x) || Under(s, d, AgentKey(k.session, x)));
      var b := AgentKey(k.session, x);
      assert ChildOf(s, b, k) && ParentOk(s, b) && b != c;
      if Under(s, d, c) {
        UnderIsDeeper(s, d, c);
        AncestorAtDepth(s, d, b, c);
      } else if d == c {
        UnderIsDeeper(s, d, b);
      }
    }
    forall d | Under(s, d, c) ensures d != c { UnderIsDeeper(s, d, c); }
  }

  function ToEntry(r: Record, children: seq<DirectoryEntry>): DirectoryEntry {
    DirectoryEntry(r.agent, r.status, r.caption,
                   if r.summary.Some? then Some(r.summary.value.text) else None, r.depth, children)
  }

  /** The tree mirrors the store: an entry shows its own record, and its children
      are agents the index lists under it, in increasing id order. */
  ghost predicate Mirrors(s: Store, session: SessionId, e: DirectoryEntry) {
    var k := AgentKey(session, e.agent);
    && k in s.records && e == ToEntry(s.records[k], e.children)
    && SortedEntries(e.children)
    && forall c :: c in e.children ==> c.agent in Kids(s, k) && Mirrors(s, session, c)
  }

  ghost predicate Unvisited(s: Store, k: AgentKey, visited: set<AgentKey>) {
    Forest(s) && k in s.records && forall d :: Under(s, d, k) ==> d !in visited
  }

  /** One more child: the agents seen grow by the child and what its own entry saw. */
  lemma AccountChild(session: SessionId, visited: set<AgentKey>, seen: set<AgentKey>, id: AgentId, after: set<AgentKey>)
    requires AgentKey(session, id) !in seen && visited <= seen && seen + {AgentKey(session, id)} <= after
    ensures multiset(IdsIn(session, after - visited)) == multiset(IdsIn(session, seen - visited))
              + (multiset{id} + multiset(IdsIn(session, after - (seen + {AgentKey(session, id)}))))
  {
    var key := AgentKey(session, id);
    var later := after - (seen + {key});
    assert after - visited == (seen - visited) + ({key} + later);
    IdsSplit(session, seen - visited, {key} + later);
    IdsSplit(session, {key}, later);
    IdsOne(session, id);
    assert multiset({id}) == multiset{id};
  }

  lemma ForestChild(s: Store, k: AgentKey, i: int, visited: set<AgentKey>, seen: set<AgentKey>)
    requires Unvisited(s, k, visited) && s.records[k].depth < MAX_DIRECTORY_DEPTH && 0 <= i < |Kids(s, k)|
    requires seen == visited + Cover(s, k.session, Kids(s, k)[..i])
    ensures var key := AgentKey(k.session, Kids(s, k)[i]);
            && key in s.records && key !in seen && s.records[key].depth <= MAX_DIRECTORY_DEPTH
            && Unvisited(s, key, seen + {key})
            && seen + {key} + Reach(s, key) == visited + Cover(s, k.session, Kids(s, k)[..i + 1])
  {
    var key := AgentKey(k.session, Kids(s, k)[i]);
    SiblingsDisjoint(s, k, i);
    CoverAppend(s, k.session, Kids(s, k)[..i], Kids(s, k)[i]);
    assert Kids(s, k)[..i + 1] == Kids(s, k)[..i] + [Kids(s, k)[i]];
    forall d | Under(s, d, key) ensures d !in seen + {key} { UnderTrans(s, d, key, k); }
  }

  ghost predicate Progress(s: Store, k: AgentKey, visited: set<AgentKey>, i: nat, children: seq<DirectoryEntry>,
                           seen: set<AgentKey>) {
    && i <= |Kids(s, k)|
    && visited <= seen <= visited + s.records.Keys
    && EntriesIds(children) == multiset(IdsIn(k.session, seen - visited))
    && (forall c :: c in children ==> c.agent in Kids(s, k) && Mirrors(s, k.session, c))
    && (Unvisited(s, k, visited) ==> seen == visited + Cover(s, k.session, Kids(s, k)[..i]))
  }

  predicate Skipped(s: Store, key: AgentKey, seen: set<AgentKey>) {
    key in seen || key !in s.records || s.records[key].depth > MAX_DIRECTORY_DEPTH
  }

  lemma ProgressSkip(s: Store, k: AgentKey, visited: set<AgentKey>, i: nat, children: seq<DirectoryEntry>,
                     seen: set<AgentKey>)
    requires Progress(s, k, visited, i, children, seen) && i < |Kids(s, k)|
    requires k in s.records && s.records[k].depth < MAX_DIRECTORY_DEPTH
    requires Skipped(s, AgentKey(k.session, Kids(s, k)[i]), seen)
    ensures Progress(s, k, visited, i + 1, children, seen)
  {
    if Unvisited(s, k, visited) { ForestChild(s, k, i, visited, seen); }
  }

  lemma ProgressChild(s: Store, k: AgentKey, visited: set<AgentKey>, i: nat, children: seq<DirectoryEntry>,
                      seen: set<AgentKey>, e: DirectoryEntry, after: set<AgentKey>)
    requires Progress(s, k, visited, i, children, seen) && i < |Kids(s, k)|
    requires k in s.records && s.records[k].depth < MAX_DIRECTORY_DEPTH
    requires var key := AgentKey(k.session, Kids(s, k)[i]);
             && !Skipped(s, key, seen) && e.agent == key.agent && Mirrors(s, k.session, e)
             && seen + {key} <= after <= seen + {key} + s.records.Keys
             && EntryIds(e) == multiset{key.agent} + multiset(IdsIn(k.session, after - (seen + {key})))
             && (Unvisited(s, key, seen + {key}) ==> after == seen + {key} + Reach(s, key))
    ensures Progress(s, k, visited, i + 1, children + [e], after)
  {
    EntriesIdsAppend(children, e);
    AccountChild(k.session, visited, seen, Kids(s, k)[i], after);
    if Unvisited(s, k, visited) { ForestChild(s, k, i, visited, seen); }
  }

  /** On any child index, cyclic or dangling: the recursion terminates, and the tree
      holds the agent itself and each newly visited agent exactly once. On a forest
      the newly visited agents are exactly those below it down to the depth cap. */
  method EntryUnder(s: Store, k: AgentKey, visited: set<AgentKey>) returns (entry: DirectoryEntry, seen: set<AgentKey>)
    requires WellKeyed(s) && k in s.records && k in visited
    ensures entry.agent == k.agent && Mirrors(s, k.session, entry)
    ensures visited <= seen <= visited + s.records.Keys
    ensures EntryIds(entry) == multiset{k.agent} + multiset(IdsIn(k.session, seen - visited))
    ensures Unvisited(s, k, visited) ==> seen == visited + Reach(s, k)
    decreases s.records.Keys - visited, 1
  {
    var record := s.records[k];
    seen := visited;
    var children := [];
    if record.depth < MAX_DIRECTORY_DEPTH {
      children, seen := ChildEntries(s, k, visited);
    } else if Unvisited(s, k, visited) {
      assert IdsIn(k.session, seen - visited) == {};
      forall d | d in s.records && Under(s, d, k)
        ensures s.records[d].depth > MAX_DIRECTORY_DEPTH
      {
        UnderIsDeeper(s, d, k);
      }
    }
    entry := ToEntry(record, SortEntries(children));
  }

  /** The child loop of the projection. */
  method ChildEntries(s: Store, k: AgentKey, visited: set<AgentKey>)
    returns (children: seq<DirectoryEntry>, seen: set<AgentKey>)
    requires WellKeyed(s) && k in s.records && k in visited && s.records[k].depth < MAX_DIRECTORY_DEPTH
    ensures visited <= seen <= visited + s.records.Keys
    ensures EntriesIds(children) == multiset(IdsIn(k.session, seen - visited))
    ensures forall c :: c in children ==> c.agent in Kids(s, k) && Mirrors(s, k.session, c)
    ensures Unvisited(s, k, visited) ==> seen == visited + Reach(s, k)
    decreases s.records.Keys - visited, 0
  {
    children, seen := [], visited;
    var ids := Kids(s, k);
    for i := 0 to |ids|
      invariant Progress(s, k, visited, i, children, seen)
    {
      var key := AgentKey(k.session, ids[i]);
      if Skipped(s, key, seen) {
        ProgressSkip(s, k, visited, i, children, seen);
        continue;
      }
      var e, after := EntryUnder(s, key, seen + {key});
      ProgressChild(s, k, visited, i, children, seen, e, after);
      children, seen := children + [e], after;
    }
    assert ids[..|ids|] == ids;
    if Unvisited(s, k, visited) { CoverIsReach(s, k); }
  }

  /** `directory_for_trusted_ui`: each id at most once, only ids with records, and on
      a forest exactly the root and what lies below it down to the depth cap. */
  method Directory(s: Store, root: AgentKey) returns (r: Result<DirectoryEntry, StoreError>)
    requires WellKeyed(s)
    ensures r.Err? <==> root !in s.records
    ensures r.Err? ==> r.error == NotVisible
    ensures r.Ok? ==> r.value.agent == root.agent && Mirrors(s, root.session, r.value)
    ensures r.Ok? ==> forall id :: EntryIds(r.value)[id] <= 1
    ensures r.Ok? ==> forall id :: id in EntryIds(r.value) ==> AgentKey(root.session, id) in s.records
    ensures r.Ok? && Forest(s) ==>
              forall id :: id in EntryIds(r.value) <==> id == root.agent || AgentKey(root.session, id) in Reach(s, root)
  {
    if root !in s.records { return Err(NotVisible); }
    var entry, seen := EntryUnder(s, root, {root});
    DirectoryIds(s, root, entry, seen);
    r := Ok(entry);
  }

  lemma DirectoryIds(s: Store, root: AgentKey, entry: DirectoryEntry, seen: set<AgentKey>)
    requires root in s.records && {root} <= seen <= {root} + s.records.Keys
    requires EntryIds(entry) == multiset{root.agent} + multiset(IdsIn(root.session, seen - {root}))
    requires Unvisited(s, root, {root}) ==> seen == {root} + Reach(s, root)
    ensures forall id :: EntryIds(entry)[id] <= 1
    ensures forall id :: id in EntryIds(entry) ==> AgentKey(root.session, id) in s.records
    ensures Forest(s) ==>
              forall id :: id in EntryIds(entry) <==> id == root.agent || AgentKey(root.session, id) in Reach(s, root)
  {
    var ids := IdsIn(root.session, seen - {root});
    assert root.agent !in ids;
    assert forall id :: id in ids ==> AgentKey(root.session, id) in seen;
    if Forest(s) {
      forall d | Under(s, d, root) ensures d != root { UnderIsDeeper(s, d, root); }
      assert forall id :: AgentKey(root.session, id) in seen - {root} ==> id in ids;
    }
  }

  /** The parent of a new record is a root's absence of one, or exists one level above. */
  predicate Placed(s: Store, r: Record) {
    match r.parent
    case None => r.depth == 0
    case Some(p) => AgentKey(r.session, p) in s.records && r.depth == s.records[AgentKey(r.session, p)].depth + 1
  }

  /** Same agents in the same places: only statuses and summaries may differ. */
  ghost predicate SamePlaces(a: Store, b: Store) {
    && a.records.Keys == b.records.Keys
    && (forall k :: k in a.records ==>
          b.records[k].parent == a.records[k].parent && b.records[k].depth == a.records[k].depth)
    && (forall p :: DirectChildren(b, p) == DirectChildren(a, p))
  }

  lemma {:induction false} SameExisting(a: Store, b: Store, session: SessionId, ids: seq<AgentId>)
    requires a.records.Keys == b.records.Keys
    ensures Existing(a, session, ids) == Existing(b, session, ids)
  {
    if ids != [] { SameExisting(a, b, session, ids[1..]); }
  }

  /** Rewriting a record where it is keeps all places and the forest. */
  lemma RewriteKeepsPlaces(s: Store, k: AgentKey, r: Record)
    requires k in s.records && r.Key() == s.records[k].Key() && r.parent == s.records[k].parent
    requires r.depth == s.records[k].depth
    ensures var t := s.(records := s.records[k := r]); SamePlaces(s, t) && (Forest(s) ==> Forest(t))
  {
    var t := s.(records := s.records[k := r]);
    forall p ensures DirectChildren(t, p) == DirectChildren(s, p) {
      SameExisting(s, t, p.session, ChildIds(s, ParentKey(p.session, Some(p.agent))));
    }
    if Forest(s) { RewriteKeepsForest(s, k, r); }
  }

  /** A new agent is listed under its own parent and nowhere else. */
  lemma InsertLists(s: Store, r: Record, p: AgentKey, c: AgentId)
    requires Forest(s) && Placed(s, r) && r.Key() !in s.records
    ensures var t := Insert(s, r).1;
            c in DirectChildren(t, p) <==>
              c in DirectChildren(s, p) || (c == r.agent && p.session == r.session && r.parent == Some(p.agent))
  {
    var t := Insert(s, r).1;
    InsertKeepsForest(s, r);
    DirectChildrenComplete(s, p);
    DirectChildrenComplete(t, p);
    ChildSetMeans(s, p, c);
    ChildSetMeans(t, p, c);
  }

  lemma ChildSetMeans(s: Store, p: AgentKey, c: AgentId)
    ensures c in ChildSet(s, p) <==> ChildOf(s, AgentKey(p.session, c), p)
  {
    if ChildOf(s, AgentKey(p.session, c), p) { assert AgentKey(p.session, c) in s.records; }
  }

  class InMemoryAgentStore {
    var records: map<AgentKey, Record>
    var children: map<ParentKey, seq<AgentId>>

    function Contents(): Store
      reads this
    {
      Store(records, children)
    }

    /** Parents exist one level above and the child index is exact. */
    ghost predicate Valid()
      reads this
    {
      Forest(Contents())
    }

    constructor ()
      ensures Valid() && records == map[]
    {
      records, children := map[], map[];
    }

    /** `insert`: a taken key changes nothing; a placed record keeps the forest and is
        listed under its parent, once, while all other listings and records stay. */
    method Insert(r: Record) returns (result: Result<(), StoreError>)
      modifies this
      ensures result == if r.Key() in old(records) then Err(AlreadyExists) else Ok(())
      ensures result.Err? ==> Contents() == old(Contents())
      ensures result.Ok? ==> records.Keys == old(records).Keys + {r.Key()} && records[r.Key()] == r
      ensures forall k :: k in old(records) ==> k in records && records[k] == old(records)[k]
      ensures old(Valid()) && Placed(old(Contents()), r) ==> Valid()
      ensures old(Valid()) && Placed(old(Contents()), r) && result.Ok? ==>
                forall p, c :: c in DirectChildren(Contents(), p) <==>
                  c in DirectChildren(old(Contents()), p)
                    || (c == r.agent && p.session == r.session && r.parent == Some(p.agent))
    {
      if r.Key() in records { return Err(AlreadyExists); }
      ghost var before := Contents();
      children := children[r.ParentOf() := ChildIds(Contents(), r.ParentOf()) + [r.agent]];
      records := records[r.Key() := r];
      result := Ok(());
      if Forest(before) && Placed(before, r) {
        InsertKeepsForest(before, r);
        forall p, c ensures c in DirectChildren(Contents(), p) <==>
                              c in DirectChildren(before, p)
                                || (c == r.agent && p.session == r.session && r.parent == Some(p.agent))
        {
          InsertLists(before, r, p, c);
        }
      }
    }

    /** `update_status`: refused exactly for unknown agents; otherwise that one status is
        set, nobody moves and everything else stays. */
    method UpdateStatus(k: AgentKey, status: Status) returns (result: Result<(), StoreError>)
      modifies this`records
      ensures result == if k in old(records) then Ok(()) else Err(AgentNotFound(k.agent))
      ensures SamePlaces(old(Contents()), Contents()) && (old(Valid()) ==> Valid())
      ensures forall j :: j in old(records) && j != k ==> records[j] == old(records)[j]
      ensures k in old(records) ==> records[k].status == status && records[k].summary == old(records)[k].summary
    {
      if k !in records { return Err(AgentNotFound(k.agent)); }
      RewriteKeepsPlaces(Contents(), k, records[k].(status := status));
      records := records[k := records[k].(status := status)];
      result := Ok(());
    }

    /** `set_summary`, likewise. */
    method SetSummary(k: AgentKey, summary: ChildSummary) returns (result: Result<(), StoreError>)
      modifies this`records
      ensures result == if k in old(records) then Ok(()) else Err(AgentNotFound(k.agent))
      ensures SamePlaces(old(Contents()), Contents()) && (old(Valid()) ==> Valid())
      ensures forall j :: j in old(records) && j != k ==> records[j] == old(records)[j]
      ensures k in old(records) ==> records[k].summary == Some(summary) && records[k].status == old(records)[k].status
    {
      if k !in records { return Err(AgentNotFound(k.agent)); }
      RewriteKeepsPlaces(Contents(), k, records[k].(summary := Some(summary)));
      records := records[k := records[k].(summary := Some(summary))];
      result := Ok(());
    }
  }

  /** The worklist of `descendants`: on a forest it terminates without a visited set
      and returns every agent below `root` exactly once, in increasing id order. */
  method Descendants(s: Store, root: AgentKey) returns (ids: seq<AgentId>)
    requires Forest(s)
    ensures ids == Sorted(IdsIn(root.session, Below(s, root)))
    ensures forall k :: k in Below(s, root) ==> k.session == root.session && k.agent in ids
  {
    var queue := ChildIds(s, ParentKey(root.session, Some(root.agent)));
    var found: seq<AgentId> := [];
    ghost var done: set<AgentKey> := {};
    FrontierStart(s, root);
    while queue != []
      invariant Frontier(s, root, done, queue)
      invariant NoDuplicates(found)
      invariant forall id :: id in found <==> AgentKey(root.session, id) in done
      decreases s.records.Keys - done
    {
      var current := queue[|queue| - 1];
      var rest := queue[..|queue| - 1];
      assert queue == rest + [current];
      FrontierHead(s, root, done, rest, current);
      FrontierPop(s, root, done, rest, current);
      queue := rest;
      if AgentKey(root.session, current) in s.records {
        found := found + [current];
        queue := queue + ChildIds(s, ParentKey(root.session, Some(current)));
      }
      done := done + {AgentKey(root.session, current)};
    }
    DescendantsComplete(s, root, done, found);
    ids := SortIds(found);
  }

  lemma DescendantsComplete(s: Store, root: AgentKey, done: set<AgentKey>, found: seq<AgentId>)
    requires Forest(s) && Frontier(s, root, done, []) && NoDuplicates(found)
    requires forall id :: id in found <==> AgentKey(root.session, id) in done
    ensures SortIds(found) == Sorted(IdsIn(root.session, Below(s, root)))
    ensures forall k :: k in Below(s, root) ==> k.session == root.session && k.agent in SortIds(found)
  {
    forall c: AgentKey | c in s.records && ChildOf(s, c, root)
      ensures c in done
    {
      assert ParentSeen(s, c, root, done);
    }
    forall c: AgentKey, p | p in done && c in s.records && ChildOf(s, c, p)
      ensures c in done
    {
      assert ParentSeen(s, c, root, done);
    }
    forall k | k in Below(s, root) ensures k in done { ClosedCoversUnder(s, root, done, k); }
    forall k | k in done ensures k in Below(s, root) { assert Under(s, k, root); }
    assert done == Below(s, root);
    SortIdsSorted(found);
    assert Elements(found) == IdsIn(root.session, done);
  }
}
