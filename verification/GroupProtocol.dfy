/** The coordinator's group side. `group_operations` serialises every operation
    below, so each is one step on the task-group store together with the two
    indexes into it, `ownerGroups` and `childGroups`, and the readiness pings. */
module GroupProtocol {
  import opened Ids
  import opened Agents
  import TG = TaskGroups

  datatype OwnerKey = OwnerKey(session: SessionId, owner: AgentId, generation: nat, turn: Option<string>)

  datatype Side = Side(
    store: TG.State, ownerGroups: map<OwnerKey, GroupId>, childGroups: map<AgentKey, GroupId>, pings: seq<SessionId>)

  datatype Error = NotOwned(group: GroupId, caller: AgentId) | Store(error: TG.Error)

  // ---------------------------------------------------------------- operations

  function SlotKey(g: TG.Group): OwnerKey { OwnerKey(g.session, g.owner, g.generation, g.turn) }

  /** Reuses the indexed group of this owner, turn and current generation, or creates it. */
  function CreateGroup(s: Side, session: SessionId, owner: AgentId, turn: Option<string>, deadline: int, newId: GroupId)
    : (Result<GroupId, Error>, Side)
  {
    var generation := TG.CurrentGeneration(s.store, session);
    var key := OwnerKey(session, owner, generation, turn);
    if key in s.ownerGroups then (Ok(s.ownerGroups[key]), s)
    else
      var (r, store) := TG.Create(s.store, session, owner, turn, generation, deadline, newId);
      if r.Err? then (Err(Store(r.error)), s.(store := store))
      else (Ok(r.value), s.(store := store, ownerGroups := s.ownerGroups[key := r.value]))
  }

  predicate Owned(s: Side, caller: AgentKey, group: GroupId) {
    exists k :: k in s.ownerGroups && k.session == caller.session && k.owner == caller.agent
      && s.ownerGroups[k] == group
  }

  /** The second half of `reserve_child_in_group`. */
  function Register(s: Side, caller: AgentKey, child: AgentKey, group: GroupId): (Result<(), Error>, Side) {
    if !Owned(s, caller, group) then (Err(NotOwned(group, caller.agent)), s)
    else
      var (r, store) := TG.AddChild(s.store, group, child.agent);
      if r.Err? then (Err(Store(r.error)), s)
      else (Ok(()), s.(store := store, childGroups := s.childGroups[child := group]))
  }

  /** `record_mapped_child_result`: an unmapped child needs no recording. */
  function Record(s: Side, child: AgentKey, result: ChildResult): (Result<(), Error>, Side) {
    if child !in s.childGroups then (Ok(()), s)
    else
      var group := s.childGroups[child];
      var (r, store) := TG.RecordResult(s.store, group, result);
      if r.Ok? || r.error.ResultAlreadyRecorded? then
        (Ok(()), s.(store := store, childGroups := s.childGroups - {child},
                    pings := if TG.GroupIsReady(store, group) then s.pings + [child.session] else s.pings))
      else (Err(Store(r.error)), s)
  }

  function ForgetOwner(owners: map<OwnerKey, GroupId>, group: GroupId): map<OwnerKey, GroupId> {
    map k | k in owners && owners[k] != group :: owners[k]
  }

  /** `claim_ready_root_group`: sweep, then claim the owner's least ready group. */
  function ClaimRoot(s: Side, session: SessionId, owner: AgentId, generation: nat, now: int)
    : (Option<TG.Delivery>, Side)
  {
    var (d, store) := TG.Claim(TG.ExpireDue(s.store, now), session, Some(owner), generation);
    if d.None? then (None, s.(store := store))
    else (d, s.(store := store, ownerGroups := ForgetOwner(s.ownerGroups, d.value.group)))
  }

  /** The claim inside `collect_children_for_synthesis`. */
  function ClaimOwn(s: Side, session: SessionId, owner: AgentId): (Option<TG.Delivery>, Side) {
    var generation := TG.CurrentGeneration(s.store, session);
    var key := OwnerKey(session, owner, generation, None);
    if key !in s.ownerGroups then (None, s)
    else
      var (d, store) := TG.ClaimSpecific(s.store, s.ownerGroups[key], session, owner, generation);
      if d.None? then (None, s)
      else (d, s.(store := store, ownerGroups := ForgetOwner(s.ownerGroups, d.value.group)))
  }

  /** `clean_generation_mappings` for the generations in `[low, high)`. */
  function CleanMappings(s: Side, session: SessionId, low: nat, high: nat): Side {
    var stale := set k | k in s.ownerGroups && k.session == session && low <= k.generation < high :: s.ownerGroups[k];
    s.(ownerGroups := map k | k in s.ownerGroups && !(k.session == session && low <= k.generation < high) ::
       s.ownerGroups[k],
       childGroups := map c | c in s.childGroups && s.childGroups[c] !in stale :: s.childGroups[c])
  }

  function Advance(s: Side, session: SessionId): Side {
    var (generation, store) := TG.Advance(s.store, session);
    CleanMappings(s.(store := store), session, 0, generation)
  }

  function CancelGeneration(s: Side, session: SessionId, generation: nat): Side {
    CleanMappings(s.(store := TG.CancelGeneration(s.store, session, generation)), session, generation, generation + 1)
  }

  // --------------------------------------------------- outstanding-work index

  ghost predicate OwnerIndex(s: Side) {
    && (forall g :: g in s.store.groups ==> SlotKey(s.store.groups[g]) in s.ownerGroups
                                            && s.ownerGroups[SlotKey(s.store.groups[g])] == g)
    && (forall k :: k in s.ownerGroups && s.ownerGroups[k] in s.store.groups
          ==> k == SlotKey(s.store.groups[s.ownerGroups[k]]))
  }

  /** The children mapped to an open group are exactly those it still waits for. */
  ghost predicate ChildIndex(s: Side) {
    && (forall k :: k in s.childGroups && s.childGroups[k] in s.store.groups
          ==> var g := s.store.groups[s.childGroups[k]];
              k.session == g.session && k.agent in g.children
              && (g.lifecycle == TG.Active ==> k.agent !in g.results))
    && (forall g, c :: g in s.store.groups && c in s.store.groups[g].children
                       && s.store.groups[g].lifecycle == TG.Active && c !in s.store.groups[g].results
          ==> Waiting(s, g, c))
  }

  predicate Waiting(s: Side, g: GroupId, c: AgentId)
    requires g in s.store.groups
  {
    var k := AgentKey(s.store.groups[g].session, c);
    k in s.childGroups && s.childGroups[k] == g
  }

  ghost predicate IndexInv(s: Side) { TG.Inv(s.store) && OwnerIndex(s) && ChildIndex(s) }

  /** For a mapped child: its group accepts the result exactly when it is still
      stored and open, a second result for it cannot occur, and a ping is sent
      exactly when this recording turns the group from not ready to ready. */
  lemma RecordOutcome(s: Side, child: AgentKey, result: ChildResult)
    requires IndexInv(s) && child in s.childGroups && result.childId == child.agent
    ensures var group := s.childGroups[child];
            var (r, t) := Record(s, child, result);
            && (r.Ok? <==> group in s.store.groups && s.store.groups[group].lifecycle == TG.Active)
            && !(TG.RecordResult(s.store, group, result).0.Err?
                 && TG.RecordResult(s.store, group, result).0.error.ResultAlreadyRecorded?)
            && (r.Err? ==> t == s)
            && (r.Ok? ==> child !in t.childGroups && !TG.GroupIsReady(s.store, group)
                          && t.pings == if TG.GroupIsReady(t.store, group) then s.pings + [child.session] else s.pings)
  {
    TG.OpenOutcomes(s.store, s.childGroups[child], child.agent);
    if s.childGroups[child] in s.store.groups {
      TG.ReadyMeansComplete(s.store.groups[s.childGroups[child]]);
    }
  }

  lemma CreateKeepsIndex(s: Side, session: SessionId, owner: AgentId, turn: Option<string>, deadline: int,
                         newId: GroupId)
    requires IndexInv(s) && newId !in s.store.groups
    requires newId !in s.ownerGroups.Values && newId !in s.childGroups.Values
    ensures IndexInv(CreateGroup(s, session, owner, turn, deadline, newId).1)
  {
    var generation := TG.CurrentGeneration(s.store, session);
    var key := OwnerKey(session, owner, generation, turn);
    if key !in s.ownerGroups {
      TG.CreateKeepsInv(s.store, session, owner, turn, generation, deadline, newId);
      CreateIsFresh(s, session, owner, turn, deadline, newId);
    }
  }

  /** A missing index entry means there is no such group, so creation makes a new one. */
  lemma CreateIsFresh(s: Side, session: SessionId, owner: AgentId, turn: Option<string>, deadline: int, newId: GroupId)
    requires IndexInv(s)
    requires OwnerKey(session, owner, TG.CurrentGeneration(s.store, session), turn) !in s.ownerGroups
    ensures var generation := TG.CurrentGeneration(s.store, session);
            var group := TG.Group(session, owner, turn, generation, deadline, {}, map[], TG.Active);
            TG.Create(s.store, session, owner, turn, generation, deadline, newId)
            == (Ok(newId), TG.State(s.store.generations[session := generation], s.store.groups[newId := group]))
  {
    var generation := TG.CurrentGeneration(s.store, session);
    var t := s.store.(generations := s.store.generations[session := generation]);
    var found := TG.Matching(t, session, owner, turn, generation);
    forall g | g in s.store.groups ensures g !in found {
      assert SlotKey(s.store.groups[g]) in s.ownerGroups;
    }
  }

  /** An accepted child joins an open group of its parent's session. */
  lemma RegisterJoins(s: Side, caller: AgentKey, child: AgentKey, group: GroupId)
    requires IndexInv(s) && Register(s, caller, child, group).0.Ok?
    ensures var t := Register(s, caller, child, group).1;
            && group in s.store.groups && s.store.groups[group].session == caller.session
            && s.store.groups[group].owner == caller.agent
            && s.store.groups[group].lifecycle == TG.Active && child.agent !in s.store.groups[group].children
            && t == s.(store := s.store.(groups := s.store.groups[group :=
                 s.store.groups[group].(children := s.store.groups[group].children + {child.agent})]),
                 childGroups := s.childGroups[child := group])
  {
    TG.OpenOutcomes(s.store, group, child.agent);
    var k :| k in s.ownerGroups && k.session == caller.session && k.owner == caller.agent && s.ownerGroups[k] == group;
  }

  lemma JoinKeepsChildIndex(s: Side, child: AgentKey, group: GroupId, t: Side)
    requires ChildIndex(s) && child !in s.childGroups
    requires group in s.store.groups && s.store.groups[group].session == child.session
    requires child.agent !in s.store.groups[group].children && child.agent !in s.store.groups[group].results
    requires t.store.groups == s.store.groups[group :=
               s.store.groups[group].(children := s.store.groups[group].children + {child.agent})]
    requires t.childGroups == s.childGroups[child := group]
    ensures ChildIndex(t)
  {
  }

  lemma RegisterKeepsIndex(s: Side, caller: AgentKey, child: AgentKey, group: GroupId)
    requires IndexInv(s) && child !in s.childGroups && child.session == caller.session
    ensures IndexInv(Register(s, caller, child, group).1)
  {
    var (r, t) := Register(s, caller, child, group);
    if r.Ok? {
      TG.AddChildKeepsInv(s.store, group, child.agent);
      RegisterJoins(s, caller, child, group);
      JoinKeepsChildIndex(s, child, group, t);
    }
  }

  lemma RecordKeepsIndex(s: Side, child: AgentKey, result: ChildResult)
    requires IndexInv(s) && result.childId == child.agent
    ensures IndexInv(Record(s, child, result).1)
  {
    if child in s.childGroups {
      TG.RecordKeepsInv(s.store, s.childGroups[child], result);
      RecordOutcome(s, child, result);
    }
  }

  lemma ExpireKeepsIndex(s: Side, now: int)
    requires IndexInv(s)
    ensures IndexInv(s.(store := TG.ExpireDue(s.store, now)))
  {
    TG.ExpireKeepsInv(s.store, now);
  }

  lemma RemoveKeepsIndex(s: Side, store: TG.State, group: GroupId)
    requires IndexInv(s) && store == TG.Remove(s.store, group) && TG.Inv(store)
    ensures IndexInv(s.(store := store, ownerGroups := ForgetOwner(s.ownerGroups, group)))
  {
  }

  lemma CleanKeepsIndex(s: Side, store: TG.State, session: SessionId, low: nat, high: nat)
    requires IndexInv(s) && TG.Inv(store)
    requires store.groups == map g | g in s.store.groups
                                     && !(s.store.groups[g].session == session
                                          && low <= s.store.groups[g].generation < high)
                               :: s.store.groups[g]
    ensures IndexInv(CleanMappings(s.(store := store), session, low, high))
  {
  }

  /** Advancing or cancelling leaves no owner entry of a removed generation and no child
      mapped to a group it removed. */
  lemma GenerationCleans(s: Side, session: SessionId, generation: nat, k: OwnerKey, c: AgentKey)
    requires IndexInv(s)
    ensures var t := Advance(s, session);
            && (k in t.ownerGroups && k.session == session ==> k.generation >= TG.CurrentGeneration(t.store, session))
            && (c in t.childGroups && t.childGroups[c] in s.store.groups ==> t.childGroups[c] in t.store.groups)
    ensures var t := CancelGeneration(s, session, generation);
            && (k in t.ownerGroups && k.session == session ==> k.generation != generation)
            && (c in t.childGroups && t.childGroups[c] in s.store.groups ==> t.childGroups[c] in t.store.groups)
  {
    if c in s.childGroups && s.childGroups[c] in s.store.groups {
      assert SlotKey(s.store.groups[s.childGroups[c]]) in s.ownerGroups;
    }
  }

  // -------------------------------------------- conservation and exactly-once

  /** What has happened so far: the children registered in each group ever created,
      every delivery handed out, and the groups removed with their generation. */
  datatype Ledger = Ledger(members: map<GroupId, set<AgentId>>, deliveries: seq<TG.Delivery>, dropped: set<GroupId>)

  datatype Protocol = Protocol(side: Side, ledger: Ledger)

  datatype Event =
    | Create(session: SessionId, owner: AgentId, turn: Option<string>, deadline: int, newId: GroupId)
    | Registration(caller: AgentKey, child: AgentKey, group: GroupId)
    | Recording(child: AgentKey, result: ChildResult)
    | RootClaim(session: SessionId, owner: AgentId, generation: nat, now: int)
    | OwnClaim(session: SessionId, owner: AgentId)
    | AdvanceTo(session: SessionId)
    | Cancel(session: SessionId, generation: nat)

  const Start := Protocol(Side(TG.Empty, map[], map[], []), Ledger(map[], [], {}))

  /** Generated identifiers are new; a child is registered at most while unmapped,
      by its own parent's session; a result names the child that reports it. */
  predicate Enabled(p: Protocol, e: Event) {
    match e
    case Create(_, _, _, _, newId) => newId !in p.ledger.members
    case Registration(caller, child, _) => child.session == caller.session && child !in p.side.childGroups
    case Recording(child, result) => result.childId == child.agent
    case _ => true
  }

  function Next(s: Side, e: Event): Side {
    match e
    case Create(session, owner, turn, deadline, newId) => CreateGroup(s, session, owner, turn, deadline, newId).1
    case Registration(caller, child, group) => Register(s, caller, child, group).1
    case Recording(child, result) => Record(s, child, result).1
    case RootClaim(session, owner, generation, now) => ClaimRoot(s, session, owner, generation, now).1
    case OwnClaim(session, owner) => ClaimOwn(s, session, owner).1
    case AdvanceTo(session) => Advance(s, session)
    case Cancel(session, generation) => CancelGeneration(s, session, generation)
  }

  function Delivered(s: Side, e: Event): Option<TG.Delivery> {
    match e
    case RootClaim(session, owner, generation, now) => ClaimRoot(s, session, owner, generation, now).0
    case OwnClaim(session, owner) => ClaimOwn(s, session, owner).0
    case _ => None
  }

  /** The ledger only observes: what an operation reports, or what it makes disappear. */
  function Observe(l: Ledger, s: Side, e: Event): Ledger {
    match e
    case Create(_, _, _, _, newId) =>
      if newId in Next(s, e).store.groups && newId !in l.members then l.(members := l.members[newId := {}]) else l
    case Registration(caller, child, group) =>
      if Register(s, caller, child, group).0.Ok? && group in l.members
      then l.(members := l.members[group := l.members[group] + {child.agent}]) else l
    case Recording(_, _) => l
    case RootClaim(_, _, _, _) => Log(l, Delivered(s, e))
    case OwnClaim(_, _) => Log(l, Delivered(s, e))
    case AdvanceTo(_) => l.(dropped := l.dropped + (s.store.groups.Keys - Next(s, e).store.groups.Keys))
    case Cancel(_, _) => l.(dropped := l.dropped + (s.store.groups.Keys - Next(s, e).store.groups.Keys))
  }

  function Log(l: Ledger, d: Option<TG.Delivery>): Ledger {
    if d.Some? then l.(deliveries := l.deliveries + [d.value]) else l
  }

  function Step(p: Protocol, e: Event): Protocol { Protocol(Next(p.side, e), Observe(p.ledger, p.side, e)) }

  ghost predicate Known(s: Side, l: Ledger) {
    && (forall g :: g in s.store.groups ==> g in l.members && l.members[g] == s.store.groups[g].children)
    && (forall k :: k in s.ownerGroups ==> s.ownerGroups[k] in l.members)
    && (forall k :: k in s.childGroups ==> s.childGroups[k] in l.members)
  }

  ghost predicate IsDelivered(l: Ledger, g: GroupId)
  {
    exists i :: 0 <= i < |l.deliveries| && l.deliveries[i].group == g
  }

  /** Deliveries are complete, of distinct groups, and of no group that is still
      stored or was dropped; a group with children never just disappears. */
  ghost predicate Conserved(s: Side, l: Ledger) {
    && (forall d :: d in l.deliveries ==> d.group in l.members && d.group !in s.store.groups && d.group !in l.dropped
                                          && TG.ChildIds(d) == Sorted(l.members[d.group]))
    && (forall i, j :: 0 <= i < j < |l.deliveries| ==> l.deliveries[i].group != l.deliveries[j].group)
    && (forall g :: g in l.dropped ==> g in l.members && g !in s.store.groups)
    && (forall g :: g in l.members && l.members[g] != {} ==> g in s.store.groups || g in l.dropped || IsDelivered(l, g))
  }

  ghost predicate Inv(p: Protocol) {
    IndexInv(p.side) && Known(p.side, p.ledger) && Conserved(p.side, p.ledger)
  }

  lemma NewGroupKeepsLedger(s: Side, l: Ledger, t: Side, newId: GroupId)
    requires Known(s, l) && Conserved(s, l) && newId !in l.members
    requires t.store.groups.Keys == s.store.groups.Keys + {newId} && t.store.groups[newId].children == {}
    requires forall g :: g in s.store.groups ==> t.store.groups[g] == s.store.groups[g]
    requires forall k :: k in t.ownerGroups ==>
               t.ownerGroups[k] == newId || (k in s.ownerGroups && t.ownerGroups[k] == s.ownerGroups[k])
    requires t.childGroups == s.childGroups
    ensures Known(t, l.(members := l.members[newId := {}])) && Conserved(t, l.(members := l.members[newId := {}]))
  {
    NewGroupKeepsConserved(s, l, t, newId);
  }

  lemma NewGroupKeepsConserved(s: Side, l: Ledger, t: Side, newId: GroupId)
    requires Known(s, l) && Conserved(s, l) && newId !in l.members
    requires t.store.groups.Keys == s.store.groups.Keys + {newId}
    ensures Conserved(t, l.(members := l.members[newId := {}]))
  {
    var m := l.(members := l.members[newId := {}]);
    assert m.deliveries == l.deliveries && m.dropped == l.dropped;
    forall d | d in m.deliveries
      ensures d.group in m.members && d.group !in t.store.groups && d.group !in m.dropped
      ensures TG.ChildIds(d) == Sorted(m.members[d.group])
    {
      assert d.group in l.members && d.group != newId;
    }
    forall g | g in m.members && m.members[g] != {} ensures g in t.store.groups || g in m.dropped || IsDelivered(m, g) {
      SameDelivered(l, m, g);
    }
  }

  lemma SameDelivered(l: Ledger, m: Ledger, g: GroupId)
    requires m.deliveries == l.deliveries
    ensures IsDelivered(m, g) <==> IsDelivered(l, g)
  {
  }

  lemma CreateKeepsLedger(p: Protocol, e: Event)
    requires Inv(p) && Enabled(p, e) && e.Create?
    ensures Inv(Step(p, e))
  {
    var s, l := p.side, p.ledger;
    assert e.newId !in s.store.groups && e.newId !in s.ownerGroups.Values && e.newId !in s.childGroups.Values;
    CreateKeepsIndex(s, e.session, e.owner, e.turn, e.deadline, e.newId);
    if OwnerKey(e.session, e.owner, TG.CurrentGeneration(s.store, e.session), e.turn) !in s.ownerGroups {
      CreateIsFresh(s, e.session, e.owner, e.turn, e.deadline, e.newId);
      NewGroupKeepsLedger(s, l, Next(s, e), e.newId);
    }
  }

  lemma RegistrationKeepsLedger(p: Protocol, e: Event)
    requires Inv(p) && Enabled(p, e) && e.Registration?
    ensures Inv(Step(p, e))
  {
    RegisterKeepsIndex(p.side, e.caller, e.child, e.group);
    if Register(p.side, e.caller, e.child, e.group).0.Ok? {
      RegisterJoins(p.side, e.caller, e.child, e.group);
      var l := Step(p, e).ledger;
      forall g | g in l.members && l.members[g] != {} && g !in p.side.store.groups && g !in l.dropped
        ensures IsDelivered(l, g)
      {
        assert IsDelivered(p.ledger, g);
      }
    }
  }

  lemma RecordingKeepsLedger(p: Protocol, e: Event)
    requires Inv(p) && Enabled(p, e) && e.Recording?
    ensures Inv(Step(p, e))
  {
    RecordKeepsIndex(p.side, e.child, e.result);
  }

  /** The sweep keeps every group that has children. */
  lemma SweepKeepsLedger(s: Side, l: Ledger, now: int)
    requires Known(s, l) && Conserved(s, l)
    ensures Known(s.(store := TG.ExpireDue(s.store, now)), l) && Conserved(s.(store := TG.ExpireDue(s.store, now)), l)
  {
  }

  lemma LogDelivers(l: Ledger, d: TG.Delivery, g: GroupId)
    ensures IsDelivered(Log(l, Some(d)), g) <==> IsDelivered(l, g) || d.group == g
  {
    var m := Log(l, Some(d));
    assert m.deliveries[|l.deliveries|] == d;
    assert forall i :: 0 <= i < |l.deliveries| ==> m.deliveries[i] == l.deliveries[i];
  }

  /** Handing a ready group out moves it from the store to the deliveries. */
  lemma HandOutKeepsLedger(s: Side, l: Ledger, d: TG.Delivery, t: Side)
    requires Known(s, l) && Conserved(s, l)
    requires d.group in s.store.groups && TG.ChildIds(d) == Sorted(s.store.groups[d.group].children)
    requires t == s.(store := TG.Remove(s.store, d.group), ownerGroups := ForgetOwner(s.ownerGroups, d.group))
    ensures Known(t, Log(l, Some(d))) && Conserved(t, Log(l, Some(d)))
  {
    var m := Log(l, Some(d));
    forall g | g in m.members && m.members[g] != {} && g !in t.store.groups && g !in m.dropped
      ensures IsDelivered(m, g)
    {
      LogDelivers(l, d, g);
    }
  }

  lemma HandOutReady(s: Side, l: Ledger, d: TG.Delivery)
    requires IndexInv(s) && Known(s, l) && Conserved(s, l)
    requires TG.GroupIsReady(s.store, d.group) && d == TG.DeliveryOf(d.group, s.store.groups[d.group])
    requires TG.Inv(TG.Remove(s.store, d.group))
    ensures var t := s.(store := TG.Remove(s.store, d.group), ownerGroups := ForgetOwner(s.ownerGroups, d.group));
            IndexInv(t) && Known(t, Log(l, Some(d))) && Conserved(t, Log(l, Some(d)))
  {
    var t := s.(store := TG.Remove(s.store, d.group), ownerGroups := ForgetOwner(s.ownerGroups, d.group));
    RemoveKeepsIndex(s, t.store, d.group);
    TG.DeliveryIsComplete(d.group, s.store.groups[d.group]);
    HandOutKeepsLedger(s, l, d, t);
  }

  lemma ClaimReadyKeeps(s: Side, l: Ledger, session: SessionId, owner: AgentId, generation: nat)
    requires IndexInv(s) && Known(s, l) && Conserved(s, l)
    ensures var (d, store) := TG.Claim(s.store, session, Some(owner), generation);
            d.Some? ==>
              var t := s.(store := store, ownerGroups := ForgetOwner(s.ownerGroups, d.value.group));
              IndexInv(t) && Known(t, Log(l, d)) && Conserved(t, Log(l, d))
  {
    var (d, store) := TG.Claim(s.store, session, Some(owner), generation);
    if d.Some? {
      TG.ClaimKeepsInv(s.store, session, Some(owner), generation);
      HandOutReady(s, l, d.value);
    }
  }

  lemma RootClaimKeepsLedger(p: Protocol, e: Event)
    requires Inv(p) && e.RootClaim?
    ensures Inv(Step(p, e))
  {
    var swept := p.side.(store := TG.ExpireDue(p.side.store, e.now));
    ExpireKeepsIndex(p.side, e.now);
    SweepKeepsLedger(p.side, p.ledger, e.now);
    ClaimReadyKeeps(swept, p.ledger, e.session, e.owner, e.generation);
  }

  lemma OwnClaimKeepsLedger(p: Protocol, e: Event)
    requires Inv(p) && e.OwnClaim?
    ensures Inv(Step(p, e))
  {
    var s, l := p.side, p.ledger;
    var d := ClaimOwn(s, e.session, e.owner).0;
    if d.Some? {
      var g := d.value.group;
      TG.ClaimSpecificKeepsInv(s.store, g, e.session, e.owner, TG.CurrentGeneration(s.store, e.session));
      HandOutReady(s, l, d.value);
    }
  }

  /** Dropping groups with their mappings moves them from the store to `dropped`. */
  lemma DropKeepsLedger(s: Side, l: Ledger, t: Side)
    requires Known(s, l) && Conserved(s, l)
    requires t.store.groups.Keys <= s.store.groups.Keys && forall g :: g in t.store.groups ==>
               t.store.groups[g] == s.store.groups[g]
    requires forall k :: k in t.ownerGroups ==> k in s.ownerGroups && t.ownerGroups[k] == s.ownerGroups[k]
    requires forall k :: k in t.childGroups ==> k in s.childGroups && t.childGroups[k] == s.childGroups[k]
    ensures var m := l.(dropped := l.dropped + (s.store.groups.Keys - t.store.groups.Keys));
            Known(t, m) && Conserved(t, m)
  {
    var m := l.(dropped := l.dropped + (s.store.groups.Keys - t.store.groups.Keys));
    forall g | g in m.members && m.members[g] != {} && g !in t.store.groups && g !in m.dropped
      ensures IsDelivered(m, g)
    {
      assert IsDelivered(l, g);
    }
  }

  lemma GenerationKeepsLedger(p: Protocol, e: Event)
    requires Inv(p) && (e.AdvanceTo? || e.Cancel?)
    ensures Inv(Step(p, e))
  {
    var s := p.side;
    if e.AdvanceTo? {
      var (generation, store) := TG.Advance(s.store, e.session);
      TG.AdvanceKeepsInv(s.store, e.session);
      CleanKeepsIndex(s, store, e.session, 0, generation);
    } else {
      TG.CancelKeepsInv(s.store, e.session, e.generation);
      CleanKeepsIndex(s, TG.CancelGeneration(s.store, e.session, e.generation), e.session, e.generation,
                      e.generation + 1);
    }
    DropKeepsLedger(s, p.ledger, Next(s, e));
  }

  lemma StepKeepsInv(p: Protocol, e: Event)
    requires Inv(p) && Enabled(p, e)
    ensures Inv(Step(p, e))
  {
    match e
    case Create(_, _, _, _, _) => CreateKeepsLedger(p, e);
    case Registration(_, _, _) => RegistrationKeepsLedger(p, e);
    case Recording(_, _) => RecordingKeepsLedger(p, e);
    case RootClaim(_, _, _, _) => RootClaimKeepsLedger(p, e);
    case OwnClaim(_, _) => OwnClaimKeepsLedger(p, e);
    case AdvanceTo(_) => GenerationKeepsLedger(p, e);
    case Cancel(_, _) => GenerationKeepsLedger(p, e);
  }

  predicate Registered(l: Ledger, g: GroupId, c: AgentId) { g in l.members && c in l.members[g] }

  predicate StillStored(s: Side, g: GroupId, c: AgentId) { g in s.store.groups && c in s.store.groups[g].children }

  ghost predicate DeliveredIn(l: Ledger, i: int, g: GroupId, c: AgentId) {
    0 <= i < |l.deliveries| && l.deliveries[i].group == g && c in TG.ChildIds(l.deliveries[i])
  }

  /** Every registration is in exactly one place: still stored, dropped with its
      generation, or in exactly one delivery, where it has exactly one result. */
  lemma ExactlyOneFate(p: Protocol, g: GroupId, c: AgentId)
    requires Inv(p) && Registered(p.ledger, g, c)
    ensures StillStored(p.side, g, c) ==> g !in p.ledger.dropped && forall i :: !DeliveredIn(p.ledger, i, g, c)
    ensures g in p.ledger.dropped ==> !StillStored(p.side, g, c) && forall i :: !DeliveredIn(p.ledger, i, g, c)
    ensures !StillStored(p.side, g, c) && g !in p.ledger.dropped ==> exists i :: DeliveredIn(p.ledger, i, g, c)
    ensures forall i, j :: DeliveredIn(p.ledger, i, g, c) && DeliveredIn(p.ledger, j, g, c) ==> i == j
    ensures forall i, x, y :: DeliveredIn(p.ledger, i, g, c) && 0 <= x < y < |p.ledger.deliveries[i].results|
              ==> !(p.ledger.deliveries[i].results[x].childId == c == p.ledger.deliveries[i].results[y].childId)
  {
    var l := p.ledger;
    forall i | 0 <= i < |l.deliveries| && l.deliveries[i].group == g
      ensures DeliveredIn(l, i, g, c) && StrictlySorted(TG.ChildIds(l.deliveries[i]))
    {
      assert l.deliveries[i] in l.deliveries;
    }
    forall i, x, y | DeliveredIn(l, i, g, c) && 0 <= x < y < |l.deliveries[i].results|
      ensures !(l.deliveries[i].results[x].childId == c == l.deliveries[i].results[y].childId)
    {
      StrictlySortedDistinct(TG.ChildIds(l.deliveries[i]));
      assert TG.ChildIds(l.deliveries[i])[x] != TG.ChildIds(l.deliveries[i])[y];
    }
  }

  lemma ObserveGrows(l: Ledger, s: Side, e: Event, g: GroupId, c: AgentId)
    ensures l.deliveries <= Observe(l, s, e).deliveries
    ensures Registered(l, g, c) ==> Registered(Observe(l, s, e), g, c)
  {
  }
}
