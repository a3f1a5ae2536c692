/** Generation and delivery state of direct-child task groups. Every operation of
    the store runs under one write lock, so each is one atomic function of the
    state. A group's identifier is its key in `groups`. */
module TaskGroups {
  import opened Ids
  import opened Agents

  datatype Lifecycle = Active | Expired

  datatype Group = Group(
    session: SessionId, owner: AgentId, turn: Option<string>, generation: nat, deadline: int,
    children: set<AgentId>, results: map<AgentId, ChildResult>, lifecycle: Lifecycle)

  datatype State = State(generations: map<SessionId, nat>, groups: map<GroupId, Group>)

  datatype Error =
    | StaleGeneration(session: SessionId, expected: nat, actual: nat)
    | GroupNotFound(group: GroupId)
    | GroupClosed(group: GroupId, child: AgentId)
    | ChildAlreadyRegistered(group: GroupId, child: AgentId)
    | ChildNotRegistered(group: GroupId, child: AgentId)
    | ResultAlreadyRecorded(group: GroupId, child: AgentId)

  datatype Delivery = Delivery(group: GroupId, generation: nat, results: seq<ChildResult>)

  const Empty := State(map[], map[])

  function CurrentGeneration(s: State, session: SessionId): nat {
    if session in s.generations then s.generations[session] else 0
  }

  // ---------------------------------------------------------------- operations

  function Matching(s: State, session: SessionId, owner: AgentId, turn: Option<string>, generation: nat): set<GroupId> {
    set g | g in s.groups && s.groups[g].session == session && s.groups[g].owner == owner
            && s.groups[g].turn == turn && s.groups[g].generation == generation
  }

  /** `create_for_root_turn` (with a turn) and `create_for_parent` (without one).
      `newId` is the identifier a new group gets. */
  function Create(s: State, session: SessionId, owner: AgentId, turn: Option<string>, generation: nat,
                  deadline: int, newId: GroupId): (Result<GroupId, Error>, State)
  {
    if session in s.generations && s.generations[session] != generation then
      (Err(StaleGeneration(session, s.generations[session], generation)), s)
    else
      var t := s.(generations := s.generations[session := generation]);
      var found := Matching(t, session, owner, turn, generation);
      if found != {} then (Ok(Least(found)), t)
      else
        var g := Group(session, owner, turn, generation, deadline, {}, map[], Active);
        (Ok(newId), t.(groups := t.groups[newId := g]))
  }

  /** `ensure_group_current`, then the lifecycle test both mutators make. */
  function Open(s: State, group: GroupId, child: AgentId): Result<Group, Error> {
    if group !in s.groups then Err(GroupNotFound(group))
    else
      var g := s.groups[group];
      var current := CurrentGeneration(s, g.session);
      if current != g.generation then Err(StaleGeneration(g.session, current, g.generation))
      else if g.lifecycle != Active then Err(GroupClosed(group, child))
      else Ok(g)
  }

  function AddChild(s: State, group: GroupId, child: AgentId): (Result<(), Error>, State) {
    var open := Open(s, group, child);
    if open.Err? then (Err(open.error), s)
    else if child in open.value.children then (Err(ChildAlreadyRegistered(group, child)), s)
    else
      var g := open.value.(children := open.value.children + {child});
      (Ok(()), s.(groups := s.groups[group := g]))
  }

  function RecordResult(s: State, group: GroupId, result: ChildResult): (Result<(), Error>, State) {
    var child := result.childId;
    var open := Open(s, group, child);
    if open.Err? then (Err(open.error), s)
    else if child !in open.value.children then (Err(ChildNotRegistered(group, child)), s)
    else if child in open.value.results then (Err(ResultAlreadyRecorded(group, child)), s)
    else
      var g := open.value.(results := open.value.results[child := result]);
      (Ok(()), s.(groups := s.groups[group := g]))
  }

  function Timeout(child: AgentId): ChildResult {
    ChildResult(child, Status.Failed, "", Some("timeout"), None)
  }

  predicate Due(g: Group, now: int) { g.lifecycle == Active && g.deadline <= now }

  function Unfinished(g: Group): set<AgentId> { g.children - g.results.Keys }

  /** Every unfinished child of a due group becomes a timeout failure. */
  function ExpireGroup(g: Group): Group {
    g.(results := g.results + (map c | c in Unfinished(g) :: Timeout(c)), lifecycle := Expired)
  }

  function Swept(g: Group, now: int): Group { if Due(g, now) then ExpireGroup(g) else g }

  /** The sweep expires due groups and then forgets expired groups without children. */
  function ExpireDue(s: State, now: int): State {
    s.(groups := map g | g in s.groups && (Swept(s.groups[g], now).lifecycle != Expired || s.groups[g].children != {})
                   :: Swept(s.groups[g], now))
  }

  /** The readiness test compares two sizes only. */
  predicate Ready(g: Group) { g.children != {} && |g.children| == |g.results| }

  predicate GroupIsReady(s: State, group: GroupId) { group in s.groups && Ready(s.groups[group]) }

  function DeliveryOf(id: GroupId, g: Group): Delivery {
    Delivery(id, g.generation, ResultList(Sorted(g.results.Keys), g.results))
  }

  function ResultList(ids: seq<AgentId>, results: map<AgentId, ChildResult>): (r: seq<ChildResult>)
    requires forall c :: c in ids ==> c in results
    ensures |r| == |ids|
    ensures forall i :: 0 <= i < |ids| ==> r[i] == results[ids[i]]
  {
    seq(|ids|, i requires 0 <= i < |ids| => results[ids[i]])
  }

  function Remove(s: State, group: GroupId): State { s.(groups := s.groups - {group}) }

  /** Ready groups of a session at `generation`, of one owner or of any. */
  function ReadyGroups(s: State, session: SessionId, owner: Option<AgentId>, generation: nat): set<GroupId> {
    set g | g in s.groups && s.groups[g].session == session
            && (owner.Some? ==> s.groups[g].owner == owner.value)
            && s.groups[g].generation == generation && Ready(s.groups[g])
  }

  /** `claim_ready` (no owner) and `claim_ready_for_owner`. */
  function Claim(s: State, session: SessionId, owner: Option<AgentId>, generation: nat): (Option<Delivery>, State) {
    if CurrentGeneration(s, session) != generation then (None, s)
    else
      var ready := ReadyGroups(s, session, owner, generation);
      if ready == {} then (None, s)
      else (Some(DeliveryOf(Least(ready), s.groups[Least(ready)])), Remove(s, Least(ready)))
  }

  function ClaimSpecific(s: State, group: GroupId, session: SessionId, owner: AgentId,
                         generation: nat): (Option<Delivery>, State) {
    if CurrentGeneration(s, session) == generation && group in ReadyGroups(s, session, Some(owner), generation)
    then (Some(DeliveryOf(group, s.groups[group])), Remove(s, group))
    else (None, s)
  }

  function Advance(s: State, session: SessionId): (nat, State) {
    var next := CurrentGeneration(s, session) + 1;
    (next, State(s.generations[session := next],
                 map g | g in s.groups && (s.groups[g].session != session || s.groups[g].generation >= next) ::
                   s.groups[g]))
  }

  function CancelGeneration(s: State, session: SessionId, generation: nat): State {
    s.(groups := map g | g in s.groups && (s.groups[g].session != session || s.groups[g].generation != generation) ::
       s.groups[g])
  }

  // ----------------------------------------------------------------- invariant

  ghost predicate GroupInv(g: Group) {
    && g.results.Keys <= g.children
    && (forall c :: c in g.results ==> g.results[c].childId == c)
    && (g.lifecycle == Expired ==> g.children != {} && g.results.Keys == g.children)
  }

  ghost predicate Inv(s: State) {
    && (forall g :: g in s.groups ==> GroupInv(s.groups[g]))
    && (forall g :: g in s.groups ==> s.groups[g].session in s.generations
                                      && s.groups[g].generation == s.generations[s.groups[g].session])
    && (forall g, h :: g in s.groups && h in s.groups && SameSlot(s.groups[g], s.groups[h]) ==> g == h)
  }

  predicate SameSlot(g: Group, h: Group) {
    g.session == h.session && g.owner == h.owner && g.turn == h.turn && g.generation == h.generation
  }

  /** The cardinality test means what it should: every child has its result. */
  lemma ReadyMeansComplete(g: Group)
    requires GroupInv(g)
    ensures Ready(g) <==> g.children != {} && g.results.Keys == g.children
  {
    assert |g.results| == |g.results.Keys|;
    if |g.results| == |g.children| { SubsetSize(g.results.Keys, g.children); }
  }

  datatype Op =
    | OpCreate(session: SessionId, owner: AgentId, turn: Option<string>, generation: nat, deadline: int, newId: GroupId)
    | OpAddChild(group: GroupId, child: AgentId)
    | OpRecord(group: GroupId, result: ChildResult)
    | OpExpire(now: int)
    | OpClaim(session: SessionId, claimant: Option<AgentId>, generation: nat)
    | OpClaimSpecific(group: GroupId, session: SessionId, owner: AgentId, generation: nat)
    | OpAdvance(session: SessionId)
    | OpCancel(session: SessionId, generation: nat)

  /** A generated identifier is not that of a stored group. */
  predicate Enabled(s: State, op: Op) { op.OpCreate? ==> op.newId !in s.groups }

  function Apply(s: State, op: Op): State {
    match op
    case OpCreate(session, owner, turn, generation, deadline, newId) =>
      Create(s, session, owner, turn, generation, deadline, newId).1
    case OpAddChild(group, child) => AddChild(s, group, child).1
    case OpRecord(group, result) => RecordResult(s, group, result).1
    case OpExpire(now) => ExpireDue(s, now)
    case OpClaim(session, claimant, generation) => Claim(s, session, claimant, generation).1
    case OpClaimSpecific(group, session, owner, generation) => ClaimSpecific(s, group, session, owner, generation).1
    case OpAdvance(session) => Advance(s, session).1
    case OpCancel(session, generation) => CancelGeneration(s, session, generation)
  }

  lemma CreateKeepsInv(s: State, session: SessionId, owner: AgentId, turn: Option<string>, generation: nat,
                       deadline: int, newId: GroupId)
    requires Inv(s) && newId !in s.groups
    ensures Inv(Create(s, session, owner, turn, generation, deadline, newId).1)
  {
    var (r, t) := Create(s, session, owner, turn, generation, deadline, newId);
    if r.Ok? && t.groups != s.groups {
      var found := Matching(s, session, owner, turn, generation);
      assert found == Matching(s.(generations := s.generations[session := generation]), session, owner, turn,
                               generation);
      forall g | g in s.groups ensures !SameSlot(s.groups[g], t.groups[newId]) {
        assert g !in found;
      }
    }
  }

  /** Dropping groups and rewriting the others within their slots keeps the invariant. */
  lemma ReshapeKeepsInv(s: State, t: State)
    requires Inv(s) && t.groups.Keys <= s.groups.Keys
    requires forall g :: g in t.groups ==> SameSlot(t.groups[g], s.groups[g]) && GroupInv(t.groups[g])
    requires forall g :: g in t.groups ==> t.groups[g].session in t.generations
                                           && t.generations[t.groups[g].session] == t.groups[g].generation
    ensures Inv(t)
  {
    forall g, h | g in t.groups && h in t.groups && SameSlot(t.groups[g], t.groups[h]) ensures g == h {
      assert SameSlot(s.groups[g], s.groups[h]);
    }
  }

  lemma AddChildKeepsInv(s: State, group: GroupId, child: AgentId)
    requires Inv(s)
    ensures Inv(AddChild(s, group, child).1)
  {
    ReshapeKeepsInv(s, AddChild(s, group, child).1);
  }

  lemma RecordKeepsInv(s: State, group: GroupId, result: ChildResult)
    requires Inv(s)
    ensures Inv(RecordResult(s, group, result).1)
  {
    var t := RecordResult(s, group, result).1;
    RecordedGroup(s, group, result);
    ReshapeKeepsInv(s, t);
  }

  lemma RecordedGroup(s: State, group: GroupId, result: ChildResult)
    requires group in s.groups ==> GroupInv(s.groups[group])
    ensures var t := RecordResult(s, group, result).1;
            t.groups != s.groups ==>
              && group in s.groups && group in t.groups && t.groups == s.groups[group := t.groups[group]]
              && SameSlot(t.groups[group], s.groups[group]) && GroupInv(t.groups[group])
  {
  }

  lemma ExpireKeepsInv(s: State, now: int)
    requires Inv(s)
    ensures Inv(ExpireDue(s, now))
  {
    forall g | g in ExpireDue(s, now).groups
      ensures SameSlot(Swept(s.groups[g], now), s.groups[g]) && GroupInv(Swept(s.groups[g], now))
    {
      SweptKeeps(s.groups[g], now);
    }
    ReshapeKeepsInv(s, ExpireDue(s, now));
  }

  lemma SweptKeeps(g: Group, now: int)
    requires GroupInv(g) && (Swept(g, now).lifecycle != Expired || g.children != {})
    ensures SameSlot(Swept(g, now), g) && GroupInv(Swept(g, now))
  {
  }

  lemma ClaimKeepsInv(s: State, session: SessionId, claimant: Option<AgentId>, generation: nat)
    requires Inv(s)
    ensures Inv(Claim(s, session, claimant, generation).1)
  {
    ReshapeKeepsInv(s, Claim(s, session, claimant, generation).1);
  }

  lemma AdvanceKeepsInv(s: State, session: SessionId)
    requires Inv(s)
    ensures Inv(Advance(s, session).1)
  {
    ReshapeKeepsInv(s, Advance(s, session).1);
  }

  lemma ClaimSpecificKeepsInv(s: State, group: GroupId, session: SessionId, owner: AgentId, generation: nat)
    requires Inv(s)
    ensures Inv(ClaimSpecific(s, group, session, owner, generation).1)
  {
    ReshapeKeepsInv(s, ClaimSpecific(s, group, session, owner, generation).1);
  }

  lemma CancelKeepsInv(s: State, session: SessionId, generation: nat)
    requires Inv(s)
    ensures Inv(CancelGeneration(s, session, generation))
  {
    ReshapeKeepsInv(s, CancelGeneration(s, session, generation));
  }

  lemma StepKeepsInv(s: State, op: Op)
    requires Inv(s) && Enabled(s, op)
    ensures Inv(Apply(s, op))
  {
    match op
    case OpCreate(session, owner, turn, generation, deadline, newId) =>
      CreateKeepsInv(s, session, owner, turn, generation, deadline, newId);
    case OpAddChild(group, child) => AddChildKeepsInv(s, group, child);
    case OpRecord(group, result) => RecordKeepsInv(s, group, result);
    case OpExpire(now) => ExpireKeepsInv(s, now);
    case OpClaim(session, claimant, generation) => ClaimKeepsInv(s, session, claimant, generation);
    case OpClaimSpecific(group, session, owner, generation) => ClaimSpecificKeepsInv(s, group, session, owner,
      generation);
    case OpAdvance(session) => AdvanceKeepsInv(s, session);
    case OpCancel(session, generation) => CancelKeepsInv(s, session, generation);
  }

  predicate Feasible(s: State, ops: seq<Op>)
    decreases |ops|
  {
    ops == [] || (Enabled(s, ops[0]) && Feasible(Apply(s, ops[0]), ops[1..]))
  }

  function Run(s: State, ops: seq<Op>): State
    requires Feasible(s, ops)
    decreases |ops|
  {
    if ops == [] then s else Run(Apply(s, ops[0]), ops[1..])
  }

  /** Every state any sequence of operations reaches satisfies the invariant. */
  lemma {:induction false} RunsKeepInv(s: State, ops: seq<Op>)
    requires Inv(s) && Feasible(s, ops)
    ensures Inv(Run(s, ops))
    decreases |ops|
  {
    if ops != [] {
      StepKeepsInv(s, ops[0]);
      RunsKeepInv(Apply(s, ops[0]), ops[1..]);
    }
  }

  /** Under the invariant no mutator ever reports a stale generation: a group is
      missing, closed or open. */
  lemma OpenOutcomes(s: State, group: GroupId, child: AgentId)
    requires Inv(s)
    ensures Open(s, group, child) ==
            if group !in s.groups then Err(GroupNotFound(group))
            else if s.groups[group].lifecycle == Expired then Err(GroupClosed(group, child))
            else Ok(s.groups[group])
  {
  }

  // ------------------------------------------------------------------ delivery

  ghost function ChildIds(d: Delivery): seq<AgentId> {
    seq(|d.results|, i requires 0 <= i < |d.results| => d.results[i].childId)
  }

  /** A delivery holds exactly one result per registered child, ordered by child id. */
  lemma DeliveryIsComplete(id: GroupId, g: Group)
    requires GroupInv(g) && Ready(g)
    ensures var d := DeliveryOf(id, g);
            && ChildIds(d) == Sorted(g.children)
            && StrictlySorted(ChildIds(d))
            && (forall i :: 0 <= i < |d.results| ==> d.results[i] == g.results[ChildIds(d)[i]])
  {
    ReadyMeansComplete(g);
    var d := DeliveryOf(id, g);
    var ids := Sorted(g.results.Keys);
    assert forall i :: 0 <= i < |ids| ==> ids[i] in g.results && d.results[i] == g.results[ids[i]];
    assert ChildIds(d) == ids;
  }

  // --------------------------------------------------------------- expiry sweep

  /** After a sweep every surviving group whose deadline has passed is ready, a
      group disappears only if it had no children, and no result is overwritten. */
  lemma SweepDelivers(s: State, now: int)
    requires Inv(s)
    ensures var t := ExpireDue(s, now);
            && (forall g :: g in s.groups && s.groups[g].children != {} ==> g in t.groups)
            && (forall g :: g in t.groups ==> g in s.groups && t.groups[g].children == s.groups[g].children)
            && (forall g :: g in t.groups && t.groups[g].deadline <= now ==> Ready(t.groups[g]))
            && (forall g, c :: g in t.groups && c in s.groups[g].results
                  ==> c in t.groups[g].results && t.groups[g].results[c] == s.groups[g].results[c])
            && (forall g, c :: g in t.groups && c in t.groups[g].results && c !in s.groups[g].results
                  ==> Due(s.groups[g], now) && t.groups[g].results[c] == Timeout(c))
  {
    var t := ExpireDue(s, now);
    forall g | g in t.groups && t.groups[g].deadline <= now ensures Ready(t.groups[g]) {
      SweptIsReady(s.groups[g], now);
    }
  }

  lemma SweptIsReady(g: Group, now: int)
    requires GroupInv(g) && g.deadline <= now && (Swept(g, now).lifecycle != Expired || g.children != {})
    ensures Ready(Swept(g, now))
  {
    ReadyMeansComplete(Swept(g, now));
  }

  /** Results recorded in all stored groups together. */
  ghost function TotalResults(groups: map<GroupId, Group>): nat
    decreases |groups|
  {
    if groups == map[] then 0 else
      var g :| g in groups;
      assert (groups - {g}).Keys == groups.Keys - {g};
      |groups[g].results| + TotalResults(groups - {g})
  }

  lemma {:induction false} TotalWithout(groups: map<GroupId, Group>, g: GroupId)
    requires g in groups
    ensures TotalResults(groups) == |groups[g].results| + TotalResults(groups - {g})
    decreases groups.Keys
  {
    var h :| h in groups && TotalResults(groups) == |groups[h].results| + TotalResults(groups - {h});
    if h != g {
      assert (groups - {h}).Keys == groups.Keys - {h};
      assert (groups - {g}).Keys == groups.Keys - {g};
      TotalWithout(groups - {h}, g);
      TotalWithout(groups - {g}, h);
      RemoveBoth(groups, g, h);
    }
  }

  lemma RemoveBoth(groups: map<GroupId, Group>, g: GroupId, h: GroupId)
    ensures groups - {h} - {g} == groups - {g} - {h}
  {
  }

  lemma TotalUpdate(groups: map<GroupId, Group>, g: GroupId, r: Group)
    requires g in groups
    ensures TotalResults(groups[g := r]) == TotalResults(groups) - |groups[g].results| + |r.results|
  {
    TotalWithout(groups, g);
    TotalWithout(groups[g := r], g);
    assert groups[g := r] - {g} == groups - {g};
  }

  // --------------------------------------------------------------------- drain

  lemma ClaimShrinks(s: State, session: SessionId, owner: Option<AgentId>, generation: nat)
    requires Claim(s, session, owner, generation).0.Some?
    ensures var (d, t) := Claim(s, session, owner, generation);
            && d.value.group == Least(ReadyGroups(s, session, owner, generation))
            && ReadyGroups(t, session, owner, generation) ==
              ReadyGroups(s, session, owner, generation) - {d.value.group}
            && CurrentGeneration(t, session) == generation
            && t.groups.Keys < s.groups.Keys
  {
  }

  /** Claims repeated until none is left. */
  function Drain(s: State, session: SessionId, owner: Option<AgentId>, generation: nat): seq<Delivery>
    decreases s.groups.Keys
  {
    var (d, t) := Claim(s, session, owner, generation);
    if d.None? then [] else
      ClaimShrinks(s, session, owner, generation);
      [d.value] + Drain(t, session, owner, generation)
  }

  ghost function GroupIds(ds: seq<Delivery>): seq<GroupId> {
    seq(|ds|, i requires 0 <= i < |ds| => ds[i].group)
  }

  /** Each drained delivery is the whole of its own group. */
  lemma {:induction false} DrainContents(s: State, session: SessionId, owner: Option<AgentId>, generation: nat)
    ensures forall d :: d in Drain(s, session, owner, generation)
              ==> d.group in s.groups && d == DeliveryOf(d.group, s.groups[d.group])
    decreases s.groups.Keys
  {
    var (d, t) := Claim(s, session, owner, generation);
    if d.Some? {
      ClaimShrinks(s, session, owner, generation);
      DrainContents(t, session, owner, generation);
    }
  }

  lemma SortedHead(s: set<string>)
    requires s != {}
    ensures Sorted(s) == [Least(s)] + Sorted(s - {Least(s)})
  {
  }

  lemma GroupIdsCons(d: Delivery, ds: seq<Delivery>)
    ensures GroupIds([d] + ds) == [d.group] + GroupIds(ds)
  {
  }

  lemma DrainUnfold(s: State, session: SessionId, owner: Option<AgentId>, generation: nat)
    ensures var (d, t) := Claim(s, session, owner, generation);
            Drain(s, session, owner, generation) == if d.None? then []
              else [d.value] + Drain(t, session, owner, generation)
  {
  }

  /** Draining yields every ready group exactly once, in increasing id order. */
  lemma {:induction false} DrainInOrder(s: State, session: SessionId, owner: Option<AgentId>, generation: nat)
    requires CurrentGeneration(s, session) == generation
    ensures GroupIds(Drain(s, session, owner, generation)) == Sorted(ReadyGroups(s, session, owner, generation))
    decreases s.groups.Keys
  {
    var (d, t) := Claim(s, session, owner, generation);
    if d.Some? {
      var ready := ReadyGroups(s, session, owner, generation);
      ClaimShrinks(s, session, owner, generation);
      DrainInOrder(t, session, owner, generation);
      DrainUnfold(s, session, owner, generation);
      GroupIdsCons(d.value, Drain(t, session, owner, generation));
      SortedHead(ready);
    }
  }
}
