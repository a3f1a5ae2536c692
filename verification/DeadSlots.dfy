/** Owner entries whose group the sweep has dropped: how they come about, that they stay,
    and what they do to their owner for the rest of the generation. */
module DeadSlots {
  import opened Ids
  import opened Agents
  import opened GroupProtocol
  import C = Coordinator
  import L = Lifecycle
  import TG = TaskGroups

  /** The entry points to a group that is not stored. */
  predicate Dead(s: Side, k: OwnerKey) { k in s.ownerGroups && s.ownerGroups[k] !in s.store.groups }

  /** Creation always answers, and the answered group is stored exactly if the owner's
      slot is not dead. */
  lemma CreateAnswersStoredIff(s: Side, session: SessionId, owner: AgentId, turn: Option<string>, deadline: int,
                               newId: GroupId)
    requires IndexInv(s)
    ensures var key := OwnerKey(session, owner, TG.CurrentGeneration(s.store, session), turn);
            var (r, t) := CreateGroup(s, session, owner, turn, deadline, newId);
            r.Ok? && (r.value in t.store.groups <==> !Dead(s, key))
  {
    if OwnerKey(session, owner, TG.CurrentGeneration(s.store, session), turn) !in s.ownerGroups {
      CreateIsFresh(s, session, owner, turn, deadline, newId);
    }
  }

  /** Nobody can be registered in the group of a dead slot. */
  lemma DeadRefuses(s: Side, k: OwnerKey, caller: AgentKey, child: AgentKey)
    requires Dead(s, k)
    ensures Register(s, caller, child, s.ownerGroups[k]).0.Err? && Register(s, caller, child, s.ownerGroups[k]).1 == s
  {
  }

  // ------------------------------------------------------------- how slots die

  /** The sweep finds the slot's group overdue and without children. */
  predicate SweptEmpty(s: Side, e: Event, k: OwnerKey) {
    && e.RootClaim? && k in s.ownerGroups && s.ownerGroups[k] in s.store.groups
    && TG.Due(s.store.groups[s.ownerGroups[k]], e.now) && s.store.groups[s.ownerGroups[k]].children == {}
  }

  /** Removing a group together with its owner entries leaves no dead slot behind. */
  lemma HandOutLeavesNone(s: Side, t: Side, g: GroupId, k: OwnerKey)
    requires t == s.(store := TG.Remove(s.store, g), ownerGroups := ForgetOwner(s.ownerGroups, g))
    requires g in s.store.groups
    ensures Dead(t, k) <==> Dead(s, k)
  {
  }

  lemma ClaimedIsStored(s: TG.State, session: SessionId, owner: AgentId, generation: nat)
    ensures var (d, t) := TG.Claim(s, session, Some(owner), generation);
            if d.Some? then d.value.group in s.groups && t == TG.Remove(s, d.value.group) else t == s
  {
  }

  /** What follows the sweep in a root claim. */
  lemma ClaimLeavesNone(s: Side, d: Option<TG.Delivery>, store: TG.State, k: OwnerKey)
    requires if d.Some? then d.value.group in s.store.groups && store == TG.Remove(s.store, d.value.group)
             else store == s.store
    ensures d.None? ==> s.(store := store) == s
    ensures d.Some? ==>
              (Dead(s.(store := store, ownerGroups := ForgetOwner(s.ownerGroups, d.value.group)), k) <==> Dead(s, k))
  {
    if d.Some? {
      HandOutLeavesNone(s, s.(store := store, ownerGroups := ForgetOwner(s.ownerGroups, d.value.group)),
                        d.value.group, k);
    }
  }

  lemma RootClaimDies(s: Side, e: Event, k: OwnerKey)
    requires IndexInv(s) && e.RootClaim?
    ensures Dead(Next(s, e), k) <==> Dead(s, k) || SweptEmpty(s, e, k)
  {
    SweepDies(s, e.now, k);
    SweptThenClaimed(s, e, k);
  }

  lemma SweptThenClaimed(s: Side, e: Event, k: OwnerKey)
    requires e.RootClaim?
    ensures Dead(Next(s, e), k) <==> Dead(s.(store := TG.ExpireDue(s.store, e.now)), k)
  {
    var swept := s.(store := TG.ExpireDue(s.store, e.now));
    var (d, store) := TG.Claim(swept.store, e.session, Some(e.owner), e.generation);
    ClaimedIsStored(swept.store, e.session, e.owner, e.generation);
    ClaimLeavesNone(swept, d, store, k);
  }

  lemma SweepDies(s: Side, now: int, k: OwnerKey)
    requires IndexInv(s)
    ensures Dead(s.(store := TG.ExpireDue(s.store, now)), k) <==>
              || Dead(s, k)
              || (&& k in s.ownerGroups && s.ownerGroups[k] in s.store.groups
                  && TG.Due(s.store.groups[s.ownerGroups[k]], now) && s.store.groups[s.ownerGroups[k]].children == {})
  {
    if k in s.ownerGroups && s.ownerGroups[k] in s.store.groups {
      assert TG.GroupInv(s.store.groups[s.ownerGroups[k]]);
    }
  }

  // ------------------------------------------------------- how long they stay

  /** Every owner entry is of its session's current generation. */
  ghost predicate OwnersCurrent(s: Side) {
    forall k :: k in s.ownerGroups ==> k.generation == TG.CurrentGeneration(s.store, k.session)
  }

  /** What clears a slot: its session moves on, or its generation is cancelled. */
  predicate Clears(e: Event, k: OwnerKey) {
    (e.AdvanceTo? && e.session == k.session) || (e.Cancel? && e.session == k.session && e.generation == k.generation)
  }

  lemma OwnersStayCurrent(p: Protocol, e: Event)
    requires Inv(p) && Enabled(p, e) && OwnersCurrent(p.side)
    ensures OwnersCurrent(Next(p.side, e))
  {
    if e.Create? { CreatedIsCurrent(p.side, e); }
  }

  lemma CreatedIsCurrent(s: Side, e: Event)
    requires IndexInv(s) && OwnersCurrent(s) && e.Create?
    ensures OwnersCurrent(Next(s, e))
  {
    if OwnerKey(e.session, e.owner, TG.CurrentGeneration(s.store, e.session), e.turn) !in s.ownerGroups {
      CreateIsFresh(s, e.session, e.owner, e.turn, e.deadline, e.newId);
    }
  }

  lemma CreationLeaves(p: Protocol, e: Event, k: OwnerKey)
    requires Inv(p) && Enabled(p, e) && e.Create?
    ensures Dead(Next(p.side, e), k) <==> Dead(p.side, k)
    ensures k in p.side.ownerGroups ==>
              k in Next(p.side, e).ownerGroups && Next(p.side, e).ownerGroups[k] == p.side.ownerGroups[k]
  {
    var s := p.side;
    if OwnerKey(e.session, e.owner, TG.CurrentGeneration(s.store, e.session), e.turn) !in s.ownerGroups {
      CreateIsFresh(s, e.session, e.owner, e.turn, e.deadline, e.newId);
      if k in s.ownerGroups { assert s.ownerGroups[k] in p.ledger.members && s.ownerGroups[k] != e.newId; }
    }
  }

  lemma ClearingIff(p: Protocol, e: Event, k: OwnerKey)
    requires Inv(p) && OwnersCurrent(p.side) && (e.AdvanceTo? || e.Cancel?)
    ensures Dead(Next(p.side, e), k) <==> Dead(p.side, k) && !Clears(e, k)
    ensures k in p.side.ownerGroups && !Clears(e, k) ==>
              k in Next(p.side, e).ownerGroups && Next(p.side, e).ownerGroups[k] == p.side.ownerGroups[k]
  {
    SlotIsKeyed(p.side, k);
    if e.AdvanceTo? { AdvancingIff(p.side, e.session, k); } else {
      CancellingIff(p.side, e.session, e.generation, k);
    }
  }

  lemma SlotIsKeyed(s: Side, k: OwnerKey)
    requires IndexInv(s)
    ensures k in s.ownerGroups && s.ownerGroups[k] in s.store.groups ==>
              k == SlotKey(s.store.groups[s.ownerGroups[k]])
  {
  }

  lemma AdvancingIff(s: Side, session: SessionId, k: OwnerKey)
    requires k in s.ownerGroups ==> k.generation == TG.CurrentGeneration(s.store, k.session)
    requires k in s.ownerGroups && s.ownerGroups[k] in s.store.groups ==>
               k == SlotKey(s.store.groups[s.ownerGroups[k]])
    ensures Dead(Advance(s, session), k) <==> Dead(s, k) && session != k.session
    ensures k in s.ownerGroups && session != k.session ==>
              k in Advance(s, session).ownerGroups && Advance(s, session).ownerGroups[k] == s.ownerGroups[k]
  {
  }

  lemma CancellingIff(s: Side, session: SessionId, generation: nat, k: OwnerKey)
    requires k in s.ownerGroups && s.ownerGroups[k] in s.store.groups ==>
               k == SlotKey(s.store.groups[s.ownerGroups[k]])
    ensures var t := CancelGeneration(s, session, generation);
            && (Dead(t, k) <==> Dead(s, k) && !(session == k.session && generation == k.generation))
            && (k in s.ownerGroups && !(session == k.session && generation == k.generation) ==>
                  k in t.ownerGroups && t.ownerGroups[k] == s.ownerGroups[k])
  {
  }

  lemma OwnClaimLeaves(s: Side, e: Event, k: OwnerKey)
    requires e.OwnClaim?
    ensures Dead(Next(s, e), k) <==> Dead(s, k)
    ensures Dead(s, k) ==> Next(s, e).ownerGroups[k] == s.ownerGroups[k]
  {
    var d := ClaimOwn(s, e.session, e.owner).0;
    if d.Some? { HandOutLeavesNone(s, Next(s, e), d.value.group, k); }
  }

  lemma OthersLeave(s: Side, e: Event, k: OwnerKey)
    requires e.Registration? || e.Recording?
    ensures Dead(Next(s, e), k) <==> Dead(s, k)
    ensures Next(s, e).ownerGroups == s.ownerGroups
  {
  }

  /** Exactly when a slot is dead after an operation: it was dead or the sweep has just
      dropped its empty group, and the operation does not clear it. */
  lemma DeadAfterIff(p: Protocol, e: Event, k: OwnerKey)
    requires Inv(p) && Enabled(p, e) && OwnersCurrent(p.side)
    ensures Dead(Step(p, e).side, k) <==> (Dead(p.side, k) || SweptEmpty(p.side, e, k)) && !Clears(e, k)
  {
    match e
    case Create(_, _, _, _, _) => CreationLeaves(p, e, k);
    case Registration(_, _, _) => OthersLeave(p.side, e, k);
    case Recording(_, _) => OthersLeave(p.side, e, k);
    case RootClaim(_, _, _, _) => RootClaimDies(p.side, e, k);
    case OwnClaim(_, _) => OwnClaimLeaves(p.side, e, k);
    case AdvanceTo(_) => ClearingIff(p, e, k);
    case Cancel(_, _) => ClearingIff(p, e, k);
  }

  /** A dead slot that is not cleared keeps its identifier. */
  lemma DeadKeepsId(p: Protocol, e: Event, k: OwnerKey)
    requires Inv(p) && Enabled(p, e) && OwnersCurrent(p.side) && Dead(p.side, k) && !Clears(e, k)
    ensures k in Step(p, e).side.ownerGroups && Step(p, e).side.ownerGroups[k] == p.side.ownerGroups[k]
  {
    DeadAfterIff(p, e, k);
    match e
    case Create(_, _, _, _, _) => CreationLeaves(p, e, k);
    case OwnClaim(_, _) => OwnClaimLeaves(p.side, e, k);
    case AdvanceTo(_) => ClearingIff(p, e, k);
    case Cancel(_, _) => ClearingIff(p, e, k);
    case _ =>
  }

  lemma DeadOperation(p: Protocol, e: Event, k: OwnerKey)
    requires Inv(p) && Enabled(p, e) && OwnersCurrent(p.side) && Dead(p.side, k) && !Clears(e, k)
    ensures var t := Step(p, e).side; OwnersCurrent(t) && Dead(t, k) && t.ownerGroups[k] == p.side.ownerGroups[k]
  {
    OwnersStayCurrent(p, e);
    DeadAfterIff(p, e, k);
    DeadKeepsId(p, e, k);
  }

  // ------------------------------------------------------------------ over runs

  /** The group operation a step of the coordinator performs, if any. */
  function Operation(s: C.System, e: C.Event): Option<Event>
    requires C.Enabled(s, e)
  {
    match e
    case Local(_) => None
    case GroupOnly(op) => Some(op)
    case Join(tid) => Some(C.Registration(s.life.threads[tid]))
    case RecordStep(tid) => Some(C.Recording(s.life.threads[tid].child, s.life.threads[tid].terminal))
    case ForceRecord(child, terminal) => Some(C.Recording(child, terminal))
  }

  lemma StepOperates(cfg: L.Config, s: C.System, e: C.Event)
    requires C.Inv(cfg, s) && C.Enabled(s, e)
    ensures var op := Operation(s, e);
            && C.Apply(cfg, s, e).group == (if op.Some? then Step(s.group, op.value) else s.group)
            && (op.Some? ==> Enabled(s.group, op.value))
  {
    if e.Join? { assert C.Joins(s.life.threads, e.tid); }
  }

  predicate ClearedBy(e: C.Event, k: OwnerKey) { e.GroupOnly? && Clears(e.op, k) }

  lemma DeadStep(cfg: L.Config, s: C.System, e: C.Event, k: OwnerKey)
    requires C.Inv(cfg, s) && OwnersCurrent(s.group.side) && C.Enabled(s, e) && Dead(s.group.side, k)
    requires !ClearedBy(e, k)
    ensures var t := C.Apply(cfg, s, e).group.side;
            OwnersCurrent(t) && Dead(t, k) && t.ownerGroups[k] == s.group.side.ownerGroups[k]
  {
    StepOperates(cfg, s, e);
    OnlyOperationsClear(s, e, k);
    var op := Operation(s, e);
    if op.Some? { DeadOperation(s.group, op.value, k); }
  }

  lemma OnlyOperationsClear(s: C.System, e: C.Event, k: OwnerKey)
    requires C.Enabled(s, e)
    ensures Operation(s, e).Some? && Clears(Operation(s, e).value, k) ==> ClearedBy(e, k)
  {
  }

  /** Once dead, a slot stays dead with the same identifier, whatever the coordinator
      does, until its session's generation is advanced or its generation is cancelled. */
  lemma {:induction false} DeadOverRuns(cfg: L.Config, s: C.System, run: seq<C.Event>, k: OwnerKey)
    requires C.Inv(cfg, s) && OwnersCurrent(s.group.side) && Dead(s.group.side, k) && C.Feasible(cfg, s, run)
    requires forall e :: e in run ==> !ClearedBy(e, k)
    ensures var t := C.Run(cfg, s, run).group.side; Dead(t, k) && t.ownerGroups[k] == s.group.side.ownerGroups[k]
    decreases |run|
  {
    if run != [] {
      var e := run[0];
      assert e in run;
      DeadStep(cfg, s, e, k);
      C.StepKeepsInv(cfg, s, e);
      DeadOverRuns(cfg, C.Apply(cfg, s, e), run[1..], k);
    }
  }

  lemma {:induction false} OwnersCurrentOverRuns(cfg: L.Config, s: C.System, run: seq<C.Event>)
    requires C.Inv(cfg, s) && OwnersCurrent(s.group.side) && C.Feasible(cfg, s, run)
    ensures OwnersCurrent(C.Run(cfg, s, run).group.side)
    decreases |run|
  {
    if run != [] {
      StepOperates(cfg, s, run[0]);
      C.StepKeepsInv(cfg, s, run[0]);
      var op := Operation(s, run[0]);
      if op.Some? { OwnersStayCurrent(s.group, op.value); }
      OwnersCurrentOverRuns(cfg, C.Apply(cfg, s, run[0]), run[1..]);
    }
  }

  /** So the owner's slot is lost for the generation: in every later state creation answers
      the missing group, changing nothing, and every registration into it is refused. */
  lemma DeadForTheGeneration(cfg: L.Config, s: C.System, run: seq<C.Event>, k: OwnerKey, deadline: int, newId: GroupId,
                             caller: AgentKey, child: AgentKey)
    requires C.Inv(cfg, s) && OwnersCurrent(s.group.side) && Dead(s.group.side, k) && C.Feasible(cfg, s, run)
    requires forall e :: e in run ==> !ClearedBy(e, k)
    ensures var t, id := C.Run(cfg, s, run).group.side, s.group.side.ownerGroups[k];
            && id !in t.store.groups && CreateGroup(t, k.session, k.owner, k.turn, deadline, newId) == (Ok(id), t)
            && Register(t, caller, child, id).0.Err?
  {
    DeadOverRuns(cfg, s, run, k);
    OwnersCurrentOverRuns(cfg, s, run);
    DeadRefuses(C.Run(cfg, s, run).group.side, k, caller, child);
  }

  /** It happens: an owner that created a group and spawned nobody until its deadline has
      a dead slot after the next sweep, and creating again answers the same identifier,
      of a group that is not stored. */
  lemma SlotCanDie(cfg: L.Config, session: SessionId, owner: AgentId, turn: Option<string>, g: GroupId, newId: GroupId)
    ensures var run := [C.GroupOnly(Create(session, owner, turn, 0, g)), C.GroupOnly(RootClaim(session, owner, 0, 1))];
            && C.Feasible(cfg, C.Start(cfg), run)
            && var s := C.Run(cfg, C.Start(cfg), run).group.side;
               && Dead(s, OwnerKey(session, owner, 0, turn))
               && CreateGroup(s, session, owner, turn, 1, newId).0 == Ok(g) && g !in s.store.groups
  {
    TwoOperations(cfg, Create(session, owner, turn, 0, g), RootClaim(session, owner, 0, 1));
    Created(session, owner, turn, g);
    SweepForgets(Next(Start.side, Create(session, owner, turn, 0, g)), session, owner, turn, g);
  }

  lemma TwoOperations(cfg: L.Config, a: Event, b: Event)
    requires Enabled(Start, a) && Enabled(Step(Start, a), b)
    requires !a.Registration? && !a.Recording? && !b.Registration? && !b.Recording?
    ensures var run := [C.GroupOnly(a), C.GroupOnly(b)];
            C.Feasible(cfg, C.Start(cfg), run) && C.Run(cfg, C.Start(cfg), run).group == Step(Step(Start, a), b)
  {
    var run := [C.GroupOnly(a), C.GroupOnly(b)];
    var rest := [C.GroupOnly(b)];
    assert run[1..] == rest && rest[1..] == [];
    var s1 := C.Apply(cfg, C.Start(cfg), run[0]);
    var s2 := C.Apply(cfg, s1, rest[0]);
    assert C.Feasible(cfg, s2, []) && C.Run(cfg, s2, []) == s2;
    assert C.Feasible(cfg, s1, rest) && C.Run(cfg, s1, rest) == s2;
  }

  lemma Created(session: SessionId, owner: AgentId, turn: Option<string>, g: GroupId)
    ensures var s := Next(Start.side, Create(session, owner, turn, 0, g));
            && s.store == TG.State(map[session := 0],
                                   map[g := TG.Group(session, owner, turn, 0, 0, {}, map[], TG.Active)])
            && s.ownerGroups == map[OwnerKey(session, owner, 0, turn) := g]
  {
    assert TG.Matching(TG.State(map[session := 0], map[]), session, owner, turn, 0) == {};
  }

  lemma SweepForgets(s: Side, session: SessionId, owner: AgentId, turn: Option<string>, g: GroupId)
    requires s.store == TG.State(map[session := 0],
                                 map[g := TG.Group(session, owner, turn, 0, 0, {}, map[], TG.Active)])
    requires s.ownerGroups == map[OwnerKey(session, owner, 0, turn) := g]
    ensures var t := Next(s, RootClaim(session, owner, 0, 1));
            t.store.groups == map[] && t.ownerGroups == s.ownerGroups && TG.CurrentGeneration(t.store, session) == 0
  {
    var swept := TG.ExpireDue(s.store, 1);
    assert swept.groups == map[];
    assert TG.ReadyGroups(swept, session, Some(owner), 0) == {};
  }
}
