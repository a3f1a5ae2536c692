/** The store object: in-place updates of `generations` and `groups`, each method
    proved against the corresponding function of module TaskGroups. */
module TaskGroupStores {
  import opened Ids
  import opened Agents
  import opened TaskGroups

  lemma ExpiredResults(g: Group, results: map<AgentId, ChildResult>)
    requires results.Keys == g.results.Keys + Unfinished(g)
    requires forall c :: c in results ==> results[c] == if c in g.results then g.results[c] else Timeout(c)
    ensures g.(results := results, lifecycle := Expired) == ExpireGroup(g)
  {
    assert results == ExpireGroup(g).results;
  }

  lemma ExpiredCount(g: Group, results: map<AgentId, ChildResult>)
    requires results.Keys == g.results.Keys + Unfinished(g)
    ensures |results| == |g.results| + |Unfinished(g)|
  {
    assert |results| == |results.Keys| && |g.results| == |g.results.Keys|;
    assert g.results.Keys !! Unfinished(g);
  }

  /** The inner loop of the sweep: one group's unfinished children time out. */
  method TimeOutUnfinished(g: Group) returns (results: map<AgentId, ChildResult>)
    ensures results.Keys == g.results.Keys + Unfinished(g)
    ensures forall c :: c in results ==> results[c] == if c in g.results then g.results[c] else Timeout(c)
  {
    var todo := Unfinished(g);
    results := g.results;
    while todo != {}
      invariant todo <= Unfinished(g)
      invariant results.Keys == g.results.Keys + (Unfinished(g) - todo)
      invariant forall c :: c in results ==> results[c] == if c in g.results then g.results[c] else Timeout(c)
      decreases todo
    {
      var c :| c in todo;
      results := results[c := Timeout(c)];
      todo := todo - {c};
    }
  }

  method ExpireOne(g: Group) returns (r: Group, timedOut: nat)
    ensures r == ExpireGroup(g)
    ensures timedOut == |r.results| - |g.results|
  {
    timedOut := |Unfinished(g)|;
    var results := TimeOutUnfinished(g);
    ExpiredResults(g, results);
    ExpiredCount(g, results);
    r := g.(results := results, lifecycle := Expired);
  }

  ghost predicate SweptSoFar(groups: map<GroupId, Group>, swept: map<GroupId, Group>, todo: set<GroupId>, now: int) {
    && swept.Keys == groups.Keys
    && forall g :: g in groups ==> swept[g] == if g in todo then groups[g] else Swept(groups[g], now)
  }

  lemma SweepOneMore(groups: map<GroupId, Group>, swept: map<GroupId, Group>, todo: set<GroupId>, now: int, g: GroupId)
    requires SweptSoFar(groups, swept, todo, now) && g in todo && g in groups && Due(groups[g], now)
    ensures SweptSoFar(groups, swept[g := ExpireGroup(groups[g])], todo - {g}, now)
  {
  }

  /** The outer loop: every due group is expired, in whatever order they come. */
  method SweepLoop(groups: map<GroupId, Group>, now: int) returns (swept: map<GroupId, Group>, expired: nat)
    ensures SweptSoFar(groups, swept, {}, now)
    ensures expired == TotalResults(swept) - TotalResults(groups)
  {
    var todo := set g | g in groups && Due(groups[g], now);
    swept, expired := groups, 0;
    while todo != {}
      invariant forall g :: g in todo ==> g in groups && Due(groups[g], now)
      invariant SweptSoFar(groups, swept, todo, now)
      invariant expired == TotalResults(swept) - TotalResults(groups)
      decreases todo
    {
      var g :| g in todo;
      var r, n := ExpireOne(groups[g]);
      TotalUpdate(swept, g, r);
      SweepOneMore(groups, swept, todo, now, g);
      swept, expired, todo := swept[g := r], expired + n, todo - {g};
    }
  }

  lemma RetainedIsExpireDue(s: State, swept: map<GroupId, Group>, kept: map<GroupId, Group>, now: int)
    requires SweptSoFar(s.groups, swept, {}, now)
    requires kept == map g | g in swept && (swept[g].lifecycle != Expired || swept[g].children != {}) :: swept[g]
    ensures kept == ExpireDue(s, now).groups
  {
  }

  lemma SweptWithinChildren(s: State, swept: map<GroupId, Group>, now: int)
    requires Inv(s) && SweptSoFar(s.groups, swept, {}, now)
    ensures forall g :: g in swept ==> swept[g].results.Keys <= swept[g].children
  {
  }

  lemma RetainKeepsTotal(swept: map<GroupId, Group>, kept: map<GroupId, Group>)
    requires forall g :: g in swept ==> swept[g].results.Keys <= swept[g].children
    requires kept == map g | g in swept && (swept[g].lifecycle != Expired || swept[g].children != {}) :: swept[g]
    ensures TotalResults(kept) == TotalResults(swept)
  {
    forall g | g in swept && g !in kept ensures |swept[g].results| == 0 {
      assert swept[g].results.Keys <= {};
      assert |swept[g].results| == |swept[g].results.Keys|;
    }
    TotalDropEmpty(swept, kept);
  }

  class TaskGroupStore {
    var generations: map<SessionId, nat>
    var groups: map<GroupId, Group>

    function Contents(): State
      reads this
    {
      State(generations, groups)
    }

    ghost predicate Valid()
      reads this
    {
      Inv(Contents())
    }

    constructor ()
      ensures Valid() && Contents() == TaskGroups.Empty
    {
      generations, groups := map[], map[];
    }

    /** `create_for_root_turn` and `create_for_parent`; `newId` is the generated identifier. */
    method CreateGroup(session: SessionId, owner: AgentId, turn: Option<string>, generation: nat,
                       deadline: int, newId: GroupId) returns (r: Result<GroupId, Error>)
      requires Valid() && newId !in groups
      modifies this
      ensures Valid()
      ensures (r, Contents()) == Create(old(Contents()), session, owner, turn, generation, deadline, newId)
    {
      CreateKeepsInv(Contents(), session, owner, turn, generation, deadline, newId);
      if session in generations && generations[session] != generation {
        return Err(StaleGeneration(session, generations[session], generation));
      }
      generations := generations[session := generation];
      var found := Matching(Contents(), session, owner, turn, generation);
      if found != {} {
        return Ok(Least(found));
      }
      groups := groups[newId := Group(session, owner, turn, generation, deadline, {}, map[], Active)];
      r := Ok(newId);
    }

    method AddChild(group: GroupId, child: AgentId) returns (r: Result<(), Error>)
      requires Valid()
      modifies this`groups
      ensures Valid()
      ensures (r, Contents()) == TaskGroups.AddChild(old(Contents()), group, child)
    {
      AddChildKeepsInv(Contents(), group, child);
      var open := Open(Contents(), group, child);
      if open.Err? { return Err(open.error); }
      var g := open.value;
      if child in g.children { return Err(ChildAlreadyRegistered(group, child)); }
      groups := groups[group := g.(children := g.children + {child})];
      r := Ok(());
    }

    method RecordResult(group: GroupId, result: ChildResult) returns (r: Result<(), Error>)
      requires Valid()
      modifies this`groups
      ensures Valid()
      ensures (r, Contents()) == TaskGroups.RecordResult(old(Contents()), group, result)
    {
      RecordKeepsInv(Contents(), group, result);
      var open := Open(Contents(), group, result.childId);
      if open.Err? { return Err(open.error); }
      var g := open.value;
      if result.childId !in g.children { return Err(ChildNotRegistered(group, result.childId)); }
      if result.childId in g.results { return Err(ResultAlreadyRecorded(group, result.childId)); }
      groups := groups[group := g.(results := g.results[result.childId := result])];
      r := Ok(());
    }

    /** The sweep returns how many results it added over all groups. */
    method ExpireDueGroups(now: int) returns (expired: nat)
      requires Valid()
      modifies this`groups
      ensures Valid()
      ensures Contents() == ExpireDue(old(Contents()), now)
      ensures expired == TotalResults(groups) - TotalResults(old(groups))
    {
      ExpireKeepsInv(Contents(), now);
      var swept, n := SweepLoop(groups, now);
      expired := n;
      SweptWithinChildren(Contents(), swept, now);
      ghost var before := Contents();
      groups := map g | g in swept && (swept[g].lifecycle != Expired || swept[g].children != {}) :: swept[g];
      RetainKeepsTotal(swept, groups);
      RetainedIsExpireDue(before, swept, groups, now);
    }

    method ClaimReady(session: SessionId, claimant: Option<AgentId>, generation: nat) returns (d: Option<Delivery>)
      requires Valid()
      modifies this`groups
      ensures Valid()
      ensures (d, Contents()) == Claim(old(Contents()), session, claimant, generation)
    {
      ClaimKeepsInv(Contents(), session, claimant, generation);
      if CurrentGeneration(Contents(), session) != generation { return None; }
      var ready := ReadyGroups(Contents(), session, claimant, generation);
      if ready == {} { return None; }
      var g := Least(ready);
      d := Some(DeliveryOf(g, groups[g]));
      groups := groups - {g};
    }

    method ClaimSpecific(group: GroupId, session: SessionId, owner: AgentId, generation: nat)
      returns (d: Option<Delivery>)
      requires Valid()
      modifies this`groups
      ensures Valid()
      ensures (d, Contents()) == TaskGroups.ClaimSpecific(old(Contents()), group, session, owner, generation)
    {
      ClaimSpecificKeepsInv(Contents(), group, session, owner, generation);
      if group !in groups { return None; }
      var g := groups[group];
      if g.session == session && g.owner == owner && g.generation == generation
         && CurrentGeneration(Contents(), session) == generation && Ready(g)
      {
        d := Some(DeliveryOf(group, g));
        groups := groups - {group};
      } else {
        d := None;
      }
    }

    method AdvanceGeneration(session: SessionId) returns (generation: nat)
      requires Valid()
      modifies this
      ensures Valid()
      ensures (generation, Contents()) == Advance(old(Contents()), session)
      ensures forall g :: g in groups ==> groups[g].session != session
    {
      AdvanceKeepsInv(Contents(), session);
      generation := CurrentGeneration(Contents(), session) + 1;
      generations := generations[session := generation];
      groups := map g | g in groups && (groups[g].session != session || groups[g].generation >= generation) ::
        groups[g];
    }

    method CancelGeneration(session: SessionId, generation: nat) returns (removed: nat)
      requires Valid()
      modifies this`groups
      ensures Valid()
      ensures Contents() == TaskGroups.CancelGeneration(old(Contents()), session, generation)
      ensures var gone := set g | g in old(groups) && old(groups)[g].session == session
                                  && old(groups)[g].generation == generation;
              removed == |gone|
    {
      CancelKeepsInv(Contents(), session, generation);
      var before := |groups|;
      CancelledCount(Contents(), session, generation);
      groups := map g | g in groups && (groups[g].session != session || groups[g].generation != generation) ::
        groups[g];
      removed := before - |groups|;
    }
  }

  lemma CancelledCount(s: State, session: SessionId, generation: nat)
    ensures |TaskGroups.CancelGeneration(s, session, generation).groups| +
            |set g | g in s.groups && s.groups[g].session == session
              && s.groups[g].generation == generation| == |s.groups|
  {
    var gone := set g | g in s.groups && s.groups[g].session == session && s.groups[g].generation == generation;
    var kept := TaskGroups.CancelGeneration(s, session, generation).groups;
    assert kept.Keys == s.groups.Keys - gone;
    assert |kept| == |kept.Keys| && |s.groups| == |s.groups.Keys|;
  }

  lemma {:induction false} TotalDropEmpty(m: map<GroupId, Group>, n: map<GroupId, Group>)
    requires n.Keys <= m.Keys && forall g :: g in n ==> n[g] == m[g]
    requires forall g :: g in m && g !in n ==> |m[g].results| == 0
    ensures TotalResults(m) == TotalResults(n)
    decreases |m|
  {
    if m.Keys == n.Keys {
      assert m == n;
    } else {
      var g :| g in m && g !in n;
      TotalWithout(m, g);
      assert (m - {g}).Keys == m.Keys - {g};
      TotalDropEmpty(m - {g}, n);
    }
  }
}
