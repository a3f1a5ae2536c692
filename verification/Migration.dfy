/** Legacy model configuration: the `main`, `small` and `planner` slots become profiles
    and roles, while what every role resolves to is meant to stay. */
module Migration {
  import opened Ids
  import K = ProfileKeys

  datatype Tier = Light | Medium | Heavy

  datatype Pricing = Pricing(input: real, cacheRead: Option<real>, cacheWrite: Option<real>, output: real)

  datatype Endpoint = Endpoint(
    name: string, baseUrl: Option<string>, apiKey: Option<string>, appkey: Option<string>, provider: Option<string>,
    contextWindow: Option<nat>, temperature: Option<real>, displayName: Option<string>, tier: Option<Tier>,
    pricing: Option<Pricing>)

  type Profiles = map<string, Endpoint>

  datatype Models = Models(
    main: Endpoint, small: Option<Endpoint>, planner: Option<Endpoint>, profiles: Profiles, active: Option<string>,
    plannerRole: Option<string>)

  function Or<T>(a: Option<T>, b: Option<T>): Option<T> { if a.Some? then a else b }

  function Overlay(base: Endpoint, over: Endpoint): Endpoint {
    Endpoint(over.name, Or(over.baseUrl, base.baseUrl), Or(over.apiKey, base.apiKey), Or(over.appkey, base.appkey),
             Or(over.provider, base.provider), Or(over.contextWindow, base.contextWindow),
               Or(over.temperature, base.temperature),
             over.displayName, over.tier, Or(over.pricing, base.pricing))
  }

  predicate Complete(e: Endpoint) {
    && e.baseUrl.Some? && e.apiKey.Some? && e.appkey.Some? && e.provider.Some?
    && e.contextWindow.Some? && e.temperature.Some? && e.pricing.Some?
  }

  predicate Bare(e: Endpoint) {
    && e.baseUrl.None? && e.apiKey.None? && e.appkey.None? && e.provider.None?
    && e.contextWindow.None? && e.temperature.None? && e.pricing.None?
  }

  /** A complete slot inherits nothing, an empty one everything but its own name,
      display name and tier; overlaying twice is overlaying once. */
  lemma OverlayInherits(base: Endpoint, over: Endpoint)
    ensures Complete(over) ==> Overlay(base, over) == over
    ensures Bare(over) ==>
              Overlay(base, over) == base.(name := over.name, displayName := over.displayName, tier := over.tier)
    ensures Overlay(base, Overlay(base, over)) == Overlay(base, over)
  {
  }

  // ------------------------------------------------------------------ resolution

  function Declaring(profiles: Profiles, tier: Tier): set<string>
  {
    set k | k in profiles && profiles[k].tier == Some(tier)
  }

  function Named(profiles: Profiles, name: string): set<string> { set k | k in profiles && profiles[k].name == name }

  function First(keys: set<string>): Option<string> { if keys == {} then None else Some(Least(keys)) }

  function TierProfileKey(m: Models, tier: Tier): Option<string> { First(Declaring(m.profiles, tier)) }

  /** The first declaring profile by key; else the legacy small slot; else `main`. */
  function EndpointForTier(m: Models, tier: Tier): Endpoint {
    var declaring := Sorted(Declaring(m.profiles, tier));
    if declaring != [] then assert declaring[0] in declaring; m.profiles[declaring[0]]
    else if tier == Light && m.small.Some? then Overlay(m.main, m.small.value)
    else m.main
  }

  /** The planner's endpoint: its role, else the legacy slot, else none. */
  function PlannerEndpoint(m: Models): Option<Endpoint> {
    if m.plannerRole.Some? && m.plannerRole.value in m.profiles then Some(m.profiles[m.plannerRole.value])
    else if m.planner.Some? then Some(Overlay(m.main, m.planner.value))
    else None
  }

  /** Sorting the declaring keys and taking the first is taking the least. */
  lemma TierKeyAgrees(m: Models, tier: Tier)
    ensures TierProfileKey(m, tier).Some? ==>
              TierProfileKey(m, tier).value in m.profiles
                && EndpointForTier(m, tier) == m.profiles[TierProfileKey(m, tier).value]
    ensures TierProfileKey(m, tier).None? <==> Declaring(m.profiles, tier) == {}
    ensures TierProfileKey(m, tier).None? ==>
              EndpointForTier(m, tier) == if tier == Light && m.small.Some? then Overlay(m.main, m.small.value)
                else m.main
  {
    var ks := Declaring(m.profiles, tier);
    if ks != {} { assert Sorted(ks)[0] == Least(ks); }
  }

  // ------------------------------------------------------------------- migration

  predicate ActiveValid(m: Models) { m.active.Some? && m.active.value in m.profiles }

  ghost function Activated(m: Models, legacy: bool): Models {
    if ActiveValid(m) then m
    else if legacy then
      if Named(m.profiles, m.main.name) != {} then m.(active := First(Named(m.profiles, m.main.name)))
      else
        var key := K.UniqueKey(m.profiles.Keys, "main");
        m.(profiles := m.profiles[key := m.main], active := Some(key))
    else m.(active := First(m.profiles.Keys))
  }

  function Resynced(m: Models): Models { if ActiveValid(m) then m.(main := m.profiles[m.active.value]) else m }

  ghost function SmallMoved(m: Models): Models {
    if m.small.None? then m
    else if Declaring(m.profiles, Light) != {} then m.(small := None)
    else
      var key := K.UniqueKey(m.profiles.Keys, "small");
      m.(small := None, profiles := m.profiles[key := Overlay(m.main, m.small.value).(tier := Some(Light))])
  }

  ghost function PlannerMoved(m: Models): Models {
    if m.planner.None? then m
    else
      var named := Named(m.profiles, m.planner.value.name);
      var key := if named != {} then Least(named) else K.UniqueKey(m.profiles.Keys, "planner");
      var profiles := if named != {} then m.profiles else m.profiles[key := Overlay(m.main, m.planner.value)];
      m.(planner := None, profiles := profiles, plannerRole := Or(m.plannerRole, Some(key)))
  }

  ghost function Migrated(m: Models, legacy: bool): Models { PlannerMoved(SmallMoved(Resynced(Activated(m, legacy)))) }

  /** Every profile survives a step unchanged. */
  predicate Keeps(a: Profiles, b: Profiles) { forall k :: k in a ==> k in b && b[k] == a[k] }

  lemma StepsKeep(m: Models, legacy: bool)
    ensures Keeps(m.profiles, Activated(m, legacy).profiles)
    ensures Keeps(m.profiles, SmallMoved(m).profiles) && SmallMoved(m).main == m.main
    ensures SmallMoved(m).active == m.active
    ensures Keeps(m.profiles, PlannerMoved(m).profiles) && PlannerMoved(m).main == m.main
    ensures PlannerMoved(m).active == m.active
  {
  }

  /** Nothing is taken away: every profile of the file is still there, unchanged. */
  lemma MigrationKeepsProfiles(m: Models, legacy: bool)
    ensures Keeps(m.profiles, Migrated(m, legacy).profiles)
  {
    var a := Resynced(Activated(m, legacy));
    StepsKeep(m, legacy);
    StepsKeep(a, legacy);
    StepsKeep(SmallMoved(a), legacy);
  }

  predicate Synced(m: Models) { ActiveValid(m) && m.main == m.profiles[m.active.value] }

  /** Afterwards the active key names a profile and `main` is that profile, exactly when
      the file had legacy fields or any profile at all. */
  lemma MigrationSyncsIff(m: Models, legacy: bool)
    ensures Synced(Migrated(m, legacy)) <==> legacy || m.profiles != map[]
    ensures Migrated(m, legacy).small.None? && Migrated(m, legacy).planner.None?
  {
    var b := Resynced(Activated(m, legacy));
    ActivationSyncsIff(m, legacy);
    StepsKeep(b, legacy);
    StepsKeep(SmallMoved(b), legacy);
  }

  lemma ActivationSyncsIff(m: Models, legacy: bool)
    ensures var b := Resynced(Activated(m, legacy));
            if legacy || m.profiles != map[] then Synced(b) else b.active.None?
  {
    if !ActiveValid(m) && !legacy && m.profiles != map[] { assert m.profiles.Keys != {}; }
  }

  lemma SettledStays(m: Models, legacy: bool)
    requires Synced(m) && m.small.None? && m.planner.None?
    ensures Migrated(m, legacy) == m
  {
  }

  /** Migrating again changes nothing exactly when the first migration had something to
      activate: legacy fields or a profile, or nothing to move and no legacy fields now. */
  lemma MigrateTwiceIff(m: Models, legacy: bool, again: bool)
    ensures Migrated(Migrated(m, legacy), again) == Migrated(m, legacy)
            <==> legacy || m.profiles != map[] || (!again && m.small.None? && m.planner.None?)
  {
    var r := Migrated(m, legacy);
    MigrationSyncsIff(m, legacy);
    if legacy || m.profiles != map[] {
      SettledStays(r, again);
    } else {
      NothingActive(m);
      if !again && m.small.None? && m.planner.None? {
        assert r.profiles == map[];
      } else {
        MigrationSyncsIff(r, again);
        if m.small.Some? || m.planner.Some? { assert r.profiles != map[]; }
      }
    }
  }

  lemma NothingActive(m: Models)
    requires m.profiles == map[]
    ensures var r := Migrated(m, false); r.active.None? && (r.profiles == map[] <==> m.small.None? && m.planner.None?)
  {
    var b := Resynced(Activated(m, false));
    assert b.active.None? && b.profiles == map[];
    var c := SmallMoved(b);
    assert c.profiles == map[] <==> m.small.None?;
  }

  // --------------------------------------------------- resolution is preserved

  /** A profile that does not declare the tier does not change what it resolves to. */
  lemma OtherTier(m: Models, n: Models, key: string, ep: Endpoint, tier: Tier)
    requires key !in m.profiles && ep.tier != Some(tier) && n.profiles == m.profiles[key := ep]
    requires n.main == m.main && n.small == m.small
    ensures EndpointForTier(n, tier) == EndpointForTier(m, tier)
    ensures Declaring(n.profiles, tier) == Declaring(m.profiles, tier)
  {
    assert Declaring(n.profiles, tier) == Declaring(m.profiles, tier);
    TierKeyAgrees(m, tier);
    TierKeyAgrees(n, tier);
  }

  /** `main` agrees with the active profile, or is new, untagged and shares its name with
      no profile; the planner slot is untagged and, unless a role is bound already, shares
      its name with nothing; a bound planner role names a profile. */
  predicate Clean(m: Models) {
    && (if ActiveValid(m) then Synced(m) else m.main.tier.None? && Named(m.profiles, m.main.name) == {})
    && (m.plannerRole.Some? ==> m.plannerRole.value in m.profiles)
    && (m.planner.Some? ==>
          && m.planner.value.tier.None?
          && (m.plannerRole.None? ==>
                && Named(m.profiles, m.planner.value.name) == {} && m.planner.value.name != m.main.name
                && (m.small.Some? ==> m.small.value.name != m.planner.value.name)))
  }

  predicate UpToTag(a: Endpoint, b: Endpoint) { a.(tier := None) == b.(tier := None) }

  lemma ActivationPreserves(m: Models, tier: Tier)
    requires Clean(m)
    ensures var b := Resynced(Activated(m, true));
            && EndpointForTier(b, tier) == EndpointForTier(m, tier) && PlannerEndpoint(b) == PlannerEndpoint(m)
            && b.main == m.main && b.small == m.small && b.planner == m.planner && b.plannerRole == m.plannerRole
            && (m.plannerRole.Some? ==> m.plannerRole.value in b.profiles)
            && (m.planner.Some? && m.plannerRole.None? ==> Named(b.profiles, m.planner.value.name) == {})
  {
    if !ActiveValid(m) {
      var key := K.UniqueKey(m.profiles.Keys, "main");
      var b := Resynced(Activated(m, true));
      assert b.profiles == m.profiles[key := m.main];
      OtherTier(m, b, key, m.main, tier);
      if m.planner.Some? && m.plannerRole.None? {
        forall k | k in b.profiles ensures b.profiles[k].name != m.planner.value.name {
          if k != key { assert k !in Named(m.profiles, m.planner.value.name); }
        }
      }
    }
  }

  lemma SmallPreserves(m: Models, tier: Tier)
    requires m.plannerRole.Some? ==> m.plannerRole.value in m.profiles
    ensures var c := SmallMoved(m);
            && UpToTag(EndpointForTier(c, tier), EndpointForTier(m, tier))
            && (tier != Light ==> EndpointForTier(c, tier) == EndpointForTier(m, tier))
            && PlannerEndpoint(c) == PlannerEndpoint(m)
  {
    if m.small.Some? {
      if tier != Light || Declaring(m.profiles, Light) != {} { SmallUnused(m, tier); }
      if Declaring(m.profiles, Light) == {} {
        var key := K.UniqueKey(m.profiles.Keys, "small");
        var ep := Overlay(m.main, m.small.value).(tier := Some(Light));
        if tier == Light {
          NewLight(m, SmallMoved(m), key, ep);
        } else {
          OtherTier(m.(small := None), SmallMoved(m), key, ep, tier);
        }
      }
    }
  }

  lemma SmallUnused(m: Models, tier: Tier)
    requires tier != Light || Declaring(m.profiles, Light) != {}
    ensures EndpointForTier(m.(small := None), tier) == EndpointForTier(m, tier)
  {
    TierKeyAgrees(m, tier);
  }

  lemma NewLight(m: Models, n: Models, key: string, ep: Endpoint)
    requires m.small.Some? && Declaring(m.profiles, Light) == {} && key !in m.profiles
    requires ep == Overlay(m.main, m.small.value).(tier := Some(Light)) && n.profiles == m.profiles[key := ep]
    ensures UpToTag(EndpointForTier(n, Light), EndpointForTier(m, Light))
  {
    TierKeyAgrees(m, Light);
    TierKeyAgrees(n, Light);
    forall k | k in m.profiles ensures k !in Declaring(n.profiles, Light) { assert k !in Declaring(m.profiles, Light); }
    assert Declaring(n.profiles, Light) == {key};
  }

  lemma SmallNames(m: Models, name: string)
    requires Named(m.profiles, name) == {} && (m.small.Some? ==> m.small.value.name != name)
    ensures Named(SmallMoved(m).profiles, name) == {}
  {
    var c := SmallMoved(m);
    forall k | k in c.profiles ensures c.profiles[k].name != name {
      if k in m.profiles { assert k !in Named(m.profiles, name); }
    }
  }

  lemma PlannerPreserves(m: Models, tier: Tier)
    requires m.plannerRole.Some? ==> m.plannerRole.value in m.profiles
    requires m.planner.Some? ==> m.planner.value.tier.None?
    requires m.planner.Some? && m.plannerRole.None? ==> Named(m.profiles, m.planner.value.name) == {}
    ensures EndpointForTier(PlannerMoved(m), tier) == EndpointForTier(m, tier)
    ensures PlannerEndpoint(PlannerMoved(m)) == PlannerEndpoint(m)
  {
    if m.planner.Some? && Named(m.profiles, m.planner.value.name) == {} {
      var key := K.UniqueKey(m.profiles.Keys, "planner");
      OtherTier(m, PlannerMoved(m), key, Overlay(m.main, m.planner.value), tier);
    }
  }

  /** A clean legacy file resolves as before: every tier, up to the light tag the small
      slot receives, and the planner. */
  lemma MigrationPreservesResolution(m: Models, tier: Tier)
    requires Clean(m)
    ensures var r := Migrated(m, true);
            && UpToTag(EndpointForTier(r, tier), EndpointForTier(m, tier))
            && (tier != Light ==> EndpointForTier(r, tier) == EndpointForTier(m, tier))
            && PlannerEndpoint(r) == PlannerEndpoint(m)
  {
    ActivationPreserves(m, tier);
    SlotsPreserve(Resynced(Activated(m, true)), tier);
  }

  lemma SlotsPreserve(b: Models, tier: Tier)
    requires b.plannerRole.Some? ==> b.plannerRole.value in b.profiles
    requires b.planner.Some? ==> b.planner.value.tier.None?
    requires b.planner.Some? && b.plannerRole.None? ==>
               Named(b.profiles, b.planner.value.name) == {}
                 && (b.small.Some? ==> b.small.value.name != b.planner.value.name)
    ensures var r := PlannerMoved(SmallMoved(b));
            && UpToTag(EndpointForTier(r, tier), EndpointForTier(b, tier))
            && (tier != Light ==> EndpointForTier(r, tier) == EndpointForTier(b, tier))
            && PlannerEndpoint(r) == PlannerEndpoint(b)
  {
    var c := SmallMoved(b);
    SmallPreserves(b, tier);
    SmallLeaves(b);
    if b.planner.Some? && b.plannerRole.None? { SmallNames(b, b.planner.value.name); }
    PlannerPreserves(c, tier);
  }

  lemma SmallLeaves(m: Models)
    ensures SmallMoved(m).planner == m.planner && SmallMoved(m).plannerRole == m.plannerRole
    ensures Keeps(m.profiles, SmallMoved(m).profiles)
  {
  }

  /** The `main` that activation settles on: the profile the active key or, failing
      that, the name points to. */
  predicate MainSurvives(m: Models) {
    if ActiveValid(m) then Synced(m)
    else Named(m.profiles, m.main.name) == {} || m.profiles[Least(Named(m.profiles, m.main.name))] == m.main
  }

  lemma SurvivesIff(m: Models)
    ensures Migrated(m, true).main == m.main <==> MainSurvives(m)
  {
    var b := Resynced(Activated(m, true));
    StepsKeep(b, true);
    StepsKeep(SmallMoved(b), true);
  }

  lemma TagsStay(m: Models, tier: Tier)
    requires tier != Light && m.main.tier != Some(tier) && (m.planner.Some? ==> m.planner.value.tier != Some(tier))
    ensures Declaring(Migrated(m, true).profiles, tier) == Declaring(m.profiles, tier)
  {
    var b := Resynced(Activated(m, true));
    TagStaysActivated(m, tier);
    TagStaysSmall(b, tier);
    TagStaysPlanner(SmallMoved(b), tier);
  }

  lemma TagStaysActivated(m: Models, tier: Tier)
    requires m.main.tier != Some(tier)
    ensures Declaring(Resynced(Activated(m, true)).profiles, tier) == Declaring(m.profiles, tier)
    ensures Resynced(Activated(m, true)).planner == m.planner
  {
  }

  lemma TagStaysSmall(m: Models, tier: Tier)
    requires tier != Light
    ensures Declaring(SmallMoved(m).profiles, tier) == Declaring(m.profiles, tier) && SmallMoved(m).planner == m.planner
  {
  }

  lemma TagStaysPlanner(m: Models, tier: Tier)
    requires m.planner.Some? ==> m.planner.value.tier != Some(tier)
    ensures Declaring(PlannerMoved(m).profiles, tier) == Declaring(m.profiles, tier)
  {
  }

  /** A medium or heavy tier no profile declares resolves as before exactly when `main`
      agrees with the profile its key or its name points to, if there is one. */
  lemma UndeclaredTierIff(m: Models, tier: Tier)
    requires tier != Light && Declaring(m.profiles, tier) == {}
    requires m.main.tier != Some(tier) && (m.planner.Some? ==> m.planner.value.tier != Some(tier))
    ensures EndpointForTier(Migrated(m, true), tier) == EndpointForTier(m, tier) <==> MainSurvives(m)
  {
    TagsStay(m, tier);
    TierKeyAgrees(m, tier);
    TierKeyAgrees(Migrated(m, true), tier);
    SurvivesIff(m);
  }

  // ---------------------------------------------- what becomes of the planner

  /** The `main` the migration settles on. */
  function MainAfter(m: Models): Endpoint {
    if ActiveValid(m) then m.profiles[m.active.value]
    else if Named(m.profiles, m.main.name) != {} then m.profiles[Least(Named(m.profiles, m.main.name))]
    else m.main
  }

  /** `main` becomes a profile of its own. */
  predicate AddsMain(m: Models) { !ActiveValid(m) && Named(m.profiles, m.main.name) == {} }

  ghost function MainKey(m: Models): string { K.UniqueKey(m.profiles.Keys, "main") }

  ghost function WithMain(m: Models): Profiles {
    if AddsMain(m) then m.profiles[MainKey(m) := m.main] else m.profiles
  }

  /** The small slot becomes a profile, unless a light profile shadows it. */
  predicate AddsSmall(m: Models) {
    m.small.Some? && Declaring(m.profiles, Light) == {} && !(AddsMain(m) && m.main.tier == Some(Light))
  }

  ghost function SmallKey(m: Models): string { K.UniqueKey(WithMain(m).Keys, "small") }

  /** The file's profiles with those that `main` and `small` become. */
  ghost function WithSlots(m: Models): Profiles {
    if AddsSmall(m) then WithMain(m)[SmallKey(m) := Overlay(MainAfter(m), m.small.value).(tier := Some(Light))]
      else WithMain(m)
  }

  ghost function PlannerKey(m: Models): string { K.UniqueKey(WithSlots(m).Keys, "planner") }

  /** A slot inherits the same from either base. */
  predicate InheritsSame(a: Endpoint, b: Endpoint, over: Endpoint) {
    && (over.baseUrl.None? ==> a.baseUrl == b.baseUrl) && (over.apiKey.None? ==> a.apiKey == b.apiKey)
    && (over.appkey.None? ==> a.appkey == b.appkey) && (over.provider.None? ==> a.provider == b.provider)
    && (over.contextWindow.None? ==> a.contextWindow == b.contextWindow)
    && (over.temperature.None? ==> a.temperature == b.temperature) && (over.pricing.None? ==> a.pricing == b.pricing)
  }

  lemma OverlaySameIff(a: Endpoint, b: Endpoint, over: Endpoint)
    ensures Overlay(a, over) == Overlay(b, over) <==> InheritsSame(a, b, over)
  {
  }

  lemma MovedSlots(m: Models)
    ensures var c := SmallMoved(Resynced(Activated(m, true)));
            && c.profiles == WithSlots(m) && c.main == MainAfter(m) && c.planner == m.planner
              && c.plannerRole == m.plannerRole
  {
    var b := Resynced(Activated(m, true));
    MovedMain(m);
    if AddsMain(m) { AddedDeclares(m.profiles, MainKey(m), m.main, Light); }
  }

  lemma MovedMain(m: Models)
    ensures var b := Resynced(Activated(m, true));
            && b.profiles == WithMain(m) && b.main == MainAfter(m)
            && b.small == m.small && b.planner == m.planner && b.plannerRole == m.plannerRole
  {
  }

  lemma AddedDeclares(profiles: Profiles, key: string, ep: Endpoint, tier: Tier)
    requires key !in profiles
    ensures Declaring(profiles[key := ep], tier) ==
              if ep.tier == Some(tier) then Declaring(profiles, tier) + {key} else Declaring(profiles, tier)
  {
  }

  /** The condition on the file, by what the planner role says. A valid role: none. No
      role: no slot, or the slot's first namesake among the profiles, `main` and `small`
      equals what the slot resolved to, or there is none and the slot inherits the same
      from the `main` that is settled on. A role that names no profile: without a slot it
      must not be the key `main` or `small` gets; with a slot it must be a key that gets
      just the endpoint the slot resolved to. */
  ghost predicate PlannerKept(m: Models) {
    var slots := WithSlots(m);
    if m.plannerRole.Some? && m.plannerRole.value in m.profiles then true
    else if m.planner.None? then m.plannerRole.Some? ==> m.plannerRole.value !in slots
    else
      var p := m.planner.value;
      var namesakes := Named(slots, p.name);
      if m.plannerRole.None? then
        if namesakes != {} then slots[Least(namesakes)] == Overlay(m.main, p) else InheritsSame(MainAfter(m), m.main, p)
      else if m.plannerRole.value in slots then slots[m.plannerRole.value] == Overlay(m.main, p)
      else namesakes == {} && m.plannerRole.value == PlannerKey(m) && InheritsSame(MainAfter(m), m.main, p)
  }

  /** What the planner resolves to after the last step of the migration. */
  lemma PlannerAfter(c: Models)
    ensures var d := PlannerMoved(c);
            var named := if c.planner.Some? then Named(c.profiles, c.planner.value.name) else {};
            var made := c.planner.Some? && named == {};
            PlannerEndpoint(d) ==
              if c.plannerRole.Some? then
                if c.plannerRole.value in c.profiles then Some(c.profiles[c.plannerRole.value])
                else if made && c.plannerRole.value == K.UniqueKey(c.profiles.Keys, "planner")
                     then Some(Overlay(c.main, c.planner.value))
                else None
              else if c.planner.None? then None
              else if named != {} then Some(c.profiles[Least(named)])
              else Some(Overlay(c.main, c.planner.value))
  {
  }

  /** The planner resolves as before exactly if the file meets that condition. */
  lemma PlannerPreservedIff(m: Models)
    ensures PlannerEndpoint(Migrated(m, true)) == PlannerEndpoint(m) <==> PlannerKept(m)
  {
    var c := SmallMoved(Resynced(Activated(m, true)));
    MovedSlots(m);
    PlannerAfter(c);
    SlotsKeep(m);
    if m.planner.Some? { OverlaySameIff(MainAfter(m), m.main, m.planner.value); }
  }

  lemma SlotsKeep(m: Models)
    ensures Keeps(m.profiles, WithSlots(m))
  {
  }

  // ------------------------------------------------- what becomes of each tier

  predicate AddsPlanner(m: Models, slots: Profiles) { m.planner.Some? && Named(slots, m.planner.value.name) == {} }

  /** The file's profiles with all that the slots become. */
  ghost function WithAll(m: Models): Profiles {
    var slots := WithSlots(m);
    if AddsPlanner(m, slots) then slots[PlannerKey(m) := Overlay(MainAfter(m), m.planner.value)] else slots
  }

  lemma MigratedIs(m: Models)
    ensures var r := Migrated(m, true); r.profiles == WithAll(m) && r.main == MainAfter(m) && r.small.None?
  {
    MovedSlots(m);
    MigrationSyncsIff(m, true);
  }

  /** The keys the migration makes that declare the tier: `main` with its own tag, the
      small slot for light, the planner slot with its own tag. */
  ghost function MadeFor(m: Models, tier: Tier): set<string> {
    MadeBySlots(m, tier) + MadeByPlanner(m, WithSlots(m), PlannerKey(m), tier)
  }

  function MadeByPlanner(m: Models, slots: Profiles, key: string, tier: Tier): set<string> {
    if AddsPlanner(m, slots) && m.planner.value.tier == Some(tier) then {key} else {}
  }

  ghost function MadeBySlots(m: Models, tier: Tier): set<string> {
    (if AddsMain(m) && m.main.tier == Some(tier) then {MainKey(m)} else {})
    + (if tier == Light && AddsSmall(m) then {SmallKey(m)} else {})
  }

  lemma DeclaringAll(m: Models, tier: Tier)
    ensures Declaring(WithAll(m), tier) == Declaring(m.profiles, tier) + MadeFor(m, tier)
  {
    DeclaringSlots(m, tier);
    PlannerDeclares(m, WithSlots(m), PlannerKey(m), WithAll(m), tier);
    UnionGroups(Declaring(m.profiles, tier), MadeBySlots(m, tier), MadeByPlanner(m, WithSlots(m), PlannerKey(m), tier));
  }

  lemma UnionGroups(a: set<string>, b: set<string>, c: set<string>)
    ensures a + b + c == a + (b + c)
  {
  }

  lemma PlannerDeclares(m: Models, slots: Profiles, key: string, all: Profiles, tier: Tier)
    requires key !in slots
    requires all == if AddsPlanner(m, slots) then slots[key := Overlay(MainAfter(m), m.planner.value)] else slots
    ensures Declaring(all, tier) == Declaring(slots, tier) + MadeByPlanner(m, slots, key, tier)
  {
    if AddsPlanner(m, slots) { AddedDeclares(slots, key, Overlay(MainAfter(m), m.planner.value), tier); }
  }

  lemma DeclaringSlots(m: Models, tier: Tier)
    ensures Declaring(WithSlots(m), tier) == Declaring(m.profiles, tier) + MadeBySlots(m, tier)
  {
    if AddsMain(m) { AddedDeclares(m.profiles, MainKey(m), m.main, tier); }
    if AddsSmall(m) {
      AddedDeclares(WithMain(m), SmallKey(m), Overlay(MainAfter(m), m.small.value).(tier := Some(Light)), tier);
    }
  }

  /** The condition on the file, by which key comes first among its own that declare the
      tier and those the migration makes. None: the settled `main` must read like `main`.
      One of its own: nothing. The small slot's: the slot must inherit the same from the
      settled `main`. The key of `main` or of the planner slot: `main`, or the planner slot
      over the settled `main`, must read like what the file itself resolves the tier to. */
  ghost predicate TierKept(m: Models, tier: Tier) {
    var own, made := Declaring(m.profiles, tier), MadeFor(m, tier);
    if own + made == {} then UpToTag(MainAfter(m), m.main)
    else
      var first := Least(own + made);
      if first in own then true
      else if tier == Light && AddsSmall(m) && first == SmallKey(m) then
        InheritsSame(MainAfter(m), m.main, m.small.value)
      else if AddsMain(m) && first == MainKey(m) then UpToTag(m.main, EndpointForTier(m, tier))
      else m.planner.Some? && UpToTag(Overlay(MainAfter(m), m.planner.value), EndpointForTier(m, tier))
  }

  lemma FirstOfFile(m: Models, tier: Tier)
    requires Declaring(WithAll(m), tier) != {} && Least(Declaring(WithAll(m), tier)) in m.profiles
    ensures EndpointForTier(m, tier) == WithAll(m)[Least(Declaring(WithAll(m), tier))]
  {
    var all := WithAll(m);
    var first := Least(Declaring(all, tier));
    MigrationKeepsProfiles(m, true);
    MigratedIs(m);
    assert IsLeast(first, Declaring(m.profiles, tier)) by {
      forall x | x in Declaring(m.profiles, tier)
        ensures x == first || Less(first, x)
      {
        assert x in Declaring(all, tier);
      }
    }
    LeastUnique(first, Least(Declaring(m.profiles, tier)), Declaring(m.profiles, tier));
    TierKeyAgrees(m, tier);
  }

  lemma NoneDeclares(m: Models, tier: Tier)
    requires Declaring(WithAll(m), tier) == {}
    ensures EndpointForTier(m, tier) == m.main
  {
    MigrationKeepsProfiles(m, true);
    MigratedIs(m);
    forall x | x in m.profiles ensures x !in Declaring(m.profiles, tier) { assert x !in Declaring(WithAll(m), tier); }
    TierKeyAgrees(m, tier);
    if tier == Light && m.small.Some? { SmallDeclares(m); }
  }

  /** A small slot always leaves a light profile behind. */
  lemma SmallDeclares(m: Models)
    requires m.small.Some?
    ensures Declaring(WithAll(m), Light) != {}
  {
    MovedSlots(m);
    var slots := WithSlots(m);
    if AddsSmall(m) {
      assert SmallKey(m) in Declaring(slots, Light);
    } else if AddsMain(m) && m.main.tier == Some(Light) {
      assert MainKey(m) in Declaring(slots, Light);
    } else {
      SlotsKeep(m);
      var x :| x in Declaring(m.profiles, Light);
      assert x in Declaring(slots, Light);
    }
    var y :| y in Declaring(slots, Light);
    assert y in Declaring(WithAll(m), Light);
  }

  /** What the keys the migration makes stand for. */
  lemma MadeEndpoints(m: Models)
    ensures AddsMain(m) ==> MainKey(m) in WithAll(m) && WithAll(m)[MainKey(m)] == m.main
    ensures AddsSmall(m) ==>
              && SmallKey(m) in WithAll(m)
              && WithAll(m)[SmallKey(m)] == Overlay(MainAfter(m), m.small.value).(tier := Some(Light))
    ensures AddsPlanner(m, WithSlots(m)) ==>
              PlannerKey(m) in WithAll(m) && WithAll(m)[PlannerKey(m)] == Overlay(MainAfter(m), m.planner.value)
    ensures AddsMain(m) && AddsSmall(m) ==> MainKey(m) != SmallKey(m)
  {
  }

  /** The small slot's key in front: the tier resolved to the slot over `main`. */
  lemma SmallInFront(m: Models)
    requires AddsSmall(m)
    ensures UpToTag(Overlay(MainAfter(m), m.small.value).(tier := Some(Light)), EndpointForTier(m, Light))
            <==> InheritsSame(MainAfter(m), m.main, m.small.value)
  {
    TierKeyAgrees(m, Light);
    OverlaySameIff(MainAfter(m), m.main, m.small.value);
  }

  /** A tier resolves as before, up to its tag, exactly if the file meets that condition. */
  lemma TierPreservedIff(m: Models, tier: Tier)
    ensures UpToTag(EndpointForTier(Migrated(m, true), tier), EndpointForTier(m, tier)) <==> TierKept(m, tier)
  {
    DeclaringAll(m, tier);
    ResolvedAfter(m, tier);
    var declaring := Declaring(WithAll(m), tier);
    if declaring == {} {
      NoneDeclares(m, tier);
    } else if Least(declaring) in Declaring(m.profiles, tier) {
      FirstOfFile(m, tier);
    } else {
      MadeFirst(m, tier, Least(declaring));
      if tier == Light && AddsSmall(m) && Least(declaring) == SmallKey(m) { SmallInFront(m); }
    }
  }

  lemma ResolvedAfter(m: Models, tier: Tier)
    ensures var declaring := Declaring(WithAll(m), tier);
            EndpointForTier(Migrated(m, true), tier) ==
              if declaring != {} then WithAll(m)[Least(declaring)] else MainAfter(m)
  {
    MigratedIs(m);
    TierKeyAgrees(Migrated(m, true), tier);
  }

  /** The endpoint behind a key the migration makes. */
  lemma MadeFirst(m: Models, tier: Tier, first: string)
    requires first in MadeFor(m, tier)
    ensures first in WithAll(m)
    ensures WithAll(m)[first] ==
              if tier == Light && AddsSmall(m) && first == SmallKey(m) then
                Overlay(MainAfter(m), m.small.value).(tier := Some(Light))
              else if AddsMain(m) && first == MainKey(m) then m.main
              else if m.planner.Some? then Overlay(MainAfter(m), m.planner.value) else m.main
    ensures || m.planner.Some? || (tier == Light && AddsSmall(m) && first == SmallKey(m))
            || (AddsMain(m) && first == MainKey(m))
  {
    MadeEndpoints(m);
  }

  /** The key of the planner slot sorts before that of the small slot, so a planner slot
      tagged light takes over the light tier. */
  lemma LightPlannerTakesOver(m: Models)
    requires AddsSmall(m) && AddsPlanner(m, WithSlots(m)) && m.planner.value.tier == Some(Light)
    ensures EndpointForTier(Migrated(m, true), Light) == Overlay(MainAfter(m), m.planner.value)
  {
    ResolvedAfter(m, Light);
    DeclaringAll(m, Light);
    MadeEndpoints(m);
    K.UniqueKeyHead(WithSlots(m).Keys, "planner");
    K.UniqueKeyHead(WithMain(m).Keys, "small");
    assert Declaring(WithAll(m), Light) == {SmallKey(m), PlannerKey(m)};
    LeastOfTwo(PlannerKey(m), SmallKey(m));
  }

  lemma LeastOfTwo(a: string, b: string)
    requires a != [] && b != [] && a[0] < b[0]
    ensures Least({b, a}) == a
  {
    assert Less(a, b) && IsLeast(a, {b, a});
    LeastUnique(a, Least({b, a}), {b, a});
  }

  /** A role that names no profile: the slot was the fallback and is lost, unless the role
      happens to be a key the migration makes. With the key of `main` or `small` the planner
      silently becomes that profile; with the key the slot itself gets it stays, up to what
      it inherits. */
  lemma DanglingRole(m: Models)
    requires m.planner.Some? && m.plannerRole.Some? && m.plannerRole.value !in m.profiles
    ensures PlannerEndpoint(m) == Some(Overlay(m.main, m.planner.value))
    ensures AddsMain(m) && m.plannerRole.value == MainKey(m) ==> PlannerEndpoint(Migrated(m, true)) == Some(m.main)
    ensures AddsSmall(m) && m.plannerRole.value == SmallKey(m) ==>
              PlannerEndpoint(Migrated(m, true)) == Some(Overlay(MainAfter(m), m.small.value).(tier := Some(Light)))
    ensures AddsPlanner(m, WithSlots(m)) && m.plannerRole.value == PlannerKey(m) ==>
              PlannerEndpoint(Migrated(m, true)) == Some(Overlay(MainAfter(m), m.planner.value))
    ensures m.plannerRole.value !in WithSlots(m)
            && !(AddsPlanner(m, WithSlots(m)) && m.plannerRole.value == PlannerKey(m)) ==>
              PlannerEndpoint(Migrated(m, true)).None?
  {
    MovedSlots(m);
    PlannerAfter(SmallMoved(Resynced(Activated(m, true))));
  }

  // ------------------------------------------------------------ the configuration

  class ModelsConfig {
    var main: Endpoint
    var small: Option<Endpoint>
    var planner: Option<Endpoint>
    var profiles: Profiles
    var activeProfile: Option<string>
    var plannerRole: Option<string>

    function View(): Models
      reads this
    {
      Models(main, small, planner, profiles, activeProfile, plannerRole)
    }

    constructor (m: Models)
      ensures View() == m
    {
      main, small, planner, profiles, activeProfile, plannerRole := m.main, m.small, m.planner, m.profiles, m.active,
        m.plannerRole;
    }

    /** `migrate_legacy`. */
    method MigrateLegacy(legacy: bool)
      modifies this
      ensures View() == Migrated(old(View()), legacy)
    {
      Activate(legacy);
      if activeProfile.Some? && activeProfile.value in profiles { main := profiles[activeProfile.value]; }
      MoveSmall();
      MovePlanner();
    }

    method Activate(legacy: bool)
      modifies this
      ensures View() == Activated(old(View()), legacy)
    {
      if activeProfile.Some? && activeProfile.value in profiles { return; }
      if legacy {
        var named := Named(profiles, main.name);
        if named != {} {
          activeProfile := First(named);
        } else {
          var key, _ := K.UniqueProfileKey(profiles.Keys, "main");
          profiles := profiles[key := main];
          activeProfile := Some(key);
        }
      } else {
        activeProfile := First(profiles.Keys);
      }
    }

    method MoveSmall()
      modifies this
      ensures View() == SmallMoved(old(View()))
    {
      if small.None? { return; }
      var slot := small.value;
      small := None;
      if Declaring(profiles, Light) == {} {
        var key, _ := K.UniqueProfileKey(profiles.Keys, "small");
        profiles := profiles[key := Overlay(main, slot).(tier := Some(Light))];
      }
    }

    method MovePlanner()
      modifies this
      ensures View() == PlannerMoved(old(View()))
    {
      if planner.None? { return; }
      var slot := planner.value;
      planner := None;
      var found := First(Named(profiles, slot.name));
      if found.None? {
        var key, _ := K.UniqueProfileKey(profiles.Keys, "planner");
        profiles := profiles[key := Overlay(main, slot)];
        found := Some(key);
      }
      plannerRole := Or(plannerRole, found);
    }
  }
}
