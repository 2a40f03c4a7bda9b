/** Provider failover: per-rule overrides, the configuration they derive from a base,
    and the moves between override tables. */
module Failover {
  import opened Entries
  import opened Config
  import opened Health
  import opened PriorityMerge
  import opened Rotations

  datatype Override = Override(
    originalProviderId: string, originalLocation: string,
    activeProviderId: string, activeLocation: string, mode: Mode, since: Time)

  type Overrides = map<string, Override>

  // ----- the derived configuration -----

  function Overridden(providers: seq<Provider>, overrides: Overrides, rule: Rule): Rule {
    if rule.id !in overrides then rule
    else
      var o := overrides[rule.id];
      if o.mode == Direct then rule.(enabled := false)
      else if !ProviderEnabled(providers, o.activeProviderId) then rule
      else rule.(providerId := o.activeProviderId, location := o.activeLocation)
  }

  ghost function FailoverApplied(base: State, overrides: Overrides): State {
    base.(rules := seq(|base.rules|, i requires 0 <= i < |base.rules| =>
      Overridden(base.providers, overrides, base.rules[i])))
  }

  method BuildFailoverApplied(base: State, overrides: Overrides) returns (out: State)
    ensures out == FailoverApplied(base, overrides)
  {
    if |overrides| == 0 {
      assert FailoverApplied(base, overrides).rules == base.rules;
      return base;
    }
    var rules := base.rules;
    for i := 0 to |rules|
      invariant |rules| == |base.rules|
      invariant forall j :: 0 <= j < i ==> rules[j] == Overridden(base.providers, overrides, base.rules[j])
      invariant forall j :: i <= j < |rules| ==> rules[j] == base.rules[j]
    {
      var rule := rules[i];
      if rule.id !in overrides {
        continue;
      }
      var o := overrides[rule.id];
      if o.mode == Direct {
        rules := rules[i := rule.(enabled := false)];
        continue;
      }
      var provider := FindProvider(base.providers, o.activeProviderId);
      if provider.None? || !provider.value.enabled {
        continue;
      }
      rules := rules[i := rule.(providerId := o.activeProviderId, location := o.activeLocation)];
    }
    out := base.(rules := rules);
  }

  /** Two rule lists that differ at most in provider and location, rule by rule. */
  ghost predicate SameButRoutes(a: seq<Rule>, b: seq<Rule>) {
    |a| == |b| && forall i :: 0 <= i < |a| ==> a[i] == b[i].(providerId := a[i].providerId, location := a[i].location)
  }

  ghost predicate AllViaProvider(overrides: Overrides) {
    forall id :: id in overrides ==> overrides[id].mode == ViaProvider
  }

  /** Overrides move rules between providers; they disable and drop nothing. */
  lemma FailoverReleasesNothing(base: State, overrides: Overrides)
    requires AllViaProvider(overrides)
    ensures SameButRoutes(FailoverApplied(base, overrides).rules, base.rules)
    ensures FailoverApplied(base, overrides).(rules := base.rules) == base
  {
  }

  // ----- which providers and rules are in use -----

  predicate HasEntries(rule: Rule) {
    exists e | e in rule.domains :: e != Domain("")
  }

  /** The rule carries traffic for its provider. */
  predicate UsedBy(state: State, r: Rule) {
    r.enabled && HasEntries(r) && ProviderEnabled(state.providers, r.providerId)
  }

  predicate InUse(state: State, providerId: string) {
    exists r | r in state.rules :: UsedBy(state, r) && r.providerId == providerId
  }

  /** The providers in use, in configuration order. */
  ghost function UsedProviders(state: State, providers: seq<Provider>): seq<string> {
    if providers == [] then []
    else
      var last := providers[|providers| - 1];
      UsedProviders(state, providers[..|providers| - 1]) + if InUse(state, last.id) then [last.id] else []
  }

  method EnabledProviderIds(state: State) returns (ids: seq<string>)
    ensures ids == UsedProviders(state, state.providers)
    ensures forall id :: id in ids <==> InUse(state, id)
  {
    var seen := ProvidersOfRules(state);
    ids := [];
    for i := 0 to |state.providers|
      invariant ids == UsedProviders(state, state.providers[..i])
      invariant forall id :: id in ids <==> InUse(state, id) && exists p :: p in state.providers[..i] && p.id == id
    {
      assert state.providers[..i + 1][..i] == state.providers[..i];
      assert state.providers[..i + 1] == state.providers[..i] + [state.providers[i]];
      if state.providers[i].id in seen {
        ids := ids + [state.providers[i].id];
      }
    }
    assert state.providers[..|state.providers|] == state.providers;
  }

  method ProvidersOfRules(state: State) returns (seen: set<string>)
    ensures forall id :: id in seen <==> InUse(state, id)
  {
    seen := {};
    for i := 0 to |state.rules|
      invariant forall id :: id in seen ==> InUse(state, id)
      invariant forall r :: r in state.rules[..i] && UsedBy(state, r) ==> r.providerId in seen
    {
      var rule := state.rules[i];
      assert state.rules[..i + 1] == state.rules[..i] + [rule];
      if !UsedBy(state, rule) {
        continue;
      }
      seen := seen + {rule.providerId};
    }
    assert state.rules[..|state.rules|] == state.rules;
  }

  predicate HasEnabledRules(state: State) {
    || (exists r | r in state.rules :: Active(state.providers, r))
    || (exists p | p in state.policies :: p.enabled && p.targets != []
         && var provider := FindProvider(state.providers, p.providerId);
            provider.Some? && provider.value.enabled && provider.value.kind == Subscription)
  }

  function FindRule(rules: seq<Rule>, id: string): (r: Option<Rule>)
    ensures r.Some? ==> r.value in rules && r.value.id == id
    ensures r.None? ==> forall s :: s in rules ==> s.id != id
  {
    if rules == [] then None
    else if rules[0].id == id then Some(rules[0])
    else FindRule(rules[1..], id)
  }

  lemma {:induction false} FindRuleFinds(rules: seq<Rule>, i: nat)
    requires UniqueRuleIds(rules) && i < |rules|
    ensures FindRule(rules, rules[i].id) == Some(rules[i])
  {
    if 0 < i {
      FindRuleFinds(rules[1..], i - 1);
    }
  }

  /** A base rule whose traffic the applied configuration sends to the provider. */
  predicate Uses(applied: State, baseRule: Rule, providerId: string) {
    && baseRule.enabled && HasEntries(baseRule)
    && var rule := FindRule(applied.rules, baseRule.id);
    rule.Some? && rule.value.providerId == providerId && ProviderEnabled(applied.providers, providerId)
  }

  ghost function RulesUsing(rules: seq<Rule>, applied: State, providerId: string): seq<Rule> {
    if rules == [] then []
    else
      var last := rules[|rules| - 1];
      RulesUsing(rules[..|rules| - 1], applied, providerId) + if Uses(applied, last, providerId) then [last] else []
  }

  method RulesUsingApplied(base: State, applied: State, providerId: string) returns (rules: seq<Rule>)
    ensures rules == RulesUsing(base.rules, applied, providerId)
  {
    rules := [];
    for i := 0 to |base.rules|
      invariant rules == RulesUsing(base.rules[..i], applied, providerId)
    {
      assert base.rules[..i + 1][..i] == base.rules[..i];
      if Uses(applied, base.rules[i], providerId) {
        rules := rules + [base.rules[i]];
      }
    }
    assert base.rules[..|base.rules|] == base.rules;
  }

  lemma {:induction false} RulesUsingMembers(rules: seq<Rule>, applied: State, providerId: string)
    ensures forall r :: r in RulesUsing(rules, applied, providerId) <==> r in rules && Uses(applied, r, providerId)
    ensures UniqueRuleIds(rules) ==> UniqueRuleIds(RulesUsing(rules, applied, providerId))
  {
    if rules != [] {
      var init, last := rules[..|rules| - 1], rules[|rules| - 1];
      assert rules == init + [last];
      RulesUsingMembers(init, applied, providerId);
      assert UniqueRuleIds(rules) ==> UniqueRuleIds(init) && forall r :: r in init ==> r.id != last.id;
    }
  }

  /** A provider is in use if it is switched on and an enabled rule of it names something. */
  lemma InUseIff(state: State, providerId: string)
    ensures InUse(state, providerId)
       <==> ProviderEnabled(state.providers, providerId) && exists r, e ::
              r in state.rules && r.enabled && r.providerId == providerId && e in r.domains && e != Domain("")
  {
  }

  // ----- the candidate rotation -----

  function IndexOf(providers: seq<Provider>, id: string): (k: nat)
    ensures k <= |providers|
    ensures k < |providers| ==> providers[k].id == id
    ensures forall j :: 0 <= j < k ==> providers[j].id != id
  {
    if providers == [] || providers[0].id == id then 0 else 1 + IndexOf(providers[1..], id)
  }

  /** The place after the failed provider, or the beginning if it is not listed. */
  function StartAfter(providers: seq<Provider>, failedId: string): (start: nat)
    ensures start <= |providers|
  {
    var at := IndexOf(providers, failedId);
    if at == |providers| then 0 else at + 1
  }

  ghost function Rotation(providers: seq<Provider>, failedId: string): seq<Provider> {
    Rotated(providers, StartAfter(providers, failedId))
  }

  method OrderedCandidates(providers: seq<Provider>, failedId: string) returns (out: seq<Provider>)
    ensures out == Rotation(providers, failedId)
  {
    if |providers| == 0 {
      return [];
    }
    var start := 0;
    for index := 0 to |providers|
      invariant start == 0 && forall j :: 0 <= j < index ==> providers[j].id != failedId
    {
      if providers[index].id == failedId {
        start := index + 1;
        break;
      }
    }
    out := Rotate(providers, start);
  }

  /** The rotation tries every provider once, the failed one last. */
  lemma RotationIsPermutation(providers: seq<Provider>, failedId: string)
    ensures multiset(Rotation(providers, failedId)) == multiset(providers)
    ensures
      var rotation := Rotation(providers, failedId);
      (exists p :: p in providers && p.id == failedId) ==> rotation != [] && rotation[|rotation| - 1].id == failedId
  {
    RotatedIsPermutation(providers, StartAfter(providers, failedId));
  }

  // ----- the candidate -----

  predicate WouldCreateMultipleOpenVPN(applied: State, failedId: string, candidate: Provider) {
    && candidate.kind == OpenVPN
    && exists r | r in applied.rules ::
      r.enabled && r.providerId != failedId && HasEntries(r) && UsesOpenVPN(applied.providers, r.providerId)
  }

  /** What the outside world answers during one failover step. Each function is keyed by
      its call site, which is reached at most once per step for given arguments. */
  datatype World = World(
    restoreNow: Time,
    loopNow: Time,
    switchNow: string -> Time,                            // by failed provider
    restoreProbe: (string, string) -> Probe,              // by original provider, location
    currentProbe: string -> Probe,                        // by provider
    candidateProbe: (string, string, string) -> Probe,    // by failed provider, candidate, location
    endpoints: (string, string) -> seq<string>)           // by failed provider, candidate: location names

  /** The location a subscription candidate would serve the rule at. */
  function ResolveLocation(names: seq<string>, candidate: Provider, rule: Rule): Option<string> {
    if candidate.kind == OpenVPN then Some("")
    else if names == [] then None
    else if candidate.location != "" && candidate.location in names then Some(candidate.location)
    else if rule.location != "" && rule.location in names then Some(rule.location)
    else Some(names[0])
  }

  function LocationFor(w: World, failedId: string, candidate: Provider, rule: Rule): Option<string> {
    ResolveLocation(w.endpoints(failedId, candidate.id), candidate, rule)
  }

  type Locations = map<string, string>

  ghost predicate LocationsFor(w: World, failedId: string, candidate: Provider, affected: seq<Rule>,
      locations: Locations)
  {
    forall r :: r in affected ==> r.id in locations && Some(locations[r.id]) == LocationFor(w, failedId, candidate, r)
  }

  /** Where a rule may stand after a move to the candidate. OpenVPN has no locations; a
      subscription serves the rule at one that it offers: its own preferred one if it can, else
      the rule's own, else its first. */
  ghost predicate StandsRight(candidate: Provider, names: seq<string>, rule: Rule, location: string) {
    match candidate.kind
    case OpenVPN => location == ""
    case Subscription =>
      var preferred := candidate.location != "" && candidate.location in names;
      var kept := rule.location != "" && rule.location in names;
      && location in names
      && (preferred ==> location == candidate.location)
      && (!preferred && kept ==> location == rule.location)
      && (!preferred && !kept ==> location == names[0])
  }

  lemma ResolvedStandsRight(names: seq<string>, candidate: Provider, rule: Rule)
    ensures ResolveLocation(names, candidate, rule).Some? <==> candidate.kind == OpenVPN || names != []
    ensures ResolveLocation(names, candidate, rule).Some? ==>
      StandsRight(candidate, names, rule, ResolveLocation(names, candidate, rule).value)
  {
  }

  /** Every rule has a location, and it is right. */
  ghost predicate AllStandRight(candidate: Provider, names: seq<string>, rules: seq<Rule>, locations: Locations) {
    forall r :: r in rules ==> r.id in locations && StandsRight(candidate, names, r, locations[r.id])
  }

  function FirstNonBlank(w: World, failedId: string, candidate: Provider, rules: seq<Rule>): string {
    if rules == [] then ""
    else
      var location := LocationFor(w, failedId, candidate, rules[0]);
      if location.Some? && location.value != "" then location.value
      else FirstNonBlank(w, failedId, candidate, rules[1..])
  }

  /** The first of the rules' locations that is not blank, if there is one. */
  ghost predicate IsFirstNonBlank(rules: seq<Rule>, locations: Locations, location: string) {
    if location == "" then
      forall r :: r in rules && r.id in locations ==> locations[r.id] == ""
    else
      exists k :: 0 <= k < |rules| && rules[k].id in locations && locations[rules[k].id] == location
        && forall j :: 0 <= j < k && rules[j].id in locations ==> locations[rules[j].id] == ""
  }

  lemma FirstOfRest(rules: seq<Rule>, locations: Locations, location: string)
    requires rules != [] && rules[0].id in locations && locations[rules[0].id] == ""
    requires IsFirstNonBlank(rules[1..], locations, location)
    ensures IsFirstNonBlank(rules, locations, location)
  {
    var rest := rules[1..];
    if location == "" {
      assert rules == [rules[0]] + rest;
    } else {
      var k :| 0 <= k < |rest| && rest[k].id in locations && locations[rest[k].id] == location
        && forall j :: 0 <= j < k && rest[j].id in locations ==> locations[rest[j].id] == "";
      assert rules[k + 1] == rest[k];
      assert forall j :: 0 < j < k + 1 ==> rules[j] == rest[j - 1];
    }
  }

  lemma {:induction false} ProbesFirstNonBlank(w: World, failedId: string, candidate: Provider, rules: seq<Rule>,
      locations: Locations)
    requires LocationsFor(w, failedId, candidate, rules, locations)
    ensures IsFirstNonBlank(rules, locations, FirstNonBlank(w, failedId, candidate, rules))
  {
    hide LocationFor;
    if rules != [] {
      assert rules[0] in rules && forall r :: r in rules[1..] ==> r in rules;
      if locations[rules[0].id] == "" {
        ProbesFirstNonBlank(w, failedId, candidate, rules[1..], locations);
        FirstOfRest(rules, locations, FirstNonBlank(w, failedId, candidate, rules));
      }
    }
  }

  /** The candidate can take over the affected rules and answers its probe. */
  ghost predicate Eligible(w: World, applied: State, failedId: string, affected: seq<Rule>, candidate: Provider) {
    && candidate.enabled && candidate.id != failedId
    && !WouldCreateMultipleOpenVPN(applied, failedId, candidate)
    && (forall r :: r in affected ==> LocationFor(w, failedId, candidate, r).Some?)
    && w.candidateProbe(failedId, candidate.id, FirstNonBlank(w, failedId, candidate, affected)).healthy
  }

  ghost predicate FirstEligible(w: World, applied: State, failedId: string, affected: seq<Rule>,
      rotation: seq<Provider>, candidate: Provider)
  {
    exists k :: 0 <= k < |rotation| && rotation[k] == candidate && Eligible(w, applied, failedId, affected, candidate)
      && forall j :: 0 <= j < k ==> !Eligible(w, applied, failedId, affected, rotation[j])
  }

  ghost predicate NoneEligible(w: World, applied: State, failedId: string, affected: seq<Rule>,
      rotation: seq<Provider>)
  {
    forall p :: p in rotation ==> !Eligible(w, applied, failedId, affected, p)
  }

  lemma LocationsStandRight(w: World, failedId: string, candidate: Provider, affected: seq<Rule>,
      locations: Locations)
    requires LocationsFor(w, failedId, candidate, affected, locations)
    ensures AllStandRight(candidate, w.endpoints(failedId, candidate.id), affected, locations)
  {
    forall r | r in affected
      ensures StandsRight(candidate, w.endpoints(failedId, candidate.id), r, locations[r.id])
    {
      ResolvedStandsRight(w.endpoints(failedId, candidate.id), candidate, r);
    }
  }

  method FindFailoverCandidate(w: World, base: State, applied: State, failedId: string, affected: seq<Rule>)
    returns (candidate: Option<Provider>, locations: Locations)
    requires UniqueRuleIds(affected)
    ensures candidate.Some? ==>
      FirstEligible(w, applied, failedId, affected, Rotation(base.providers, failedId), candidate.value)
    ensures candidate.Some? ==> LocationsFor(w, failedId, candidate.value, affected, locations)
    ensures candidate.None? <==> NoneEligible(w, applied, failedId, affected, Rotation(base.providers, failedId))
    ensures candidate.Some? ==>
      AllStandRight(candidate.value, w.endpoints(failedId, candidate.value.id), affected, locations)
    ensures candidate.Some? ==>
      exists probed :: IsFirstNonBlank(affected, locations, probed)
        && w.candidateProbe(failedId, candidate.value.id, probed).healthy
  {
    hide StandsRight, IsFirstNonBlank;
    var ordered := OrderedCandidates(base.providers, failedId);
    for k := 0 to |ordered|
      invariant forall j :: 0 <= j < k ==> !Eligible(w, applied, failedId, affected, ordered[j])
    {
      var provider := ordered[k];
      if !provider.enabled || provider.id == failedId {
        continue;
      }
      if WouldCreateMultipleOpenVPN(applied, failedId, provider) {
        continue;
      }
      var ok, preferred;
      ok, locations, preferred := ResolveAll(w, failedId, provider, affected);
      if !ok {
        continue;
      }
      var probe := w.candidateProbe(failedId, provider.id, preferred);
      if !probe.healthy {
        continue;
      }
      assert Eligible(w, applied, failedId, affected, ordered[k]);
      ProbesFirstNonBlank(w, failedId, provider, affected, locations);
      LocationsStandRight(w, failedId, provider, affected, locations);
      return Some(provider), locations;
    }
    return None, map[];
  }

  method ResolveAll(w: World, failedId: string, candidate: Provider, affected: seq<Rule>)
    returns (ok: bool, locations: Locations, preferred: string)
    requires UniqueRuleIds(affected)
    ensures ok <==> forall r :: r in affected ==> LocationFor(w, failedId, candidate, r).Some?
    ensures ok ==> LocationsFor(w, failedId, candidate, affected, locations)
    ensures ok ==> preferred == FirstNonBlank(w, failedId, candidate, affected)
  {
    locations, preferred := map[], "";
    for i := 0 to |affected|
      invariant forall j :: 0 <= j < i ==>
        && affected[j].id in locations
        && Some(locations[affected[j].id]) == LocationFor(w, failedId, candidate, affected[j])
      invariant FirstNonBlank(w, failedId, candidate, affected)
        == if preferred == "" then FirstNonBlank(w, failedId, candidate, affected[i..]) else preferred
    {
      var location := LocationFor(w, failedId, candidate, affected[i]);
      if location.None? {
        return false, locations, preferred;
      }
      locations := locations[affected[i].id := location.value];
      if preferred == "" {
        preferred := location.value;
      }
    }
    return true, locations, preferred;
  }

  // ----- moves between override tables -----

  /** The override still fits the base configuration. */
  predicate StillFits(base: State, id: string, o: Override) {
    var rule := FindRule(base.rules, id);
    && rule.Some? && rule.value.enabled
    && rule.value.providerId == o.originalProviderId && rule.value.location == o.originalLocation
    && (o.mode == Direct || ProviderEnabled(base.providers, o.activeProviderId))
  }

  /** Every override records its base rule's own provider and location. */
  ghost predicate Current(base: State, overrides: Overrides) {
    forall id :: id in overrides ==> StillFits(base, id, overrides[id])
  }

  ghost function Pruned(base: State, overrides: Overrides): Overrides {
    map id | id in overrides && StillFits(base, id, overrides[id]) :: overrides[id]
  }

  function NewOverride(previous: Overrides, rule: Rule, candidateId: string, locations: Locations,
      now: Time): Override
  {
    var location := if rule.id in locations then locations[rule.id] else "";
    if rule.id in previous then
      Override(previous[rule.id].originalProviderId, previous[rule.id].originalLocation,
               candidateId, location, ViaProvider, now)
    else
      Override(rule.providerId, rule.location, candidateId, location, ViaProvider, now)
  }

  ghost function Switched(previous: Overrides, affected: seq<Rule>, candidateId: string, locations: Locations,
      now: Time): Overrides
  {
    if affected == [] then previous
    else
      var last := affected[|affected| - 1];
      Switched(previous, affected[..|affected| - 1], candidateId, locations, now)
        [last.id := NewOverride(previous, last, candidateId, locations, now)]
  }

  method BuildSwitched(previous: Overrides, affected: seq<Rule>, candidateId: string, locations: Locations, now: Time)
    returns (overrides: Overrides)
    ensures overrides == Switched(previous, affected, candidateId, locations, now)
  {
    overrides := previous;
    for i := 0 to |affected|
      invariant overrides == Switched(previous, affected[..i], candidateId, locations, now)
    {
      var rule := affected[i];
      assert affected[..i + 1][..i] == affected[..i];
      overrides := overrides[rule.id := NewOverride(previous, rule, candidateId, locations, now)];
    }
    assert affected[..|affected|] == affected;
  }

  lemma {:induction false} SwitchedViaProvider(previous: Overrides, affected: seq<Rule>, candidateId: string,
      locations: Locations, now: Time)
    ensures AllViaProvider(previous) ==> AllViaProvider(Switched(previous, affected, candidateId, locations, now))
  {
    if affected != [] {
      SwitchedViaProvider(previous, affected[..|affected| - 1], candidateId, locations, now);
    }
  }

  lemma LastRule(rules: seq<Rule>)
    requires UniqueRuleIds(rules) && rules != []
    ensures
      var init, last := rules[..|rules| - 1], rules[|rules| - 1];
      && UniqueRuleIds(init)
      && (forall r :: r in init ==> r.id != last.id)
      && forall r :: r in rules <==> r in init || r == last
  {
    assert rules == rules[..|rules| - 1] + [rules[|rules| - 1]];
  }

  lemma {:induction false} SwitchedEntries(previous: Overrides, affected: seq<Rule>, candidateId: string,
      locations: Locations, now: Time, id: string)
    requires UniqueRuleIds(affected)
    ensures
      var switched := Switched(previous, affected, candidateId, locations, now);
      && (forall r :: r in affected && r.id == id ==>
            id in switched && switched[id] == NewOverride(previous, r, candidateId, locations, now))
      && ((forall r :: r in affected ==> r.id != id) ==>
            (id in switched <==> id in previous) && (id in previous ==> switched[id] == previous[id]))
  {
    if affected != [] {
      LastRule(affected);
      SwitchedEntries(previous, affected[..|affected| - 1], candidateId, locations, now, id);
    }
  }

  /** What a switch needs: it moves base rules to an enabled provider of the base. */
  ghost predicate SwitchFits(base: State, affected: seq<Rule>, candidateId: string) {
    && UniqueRuleIds(base.rules) && UniqueRuleIds(affected)
    && (forall r :: r in affected ==> r in base.rules && r.enabled)
    && ProviderEnabled(base.providers, candidateId)
  }

  /** A switch sends exactly the affected rules to the candidate and moves no other rule. */
  lemma {:induction false} SwitchMoves(base: State, previous: Overrides, affected: seq<Rule>, candidateId: string,
      locations: Locations, now: Time, i: nat)
    requires SwitchFits(base, affected, candidateId) && i < |base.rules|
    requires forall r :: r in affected ==> r.id in locations
    ensures
      var rule := base.rules[i];
      FailoverApplied(base, Switched(previous, affected, candidateId, locations, now)).rules[i]
      == if rule in affected then rule.(providerId := candidateId, location := locations[rule.id])
         else FailoverApplied(base, previous).rules[i]
  {
    var rule := base.rules[i];
    SwitchedEntries(previous, affected, candidateId, locations, now, rule.id);
    assert forall r :: r in affected && r.id == rule.id ==> r == rule;
  }

  /** Chained switches keep the originals: they stay the base rule's own. */
  lemma {:induction false} SwitchKeepsCurrent(base: State, previous: Overrides, affected: seq<Rule>,
      candidateId: string, locations: Locations, now: Time)
    requires SwitchFits(base, affected, candidateId) && Current(base, previous)
    ensures Current(base, Switched(previous, affected, candidateId, locations, now))
  {
    var switched := Switched(previous, affected, candidateId, locations, now);
    forall id | id in switched
      ensures StillFits(base, id, switched[id])
    {
      SwitchedEntries(previous, affected, candidateId, locations, now, id);
      if r :| r in affected && r.id == id {
        var i :| 0 <= i < |base.rules| && base.rules[i] == r;
        FindRuleFinds(base.rules, i);
      } else {
        assert id in previous;
      }
    }
  }

  /** The overrides of rules that belong to the provider in the base. */
  ghost function GroupOf(base: State, overrides: Overrides, providerId: string): set<string> {
    set id | id in overrides && FindRule(base.rules, id).Some? && overrides[id].originalProviderId == providerId
  }

  datatype Group = Group(ruleIds: set<string>, preferred: string)

  /** The groups found once the overrides outside `todo` have been visited. */
  ghost predicate Grouped(base: State, overrides: Overrides, todo: set<string>, groups: map<string, Group>) {
    && (forall p :: p in groups ==> GroupedAt(base, overrides, todo, p, groups[p]))
    && (forall p :: p !in groups ==> GroupOf(base, overrides, p) <= todo)
  }

  ghost predicate GroupedAt(base: State, overrides: Overrides, todo: set<string>, providerId: string, group: Group) {
    && group.ruleIds == GroupOf(base, overrides, providerId) - todo
    && (exists id :: id in group.ruleIds && id in overrides && overrides[id].originalLocation == group.preferred)
    && (group.preferred == "" ==>
          forall id :: id in group.ruleIds && id in overrides ==> overrides[id].originalLocation == "")
  }

  /** Every override is in exactly one group, that of its original provider, and no group is
      empty. */
  ghost predicate Partitions(groups: map<string, Group>, overrides: Overrides) {
    && (forall p, q :: p in groups && q in groups && p != q ==> groups[p].ruleIds !! groups[q].ruleIds)
    && (forall p :: p in groups ==> groups[p].ruleIds != {} && groups[p].ruleIds <= overrides.Keys)
    && forall id :: id in overrides ==>
         overrides[id].originalProviderId in groups && id in groups[overrides[id].originalProviderId].ruleIds
  }

  lemma GroupsPartition(base: State, overrides: Overrides, groups: map<string, Group>)
    requires Current(base, overrides) && Grouped(base, overrides, {}, groups)
    ensures Partitions(groups, overrides)
  {
    forall p | p in groups
      ensures groups[p].ruleIds == GroupOf(base, overrides, p) != {}
    {
      assert GroupedAt(base, overrides, {}, p, groups[p]);
    }
    forall id | id in overrides
      ensures id in GroupOf(base, overrides, overrides[id].originalProviderId)
    {
      assert StillFits(base, id, overrides[id]);
    }
  }

  /** The preferred location of a group is an original one of its rules, and a blank one only
      if all of them are blank. */
  method OriginalGroups(base: State, overrides: Overrides) returns (groups: map<string, Group>)
    ensures Grouped(base, overrides, {}, groups)
    ensures Current(base, overrides) ==> Partitions(groups, overrides)
  {
    groups := map[];
    var todo := overrides.Keys;
    while todo != {}
      invariant todo <= overrides.Keys && Grouped(base, overrides, todo, groups)
      decreases todo
    {
      var id :| id in todo;
      var rule := FindRule(base.rules, id);
      var p := overrides[id].originalProviderId;
      if rule.None? {
        SkipGroups(base, overrides, todo, groups, id);
        todo := todo - {id};
        continue;
      }
      var group := if p in groups then groups[p] else Group({}, "");
      var preferred := if group.preferred == "" then overrides[id].originalLocation else group.preferred;
      AddToGroup(base, overrides, todo, groups, id, Group(group.ruleIds + {id}, preferred));
      groups := groups[p := Group(group.ruleIds + {id}, preferred)];
      todo := todo - {id};
    }
    if Current(base, overrides) {
      GroupsPartition(base, overrides, groups);
    }
  }

  lemma SkipGroups(base: State, overrides: Overrides, todo: set<string>, groups: map<string, Group>, id: string)
    requires Grouped(base, overrides, todo, groups) && id in todo && FindRule(base.rules, id).None?
    ensures Grouped(base, overrides, todo - {id}, groups)
  {
    forall p | p in groups
      ensures GroupedAt(base, overrides, todo - {id}, p, groups[p])
    {
      assert GroupedAt(base, overrides, todo, p, groups[p]);
    }
  }

  lemma AddToGroup(base: State, overrides: Overrides, todo: set<string>, groups: map<string, Group>, id: string,
      group: Group)
    requires Grouped(base, overrides, todo, groups) && id in todo && id in overrides && FindRule(base.rules, id).Some?
    requires
      var p := overrides[id].originalProviderId;
      var known := if p in groups then groups[p] else Group({}, "");
      group == Group(known.ruleIds + {id},
        if known.preferred == "" then overrides[id].originalLocation else known.preferred)
    ensures Grouped(base, overrides, todo - {id}, groups[overrides[id].originalProviderId := group])
  {
    var p := overrides[id].originalProviderId;
    if p in groups {
      assert GroupedAt(base, overrides, todo, p, groups[p]);
      var witnessId :| witnessId in groups[p].ruleIds && overrides[witnessId].originalLocation == groups[p].preferred;
      assert witnessId in group.ruleIds;
    }
    assert id in group.ruleIds;
    assert GroupedAt(base, overrides, todo - {id}, p, group);
    forall q | q in groups && q != p
      ensures GroupedAt(base, overrides, todo - {id}, q, groups[q])
    {
      assert GroupedAt(base, overrides, todo, q, groups[q]);
    }
  }

  ghost function Restored(base: State, overrides: Overrides, providerId: string): Overrides {
    overrides - GroupOf(base, overrides, providerId)
  }

  /** Pruning keeps the override of an enabled rule that still stands in the base where it came
      from, if the provider it was moved to is enabled. A kept override is in force, and
      restoring its provider brings the rule back to where the override says it came from. */
  lemma PrunedTakesEffect(base: State, previous: Overrides, i: nat)
    requires UniqueRuleIds(base.rules) && i < |base.rules| && base.rules[i].id in previous
    ensures
      var rule, o, kept := base.rules[i], previous[base.rules[i].id], Pruned(base, previous);
      && (rule.id in kept
          <==> && rule.enabled && rule.providerId == o.originalProviderId && rule.location == o.originalLocation
               && (o.mode == ViaProvider ==> ProviderEnabled(base.providers, o.activeProviderId)))
      && (rule.id in kept && o.mode == ViaProvider ==>
            FailoverApplied(base, kept).rules[i]
            == rule.(providerId := o.activeProviderId, location := o.activeLocation))
      && (rule.id in kept ==>
            FailoverApplied(base, Restored(base, kept, o.originalProviderId)).rules[i]
            == rule.(providerId := o.originalProviderId, location := o.originalLocation))
  {
    FindRuleFinds(base.rules, i);
  }

  /** Restoring a provider returns each of its base rules exactly to the base and moves no
      other rule. */
  lemma RestoreMoves(base: State, overrides: Overrides, providerId: string, i: nat)
    requires UniqueRuleIds(base.rules) && Current(base, overrides) && i < |base.rules|
    ensures FailoverApplied(base, Restored(base, overrides, providerId)).rules[i]
         == if base.rules[i].providerId == providerId then base.rules[i] else FailoverApplied(base, overrides).rules[i]
  {
    var rule := base.rules[i];
    FindRuleFinds(base.rules, i);
    if rule.id in overrides {
      assert StillFits(base, rule.id, overrides[rule.id]);
    }
  }

  /** A restore leaves no override of the provider behind. */
  lemma RestoreKeepsCurrent(base: State, overrides: Overrides, providerId: string)
    requires Current(base, overrides)
    ensures Current(base, Restored(base, overrides, providerId))
    ensures forall id :: id in Restored(base, overrides, providerId) ==> overrides[id].originalProviderId != providerId
  {
    forall id | id in overrides
      ensures FindRule(base.rules, id).Some?
    {
      assert StillFits(base, id, overrides[id]);
    }
  }

  lemma PrunedOfCurrent(base: State, overrides: Overrides)
    ensures Current(base, Pruned(base, overrides))
    ensures Current(base, overrides) ==> Pruned(base, overrides) == overrides
  {
  }

  // ----- at most one OpenVPN provider -----

  ghost function OpenVPNInUse(state: State): set<string> {
    set r | r in state.rules && UsedBy(state, r) && UsesOpenVPN(state.providers, r.providerId) :: r.providerId
  }

  lemma SubsetOfOne<T>(a: set<T>, b: set<T>)
    requires a <= b && |b| <= 1
    ensures |a| <= 1
  {
    assert b == a + (b - a);
  }

  /** A rule of the applied configuration is, rule by rule, its base rule elsewhere. */
  lemma AppliedRule(base: State, overrides: Overrides, i: nat)
    requires AllViaProvider(overrides) && UniqueRuleIds(base.rules) && i < |base.rules|
    ensures
      var applied := FailoverApplied(base, overrides);
      && UniqueRuleIds(applied.rules)
      && FindRule(applied.rules, base.rules[i].id) == Some(applied.rules[i])
      && applied.rules[i].enabled == base.rules[i].enabled && applied.rules[i].domains == base.rules[i].domains
  {
    FindRuleFinds(FailoverApplied(base, overrides).rules, i);
  }

  /** The base rules a switch away from the failed provider moves. */
  ghost function Affected(base: State, previous: Overrides, failedId: string): seq<Rule> {
    RulesUsing(base.rules, FailoverApplied(base, previous), failedId)
  }

  /** A switch affects the enabled base rules that name something and whose traffic the derived
      configuration sends to the failed provider. */
  lemma AffectedIff(base: State, previous: Overrides, failedId: string, i: nat)
    requires UniqueRuleIds(base.rules) && i < |base.rules|
    ensures
      var rule := base.rules[i];
      rule in Affected(base, previous, failedId)
      <==> rule.enabled && (exists e :: e in rule.domains && e != Domain(""))
           && FailoverApplied(base, previous).rules[i].providerId == failedId
           && ProviderEnabled(base.providers, failedId)
  {
    var applied := FailoverApplied(base, previous);
    assert UniqueRuleIds(applied.rules);
    FindRuleFinds(applied.rules, i);
    RulesUsingMembers(base.rules, applied, failedId);
  }

  /** What a switch writes down of an affected rule: where it came from at first, where it is
      now, and since when. */
  lemma SwitchRecords(base: State, previous: Overrides, affected: seq<Rule>, candidateId: string,
      locations: Locations, now: Time, r: Rule)
    requires UniqueRuleIds(affected) && r in affected && r.id in locations
    ensures
      var switched := Switched(previous, affected, candidateId, locations, now);
      && r.id in switched
      && switched[r.id] == Override(
           if r.id in previous then previous[r.id].originalProviderId else r.providerId,
           if r.id in previous then previous[r.id].originalLocation else r.location,
           candidateId, locations[r.id], ViaProvider, now)
  {
    SwitchedEntries(previous, affected, candidateId, locations, now, r.id);
  }

  ghost function SwitchAway(base: State, previous: Overrides, failedId: string, candidateId: string,
      locations: Locations, now: Time): Overrides
  {
    Switched(previous, Affected(base, previous, failedId), candidateId, locations, now)
  }

  ghost predicate CanSwitch(base: State, previous: Overrides, failedId: string, candidateId: string,
      locations: Locations)
  {
    && AllViaProvider(previous)
    && SwitchFits(base, Affected(base, previous, failedId), candidateId)
    && forall r :: r in Affected(base, previous, failedId) ==> r.id in locations
  }

  /** After a switch a rule that carries traffic uses the candidate, or it is unmoved and
      did not use the failed provider. */
  lemma SwitchedUse(base: State, previous: Overrides, failedId: string, candidateId: string, locations: Locations,
      now: Time, i: nat)
    requires CanSwitch(base, previous, failedId, candidateId, locations) && i < |base.rules|
    ensures
      var before := FailoverApplied(base, previous);
      var after := FailoverApplied(base, SwitchAway(base, previous, failedId, candidateId, locations, now));
      UsedBy(after, after.rules[i]) && after.rules[i].providerId != candidateId ==>
        after.rules[i] == before.rules[i] && after.rules[i].providerId != failedId
  {
    var before := FailoverApplied(base, previous);
    SwitchMoves(base, previous, Affected(base, previous, failedId), candidateId, locations, now, i);
    RulesUsingMembers(base.rules, before, failedId);
    if base.rules[i] !in Affected(base, previous, failedId) {
      AppliedRule(base, previous, i);
    }
  }

  /** After a switch every OpenVPN provider in use is the candidate, or was in use before
      and is not the failed one. */
  lemma SwitchOpenVPN(base: State, previous: Overrides, failedId: string, candidateId: string, locations: Locations,
      now: Time)
    requires CanSwitch(base, previous, failedId, candidateId, locations)
    ensures OpenVPNInUse(FailoverApplied(base, SwitchAway(base, previous, failedId, candidateId, locations, now)))
         <= OpenVPNInUse(FailoverApplied(base, previous)) - {failedId} + {candidateId}
  {
    var before := FailoverApplied(base, previous);
    var after := FailoverApplied(base, SwitchAway(base, previous, failedId, candidateId, locations, now));
    forall r | r in after.rules && UsedBy(after, r) && r.providerId != candidateId
      ensures r in before.rules && r.providerId != failedId
    {
      var i :| 0 <= i < |after.rules| && after.rules[i] == r;
      SwitchedUse(base, previous, failedId, candidateId, locations, now, i);
    }
  }

  /** Switching keeps at most one OpenVPN provider in use. */
  lemma SwitchKeepsOneOpenVPN(base: State, previous: Overrides, failedId: string, candidate: Provider,
      locations: Locations, now: Time)
    requires FindProvider(base.providers, candidate.id) == Some(candidate)
    requires CanSwitch(base, previous, failedId, candidate.id, locations)
    requires !WouldCreateMultipleOpenVPN(FailoverApplied(base, previous), failedId, candidate)
    requires |OpenVPNInUse(FailoverApplied(base, previous))| <= 1
    ensures
      var switched := SwitchAway(base, previous, failedId, candidate.id, locations, now);
      |OpenVPNInUse(FailoverApplied(base, switched))| <= 1
  {
    var before := FailoverApplied(base, previous);
    var after := FailoverApplied(base, SwitchAway(base, previous, failedId, candidate.id, locations, now));
    SwitchOpenVPN(base, previous, failedId, candidate.id, locations, now);
    if candidate.kind == OpenVPN {
      NoOtherOpenVPN(before, failedId, candidate);
    }
    AtMostOneAfter(OpenVPNInUse(before), OpenVPNInUse(after), failedId, candidate.id);
  }

  lemma WouldCreateIff(applied: State, failedId: string, candidate: Provider)
    ensures WouldCreateMultipleOpenVPN(applied, failedId, candidate)
       <==> candidate.kind == OpenVPN && !(OpenVPNInUse(applied) <= {failedId})
  {
    if WouldCreateMultipleOpenVPN(applied, failedId, candidate) {
      var r :| r in applied.rules && UsedBy(applied, r) && r.providerId != failedId
        && UsesOpenVPN(applied.providers, r.providerId);
      assert r.providerId in OpenVPNInUse(applied);
    }
  }

  /** A candidate is passed over if it is off, or the failed one, or would join another
      OpenVPN provider, or offers no location, or does not answer; and for no other reason. */
  lemma EligibleIff(w: World, applied: State, failedId: string, affected: seq<Rule>, candidate: Provider)
    ensures Eligible(w, applied, failedId, affected, candidate)
       <==> && candidate.enabled && candidate.id != failedId
            && (candidate.kind == OpenVPN ==> OpenVPNInUse(applied) <= {failedId})
            && (candidate.kind == Subscription && affected != [] ==> w.endpoints(failedId, candidate.id) != [])
            && w.candidateProbe(failedId, candidate.id, FirstNonBlank(w, failedId, candidate, affected)).healthy
  {
    hide FirstNonBlank, WouldCreateMultipleOpenVPN, OpenVPNInUse;
    WouldCreateIff(applied, failedId, candidate);
    if affected != [] {
      assert affected[0] in affected;
    }
    forall r
      ensures LocationFor(w, failedId, candidate, r).Some?
         <==> candidate.kind == OpenVPN || w.endpoints(failedId, candidate.id) != []
    {
      ResolvedStandsRight(w.endpoints(failedId, candidate.id), candidate, r);
    }
  }

  lemma NoOtherOpenVPN(applied: State, failedId: string, candidate: Provider)
    requires candidate.kind == OpenVPN && !WouldCreateMultipleOpenVPN(applied, failedId, candidate)
    ensures OpenVPNInUse(applied) <= {failedId}
  {
  }

  lemma AtMostOneAfter(before: set<string>, after: set<string>, failedId: string, candidateId: string)
    requires after <= before - {failedId} + {candidateId} && |before| <= 1
    requires before <= {failedId} || candidateId !in after
    ensures |after| <= 1
  {
    if before <= {failedId} {
      SubsetOfOne(after, {candidateId});
    } else {
      SubsetOfOne(after, before);
    }
  }

  // ----- restoring keeps it only under a condition -----

  /** OpenVPN as used by the provider's own base rules. */
  ghost function OwnOpenVPN(base: State, providerId: string): set<string> {
    set r | r in base.rules && r.providerId == providerId && UsedBy(base, r) && UsesOpenVPN(base.providers, providerId)
      :: r.providerId
  }

  /** OpenVPN as used now by the rules of the other base providers. */
  ghost function OthersOpenVPN(base: State, overrides: Overrides, providerId: string): set<string> {
    var applied := FailoverApplied(base, overrides);
    set i | 0 <= i < |base.rules| && base.rules[i].providerId != providerId
        && UsedBy(applied, applied.rules[i]) && UsesOpenVPN(base.providers, applied.rules[i].providerId)
      :: applied.rules[i].providerId
  }

  lemma RestoreOpenVPN(base: State, overrides: Overrides, providerId: string)
    requires UniqueRuleIds(base.rules) && Current(base, overrides)
    ensures OpenVPNInUse(FailoverApplied(base, Restored(base, overrides, providerId)))
         == OwnOpenVPN(base, providerId) + OthersOpenVPN(base, overrides, providerId)
  {
    var after := FailoverApplied(base, Restored(base, overrides, providerId));
    var own, others := OwnOpenVPN(base, providerId), OthersOpenVPN(base, overrides, providerId);
    forall r | r in after.rules && UsedBy(after, r) && UsesOpenVPN(after.providers, r.providerId)
      ensures r.providerId in own + others
    {
      var i :| 0 <= i < |after.rules| && after.rules[i] == r;
      RestoreMoves(base, overrides, providerId, i);
      if base.rules[i].providerId == providerId {
        assert base.rules[i] in base.rules && UsedBy(base, r);
      }
    }
    forall id | id in own {
      OwnIsInUse(base, overrides, providerId, id);
    }
    forall id | id in others {
      OthersAreInUse(base, overrides, providerId, id);
    }
  }

  lemma OwnIsInUse(base: State, overrides: Overrides, providerId: string, id: string)
    requires UniqueRuleIds(base.rules) && Current(base, overrides) && id in OwnOpenVPN(base, providerId)
    ensures id in OpenVPNInUse(FailoverApplied(base, Restored(base, overrides, providerId)))
  {
    var after := FailoverApplied(base, Restored(base, overrides, providerId));
    var r :| r in base.rules && r.providerId == providerId && UsedBy(base, r);
    var i :| 0 <= i < |base.rules| && base.rules[i] == r;
    RestoreMoves(base, overrides, providerId, i);
    assert after.rules[i] in after.rules && UsedBy(after, r);
  }

  lemma OthersAreInUse(base: State, overrides: Overrides, providerId: string, id: string)
    requires UniqueRuleIds(base.rules) && Current(base, overrides) && id in OthersOpenVPN(base, overrides, providerId)
    ensures id in OpenVPNInUse(FailoverApplied(base, Restored(base, overrides, providerId)))
    ensures id in OpenVPNInUse(FailoverApplied(base, overrides))
  {
    var applied := FailoverApplied(base, overrides);
    var after := FailoverApplied(base, Restored(base, overrides, providerId));
    var i :| 0 <= i < |base.rules| && base.rules[i].providerId != providerId && applied.rules[i].providerId == id
      && UsedBy(applied, applied.rules[i]) && UsesOpenVPN(base.providers, applied.rules[i].providerId);
    RestoreMoves(base, overrides, providerId, i);
    assert applied.rules[i] in applied.rules;
    assert after.rules[i] in after.rules && UsedBy(after, after.rules[i]);
  }

  /** Restoring a provider keeps at most one OpenVPN provider in use exactly when it does
      not bring OpenVPN back beside another OpenVPN provider that took over meanwhile. */
  lemma RestoreKeepsOneOpenVPNIff(base: State, overrides: Overrides, providerId: string)
    requires UniqueRuleIds(base.rules) && Current(base, overrides) && AllViaProvider(overrides)
    requires |OpenVPNInUse(FailoverApplied(base, overrides))| <= 1
    ensures |OpenVPNInUse(FailoverApplied(base, Restored(base, overrides, providerId)))| <= 1
       <==> OwnOpenVPN(base, providerId) == {} || OthersOpenVPN(base, overrides, providerId) <= {providerId}
  {
    var applied := FailoverApplied(base, overrides);
    var own, others := OwnOpenVPN(base, providerId), OthersOpenVPN(base, overrides, providerId);
    RestoreOpenVPN(base, overrides, providerId);
    forall id | id in others {
      OthersAreInUse(base, overrides, providerId, id);
    }
    assert own <= {providerId};
    OneOfTwo(own, others, OpenVPNInUse(applied), providerId);
  }

  lemma OneOfTwo(own: set<string>, others: set<string>, before: set<string>, id: string)
    requires own <= {id} && others <= before && |before| <= 1
    ensures |own + others| <= 1 <==> own == {} || others <= {id}
  {
    if own == {} {
      assert own + others == others;
      SubsetOfOne(others, before);
    } else if others <= {id} {
      SubsetOfOne(own + others, {id});
    } else {
      var other :| other in others && other != id;
      assert own == {id};
      if |own + others| <= 1 {
        SubsetOfOne({id, other}, own + others);
      }
    }
  }

  /** r1 of OpenVPN provider A has failed over to subscription S, and r2 of subscription B
      to OpenVPN provider C. */
  const CROSSED_BASE := State(
    [Provider("A", "A", OpenVPN, "", true), Provider("B", "B", Subscription, "", true),
     Provider("C", "C", OpenVPN, "", true), Provider("S", "S", Subscription, "", true)],
    [Rule("r1", "r1", "A", "", [Domain("a.com")], true), Rule("r2", "r2", "B", "NL", [Domain("b.com")], true)],
    [], Automation(true, true, 0, 0), "tun0")

  const CROSSED: Overrides := map[
    "r1" := Override("A", "", "S", "DE", ViaProvider, 1),
    "r2" := Override("B", "NL", "C", "", ViaProvider, 2)]

  lemma CrossedProviders()
    ensures FindProvider(CROSSED_BASE.providers, "A") == Some(CROSSED_BASE.providers[0])
    ensures FindProvider(CROSSED_BASE.providers, "C") == Some(CROSSED_BASE.providers[2])
    ensures FindProvider(CROSSED_BASE.providers, "S") == Some(CROSSED_BASE.providers[3])
  {
    assert UniqueProviderIds(CROSSED_BASE.providers);
    forall i | 0 <= i < 4 {
      FindProviderFinds(CROSSED_BASE.providers, CROSSED_BASE.providers[i]);
    }
  }

  lemma CrossedIsCurrent()
    ensures UniqueRuleIds(CROSSED_BASE.rules) && Current(CROSSED_BASE, CROSSED) && AllViaProvider(CROSSED)
  {
    CrossedProviders();
    CrossedRules();
    assert forall id :: id in CROSSED ==> id == "r1" || id == "r2";
    assert StillFits(CROSSED_BASE, "r1", CROSSED["r1"]);
    assert StillFits(CROSSED_BASE, "r2", CROSSED["r2"]);
  }

  lemma CrossedRules()
    ensures UniqueRuleIds(CROSSED_BASE.rules)
    ensures FindRule(CROSSED_BASE.rules, "r1") == Some(CROSSED_BASE.rules[0])
    ensures FindRule(CROSSED_BASE.rules, "r2") == Some(CROSSED_BASE.rules[1])
  {
    FindRuleFinds(CROSSED_BASE.rules, 0);
    FindRuleFinds(CROSSED_BASE.rules, 1);
  }

  lemma CrossedApplied()
    ensures
      var applied := FailoverApplied(CROSSED_BASE, CROSSED);
      && applied.rules[0].providerId == "S" && applied.rules[1].providerId == "C"
      && UsedBy(applied, applied.rules[1])
  {
    CrossedProviders();
    assert Domain("b.com") in CROSSED_BASE.rules[1].domains;
  }

  lemma CrossedOwn()
    ensures "A" in OwnOpenVPN(CROSSED_BASE, "A")
  {
    CrossedProviders();
    assert Domain("a.com") in CROSSED_BASE.rules[0].domains;
    assert CROSSED_BASE.rules[0] in CROSSED_BASE.rules && UsedBy(CROSSED_BASE, CROSSED_BASE.rules[0]);
  }

  lemma CrossedInUse()
    ensures OpenVPNInUse(FailoverApplied(CROSSED_BASE, CROSSED)) <= {"C"}
  {
    CrossedProviders();
    CrossedApplied();
  }

  lemma CrossedOthers()
    ensures "C" in OthersOpenVPN(CROSSED_BASE, CROSSED, "A")
  {
    CrossedProviders();
    CrossedApplied();
    assert CROSSED_BASE.rules[1].providerId == "B";
  }

  /** Restoring A then puts two OpenVPN providers in use. */
  lemma RestoreCanJoinTwo()
    ensures UniqueRuleIds(CROSSED_BASE.rules) && Current(CROSSED_BASE, CROSSED) && AllViaProvider(CROSSED)
    ensures |OpenVPNInUse(FailoverApplied(CROSSED_BASE, CROSSED))| <= 1
    ensures |OpenVPNInUse(FailoverApplied(CROSSED_BASE, Restored(CROSSED_BASE, CROSSED, "A")))| > 1
  {
    CrossedIsCurrent();
    CrossedOwn();
    CrossedOthers();
    CrossedInUse();
    SubsetOfOne(OpenVPNInUse(FailoverApplied(CROSSED_BASE, CROSSED)), {"C"});
    RestoreKeepsOneOpenVPNIff(CROSSED_BASE, CROSSED, "A");
  }
}
