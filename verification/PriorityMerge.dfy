/** The configuration that is applied for a set of priority decisions: every decided
    provider's rules are replaced by one rule at the decided location. */
module PriorityMerge {
  import opened Entries
  import opened Config
  import opened Schedule
  import opened ActiveEntries

  datatype Mode = ViaProvider | Direct

  datatype Fingerprint = Fingerprint(
    providerId: string, entries: seq<Entry>, targets: seq<string>, schedule: seq<Window>) | NoFingerprint

  datatype Decision = Decision(
    policyId: string, providerId: string, activeLocation: string, preferredLocation: string,
    mode: Mode, since: Time, fingerprint: Fingerprint)

  type Decisions = map<string, Decision>

  // ----- specification -----

  /** The entries of the enabled rules of one provider, in rule order. */
  ghost function RawEntries(rules: seq<Rule>, providerId: string): seq<Entry> {
    if rules == [] then []
    else
      var last := rules[|rules| - 1];
      RawEntries(rules[..|rules| - 1], providerId)
        + if last.enabled && last.providerId == providerId then last.domains else []
  }

  ghost function ProviderEntries(state: State, providerId: string): seq<Entry> {
    Normalized(RawEntries(state.rules, providerId))
  }

  function RuleId(policyId: string): string {
    "__priority_policy_" + policyId
  }

  ghost predicate Controlled(decisions: Decisions, providerId: string) {
    providerId != "" && exists id :: id in decisions && decisions[id].providerId == providerId
  }

  predicate Decided(decisions: Decisions, policy: Policy) {
    policy.id in decisions && decisions[policy.id].mode != Direct && decisions[policy.id].activeLocation != ""
  }

  ghost function Uncontrolled(rules: seq<Rule>, decisions: Decisions): seq<Rule> {
    if rules == [] then []
    else
      var last := rules[|rules| - 1];
      Uncontrolled(rules[..|rules| - 1], decisions) + if Controlled(decisions, last.providerId) then [] else [last]
  }

  ghost function ProviderIds(rules: seq<Rule>): set<string> {
    set r | r in rules :: r.providerId
  }

  ghost function MergedRule(state: State, decisions: Decisions, policy: Policy): Rule
    requires Decided(decisions, policy)
  {
    Rule(RuleId(policy.id), policy.name, policy.providerId, decisions[policy.id].activeLocation,
         ProviderEntries(state, policy.providerId), policy.enabled)
  }

  ghost predicate AddsRule(state: State, decisions: Decisions, merged: seq<Rule>, policy: Policy) {
    && Decided(decisions, policy)
    && policy.providerId !in ProviderIds(merged)
    && ProviderEntries(state, policy.providerId) != []
  }

  /** One rule for the first decided policy of each provider that has entries. */
  ghost function MergedRules(state: State, decisions: Decisions, policies: seq<Policy>): seq<Rule> {
    if policies == [] then []
    else
      var merged := MergedRules(state, decisions, policies[..|policies| - 1]);
      var last := policies[|policies| - 1];
      if AddsRule(state, decisions, merged, last) then merged + [MergedRule(state, decisions, last)] else merged
  }

  ghost function PriorityApplied(state: State, decisions: Decisions): State {
    state.(
      policies := [],
      rules :=
        if state.policies == [] || decisions == map[] then state.rules
        else Uncontrolled(state.rules, decisions) + MergedRules(state, decisions, state.policies))
  }

  // ----- implementation -----

  method PriorityProviderEntries(state: State, providerId: string) returns (entries: seq<Entry>)
    ensures entries == ProviderEntries(state, providerId)
  {
    var raw: seq<Entry> := [];
    for i := 0 to |state.rules|
      invariant raw == RawEntries(state.rules[..i], providerId)
    {
      var rule := state.rules[i];
      assert state.rules[..i + 1][..i] == state.rules[..i];
      if !rule.enabled || rule.providerId != providerId {
        continue;
      }
      raw := raw + rule.domains;
    }
    assert state.rules[..|state.rules|] == state.rules;
    entries := NormalizeEntries(raw);
  }

  method BuildPriorityApplied(state: State, decisions: Decisions) returns (out: State)
    ensures out == PriorityApplied(state, decisions)
  {
    if |state.policies| == 0 || |decisions| == 0 {
      return state.(policies := []);
    }
    var controlled := set id | id in decisions && decisions[id].providerId != "" :: decisions[id].providerId;
    var rules: seq<Rule> := [];
    for i := 0 to |state.rules|
      invariant rules == Uncontrolled(state.rules[..i], decisions)
    {
      assert state.rules[..i + 1][..i] == state.rules[..i];
      if state.rules[i].providerId in controlled {
        continue;
      }
      rules := rules + [state.rules[i]];
    }
    assert state.rules[..|state.rules|] == state.rules;
    var merged := BuildMergedRules(state, decisions);
    return state.(policies := [], rules := rules + merged);
  }

  lemma MergedRulesStep(state: State, decisions: Decisions, policies: seq<Policy>, i: nat)
    requires i < |policies|
    ensures
      var merged := MergedRules(state, decisions, policies[..i]);
      MergedRules(state, decisions, policies[..i + 1])
      == if AddsRule(state, decisions, merged, policies[i]) then merged + [MergedRule(state, decisions, policies[i])]
         else merged
  {
    assert policies[..i + 1][..i] == policies[..i];
  }

  method BuildMergedRules(state: State, decisions: Decisions) returns (merged: seq<Rule>)
    ensures merged == MergedRules(state, decisions, state.policies)
  {
    merged := [];
    var appliedProviders: set<string> := {};
    for i := 0 to |state.policies|
      invariant merged == MergedRules(state, decisions, state.policies[..i])
      invariant appliedProviders == ProviderIds(merged)
    {
      var policy := state.policies[i];
      MergedRulesStep(state, decisions, state.policies, i);
      if policy.id !in decisions || decisions[policy.id].mode == Direct || decisions[policy.id].activeLocation == "" {
        assert !AddsRule(state, decisions, merged, policy);
        continue;
      }
      if policy.providerId in appliedProviders {
        assert !AddsRule(state, decisions, merged, policy);
        continue;
      }
      var entries := PriorityProviderEntries(state, policy.providerId);
      if |entries| == 0 {
        assert !AddsRule(state, decisions, merged, policy);
        continue;
      }
      var rule := Rule(RuleId(policy.id), policy.name, policy.providerId,
        decisions[policy.id].activeLocation, entries, policy.enabled);
      assert AddsRule(state, decisions, merged, policy) && rule == MergedRule(state, decisions, policy);
      assert ProviderIds(merged + [rule]) == ProviderIds(merged) + {policy.providerId};
      appliedProviders := appliedProviders + {policy.providerId};
      merged := merged + [rule];
    }
    assert state.policies[..|state.policies|] == state.policies;
  }

  // ----- what the merge keeps: coverage -----

  /** Host `h` is covered by an enabled rule of the provider. */
  ghost predicate ProviderCovers(rules: seq<Rule>, providerId: string, h: Host) {
    exists r :: r in rules && r.enabled && r.providerId == providerId && ListCovers(r.domains, h)
  }

  ghost predicate SameCoverage(before: seq<Rule>, after: seq<Rule>, providerId: string) {
    forall h :: ProviderCovers(after, providerId, h) <==> ProviderCovers(before, providerId, h)
  }

  /** The provider's first decided policy, which is the one that gets a rule. */
  function FirstDecided(policies: seq<Policy>, decisions: Decisions, providerId: string): (r: Option<Policy>)
    ensures r.Some? ==> r.value in policies && r.value.providerId == providerId && Decided(decisions, r.value)
    ensures r.None? ==> forall p :: p in policies && p.providerId == providerId ==> !Decided(decisions, p)
  {
    if policies == [] then None
    else
      var init, last := policies[..|policies| - 1], policies[|policies| - 1];
      assert policies == init + [last];
      var first := FirstDecided(init, decisions, providerId);
      if first.Some? then first
      else if last.providerId == providerId && Decided(decisions, last) then Some(last)
      else None
  }

  /** The provider is not decided at all, or has nothing to cover, or its first decided
      policy is switched on. */
  ghost predicate CoverageKept(state: State, decisions: Decisions, providerId: string) {
    || state.policies == []
    || !Controlled(decisions, providerId)
    || (forall e :: e in RawEntries(state.rules, providerId) ==> e == Domain(""))
    || var first := FirstDecided(state.policies, decisions, providerId);
       first.Some? && first.value.enabled
  }

  lemma {:induction false} RawEntriesCover(rules: seq<Rule>, providerId: string, h: Host)
    ensures ListCovers(RawEntries(rules, providerId), h) <==> ProviderCovers(rules, providerId, h)
  {
    if rules != [] {
      var init, last := rules[..|rules| - 1], rules[|rules| - 1];
      RawEntriesCover(init, providerId, h);
      assert rules == init + [last];
      var lastCovers := last.enabled && last.providerId == providerId && ListCovers(last.domains, h);
      assert ProviderCovers(rules, providerId, h) <==> ProviderCovers(init, providerId, h) || lastCovers;
      var tail := if last.enabled && last.providerId == providerId then last.domains else [];
      assert RawEntries(rules, providerId) == RawEntries(init, providerId) + tail;
    }
  }

  lemma ProviderEntriesCover(state: State, providerId: string, h: Host)
    ensures ListCovers(ProviderEntries(state, providerId), h) <==> ProviderCovers(state.rules, providerId, h)
  {
    NormalizeKeepsCoverage(RawEntries(state.rules, providerId), h);
    RawEntriesCover(state.rules, providerId, h);
  }

  lemma {:induction false} UncontrolledMembers(rules: seq<Rule>, decisions: Decisions)
    ensures forall r :: r in Uncontrolled(rules, decisions) <==> r in rules && !Controlled(decisions, r.providerId)
  {
    if rules != [] {
      var init, last := rules[..|rules| - 1], rules[|rules| - 1];
      UncontrolledMembers(init, decisions);
      assert rules == init + [last];
    }
  }

  /** A provider's merged rule is the rule of its first decided policy. */
  lemma {:induction false} MergedRuleOf(state: State, decisions: Decisions, policies: seq<Policy>, providerId: string)
    ensures
      var first, merged := FirstDecided(policies, decisions, providerId), MergedRules(state, decisions, policies);
      && (first.Some? && ProviderEntries(state, providerId) != [] ==>
            MergedRule(state, decisions, first.value) in merged)
      && (forall r :: r in merged && r.providerId == providerId ==>
           first.Some? && r == MergedRule(state, decisions, first.value) && ProviderEntries(state, providerId) != [])
  {
    if policies != [] {
      MergedRuleOf(state, decisions, policies[..|policies| - 1], providerId);
    }
  }

  /** A merged rule stands where a decision of its policy sends it, through the provider. */
  lemma {:induction false} MergedRulesStand(state: State, decisions: Decisions, policies: seq<Policy>)
    ensures forall r :: r in MergedRules(state, decisions, policies) ==>
      exists p :: p in policies && p.id in decisions && decisions[p.id].mode == ViaProvider
        && r.location == decisions[p.id].activeLocation != "" && r.providerId == p.providerId && r.enabled == p.enabled
  {
    if policies != [] {
      assert policies == policies[..|policies| - 1] + [policies[|policies| - 1]];
      MergedRulesStand(state, decisions, policies[..|policies| - 1]);
    }
  }

  /** Every entry covers some host, except the blank name. */
  function SomeHost(e: Entry): (h: Host)
    ensures e != Domain("") ==> Covers(e, h)
  {
    match e
    case Domain(name) => HostName(name)
    case Addr(a) => HostAddr(a)
    case Net(p) => HostAddr(p.addr)
  }

  lemma PriorityAppliedCover(state: State, decisions: Decisions, providerId: string, h: Host)
    requires state.policies != []
    ensures
      var first := FirstDecided(state.policies, decisions, providerId);
      var merged := first.Some? && first.value.enabled;
      ProviderCovers(PriorityApplied(state, decisions).rules, providerId, h)
      <==> (!Controlled(decisions, providerId) || merged) && ProviderCovers(state.rules, providerId, h)
  {
    var out := PriorityApplied(state, decisions).rules;
    UncontrolledMembers(state.rules, decisions);
    MergedRuleOf(state, decisions, state.policies, providerId);
    ProviderEntriesCover(state, providerId, h);
    var first := FirstDecided(state.policies, decisions, providerId);
    if first.Some? && ProviderEntries(state, providerId) != [] && decisions != map[] {
      assert MergedRule(state, decisions, first.value) in out;
    }
  }

  /** The merge keeps a provider's coverage, for every host, exactly under `CoverageKept`.
      In the remaining case the provider's traffic is released. */
  lemma CoverageKeptIff(state: State, decisions: Decisions, providerId: string)
    ensures SameCoverage(state.rules, PriorityApplied(state, decisions).rules, providerId)
       <==> CoverageKept(state, decisions, providerId)
  {
    if state.policies != [] {
      var out := PriorityApplied(state, decisions).rules;
      if CoverageKept(state, decisions, providerId) {
        forall h
          ensures ProviderCovers(out, providerId, h) <==> ProviderCovers(state.rules, providerId, h)
        {
          PriorityAppliedCover(state, decisions, providerId, h);
          RawEntriesCover(state.rules, providerId, h);
        }
      } else {
        var e :| e in RawEntries(state.rules, providerId) && e != Domain("");
        var h := SomeHost(e);
        assert Covers(e, h);
        RawEntriesCover(state.rules, providerId, h);
        PriorityAppliedCover(state, decisions, providerId, h);
        assert ProviderCovers(state.rules, providerId, h) && !ProviderCovers(out, providerId, h);
      }
    }
  }

  // ----- what the merge keeps: one rule per decided provider, conflict-freedom -----

  /** Every decision belongs to a current, enabled policy of the same provider. */
  ghost predicate Backed(state: State, decisions: Decisions) {
    forall id :: id in decisions ==> exists p :: p in state.policies && p.id == id && Backs(decisions[id], p)
  }

  predicate Backs(d: Decision, p: Policy) {
    p.enabled && p.providerId == d.providerId && d.mode == ViaProvider && d.activeLocation != ""
  }

  ghost predicate UniquePolicyIds(policies: seq<Policy>) {
    forall p, q :: p in policies && q in policies && p.id == q.id ==> p == q
  }

  /** With backed decisions every decided policy is enabled and decides its own provider. */
  lemma BackedFirst(state: State, decisions: Decisions, providerId: string)
    requires Backed(state, decisions) && UniquePolicyIds(state.policies)
    ensures
      var first := FirstDecided(state.policies, decisions, providerId);
      && (first.Some? ==> Backs(decisions[first.value.id], first.value))
      && (first.Some? <==> exists id :: id in decisions && decisions[id].providerId == providerId)
  {
    var first := FirstDecided(state.policies, decisions, providerId);
    if id :| id in decisions && decisions[id].providerId == providerId {
      var p :| p in state.policies && p.id == id && Backs(decisions[id], p);
      assert Decided(decisions, p);
    }
    if first.Some? {
      var p :| p in state.policies && p.id == first.value.id && Backs(decisions[p.id], p);
      assert p == first.value;
    }
  }

  /** Backed decisions release nothing: each provider covers the hosts it covered before. */
  lemma BackedKeepsCoverage(state: State, decisions: Decisions, providerId: string)
    requires Backed(state, decisions) && UniquePolicyIds(state.policies)
    ensures SameCoverage(state.rules, PriorityApplied(state, decisions).rules, providerId)
  {
    BackedFirst(state, decisions, providerId);
    CoverageKeptIff(state, decisions, providerId);
  }

  ghost function RulesOf(rules: seq<Rule>, providerId: string): seq<Rule> {
    if rules == [] then []
    else
      var last := rules[|rules| - 1];
      RulesOf(rules[..|rules| - 1], providerId) + if last.providerId == providerId then [last] else []
  }

  lemma {:induction false} RulesOfConcat(a: seq<Rule>, b: seq<Rule>, providerId: string)
    ensures RulesOf(a + b, providerId) == RulesOf(a, providerId) + RulesOf(b, providerId)
  {
    if b == [] {
      assert a + b == a;
    } else {
      var init := b[..|b| - 1];
      RulesOfConcat(a, init, providerId);
      assert (a + b)[..|a + b| - 1] == a + init;
    }
  }

  lemma {:induction false} RulesOfUncontrolled(rules: seq<Rule>, decisions: Decisions, providerId: string)
    ensures RulesOf(Uncontrolled(rules, decisions), providerId)
         == if Controlled(decisions, providerId) then [] else RulesOf(rules, providerId)
  {
    if rules != [] {
      var init, last := rules[..|rules| - 1], rules[|rules| - 1];
      RulesOfUncontrolled(init, decisions, providerId);
      var kept := if Controlled(decisions, last.providerId) then [] else [last];
      RulesOfConcat(Uncontrolled(init, decisions), kept, providerId);
    }
  }

  lemma MergedProviderIds(state: State, decisions: Decisions, policies: seq<Policy>, providerId: string)
    ensures providerId in ProviderIds(MergedRules(state, decisions, policies))
       <==> FirstDecided(policies, decisions, providerId).Some? && ProviderEntries(state, providerId) != []
  {
    MergedRuleOf(state, decisions, policies, providerId);
  }

  lemma {:induction false} RulesOfMerged(state: State, decisions: Decisions, policies: seq<Policy>, providerId: string)
    ensures
      var first := FirstDecided(policies, decisions, providerId);
      RulesOf(MergedRules(state, decisions, policies), providerId)
      == if first.Some? && ProviderEntries(state, providerId) != [] then [MergedRule(state, decisions, first.value)]
         else []
  {
    if policies != [] {
      var init, last := policies[..|policies| - 1], policies[|policies| - 1];
      var merged := MergedRules(state, decisions, init);
      RulesOfMerged(state, decisions, init, providerId);
      MergedProviderIds(state, decisions, init, last.providerId);
      if Decided(decisions, last) {
        var rule := MergedRule(state, decisions, last);
        assert RulesOf([rule], providerId) == if rule.providerId == providerId then [rule] else [];
        RulesOfConcat(merged, [rule], providerId);
      }
    }
  }

  /** A decided provider is left with its single merged rule, at the decided location;
      every other provider's rules are the ones it had, in the same order. */
  lemma RulesAfterMerge(state: State, decisions: Decisions, providerId: string)
    requires Backed(state, decisions) && UniquePolicyIds(state.policies) && providerId != ""
    ensures
      var after := RulesOf(PriorityApplied(state, decisions).rules, providerId);
      if Controlled(decisions, providerId) then
        var first := FirstDecided(state.policies, decisions, providerId);
        && first.Some? && first.value.enabled
        && after == if ProviderEntries(state, providerId) == [] then [] else [MergedRule(state, decisions, first.value)]
      else
        after == RulesOf(state.rules, providerId)
  {
    BackedFirst(state, decisions, providerId);
    RulesOfUncontrolled(state.rules, decisions, providerId);
    RulesOfMerged(state, decisions, state.policies, providerId);
    RulesOfConcat(Uncontrolled(state.rules, decisions), MergedRules(state, decisions, state.policies), providerId);
  }

  lemma {:induction false} RawEntryOwner(rules: seq<Rule>, providerId: string, e: Entry) returns (r: Rule)
    requires e in RawEntries(rules, providerId)
    ensures r in rules && r.enabled && r.providerId == providerId && e in r.domains
  {
    var init, last := rules[..|rules| - 1], rules[|rules| - 1];
    if e in RawEntries(init, providerId) {
      r := RawEntryOwner(init, providerId, e);
    } else {
      r := last;
    }
  }

  /** An active rule's claim after the merge comes from an active rule of the same
      provider before it: from itself, or from a rule its provider's merged rule replaced. */
  lemma ClaimOrigin(state: State, decisions: Decisions, r: Rule, e: Entry) returns (origin: Rule)
    requires r in PriorityApplied(state, decisions).rules && Active(state.providers, r) && e in r.domains
    ensures origin in state.rules && Active(state.providers, origin) && e in origin.domains
    ensures origin.providerId == r.providerId
    ensures origin == r || IsMergedRule(state, decisions, r)
  {
    UncontrolledMembers(state.rules, decisions);
    if r in state.rules {
      origin := r;
    } else {
      MergedRuleOf(state, decisions, state.policies, r.providerId);
      origin := RawEntryOwner(state.rules, r.providerId, e);
    }
  }

  ghost predicate IsMergedRule(state: State, decisions: Decisions, r: Rule) {
    var first := FirstDecided(state.policies, decisions, r.providerId);
    first.Some? && r == MergedRule(state, decisions, first.value)
  }

  ghost predicate NamedProviders(providers: seq<Provider>) {
    forall p :: p in providers ==> p.id != ""
  }

  /** The decided policy belongs to another provider than the decision, as when it has moved
      since: its own provider gets an active merged rule and keeps its own rules. */
  ghost predicate JoinsOwnRules(state: State, decisions: Decisions, providerId: string) {
    var first := FirstDecided(state.policies, decisions, providerId);
    && state.policies != [] && !Controlled(decisions, providerId)
    && first.Some? && first.value.enabled && ProviderEnabled(state.providers, providerId)
    && ProviderEntries(state, providerId) != []
  }

  ghost predicate NothingJoins(state: State, decisions: Decisions) {
    forall providerId :: !JoinsOwnRules(state, decisions, providerId)
  }

  /** After the merge a provider with a merged rule has no other rule, unless it joins them. */
  lemma MergedRuleIsAlone(state: State, decisions: Decisions, r: Rule, s: Rule)
    requires !JoinsOwnRules(state, decisions, r.providerId) && decisions != map[] && state.policies != []
    requires r.providerId == s.providerId && IsMergedRule(state, decisions, r) && Active(state.providers, r)
    requires s in PriorityApplied(state, decisions).rules && r.domains != []
    ensures r == s
  {
    UncontrolledMembers(state.rules, decisions);
    MergedRuleOf(state, decisions, state.policies, r.providerId);
  }

  lemma MergedClaimsApart(state: State, decisions: Decisions, r: Rule, s: Rule, e: Entry, f: Entry)
    requires NothingJoins(state, decisions) && state.policies != [] && decisions != map[]
    requires UniqueRuleIds(state.rules) && RulesDisjoint(state.providers, state.rules)
    requires r in PriorityApplied(state, decisions).rules && s in PriorityApplied(state, decisions).rules
    requires Active(state.providers, r) && Active(state.providers, s) && r.id != s.id
    requires e in r.domains && f in s.domains
    ensures !Clash(e, f)
  {
    var r' := ClaimOrigin(state, decisions, r, e);
    var s' := ClaimOrigin(state, decisions, s, f);
    if r.providerId == s.providerId && r' != r {
      MergedRuleIsAlone(state, decisions, r, s);
    } else if r.providerId == s.providerId && s' != s {
      MergedRuleIsAlone(state, decisions, s, r);
    }
    assert r'.id == s'.id ==> r' == s';
    assert EntriesApart(r'.domains, s'.domains);
  }

  lemma MergeStaysDisjoint(state: State, decisions: Decisions)
    requires NothingJoins(state, decisions) && UniqueRuleIds(state.rules)
    requires RulesDisjoint(state.providers, state.rules)
    ensures RulesDisjoint(state.providers, PriorityApplied(state, decisions).rules)
  {
    if state.policies != [] && decisions != map[] {
      var out := PriorityApplied(state, decisions).rules;
      forall r, s | r in out && s in out && Active(state.providers, r) && Active(state.providers, s) && r.id != s.id
        ensures EntriesApart(r.domains, s.domains)
      {
        forall e, f | e in r.domains && f in s.domains {
          MergedClaimsApart(state, decisions, r, s, e, f);
        }
      }
    }
  }

  /** No rule of the user has the id of a policy's merged rule. */
  ghost predicate OwnRuleIds(state: State) {
    forall r, p :: r in state.rules && p in state.policies ==> r.id != RuleId(p.id)
  }

  lemma JoiningConflicts(state: State, decisions: Decisions, providerId: string)
    requires JoinsOwnRules(state, decisions, providerId) && OwnRuleIds(state)
    ensures !RulesDisjoint(state.providers, PriorityApplied(state, decisions).rules)
  {
    var out := PriorityApplied(state, decisions).rules;
    var first := FirstDecided(state.policies, decisions, providerId).value;
    var merged := MergedRule(state, decisions, first);
    var e := merged.domains[0];
    assert e in ProviderEntries(state, providerId);
    var own := RawEntryOwner(state.rules, providerId, e);
    UncontrolledMembers(state.rules, decisions);
    MergedRuleOf(state, decisions, state.policies, providerId);
    assert decisions != map[];
    assert merged in out && own in out && Clash(e, e);
    assert !EntriesApart(merged.domains, own.domains);
  }

  /** The merge keeps a configuration free of conflicts exactly if no merged rule joins its
      provider's own rules. */
  lemma MergeDisjointIff(state: State, decisions: Decisions)
    requires UniqueRuleIds(state.rules) && OwnRuleIds(state) && RulesDisjoint(state.providers, state.rules)
    ensures RulesDisjoint(state.providers, PriorityApplied(state, decisions).rules) <==> NothingJoins(state, decisions)
  {
    if providerId :| JoinsOwnRules(state, decisions, providerId) {
      JoiningConflicts(state, decisions, providerId);
    } else {
      MergeStaysDisjoint(state, decisions);
    }
  }

  /** With backed decisions nothing joins. */
  lemma MergeKeepsDisjoint(state: State, decisions: Decisions)
    requires Backed(state, decisions) && UniquePolicyIds(state.policies)
    requires NamedProviders(state.providers) && UniqueRuleIds(state.rules)
    requires RulesDisjoint(state.providers, state.rules)
    ensures RulesDisjoint(state.providers, PriorityApplied(state, decisions).rules)
  {
    forall providerId
      ensures !JoinsOwnRules(state, decisions, providerId)
    {
      BackedFirst(state, decisions, providerId);
    }
    MergeStaysDisjoint(state, decisions);
  }

  // ----- the default decisions -----

  /** The policy takes part in a selection at all. */
  predicate Evaluates(state: State, p: Policy) {
    && p.enabled && p.targets != []
    && var provider := FindProvider(state.providers, p.providerId);
    provider.Some? && provider.value.enabled && provider.value.kind == Subscription
  }

  /** A policy that gets a decision before the supervisor has evaluated it. */
  ghost predicate DefaultDecides(state: State, p: Policy, now: Time) {
    Evaluates(state, p) && PreferredLocation(p, now) != ""
  }

  ghost function PolicyFingerprint(p: Policy, state: State): Fingerprint {
    Fingerprint.Fingerprint(p.providerId, ProviderEntries(state, p.providerId), p.targets, p.schedule)
  }

  ghost predicate IsDefault(state: State, now: Time, decisions: Decisions) {
    forall id :: id in decisions ==> exists p ::
      p in state.policies && p.id == id && DefaultDecides(state, p, now)
      && Backs(decisions[id], p) && decisions[id].activeLocation == PreferredLocation(p, now)
  }

  ghost function DefaultDecision(state: State, p: Policy, now: Time): Decision {
    var location := PreferredLocation(p, now);
    Decision(p.id, p.providerId, location, location, ViaProvider, now, PolicyFingerprint(p, state))
  }

  /** One decision for each policy that is decided by default. */
  ghost function DefaultDecisions(state: State, policies: seq<Policy>, now: Time): Decisions {
    if policies == [] then map[]
    else
      var init, last := DefaultDecisions(state, policies[..|policies| - 1], now), policies[|policies| - 1];
      if DefaultDecides(state, last, now) then init[last.id := DefaultDecision(state, last, now)] else init
  }

  lemma {:induction false} DefaultDecisionsFit(state: State, policies: seq<Policy>, now: Time)
    ensures forall id :: id in DefaultDecisions(state, policies, now) ==> exists p ::
      p in policies && p.id == id && DefaultDecides(state, p, now)
      && DefaultDecisions(state, policies, now)[id] == DefaultDecision(state, p, now)
    ensures forall p :: p in policies && DefaultDecides(state, p, now) ==>
      p.id in DefaultDecisions(state, policies, now)
  {
    if policies != [] {
      assert policies == policies[..|policies| - 1] + [policies[|policies| - 1]];
      DefaultDecisionsFit(state, policies[..|policies| - 1], now);
    }
  }

  /** The default decisions are those of the eligible policies, and stand where the schedules
      say. */
  lemma DefaultsDecideEligible(state: State, now: Time)
    ensures
      var decisions := DefaultDecisions(state, state.policies, now);
      && IsDefault(state, now, decisions)
      && forall p :: p in state.policies && DefaultDecides(state, p, now) ==> p.id in decisions
    ensures UniquePolicyIds(state.policies) ==>
      forall p :: p in state.policies && Evaluates(state, p) ==>
        FollowsSchedule(p, now, DecidedLocation(DefaultDecisions(state, state.policies, now), p.id))
  {
    hide FollowsSchedule;
    DefaultDecisionsFit(state, state.policies, now);
    forall p | p in state.policies && UniquePolicyIds(state.policies) && Evaluates(state, p)
      ensures FollowsSchedule(p, now, DecidedLocation(DefaultDecisions(state, state.policies, now), p.id))
    {
      PreferredFollows(p, now);
    }
  }

  /** Where a policy is decided to stand, blank if it has no decision. */
  ghost function DecidedLocation(decisions: Decisions, id: string): string {
    if id in decisions then decisions[id].activeLocation else ""
  }

  method ApplyPriorityDefaults(state: State, now: Time) returns (out: State)
    ensures out == PriorityApplied(state, DefaultDecisions(state, state.policies, now))
  {
    var chosen: Decisions := map[];
    for i := 0 to |state.policies|
      invariant chosen == DefaultDecisions(state, state.policies[..i], now)
    {
      var policy := state.policies[i];
      assert state.policies[..i + 1][..i] == state.policies[..i];
      if !policy.enabled || |policy.targets| == 0 {
        continue;
      }
      var provider := FindProvider(state.providers, policy.providerId);
      if provider.None? || !provider.value.enabled || provider.value.kind != Subscription {
        continue;
      }
      var location := PreferredLocation(policy, now);
      if location == "" {
        continue;
      }
      var entries := PriorityProviderEntries(state, policy.providerId);
      var fingerprint := Fingerprint.Fingerprint(policy.providerId, entries, policy.targets, policy.schedule);
      chosen := chosen[policy.id :=
        Decision(policy.id, policy.providerId, location, location, ViaProvider, now, fingerprint)];
    }
    assert state.policies[..|state.policies|] == state.policies;
    out := BuildPriorityApplied(state, chosen);
  }

  /** Applying the defaults releases no traffic, creates no conflict, and is final:
      applying priorities again, at any time, changes nothing. */
  lemma DefaultsAreSafe(state: State, now: Time, decisions: Decisions, again: Decisions)
    requires IsDefault(state, now, decisions) && UniquePolicyIds(state.policies)
    ensures forall id :: SameCoverage(state.rules, PriorityApplied(state, decisions).rules, id)
    ensures NamedProviders(state.providers) && UniqueRuleIds(state.rules) && RulesDisjoint(state.providers, state.rules)
      ==> RulesDisjoint(state.providers, PriorityApplied(state, decisions).rules)
    ensures PriorityApplied(PriorityApplied(state, decisions), again) == PriorityApplied(state, decisions)
  {
    assert Backed(state, decisions);
    forall id {
      BackedKeepsCoverage(state, decisions, id);
    }
    if NamedProviders(state.providers) && UniqueRuleIds(state.rules) && RulesDisjoint(state.providers, state.rules) {
      MergeKeepsDisjoint(state, decisions);
    }
  }

  /** A policy that has moved from p to q since its decision gives q a merged rule beside its
      own one: the two conflict, so the configuration is refused. */
  lemma MovedPolicyConflicts() returns (state: State, decisions: Decisions)
    ensures UniqueRuleIds(state.rules) && OwnRuleIds(state) && RulesDisjoint(state.providers, state.rules)
    ensures JoinsOwnRules(state, decisions, "q")
    ensures !RulesDisjoint(state.providers, PriorityApplied(state, decisions).rules)
  {
    hide RawEntries, FirstDecided, Normalized, RulesDisjoint, JoinsOwnRules, PriorityApplied;
    var rule := Rule("r", "r", "q", "DE", [Domain("a.com")], true);
    var policy := Policy("moved", "q", "moved", true, ["DE"], []);
    var provider := Provider("q", "q", Subscription, "", true);
    state := State([provider], [rule], [policy], Automation(true, true, 0, 0), "tun0");
    decisions := map["moved" := Decision("moved", "p", "NL", "NL", ViaProvider, 1, NoFingerprint)];
    OneMovedPolicy(state, decisions, rule, policy, Domain("a.com"));
  }

  lemma OneMovedPolicy(state: State, decisions: Decisions, rule: Rule, policy: Policy, e: Entry)
    requires state.rules == [rule] && state.policies == [policy] && rule.domains == [e] && |rule.id| == 1
    requires Active(state.providers, rule) && policy.providerId == rule.providerId
    requires policy.enabled && Decided(decisions, policy)
    requires !Controlled(decisions, rule.providerId)
    ensures UniqueRuleIds(state.rules) && OwnRuleIds(state) && RulesDisjoint(state.providers, state.rules)
    ensures JoinsOwnRules(state, decisions, rule.providerId)
    ensures !RulesDisjoint(state.providers, PriorityApplied(state, decisions).rules)
  {
    hide RawEntries, FirstDecided, Normalized, JoinsOwnRules, PriorityApplied;
    assert |RuleId(policy.id)| > 1;
    OnePolicyJoins(state, decisions, rule, policy, e);
    JoiningConflicts(state, decisions, rule.providerId);
  }

  lemma OnePolicyJoins(state: State, decisions: Decisions, rule: Rule, policy: Policy, e: Entry)
    requires state.rules == [rule] && state.policies == [policy] && rule.domains == [e]
    requires Active(state.providers, rule) && policy.providerId == rule.providerId
    requires policy.enabled && Decided(decisions, policy)
    requires !Controlled(decisions, rule.providerId)
    ensures JoinsOwnRules(state, decisions, rule.providerId)
  {
    hide Normalized;
    assert state.policies[..0] == [] && state.rules[..0] == [];
    assert FirstDecided(state.policies, decisions, rule.providerId) == Some(policy);
    assert RawEntries([], rule.providerId) == [];
    OneEntryIsNormal(e);
    assert RawEntries(state.rules, rule.providerId) == [e];
  }

  lemma OneEntryIsNormal(e: Entry)
    ensures Normalized([e]) == [e]
  {
    NormalIffFixedPoint([e]);
  }
}
