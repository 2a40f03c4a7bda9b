/** Which subscription instances a configuration asks for: one per provider and location,
    serving the entries of all rules that select it, at an index that allocates its
    routing settings. */
module DesiredInstances {
  import opened Config
  import opened Entries
  import opened ActiveEntries
  import opened RuleApply
  import opened Allocation

  type Key = (string, string)    // provider, location

  datatype Wanted = Wanted(key: Key, entries: seq<Entry>)

  datatype Answer = Desired(list: seq<Wanted>) | Refused

  predicate Subscribes(providers: seq<Provider>, r: Rule) {
    ProviderEnabled(providers, r.providerId) && !UsesOpenVPN(providers, r.providerId)
  }

  /** The rule's provider is a subscription, and switched on. */
  ghost predicate OnSubscription(providers: seq<Provider>, r: Rule) {
    var provider := FindProvider(providers, r.providerId);
    provider.Some? && provider.value.enabled && provider.value.kind == Subscription
  }

  function KeyOf(r: Rule): Key {
    (r.providerId, r.location)
  }

  /** The entries of the rules that select the key, one rule after the other. */
  ghost function KeyEntries(providers: seq<Provider>, rules: seq<Rule>, key: Key): seq<Entry> {
    if rules == [] then []
    else
      var last := rules[|rules| - 1];
      KeyEntries(providers, rules[..|rules| - 1], key)
        + if Subscribes(providers, last) && KeyOf(last) == key then last.domains else []
  }

  ghost predicate Selects(providers: seq<Provider>, rules: seq<Rule>, key: Key) {
    exists r :: r in rules && Subscribes(providers, r) && KeyOf(r) == key
  }

  type Groups = map<Key, seq<Entry>>

  ghost predicate GroupFits(providers: seq<Provider>, rules: seq<Rule>, groups: Groups, key: Key) {
    && (key in groups <==> Selects(providers, rules, key))
    && (key in groups ==> groups[key] == FirstOccurrences(KeyEntries(providers, rules, key)))
  }

  ghost predicate GroupsFit(providers: seq<Provider>, rules: seq<Rule>, groups: Groups) {
    forall key :: GroupFits(providers, rules, groups, key)
  }

  ghost predicate NoBlankLocation(providers: seq<Provider>, rules: seq<Rule>) {
    forall r :: r in rules && Subscribes(providers, r) ==> r.location != ""
  }

  lemma {:induction false} UnselectedHasNoEntries(providers: seq<Provider>, rules: seq<Rule>, key: Key)
    requires !Selects(providers, rules, key)
    ensures KeyEntries(providers, rules, key) == []
  {
    if rules != [] {
      var init, last := rules[..|rules| - 1], rules[|rules| - 1];
      assert rules == init + [last];
      UnselectedHasNoEntries(providers, init, key);
    }
  }

  ghost predicate Joins(providers: seq<Provider>, rule: Rule, key: Key) {
    Subscribes(providers, rule) && KeyOf(rule) == key
  }

  lemma OneMoreRule(providers: seq<Provider>, rules: seq<Rule>, rule: Rule, key: Key)
    ensures Selects(providers, rules + [rule], key) <==> Selects(providers, rules, key) || Joins(providers, rule, key)
    ensures KeyEntries(providers, rules + [rule], key)
         == KeyEntries(providers, rules, key) + if Joins(providers, rule, key) then rule.domains else []
  {
    var more := rules + [rule];
    assert more[..|more| - 1] == rules;
    if Joins(providers, rule, key) {
      assert rule in more;
    }
  }

  function EntriesOf(groups: Groups, key: Key): seq<Entry> {
    if key in groups then groups[key] else []
  }

  ghost function Joined(providers: seq<Provider>, rules: seq<Rule>, rule: Rule, groups: Groups): Groups {
    if !Subscribes(providers, rule) then groups
    else groups[KeyOf(rule) :=
      EntriesOf(groups, KeyOf(rule)) + NewEntries(KeyEntries(providers, rules, KeyOf(rule)), rule.domains)]
  }

  lemma GroupFitsMore(providers: seq<Provider>, rules: seq<Rule>, rule: Rule, groups: Groups, key: Key)
    requires GroupFits(providers, rules, groups, key)
    ensures EntriesOf(groups, key) == FirstOccurrences(KeyEntries(providers, rules, key))
    ensures GroupFits(providers, rules + [rule], Joined(providers, rules, rule, groups), key)
  {
    hide Selects, KeyEntries;
    OneMoreRule(providers, rules, rule, key);
    if key !in groups {
      UnselectedHasNoEntries(providers, rules, key);
    }
    if Joins(providers, rule, key) {
      FirstOccurrencesConcat(KeyEntries(providers, rules, key), rule.domains);
    } else {
      assert KeyEntries(providers, rules + [rule], key) == KeyEntries(providers, rules, key);
    }
  }

  /** One more rule joins its group. */
  lemma GroupsFitMore(providers: seq<Provider>, rules: seq<Rule>, rule: Rule, groups: Groups)
    requires GroupsFit(providers, rules, groups)
    ensures GroupsFit(providers, rules + [rule], Joined(providers, rules, rule, groups))
    ensures forall e :: e in EntriesOf(groups, KeyOf(rule)) <==> e in KeyEntries(providers, rules, KeyOf(rule))
  {
    hide GroupFits, Joined;
    forall key
      ensures GroupFits(providers, rules + [rule], Joined(providers, rules, rule, groups), key)
    {
      assert GroupFits(providers, rules, groups, key);
      GroupFitsMore(providers, rules, rule, groups, key);
    }
    assert GroupFits(providers, rules, groups, KeyOf(rule));
    GroupFitsMore(providers, rules, rule, groups, KeyOf(rule));
  }

  method GroupRules(providers: seq<Provider>, rules: seq<Rule>) returns (ok: bool, groups: Groups)
    ensures ok <==> NoBlankLocation(providers, rules)
    ensures ok ==> GroupsFit(providers, rules, groups)
    ensures |groups| <= |rules|
  {
    groups := map[];
    for i := 0 to |rules|
      invariant NoBlankLocation(providers, rules[..i]) && GroupsFit(providers, rules[..i], groups)
      invariant |groups| <= i
    {
      var rule := rules[i];
      assert rules[..i + 1] == rules[..i] + [rule];
      GroupsFitMore(providers, rules[..i], rule, groups);
      if !Subscribes(providers, rule) {
        continue;
      }
      if rule.location == "" {
        return false, groups;
      }
      var entries := EntriesOf(groups, KeyOf(rule));
      var added := CollectNew(entries, rule.domains, KeyEntries(providers, rules[..i], KeyOf(rule)));
      groups := groups[KeyOf(rule) := entries + added];
    }
    assert rules[..|rules|] == rules;
    return true, groups;
  }

  ghost predicate WantedFits(w: Wanted, providers: seq<Provider>, rules: seq<Rule>) {
    w.entries == FirstOccurrences(KeyEntries(providers, rules, w.key)) && w.entries != []
  }

  ghost predicate Listed(list: seq<Wanted>, key: Key) {
    exists w :: w in list && w.key == key
  }

  ghost predicate DistinctKeys(list: seq<Wanted>) {
    forall i, j :: 0 <= i < j < |list| ==> list[i].key != list[j].key
  }

  /** Exactly the keys with entries, each once, in some order. */
  ghost predicate IsListing(list: seq<Wanted>, providers: seq<Provider>, rules: seq<Rule>) {
    && DistinctKeys(list)
    && (forall w :: w in list ==> WantedFits(w, providers, rules))
    && forall key :: KeyEntries(providers, rules, key) != [] ==> Listed(list, key)
  }

  /** `available` tells whether the provider's list loads and holds the location. */
  ghost predicate Servable(providers: seq<Provider>, rules: seq<Rule>, available: Key -> bool) {
    && NoBlankLocation(providers, rules)
    && forall key :: KeyEntries(providers, rules, key) != [] ==> available(key)
  }

  lemma GroupOfKey(providers: seq<Provider>, rules: seq<Rule>, groups: Groups, key: Key)
    requires GroupsFit(providers, rules, groups)
    ensures KeyEntries(providers, rules, key) != [] <==> key in groups && groups[key] != []
  {
    assert GroupFits(providers, rules, groups, key);
    if key !in groups {
      UnselectedHasNoEntries(providers, rules, key);
    } else if KeyEntries(providers, rules, key) != [] {
      assert KeyEntries(providers, rules, key)[0] in groups[key];
    }
  }

  /** The listed instances serve every entry of every subscription rule, at the rule's own
      provider and location, and nothing else. */
  ghost predicate ServesRules(providers: seq<Provider>, rules: seq<Rule>, list: seq<Wanted>) {
    && (forall r, e :: r in rules && OnSubscription(providers, r) && e in r.domains ==>
          exists w :: w in list && w.key == (r.providerId, r.location) && e in w.entries)
    && forall w :: w in list ==> w.entries != [] && forall e :: e in w.entries ==> AskedFor(providers, rules, w.key, e)
  }

  ghost predicate AskedFor(providers: seq<Provider>, rules: seq<Rule>, key: Key, e: Entry) {
    exists r :: r in rules && OnSubscription(providers, r) && key == (r.providerId, r.location) && e in r.domains
  }

  /** A subscription rule without a location, or with entries at one that is not available. */
  ghost predicate CannotServe(providers: seq<Provider>, r: Rule, available: Key -> bool) {
    && OnSubscription(providers, r)
    && (r.location == "" || (r.domains != [] && !available((r.providerId, r.location))))
  }

  lemma {:induction false} KeyEntriesMembers(providers: seq<Provider>, rules: seq<Rule>, key: Key, e: Entry)
    ensures e in KeyEntries(providers, rules, key)
       <==> exists r :: r in rules && Subscribes(providers, r) && KeyOf(r) == key && e in r.domains
  {
    if rules != [] {
      var init, last := rules[..|rules| - 1], rules[|rules| - 1];
      assert rules == init + [last];
      KeyEntriesMembers(providers, init, key, e);
    }
  }

  lemma ListingServes(providers: seq<Provider>, rules: seq<Rule>, list: seq<Wanted>)
    requires IsListing(list, providers, rules)
    ensures ServesRules(providers, rules, list)
  {
    forall r, e | r in rules && OnSubscription(providers, r) && e in r.domains
      ensures exists w :: w in list && w.key == (r.providerId, r.location) && e in w.entries
    {
      KeyEntriesMembers(providers, rules, KeyOf(r), e);
      var w :| w in list && w.key == KeyOf(r);
      assert WantedFits(w, providers, rules);
    }
    forall w, e | w in list && e in w.entries
      ensures AskedFor(providers, rules, w.key, e)
    {
      assert WantedFits(w, providers, rules);
      KeyEntriesMembers(providers, rules, w.key, e);
    }
  }

  lemma SubscribesIff(providers: seq<Provider>, r: Rule)
    ensures Subscribes(providers, r) <==> OnSubscription(providers, r)
  {
  }

  lemma ServableIff(providers: seq<Provider>, rules: seq<Rule>, available: Key -> bool)
    ensures Servable(providers, rules, available) <==> forall r :: r in rules ==> !CannotServe(providers, r, available)
  {
    hide KeyEntries, Subscribes, OnSubscription;
    forall r
      ensures Subscribes(providers, r) <==> OnSubscription(providers, r)
    {
      SubscribesIff(providers, r);
    }
    if forall r :: r in rules ==> !CannotServe(providers, r, available) {
      forall key | KeyEntries(providers, rules, key) != []
        ensures available(key)
      {
        KeyEntriesMembers(providers, rules, key, KeyEntries(providers, rules, key)[0]);
      }
    }
    if Servable(providers, rules, available) {
      forall r | r in rules
        ensures !CannotServe(providers, r, available)
      {
        if r.domains != [] {
          KeyEntriesMembers(providers, rules, KeyOf(r), r.domains[0]);
        }
      }
    }
  }

  method BuildDesired(providers: seq<Provider>, rules: seq<Rule>, available: Key -> bool) returns (answer: Answer)
    ensures answer.Desired? <==> Servable(providers, rules, available)
    ensures answer.Desired? ==> IsListing(answer.list, providers, rules) && |answer.list| <= |rules|
    ensures answer.Desired? ==> DistinctKeys(answer.list) && ServesRules(providers, rules, answer.list)
    ensures answer.Refused? <==> exists r :: r in rules && CannotServe(providers, r, available)
  {
    hide ServesRules, CannotServe;
    ServableIff(providers, rules, available);
    var ok, groups := GroupRules(providers, rules);
    if !ok {
      return Refused;
    }
    var todo := groups.Keys;
    var list: seq<Wanted> := [];
    while todo != {}
      invariant todo <= groups.Keys && DistinctKeys(list) && |list| + |todo| <= |rules|
      invariant forall w :: w in list ==> w.key in groups && w.key !in todo && w.entries == groups[w.key] != []
      invariant forall key :: key in groups && key !in todo && groups[key] != [] ==> Listed(list, key) && available(key)
      decreases todo
    {
      var key :| key in todo;
      todo := todo - {key};
      if groups[key] == [] {
        continue;
      }
      if !available(key) {
        GroupOfKey(providers, rules, groups, key);
        return Refused;
      }
      ghost var before := list;
      list := list + [Wanted(key, groups[key])];
      assert forall k :: Listed(before, k) ==> Listed(list, k);
      assert list[|before|] in list && Listed(list, key);
    }
    forall key
      ensures KeyEntries(providers, rules, key) != [] ==> Listed(list, key) && available(key)
      ensures key in groups ==> groups[key] == FirstOccurrences(KeyEntries(providers, rules, key))
    {
      GroupOfKey(providers, rules, groups, key);
      assert GroupFits(providers, rules, groups, key);
    }
    ListingServes(providers, rules, list);
    return Desired(list);
  }

  // ----- every entry is served by one instance -----

  /** In a configuration without conflicts every entry of a subscription rule is served
      by the instance of the rule's own provider and location, and by no other. */
  lemma ServedOnce(providers: seq<Provider>, rules: seq<Rule>, list: seq<Wanted>, r: Rule, e: Entry)
    requires IsListing(list, providers, rules) && RulesDisjoint(providers, rules) && UniqueRuleIds(rules)
    requires forall s :: s in rules ==> Active(providers, s)
    requires r in rules && OnSubscription(providers, r) && e in r.domains
    ensures Listed(list, KeyOf(r))
    ensures forall w :: w in list ==> (e in w.entries <==> w.key == KeyOf(r))
  {
    KeyEntriesMembers(providers, rules, KeyOf(r), e);
    forall w | w in list
      ensures e in w.entries <==> w.key == KeyOf(r)
    {
      KeyEntriesMembers(providers, rules, w.key, e);
      if e in w.entries {
        var s :| s in rules && Subscribes(providers, s) && KeyOf(s) == w.key && e in s.domains;
        assert s.id == r.id ==> s == r;
        assert s.id != r.id ==> EntriesApart(s.domains, r.domains);
        assert Clash(e, e);
      }
    }
  }

  // ----- plans -----

  datatype Plan = Plan(key: Key, entries: seq<Entry>, settings: Settings)

  ghost predicate DistinctPlans(plans: seq<Plan>) {
    forall i, j :: 0 <= i < j < |plans| ==> Apart(plans[i], plans[j])
  }

  ghost predicate Apart(p: Plan, q: Plan) {
    p.key != q.key && p.settings.table != q.settings.table && p.settings.mark != q.settings.mark
  }

  /** `hash` digests a provider and location. */
  method BuildPlans(list: seq<Wanted>, base: Settings, hash: Key -> string) returns (plans: seq<Plan>)
    requires forall key :: 10 <= |hash(key)|
    ensures |plans| == |list|
    ensures forall i :: 0 <= i < |list| ==>
      plans[i] == Plan(list[i].key, list[i].entries, Derive(base, hash(list[i].key), i))
    ensures DistinctKeys(list) && |list| <= WHOLE ==> DistinctPlans(plans)
  {
    plans := [];
    for index := 0 to |list|
      invariant |plans| == index
      invariant forall i :: 0 <= i < index ==>
        plans[i] == Plan(list[i].key, list[i].entries, Derive(base, hash(list[i].key), i))
    {
      plans := plans + [Plan(list[index].key, list[index].entries, Derive(base, hash(list[index].key), index))];
    }
    if DistinctKeys(list) && |list| <= WHOLE {
      forall i, j | 0 <= i < j < |plans|
        ensures Apart(plans[i], plans[j])
      {
        DerivedDistinct(base, hash(list[i].key), hash(list[j].key), i, j);
      }
    }
  }
}
