/** Applying a configuration: the stored entry list, the split of active entries
    between the runtimes, and the restore after a failure. */
module RuleApply {
  import opened Entries
  import opened Config
  import opened ActiveEntries
  import opened PriorityMerge

  // ----- the stored entry list -----

  /** Whether the transaction commits and whether the runtime file is then written. */
  datatype Outcome = Outcome(commits: bool, fileWritten: bool)

  /** The list is stored, or was so already, and its file is written. */
  ghost predicate Replaces(outcome: Outcome, before: seq<Entry>, wanted: seq<Entry>) {
    outcome.fileWritten && (outcome.commits || before == wanted)
  }

  class DomainStore {
    var stored: seq<Entry>

    ghost predicate Valid()
      reads this
    {
      IsNormal(stored)
    }

    constructor ()
      ensures Valid() && stored == []
    {
      stored := [];
    }

    method ReplaceAll(entries: seq<Entry>, outcome: Outcome) returns (ok: bool)
      modifies this
      ensures stored == if outcome.commits then Normalized(entries) else old(stored)
      ensures ok <==> Replaces(outcome, old(stored), Normalized(entries))
      ensures old(Valid()) || outcome.commits ==> Valid()
    {
      var normalized := NormalizeEntries(entries);
      NormalizedIsNormal(entries);
      if stored == normalized {
        return outcome.fileWritten;
      }
      if !outcome.commits {
        return false;
      }
      stored := normalized;
      return outcome.fileWritten;
    }

    method Add(entry: Entry, outcome: Outcome) returns (ok: bool)
      requires Valid()
      modifies this
      ensures Valid()
      ensures ok <==> entry in old(stored) || Replaces(outcome, old(stored), Normalized(old(stored) + [entry]))
      ensures outcome.commits ==> forall h :: ListCovers(stored, h) <==> ListCovers(old(stored), h) || Covers(entry, h)
      ensures !outcome.commits ==> stored == old(stored)
    {
      for i := 0 to |stored|
        invariant stored == old(stored) && entry !in stored[..i]
      {
        if stored[i] == entry {
          return true;
        }
      }
      var more := stored + [entry];
      forall h
        ensures ListCovers(Normalized(more), h) <==> ListCovers(old(stored), h) || Covers(entry, h)
      {
        NormalizeKeepsCoverage(more, h);
        assert entry in more;
      }
      ok := ReplaceAll(more, outcome);
    }

    method Delete(entry: Entry, outcome: Outcome) returns (ok: bool)
      requires Valid()
      modifies this
      ensures Valid()
      ensures ok <==> outcome.fileWritten && (outcome.commits || entry !in old(stored))
      ensures outcome.commits ==> forall e :: e in stored <==> e in old(stored) && e != entry
      ensures !outcome.commits ==> stored == old(stored)
    {
      var filtered: seq<Entry> := [];
      for i := 0 to |stored|
        invariant stored == old(stored) && NoDuplicates(filtered)
        invariant forall e :: e in filtered <==> e in stored[..i] && e != entry
        invariant entry !in stored[..i] ==> filtered == stored[..i]
      {
        if stored[i] == entry {
          continue;
        }
        assert stored[i] !in stored[..i];
        filtered := filtered + [stored[i]];
      }
      assert forall e :: Redundant(e, filtered) ==> Redundant(e, stored);
      NormalIffFixedPoint(filtered);
      ok := ReplaceAll(filtered, outcome);
    }
  }

  // ----- the split between the runtimes -----

  ghost function ActiveRules(providers: seq<Provider>, rules: seq<Rule>): seq<Rule> {
    if rules == [] then []
    else
      var last := rules[|rules| - 1];
      ActiveRules(providers, rules[..|rules| - 1]) + if Active(providers, last) then [last] else []
  }

  ghost function AllEntries(rules: seq<Rule>): seq<Entry> {
    if rules == [] then []
    else AllEntries(rules[..|rules| - 1]) + rules[|rules| - 1].domains
  }

  /** The entries whose first active rule belongs to an OpenVPN provider, in order. */
  ghost function OpenVPNEntries(providers: seq<Provider>, rules: seq<Rule>): seq<Entry> {
    if rules == [] then []
    else
      var init, last := rules[..|rules| - 1], rules[|rules| - 1];
      OpenVPNEntries(providers, init)
        + if UsesOpenVPN(providers, last.providerId) then NewEntries(AllEntries(init), last.domains) else []
  }

  /** The first occurrences in `more` of what `known` does not hold. */
  ghost function NewEntries(known: seq<Entry>, more: seq<Entry>): seq<Entry> {
    if more == [] then []
    else
      var init, last := more[..|more| - 1], more[|more| - 1];
      NewEntries(known, init) + if last in known || last in init then [] else [last]
  }

  lemma ConcatAssociates<T>(a: seq<T>, b: seq<T>, c: seq<T>)
    ensures a + b + c == a + (b + c)
  {
  }

  lemma FirstOccurrencesMore(s: seq<Entry>, e: Entry)
    ensures FirstOccurrences(s + [e]) == FirstOccurrences(s) + if e in s then [] else [e]
  {
    assert (s + [e])[..|s|] == s;
  }

  lemma NewEntriesMore(known: seq<Entry>, more: seq<Entry>, e: Entry)
    ensures NewEntries(known, more + [e]) == NewEntries(known, more) + if e in known || e in more then [] else [e]
  {
    assert (more + [e])[..|more|] == more;
  }

  lemma {:induction false} FirstOccurrencesConcat(known: seq<Entry>, more: seq<Entry>)
    ensures FirstOccurrences(known + more) == FirstOccurrences(known) + NewEntries(known, more)
  {
    if more == [] {
      assert known + more == known;
    } else {
      hide *;
      var init, last := more[..|more| - 1], more[|more| - 1];
      FirstOccurrencesConcat(known, init);
      FirstOccurrencesMore(known + init, last);
      NewEntriesMore(known, init, last);
      assert more == init + [last];
      ConcatAssociates(known, init, [last]);
      var added := if last in known || last in init then [] else [last];
      ConcatAssociates(FirstOccurrences(known), NewEntries(known, init), added);
    }
  }

  datatype Split = Split(rules: seq<Rule>, all: seq<Entry>, openvpn: seq<Entry>, providers: set<string>)

  ghost predicate IsSplit(split: Split, state: State, rules: seq<Rule>) {
    var active := ActiveRules(state.providers, rules);
    && split.rules == active
    && split.all == FirstOccurrences(AllEntries(active))
    && split.openvpn == OpenVPNEntries(state.providers, active)
    && split.providers == ProviderIds(active)
  }

  method SplitEntries(state: State) returns (split: Split)
    ensures IsSplit(split, state, state.rules)
  {
    split := Split([], [], [], {});
    for i := 0 to |state.rules|
      invariant IsSplit(split, state, state.rules[..i])
    {
      var rule := state.rules[i];
      assert state.rules[..i + 1][..i] == state.rules[..i];
      var provider := FindProvider(state.providers, rule.providerId);
      if !rule.enabled || provider.None? || !provider.value.enabled {
        continue;
      }
      ghost var active := ActiveRules(state.providers, state.rules[..i]);
      assert (active + [rule])[..|active|] == active;
      FirstOccurrencesConcat(AllEntries(active), rule.domains);
      assert ProviderIds(active + [rule]) == ProviderIds(active) + {rule.providerId};
      var added := CollectNew(split.all, rule.domains, AllEntries(active));
      split := Split(
        split.rules + [rule],
        split.all + added,
        if provider.value.kind == OpenVPN then split.openvpn + added else split.openvpn,
        split.providers + {rule.providerId});
    }
    assert state.rules[..|state.rules|] == state.rules;
  }

  method CollectNew(seenDomains: seq<Entry>, domains: seq<Entry>, ghost known: seq<Entry>) returns (added: seq<Entry>)
    requires forall e :: e in seenDomains <==> e in known
    ensures added == NewEntries(known, domains)
  {
    added := [];
    for i := 0 to |domains|
      invariant added == NewEntries(known, domains[..i])
      invariant forall e :: e in added <==> e in domains[..i] && e !in known
    {
      assert domains[..i + 1][..i] == domains[..i];
      if domains[i] in seenDomains || domains[i] in added {
        continue;
      }
      added := added + [domains[i]];
    }
    assert domains[..|domains|] == domains;
  }

  // ----- an accepted configuration loses nothing in the split -----

  ghost function DistinctPerRule(rules: seq<Rule>): seq<Entry> {
    if rules == [] then []
    else DistinctPerRule(rules[..|rules| - 1]) + FirstOccurrences(rules[|rules| - 1].domains)
  }

  ghost function OpenVPNRules(providers: seq<Provider>, rules: seq<Rule>): seq<Rule> {
    if rules == [] then []
    else
      var last := rules[|rules| - 1];
      OpenVPNRules(providers, rules[..|rules| - 1]) + if UsesOpenVPN(providers, last.providerId) then [last] else []
  }

  /** No entry is listed by two of the rules. */
  ghost predicate EntriesDisjoint(rules: seq<Rule>) {
    forall i, j, e :: 0 <= i < j < |rules| && e in rules[i].domains ==> e !in rules[j].domains
  }

  lemma {:induction false} AllEntriesMembers(rules: seq<Rule>, e: Entry)
    ensures e in AllEntries(rules) <==> exists r :: r in rules && e in r.domains
  {
    if rules != [] {
      var init, last := rules[..|rules| - 1], rules[|rules| - 1];
      AllEntriesMembers(init, e);
      assert rules == init + [last];
    }
  }

  lemma {:induction false} NewEntriesOfUnknown(known: seq<Entry>, more: seq<Entry>)
    requires forall e :: e in more ==> e !in known
    ensures NewEntries(known, more) == FirstOccurrences(more)
  {
    if more != [] {
      var init, last := more[..|more| - 1], more[|more| - 1];
      assert more == init + [last];
      NewEntriesOfUnknown(known, init);
    }
  }

  lemma LastRuleIsNew(rules: seq<Rule>)
    requires EntriesDisjoint(rules) && rules != []
    ensures EntriesDisjoint(rules[..|rules| - 1])
    ensures NewEntries(AllEntries(rules[..|rules| - 1]), rules[|rules| - 1].domains)
         == FirstOccurrences(rules[|rules| - 1].domains)
  {
    var init, last := rules[..|rules| - 1], rules[|rules| - 1];
    forall e | e in last.domains
      ensures e !in AllEntries(init)
    {
      AllEntriesMembers(init, e);
    }
    NewEntriesOfUnknown(AllEntries(init), last.domains);
  }

  /** When rules share no entry, the total list is every rule's own entries one after
      the other. */
  lemma {:induction false} AllOfDisjoint(rules: seq<Rule>)
    requires EntriesDisjoint(rules)
    ensures FirstOccurrences(AllEntries(rules)) == DistinctPerRule(rules)
  {
    if rules != [] {
      var init := rules[..|rules| - 1];
      LastRuleIsNew(rules);
      AllOfDisjoint(init);
      FirstOccurrencesConcat(AllEntries(init), rules[|rules| - 1].domains);
    }
  }

  /** When rules share no entry, OpenVPN gets exactly the entries of the OpenVPN rules. */
  lemma {:induction false} OpenVPNOfDisjoint(providers: seq<Provider>, rules: seq<Rule>)
    requires EntriesDisjoint(rules)
    ensures OpenVPNEntries(providers, rules) == DistinctPerRule(OpenVPNRules(providers, rules))
  {
    if rules != [] {
      var init, last := rules[..|rules| - 1], rules[|rules| - 1];
      LastRuleIsNew(rules);
      OpenVPNOfDisjoint(providers, init);
      var openvpn := OpenVPNRules(providers, init);
      assert (openvpn + [last])[..|openvpn|] == openvpn;
      assert DistinctPerRule(openvpn + [last]) == DistinctPerRule(openvpn) + FirstOccurrences(last.domains);
      assert openvpn + [] == openvpn;
    }
  }

  lemma {:induction false} ActiveRulesMembers(providers: seq<Provider>, rules: seq<Rule>)
    ensures forall r :: r in ActiveRules(providers, rules) <==> r in rules && Active(providers, r)
    ensures UniqueRuleIds(rules) ==> UniqueRuleIds(ActiveRules(providers, rules))
  {
    if rules != [] {
      var init, last := rules[..|rules| - 1], rules[|rules| - 1];
      assert rules == init + [last];
      assert forall i :: 0 <= i < |init| ==> init[i] == rules[i];
      ActiveRulesMembers(providers, init);
      assert UniqueRuleIds(rules) ==> forall r :: r in init ==> r.id != last.id;
    }
  }

  lemma DisjointRulesShareNoEntry(providers: seq<Provider>, rules: seq<Rule>)
    requires UniqueRuleIds(rules) && RulesDisjoint(providers, rules)
    ensures EntriesDisjoint(ActiveRules(providers, rules))
  {
    var active := ActiveRules(providers, rules);
    ActiveRulesMembers(providers, rules);
    forall i, j, e | 0 <= i < j < |active| && e in active[i].domains
      ensures e !in active[j].domains
    {
      assert active[i] in rules && active[j] in rules && active[i].id != active[j].id;
      assert EntriesApart(active[i].domains, active[j].domains) && Clash(e, e);
    }
  }

  /** De-duplication loses nothing once the configuration has been validated. */
  lemma AcceptedSplitLosesNothing(state: State, split: Split)
    requires IsSplit(split, state, state.rules)
    requires UniqueRuleIds(state.rules) && RulesDisjoint(state.providers, state.rules)
    ensures split.all == DistinctPerRule(split.rules)
    ensures split.openvpn == DistinctPerRule(OpenVPNRules(state.providers, split.rules))
  {
    DisjointRulesShareNoEntry(state.providers, state.rules);
    AllOfDisjoint(split.rules);
    OpenVPNOfDisjoint(state.providers, split.rules);
  }

  // ----- applying -----

  ghost function ActiveOpenVPN(state: State): set<string> {
    set r | r in state.rules && r.enabled && UsesOpenVPN(state.providers, r.providerId) :: r.providerId
  }

  /** What the checks of an apply ask of a configuration. */
  ghost predicate Acceptable(state: State) {
    RulesDisjoint(state.providers, state.rules) && |ActiveOpenVPN(state)| <= 1
  }

  /** The list that is stored for a configuration. */
  ghost function StoredFor(state: State): seq<Entry> {
    Normalized(FirstOccurrences(AllEntries(ActiveRules(state.providers, state.rules))))
  }

  /** The outcomes of the stores and runtimes that an apply calls. */
  datatype ApplyEnv = ApplyEnv(
    listed: bool, replace: Outcome, restore: Outcome,
    openvpnOk: bool, openvpnCleanupOk: bool, subscriptionsOk: bool, subscriptionsCleanupOk: bool)

  datatype ApplyResult = Applied(split: Split) | Failed

  ghost function ActiveSubscriptions(state: State): set<string> {
    set r | r in state.rules && Active(state.providers, r) && !UsesOpenVPN(state.providers, r.providerId)
      :: r.providerId
  }

  /** The runtimes that an apply calls all succeed. */
  ghost predicate RuntimesOk(env: ApplyEnv, state: State) {
    && (if ActiveOpenVPN(state) != {} then env.openvpnOk else env.openvpnCleanupOk)
    && (if ActiveSubscriptions(state) != {} then env.subscriptionsOk else env.subscriptionsCleanupOk)
  }

  /** The checks pass and every store and runtime answers well. */
  ghost predicate Guaranteed(env: ApplyEnv, state: State) {
    && Acceptable(state) && env.listed && env.replace == Outcome(true, true)
    && env.openvpnOk && env.openvpnCleanupOk && env.subscriptionsOk && env.subscriptionsCleanupOk
  }

  /** An apply succeeds exactly when the checks and every called store and runtime do; a
      failed apply leaves the stored list as it was, unless the list was replaced and the
      restoring transaction does not commit. */
  method ApplyStateRules(store: DomainStore, state: State, now: Time, env: ApplyEnv)
    returns (result: ApplyResult, ghost applied: State)
    requires store.Valid()
    modifies store
    ensures store.Valid()
    ensures applied == PriorityApplied(state, DefaultDecisions(state, state.policies, now))
    ensures result.Applied? ==>
      IsSplit(result.split, applied, applied.rules) && store.stored == Normalized(result.split.all)
    ensures result.Applied? <==>
      && Acceptable(applied) && env.listed && Replaces(env.replace, old(store.stored), StoredFor(applied))
      && RuntimesOk(env, applied)
    ensures result.Failed? ==>
      var replaced := RulesDisjoint(applied.providers, applied.rules) && env.listed && env.replace.commits;
      store.stored == if replaced && !env.restore.commits then StoredFor(applied) else old(store.stored)
  {
    hide NothingShared;
    var target := ApplyPriorityDefaults(state, now);
    applied := target;
    var valid := ValidateActiveRuleEntries(target);
    if !valid {
      return Failed, applied;
    }
    var split := SplitEntries(target);
    if !env.listed {
      return Failed, applied;
    }
    var previous := store.stored;
    var replaced := store.ReplaceAll(split.all, env.replace);
    NormalizedIsNormal(split.all);
    NormalIffFixedPoint(previous);
    var ok := replaced;
    if ok {
      var openvpnProviders := set id | id in split.providers && UsesOpenVPN(target.providers, id);
      var subscriptionProviders := set id | id in split.providers && !UsesOpenVPN(target.providers, id);
      ok := |openvpnProviders| <= 1
        && (if openvpnProviders != {} then env.openvpnOk else env.openvpnCleanupOk)
        && (if subscriptionProviders != {} then env.subscriptionsOk else env.subscriptionsCleanupOk);
      RuntimesCalled(target, split);
    }
    if ok {
      return Applied(split), applied;
    }
    var restored := store.ReplaceAll(previous, env.restore);
    return Failed, applied;
  }

  lemma RuntimesCalled(state: State, split: Split)
    requires IsSplit(split, state, state.rules)
    ensures (set id | id in split.providers && UsesOpenVPN(state.providers, id)) == ActiveOpenVPN(state)
    ensures (set id | id in split.providers && !UsesOpenVPN(state.providers, id)) == ActiveSubscriptions(state)
  {
    ActiveRulesMembers(state.providers, state.rules);
  }
}
