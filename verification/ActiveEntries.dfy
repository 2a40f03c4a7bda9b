/** Which entries active rules claim, the check that no two rules claim the same
    traffic, and the split of an accepted configuration between the runtimes. */
module ActiveEntries {
  import opened Entries
  import opened Config

  // ----- conflicts -----

  /** One IPv4 address or one spelling is claimed by both entries. */
  ghost predicate Clash(e: Entry, f: Entry) {
    e == f || (IsIP(e) && IsIP(f) && ShareAddress(IPPrefix(e), IPPrefix(f)))
  }

  /** No two active rules with different ids claim the same entry or address. */
  ghost predicate RulesDisjoint(providers: seq<Provider>, rules: seq<Rule>) {
    forall r, s :: r in rules && s in rules && Active(providers, r) && Active(providers, s) && r.id != s.id ==>
      EntriesApart(r.domains, s.domains)
  }

  ghost predicate EntriesApart(a: seq<Entry>, b: seq<Entry>) {
    forall e, f :: e in a && f in b ==> !Clash(e, f)
  }

  ghost predicate ReachBoth(e: Entry, f: Entry, a: Address) {
    Reaches(e, HostAddr(a)) && Reaches(f, HostAddr(a))
  }

  /** Entries clash if they are the same or stand for a common address: two addresses clash
      only if they are equal. */
  lemma ClashIffShared(e: Entry, f: Entry)
    ensures Clash(e, f) <==> e == f || exists a: Address :: ReachBoth(e, f, a)
    ensures e.Addr? && f.Addr? ==> (Clash(e, f) <==> e.addr == f.addr)
  {
    forall a: Address
      ensures ReachBoth(e, f, a) <==> Covers(e, HostAddr(a)) && Covers(f, HostAddr(a))
    {
      CoversIffReaches(e, HostAddr(a));
      CoversIffReaches(f, HostAddr(a));
    }
    if IsIP(e) && IsIP(f) && ShareAddress(IPPrefix(e), IPPrefix(f)) {
      var a: Address :| InPrefix(IPPrefix(e), a) && InPrefix(IPPrefix(f), a);
      assert ReachBoth(e, f, a);
    }
  }

  /** No entry or address is claimed by two active rules with different ids. */
  ghost predicate NothingShared(providers: seq<Provider>, rules: seq<Rule>) {
    forall r, s :: r in rules && s in rules && Active(providers, r) && Active(providers, s) && r.id != s.id ==>
      forall e, f :: e in r.domains && f in s.domains ==> e != f && forall a: Address :: !ReachBoth(e, f, a)
  }

  lemma DisjointIffNothingShared(providers: seq<Provider>, rules: seq<Rule>)
    ensures RulesDisjoint(providers, rules) <==> NothingShared(providers, rules)
  {
    hide Clash, ReachBoth;
    forall e, f
      ensures Clash(e, f) <==> e == f || exists a: Address :: ReachBoth(e, f, a)
    {
      ClashIffShared(e, f);
    }
    if NothingShared(providers, rules) {
      forall r, s | r in rules && s in rules && Active(providers, r) && Active(providers, s) && r.id != s.id
        ensures EntriesApart(r.domains, s.domains)
      {
      }
    }
  }

  datatype Claim = Claim(entry: Entry, owner: string)

  ghost predicate Compatible(c: Claim, d: Claim) {
    c.owner != d.owner ==> !Clash(c.entry, d.entry)
  }

  ghost predicate AllCompatible(claims: set<Claim>) {
    forall c, d :: c in claims && d in claims ==> Compatible(c, d)
  }

  ghost function ClaimsOf(entries: seq<Entry>, owner: string): set<Claim> {
    set e | e in entries :: Claim(e, owner)
  }

  ghost function ActiveClaims(providers: seq<Provider>, rules: seq<Rule>): set<Claim> {
    set r, e | r in rules && Active(providers, r) && e in r.domains :: Claim(e, r.id)
  }

  lemma DisjointIffCompatible(providers: seq<Provider>, rules: seq<Rule>)
    ensures RulesDisjoint(providers, rules) <==> AllCompatible(ActiveClaims(providers, rules))
  {
    if AllCompatible(ActiveClaims(providers, rules)) {
      forall r, s | r in rules && s in rules && Active(providers, r) && Active(providers, s) && r.id != s.id
        ensures EntriesApart(r.domains, s.domains)
      {
        assert forall e, f :: e in r.domains && f in s.domains ==> Compatible(Claim(e, r.id), Claim(f, s.id));
      }
    }
  }

  /** The tables built while active entries are registered one rule at a time. */
  class ActiveRegistry {
    var seen: map<Entry, string>
    var ranges: seq<Claim>
    ghost var claims: set<Claim>

    ghost predicate Valid()
      reads this
    {
      && AllCompatible(claims)
      && (forall c :: c in claims ==> c.entry in seen && seen[c.entry] == c.owner)
      && (forall e :: e in seen ==> Claim(e, seen[e]) in claims)
      && (forall c :: c in ranges <==> c in claims && IsIP(c.entry))
    }

    constructor ()
      ensures Valid() && claims == {}
    {
      seen, ranges, claims := map[], [], {};
    }

    /** Accepts exactly when the new claims are compatible with everything registered. */
    method Register(entries: seq<Entry>, owner: string) returns (ok: bool)
      requires Valid()
      modifies this
      ensures ok <==> AllCompatible(old(claims) + ClaimsOf(entries, owner))
      ensures ok ==> Valid() && claims == old(claims) + ClaimsOf(entries, owner)
    {
      for i := 0 to |entries|
        invariant Valid() && claims == old(claims) + ClaimsOf(entries[..i], owner)
      {
        assert entries[..i + 1] == entries[..i] + [entries[i]];
        assert claims + {Claim(entries[i], owner)} == old(claims) + ClaimsOf(entries[..i + 1], owner)
            <= old(claims) + ClaimsOf(entries, owner);
        var accepted := RegisterEntry(entries[i], owner);
        if !accepted {
          return false;
        }
      }
      assert entries[..|entries|] == entries;
      return true;
    }

    method RegisterEntry(entry: Entry, owner: string) returns (ok: bool)
      requires Valid()
      modifies this
      ensures ok <==> AllCompatible(old(claims) + {Claim(entry, owner)})
      ensures ok ==> Valid() && claims == old(claims) + {Claim(entry, owner)}
    {
      var mine := Claim(entry, owner);
      ghost var all := claims + {mine};
      if entry in seen && seen[entry] != owner {
        assert Claim(entry, seen[entry]) in all && !Compatible(mine, Claim(entry, seen[entry]));
        return false;
      }
      if IsIP(entry) {
        var clash := FindOverlap(ranges, mine);
        if clash.Some? {
          assert clash.value in all;
          return false;
        }
        ranges := ranges + [mine];
      }
      CompatibleWithOne(claims, mine);
      seen := seen[entry := owner];
      claims := all;
      return true;
    }
  }

  method FindOverlap(ranges: seq<Claim>, mine: Claim) returns (clash: Option<Claim>)
    requires IsIP(mine.entry) && forall c :: c in ranges ==> IsIP(c.entry)
    ensures clash.Some? ==> clash.value in ranges && !Compatible(clash.value, mine)
    ensures clash.None? ==> forall c :: c in ranges ==> Compatible(c, mine)
  {
    for j := 0 to |ranges|
      invariant forall k :: 0 <= k < j ==> Compatible(ranges[k], mine)
    {
      if ranges[j].owner == mine.owner {
        continue;
      }
      OverlapIffShareAddress(IPPrefix(ranges[j].entry), IPPrefix(mine.entry));
      if PrefixesOverlap(IPPrefix(ranges[j].entry), IPPrefix(mine.entry)) {
        return Some(ranges[j]);
      }
      assert InPrefix(IPPrefix(mine.entry), IPPrefix(mine.entry).addr);
    }
    return None;
  }

  lemma ClashSymmetric(e: Entry, f: Entry)
    ensures Clash(e, f) <==> Clash(f, e)
  {
  }

  lemma CompatibleWithOne(claims: set<Claim>, mine: Claim)
    requires AllCompatible(claims)
    requires forall c :: c in claims ==> Compatible(c, mine)
    ensures AllCompatible(claims + {mine})
  {
    forall c | c in claims {
      ClashSymmetric(c.entry, mine.entry);
    }
  }

  lemma ClaimsOfPrefix(providers: seq<Provider>, rules: seq<Rule>, r: nat)
    requires r < |rules|
    ensures ActiveClaims(providers, rules[..r + 1]) == ActiveClaims(providers, rules[..r])
      + if Active(providers, rules[r]) then ClaimsOf(rules[r].domains, rules[r].id) else {}
    ensures ActiveClaims(providers, rules[..r + 1]) <= ActiveClaims(providers, rules)
  {
    assert rules[..r + 1] == rules[..r] + [rules[r]];
  }

  method ValidateActiveRuleEntries(state: State) returns (ok: bool)
    ensures ok <==> RulesDisjoint(state.providers, state.rules)
    ensures ok <==> NothingShared(state.providers, state.rules)
  {
    hide NothingShared;
    DisjointIffNothingShared(state.providers, state.rules);
    DisjointIffCompatible(state.providers, state.rules);
    var registry := new ActiveRegistry();
    for r := 0 to |state.rules|
      invariant fresh(registry) && registry.Valid()
      invariant registry.claims == ActiveClaims(state.providers, state.rules[..r])
    {
      var rule := state.rules[r];
      ClaimsOfPrefix(state.providers, state.rules, r);
      var provider := FindProvider(state.providers, rule.providerId);
      if !rule.enabled || provider.None? || !provider.value.enabled {
        continue;
      }
      var accepted := registry.Register(rule.domains, rule.id);
      if !accepted {
        return false;
      }
    }
    assert state.rules[..|state.rules|] == state.rules;
    return true;
  }
}
