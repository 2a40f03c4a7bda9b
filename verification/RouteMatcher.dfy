/** The route a connection is attributed to: an index over all active entries that
    must answer like a scan of the rules in order. */
module RouteMatcher {
  import opened Entries
  import opened Config

  datatype RouteDecision = RouteDecision(order: nat, routeLabel: string)
  datatype PrefixDecision = PrefixDecision(prefix: Prefix, decision: RouteDecision)
  datatype Matcher = Matcher(decisions: map<string, RouteDecision>, prefixes: seq<PrefixDecision>)

  // ----- the scan it stands for -----

  datatype Route = Route(entry: Entry, routeLabel: string)

  function Label(state: State, rule: Rule, provider: Provider): string {
    match provider.kind
    case Subscription => if rule.location != "" then provider.name + " / " + rule.location else provider.name
    case OpenVPN => if state.vpnIface != "" then provider.name + " / " + state.vpnIface else provider.name
  }

  ghost function RuleRoutes(state: State, rule: Rule): seq<Route> {
    if Active(state.providers, rule) then
      var routeLabel := Label(state, rule, FindProvider(state.providers, rule.providerId).value);
      EntryRoutes(rule.domains, routeLabel)
    else []
  }

  /** All active entries in rule-then-entry order. */
  ghost function Routes(state: State, rules: seq<Rule>): seq<Route> {
    if rules == [] then []
    else Routes(state, rules[..|rules| - 1]) + RuleRoutes(state, rules[|rules| - 1])
  }

  /** The label of the first route that covers `host`. */
  ghost function Scan(routes: seq<Route>, host: Host): Option<string> {
    if routes == [] then None
    else if Covers(routes[0].entry, host) then Some(routes[0].routeLabel)
    else Scan(routes[1..], host)
  }

  predicate HasSuffix(s: string, suffix: string) {
    |suffix| <= |s| && s[|s| - |suffix|..] == suffix
  }

  /** Names the observer never attributes. */
  predicate Unobserved(name: string) {
    name == "" || HasSuffix(name, ".arpa") || HasSuffix(name, ".localdomain")
  }

  predicate UnobservedHost(host: Host) {
    host.HostName? && Unobserved(host.name)
  }

  // ----- the index -----

  /** `firsts[k]` is the position in `routes` of the entry that was given order `k`. */
  ghost predicate Indexed(m: Matcher, routes: seq<Route>, firsts: seq<nat>) {
    && (forall a, b :: 0 <= a < b < |firsts| ==> firsts[a] < firsts[b])
    && (forall a :: 0 <= a < |firsts| ==> firsts[a] < |routes|)
    && (forall name :: name in m.decisions ==> name != "" && Places(m.decisions[name], Domain(name), routes, firsts))
    && (forall k :: 0 <= k < |m.prefixes| ==> PlacesPrefix(m.prefixes[k], routes, firsts))
    && (forall i :: 0 <= i < |routes| ==> EntryRecorded(m, routes[i].entry, i, firsts))
  }

  ghost predicate Places(d: RouteDecision, e: Entry, routes: seq<Route>, firsts: seq<nat>) {
    d.order < |firsts| && firsts[d.order] < |routes| && routes[firsts[d.order]] == Route(e, d.routeLabel)
  }

  ghost predicate PlacesPrefix(p: PrefixDecision, routes: seq<Route>, firsts: seq<nat>) {
    && p.decision.order < |firsts| && firsts[p.decision.order] < |routes|
    && var route := routes[firsts[p.decision.order]];
    IsIP(route.entry) && IPPrefix(route.entry) == p.prefix && route.routeLabel == p.decision.routeLabel
  }

  /** The entry at position `i` is found in the index at an order whose position is not later. */
  ghost predicate EntryRecorded(m: Matcher, e: Entry, i: nat, firsts: seq<nat>) {
    if IsIP(e) then
      exists k :: 0 <= k < |m.prefixes| && m.prefixes[k].prefix == IPPrefix(e)
        && m.prefixes[k].decision.order < |firsts| && firsts[m.prefixes[k].decision.order] <= i
    else
      Unobserved(e.name) || (e.name in m.decisions
        && m.decisions[e.name].order < |firsts| && firsts[m.decisions[e.name].order] <= i)
  }

  ghost predicate Represents(m: Matcher, routes: seq<Route>) {
    exists firsts :: Indexed(m, routes, firsts)
  }

  /** One more entry that the index already answers for leaves it as it is. */
  lemma IndexedSkip(m: Matcher, routes: seq<Route>, firsts: seq<nat>, route: Route)
    requires Indexed(m, routes, firsts)
    requires EntryRecorded(m, route.entry, |routes|, firsts)
    ensures Indexed(m, routes + [route], firsts)
  {
    var more := routes + [route];
    forall name | name in m.decisions
      ensures Places(m.decisions[name], Domain(name), more, firsts)
    {
      assert Places(m.decisions[name], Domain(name), routes, firsts);
    }
    forall k | 0 <= k < |m.prefixes|
      ensures PlacesPrefix(m.prefixes[k], more, firsts)
    {
      assert PlacesPrefix(m.prefixes[k], routes, firsts);
    }
  }

  /** A new name takes the next order. */
  lemma IndexedAddName(m: Matcher, routes: seq<Route>, firsts: seq<nat>, route: Route)
    requires Indexed(m, routes, firsts)
    requires route.entry.Domain? && route.entry.name != "" && route.entry.name !in m.decisions
    ensures Indexed(WithName(m, route, |firsts|), routes + [route], firsts + [|routes|])
  {
    var m', more, firsts' := WithName(m, route, |firsts|), routes + [route], firsts + [|routes|];
    forall name | name in m'.decisions
      ensures name != "" && Places(m'.decisions[name], Domain(name), more, firsts')
    {
      if name in m.decisions {
        assert Places(m.decisions[name], Domain(name), routes, firsts);
      }
    }
    forall k | 0 <= k < |m'.prefixes|
      ensures PlacesPrefix(m'.prefixes[k], more, firsts')
    {
      assert PlacesPrefix(m.prefixes[k], routes, firsts);
    }
    forall i | 0 <= i < |routes|
      ensures EntryRecorded(m', more[i].entry, i, firsts')
    {
      assert EntryRecorded(m, routes[i].entry, i, firsts);
      RecordedWithName(m, routes[i].entry, i, firsts, route, |routes|);
    }
  }

  lemma RecordedWithName(m: Matcher, e: Entry, i: nat, firsts: seq<nat>, route: Route, last: nat)
    requires EntryRecorded(m, e, i, firsts) && route.entry.Domain? && route.entry.name !in m.decisions
    ensures EntryRecorded(WithName(m, route, |firsts|), e, i, firsts + [last])
  {
    if IsIP(e) {
      var k :| 0 <= k < |m.prefixes| && m.prefixes[k].prefix == IPPrefix(e)
        && m.prefixes[k].decision.order < |firsts| && firsts[m.prefixes[k].decision.order] <= i;
      assert WithName(m, route, |firsts|).prefixes[k] == m.prefixes[k];
    }
  }

  function WithName(m: Matcher, route: Route, order: nat): Matcher
    requires route.entry.Domain?
  {
    m.(decisions := m.decisions[route.entry.name := RouteDecision(order, route.routeLabel)])
  }

  function WithPrefix(m: Matcher, route: Route, order: nat): Matcher
    requires IsIP(route.entry)
  {
    m.(prefixes := m.prefixes + [PrefixDecision(IPPrefix(route.entry), RouteDecision(order, route.routeLabel))])
  }

  /** A new prefix takes the next order. */
  lemma IndexedAddPrefix(m: Matcher, routes: seq<Route>, firsts: seq<nat>, route: Route)
    requires Indexed(m, routes, firsts) && IsIP(route.entry)
    ensures Indexed(WithPrefix(m, route, |firsts|), routes + [route], firsts + [|routes|])
  {
    var m', more, firsts' := WithPrefix(m, route, |firsts|), routes + [route], firsts + [|routes|];
    forall name | name in m'.decisions
      ensures name != "" && Places(m'.decisions[name], Domain(name), more, firsts')
    {
      assert Places(m.decisions[name], Domain(name), routes, firsts);
    }
    forall k | 0 <= k < |m'.prefixes|
      ensures PlacesPrefix(m'.prefixes[k], more, firsts')
    {
      if k < |m.prefixes| {
        assert PlacesPrefix(m.prefixes[k], routes, firsts);
      }
    }
    forall i | 0 <= i < |more|
      ensures EntryRecorded(m', more[i].entry, i, firsts')
    {
      if i == |routes| {
        assert m'.prefixes[|m.prefixes|].prefix == IPPrefix(route.entry);
      } else {
        RecordedWithPrefix(m, routes[i].entry, i, firsts, route, |routes|);
      }
    }
  }

  lemma RecordedWithPrefix(m: Matcher, e: Entry, i: nat, firsts: seq<nat>, route: Route, last: nat)
    requires EntryRecorded(m, e, i, firsts) && IsIP(route.entry)
    ensures EntryRecorded(WithPrefix(m, route, |firsts|), e, i, firsts + [last])
  {
    if IsIP(e) {
      var k :| 0 <= k < |m.prefixes| && m.prefixes[k].prefix == IPPrefix(e)
        && m.prefixes[k].decision.order < |firsts| && firsts[m.prefixes[k].decision.order] <= i;
      assert WithPrefix(m, route, |firsts|).prefixes[k] == m.prefixes[k];
    }
  }

  method BuildRouteMatcher(state: State) returns (m: Matcher)
    ensures Represents(m, Routes(state, state.rules))
  {
    m := Matcher(map[], []);
    var seenPrefixes: set<Prefix> := {};
    var nextOrder := 0;
    ghost var firsts: seq<nat> := [];
    for r := 0 to |state.rules|
      invariant Indexed(m, Routes(state, state.rules[..r]), firsts) && nextOrder == |firsts|
      invariant seenPrefixes == PrefixesOf(m)
    {
      var rule := state.rules[r];
      assert state.rules[..r + 1][..r] == state.rules[..r];
      ghost var before := Routes(state, state.rules[..r]);
      assert before + [] == before;
      var provider := FindProvider(state.providers, rule.providerId);
      if !rule.enabled || provider.None? || !provider.value.enabled {
        continue;
      }
      var routeLabel := Label(state, rule, provider.value);
      m, seenPrefixes, nextOrder, firsts :=
        RecordEntries(m, seenPrefixes, nextOrder, rule.domains, routeLabel, before, firsts);
    }
    assert state.rules[..|state.rules|] == state.rules;
  }

  ghost function EntryRoutes(entries: seq<Entry>, routeLabel: string): seq<Route> {
    seq(|entries|, i requires 0 <= i < |entries| => Route(entries[i], routeLabel))
  }

  method RecordEntries(m: Matcher, seenPrefixes: set<Prefix>, nextOrder: nat, entries: seq<Entry>, routeLabel: string,
      ghost routes: seq<Route>, ghost firsts: seq<nat>)
    returns (m': Matcher, seenPrefixes': set<Prefix>, nextOrder': nat, ghost firsts': seq<nat>)
    requires Indexed(m, routes, firsts) && nextOrder == |firsts| && seenPrefixes == PrefixesOf(m)
    ensures Indexed(m', routes + EntryRoutes(entries, routeLabel), firsts') && nextOrder' == |firsts'|
    ensures seenPrefixes' == PrefixesOf(m')
  {
    m', seenPrefixes', nextOrder', firsts' := m, seenPrefixes, nextOrder, firsts;
    ghost var added := EntryRoutes(entries, routeLabel);
    assert routes + added[..0] == routes;
    for i := 0 to |entries|
      invariant Indexed(m', routes + added[..i], firsts') && nextOrder' == |firsts'|
      invariant seenPrefixes' == PrefixesOf(m')
    {
      assert routes + added[..i + 1] == routes + added[..i] + [Route(entries[i], routeLabel)];
      m', seenPrefixes', nextOrder', firsts' :=
        RecordEntry(m', seenPrefixes', nextOrder', entries[i], routeLabel, routes + added[..i], firsts');
    }
    assert added[..|entries|] == added;
  }

  function PrefixesOf(m: Matcher): set<Prefix> {
    set p | p in m.prefixes :: p.prefix
  }

  /** The body of the entry loop: a repeated prefix or name keeps its first decision. */
  method RecordEntry(m: Matcher, seenPrefixes: set<Prefix>, nextOrder: nat, entry: Entry, routeLabel: string,
      ghost routes: seq<Route>, ghost firsts: seq<nat>)
    returns (m': Matcher, seenPrefixes': set<Prefix>, nextOrder': nat, ghost firsts': seq<nat>)
    requires Indexed(m, routes, firsts) && nextOrder == |firsts| && seenPrefixes == PrefixesOf(m)
    ensures Indexed(m', routes + [Route(entry, routeLabel)], firsts') && nextOrder' == |firsts'|
    ensures seenPrefixes' == PrefixesOf(m')
  {
    m', seenPrefixes', nextOrder', firsts' := m, seenPrefixes, nextOrder, firsts;
    ghost var route := Route(entry, routeLabel);
    if IsIP(entry) {
      var prefix := IPPrefix(entry);
      if prefix in seenPrefixes {
        PrefixKnown(m, routes, firsts, entry);
        IndexedSkip(m, routes, firsts, route);
        return;
      }
      IndexedAddPrefix(m, routes, firsts, route);
      seenPrefixes' := seenPrefixes + {prefix};
      m' := m.(prefixes := m.prefixes + [PrefixDecision(prefix, RouteDecision(nextOrder, routeLabel))]);
    } else {
      if Unobserved(entry.name) || entry.name in m.decisions {
        if entry.name in m.decisions {
          assert Places(m.decisions[entry.name], Domain(entry.name), routes, firsts);
        }
        IndexedSkip(m, routes, firsts, route);
        return;
      }
      IndexedAddName(m, routes, firsts, route);
      m' := m.(decisions := m.decisions[entry.name := RouteDecision(nextOrder, routeLabel)]);
    }
    nextOrder', firsts' := nextOrder + 1, firsts + [|routes|];
  }

  lemma PrefixKnown(m: Matcher, routes: seq<Route>, firsts: seq<nat>, e: Entry)
    requires Indexed(m, routes, firsts) && IsIP(e)
    requires exists p :: p in m.prefixes && p.prefix == IPPrefix(e)
    ensures EntryRecorded(m, e, |routes|, firsts)
  {
    var p :| p in m.prefixes && p.prefix == IPPrefix(e);
    var k :| 0 <= k < |m.prefixes| && m.prefixes[k] == p;
    assert PlacesPrefix(m.prefixes[k], routes, firsts);
  }

  // ----- resolving -----

  /** `d` is the decision of an indexed entry that covers `host`. */
  ghost predicate Matches(m: Matcher, host: Host, d: RouteDecision) {
    match host
    case HostAddr(a) =>
      exists k :: 0 <= k < |m.prefixes| && InPrefix(m.prefixes[k].prefix, a) && m.prefixes[k].decision == d
    case HostName(h) => exists name :: name in m.decisions && CoversName(name, h) && m.decisions[name] == d
  }

  /** A name that is never attributed: a blank one, or one under a reserved suffix. */
  ghost predicate Reserved(host: Host) {
    && host.HostName?
    && (|| host.name == ""
        || (exists stem :: host.name == stem + ".arpa")
        || exists stem :: host.name == stem + ".localdomain")
  }

  lemma UnobservedIffReserved(host: Host)
    ensures UnobservedHost(host) <==> Reserved(host)
  {
    if host.HostName? && HasSuffix(host.name, ".arpa") {
      assert host.name == host.name[..|host.name| - 5] + ".arpa";
    }
    if host.HostName? && HasSuffix(host.name, ".localdomain") {
      assert host.name == host.name[..|host.name| - 12] + ".localdomain";
    }
  }

  ghost predicate FirstReached(routes: seq<Route>, host: Host, i: nat) {
    && i < |routes| && Reaches(routes[i].entry, host)
    && forall j :: 0 <= j < i ==> !Reaches(routes[j].entry, host)
  }

  /** The scan finds the first route whose entry stands for the host. */
  lemma {:induction false} ScanIsFirst(routes: seq<Route>, host: Host)
    ensures Scan(routes, host).Some? ==>
      exists i: nat :: FirstReached(routes, host, i) && routes[i].routeLabel == Scan(routes, host).value
    ensures Scan(routes, host).None? ==> forall route :: route in routes ==> !Reaches(route.entry, host)
  {
    if routes != [] {
      hide Reaches, Covers;
      CoversIffReaches(routes[0].entry, host);
      if !Covers(routes[0].entry, host) {
        ScanIsFirst(routes[1..], host);
        if i: nat :| FirstReached(routes[1..], host, i) && routes[1..][i].routeLabel == Scan(routes, host).value {
          assert forall j :: 0 < j <= i + 1 ==> routes[j] == routes[1..][j - 1];
          assert FirstReached(routes, host, i + 1);
        }
      } else {
        assert FirstReached(routes, host, 0);
      }
    }
  }

  /** The route of a host is that of the first entry that stands for it, unless its name is
      reserved. */
  method Resolve(m: Matcher, host: Host, ghost routes: seq<Route>) returns (routeLabel: Option<string>)
    requires Represents(m, routes)
    ensures routeLabel == if UnobservedHost(host) then None else Scan(routes, host)
    ensures routeLabel.Some? ==>
      !Reserved(host) && exists i: nat :: FirstReached(routes, host, i) && routes[i].routeLabel == routeLabel.value
    ensures routeLabel.None? ==> Reserved(host) || forall route :: route in routes ==> !Reaches(route.entry, host)
  {
    hide Reserved, FirstReached, Reaches, Covers;
    UnobservedIffReserved(host);
    ScanIsFirst(routes, host);
    var best: Option<RouteDecision>;
    if host.HostAddr? {
      best := ResolveAddress(m, host.addr);
    } else {
      if Unobserved(host.name) {
        return None;
      }
      if |m.decisions| == 0 {
        BestIsScan(m, host, None, routes);
        return None;
      }
      best := ResolveName(m, host.name);
    }
    BestIsScan(m, host, best, routes);
    routeLabel := if best.Some? then Some(best.value.routeLabel) else None;
  }

  /** `best` is the matching decision of least order, if any matches. */
  ghost predicate IsBest(m: Matcher, host: Host, best: Option<RouteDecision>) {
    && (best.Some? ==> Matches(m, host, best.value))
    && forall d :: Matches(m, host, d) ==> best.Some? && best.value.order <= d.order
  }

  method ResolveAddress(m: Matcher, addr: Address) returns (best: Option<RouteDecision>)
    ensures IsBest(m, HostAddr(addr), best)
  {
    best := None;
    ghost var at := 0;
    for k := 0 to |m.prefixes|
      invariant best.Some? ==> at < k && InPrefix(m.prefixes[at].prefix, addr) && m.prefixes[at].decision == best.value
      invariant forall j :: 0 <= j < k && InPrefix(m.prefixes[j].prefix, addr) ==>
        best.Some? && best.value.order <= m.prefixes[j].decision.order
    {
      if InPrefix(m.prefixes[k].prefix, addr) {
        if best.None? || m.prefixes[k].decision.order < best.value.order {
          best, at := Some(m.prefixes[k].decision), k;
        }
      }
    }
  }

  ghost predicate NotBeaten(m: Matcher, best: Option<RouteDecision>, name: string) {
    name in m.decisions ==> best.Some? && best.value.order <= m.decisions[name].order
  }

  /** Every indexed name at or above `observed` has been seen or is at or above `current`. */
  ghost predicate SeenBelow(m: Matcher, best: Option<RouteDecision>, observed: string, current: string) {
    forall name :: name in m.decisions && CoversName(name, observed) ==>
      CoversName(name, current) || NotBeaten(m, best, name)
  }

  lemma SeenBelowCut(m: Matcher, best: Option<RouteDecision>, observed: string, current: string)
    requires SeenBelow(m, best, observed, current) && NotBeaten(m, best, current)
    ensures IndexDot(current) < 0 ==>
      forall name :: name in m.decisions && CoversName(name, observed) ==> NotBeaten(m, best, name)
    ensures 0 <= IndexDot(current) ==> SeenBelow(m, best, observed, current[IndexDot(current) + 1..])
  {
    AboveCut(current);
  }

  method ResolveName(m: Matcher, observed: string) returns (best: Option<RouteDecision>)
    ensures IsBest(m, HostName(observed), best)
  {
    best := None;
    var current := observed;
    ghost var at := "";
    while true
      invariant CoversName(current, observed)
      invariant best.Some? ==> at in m.decisions && CoversName(at, observed) && m.decisions[at] == best.value
      invariant SeenBelow(m, best, observed, current)
      decreases |current|
    {
      if current in m.decisions {
        if best.None? || m.decisions[current].order < best.value.order {
          best, at := Some(m.decisions[current]), current;
        }
      }
      SeenBelowCut(m, best, observed, current);
      var nextDot := IndexDot(current);
      if nextDot < 0 {
        return;
      }
      var parent := current[nextDot + 1..];
      assert StrictlyUnder(current, parent);
      UnderIsTransitive(parent, current, observed);
      current := parent;
    }
  }

  /** Above `h` lie exactly `h` itself and what lies above its cut at the first dot. */
  lemma AboveCut(h: string)
    ensures IndexDot(h) < 0 ==> forall d :: CoversName(d, h) ==> d == h
    ensures 0 <= IndexDot(h) ==> StrictlyUnder(h, h[IndexDot(h) + 1..])
    ensures 0 <= IndexDot(h) ==> forall d :: CoversName(d, h) ==> d == h || CoversName(d, h[IndexDot(h) + 1..])
  {
    forall d | StrictlyUnder(h, d) {
      CutReachesParents(h, d);
    }
  }

  lemma SuffixKept(name: string, h: string, suffix: string)
    requires CoversName(name, h) && HasSuffix(name, suffix)
    ensures HasSuffix(h, suffix)
  {
    if name != h {
      DropTwice(h, |h| - |name|, |name| - |suffix|);
    }
  }

  /** An entry that is left out of the index covers no host that is looked up. */
  lemma UnobservedCoversUnobserved(e: Entry, host: Host)
    requires !IsIP(e) && Unobserved(e.name) && Covers(e, host)
    ensures UnobservedHost(host)
  {
    if HasSuffix(e.name, ".arpa") {
      SuffixKept(e.name, host.name, ".arpa");
    } else {
      SuffixKept(e.name, host.name, ".localdomain");
    }
  }

  lemma {:induction false} ScanFindsFirst(routes: seq<Route>, host: Host, i: nat)
    requires i < |routes| && Covers(routes[i].entry, host)
    requires forall j :: 0 <= j < i ==> !Covers(routes[j].entry, host)
    ensures Scan(routes, host) == Some(routes[i].routeLabel)
  {
    if 0 < i {
      ScanFindsFirst(routes[1..], host, i - 1);
    }
  }

  lemma {:induction false} ScanFindsNone(routes: seq<Route>, host: Host)
    requires forall j :: 0 <= j < |routes| ==> !Covers(routes[j].entry, host)
    ensures Scan(routes, host) == None
  {
    if routes != [] {
      ScanFindsNone(routes[1..], host);
    }
  }

  /** A covering entry is matched by a decision whose position is not later. */
  lemma CoveringEntryMatches(m: Matcher, host: Host, routes: seq<Route>, firsts: seq<nat>, i: nat)
    returns (d: RouteDecision)
    requires Indexed(m, routes, firsts) && !UnobservedHost(host)
    requires i < |routes| && Covers(routes[i].entry, host)
    ensures Matches(m, host, d) && d.order < |firsts| && firsts[d.order] <= i
  {
    var e := routes[i].entry;
    assert EntryRecorded(m, e, i, firsts);
    if IsIP(e) {
      var k :| 0 <= k < |m.prefixes| && m.prefixes[k].prefix == IPPrefix(e)
        && m.prefixes[k].decision.order < |firsts| && firsts[m.prefixes[k].decision.order] <= i;
      d := m.prefixes[k].decision;
    } else {
      if Unobserved(e.name) {
        UnobservedCoversUnobserved(e, host);
      }
      d := m.decisions[e.name];
    }
  }

  /** A matching decision names a covering entry. */
  lemma MatchIsCovering(m: Matcher, host: Host, routes: seq<Route>, firsts: seq<nat>, d: RouteDecision)
    requires Indexed(m, routes, firsts) && Matches(m, host, d) && !UnobservedHost(host)
    ensures d.order < |firsts| && firsts[d.order] < |routes|
    ensures Covers(routes[firsts[d.order]].entry, host) && routes[firsts[d.order]].routeLabel == d.routeLabel
  {
    match host
    case HostAddr(a) =>
      var k :| 0 <= k < |m.prefixes| && InPrefix(m.prefixes[k].prefix, a) && m.prefixes[k].decision == d;
      assert PlacesPrefix(m.prefixes[k], routes, firsts);
    case HostName(h) =>
      var name :| name in m.decisions && CoversName(name, h) && m.decisions[name] == d;
      assert Places(m.decisions[name], Domain(name), routes, firsts);
  }

  /** The matching decision of least order carries the label the scan finds. */
  lemma BestIsScan(m: Matcher, host: Host, best: Option<RouteDecision>, routes: seq<Route>)
    requires Represents(m, routes) && !UnobservedHost(host) && IsBest(m, host, best)
    ensures Scan(routes, host) == if best.Some? then Some(best.value.routeLabel) else None
  {
    var firsts :| Indexed(m, routes, firsts);
    if best.None? {
      forall j | 0 <= j < |routes|
        ensures !Covers(routes[j].entry, host)
      {
        if Covers(routes[j].entry, host) {
          var d := CoveringEntryMatches(m, host, routes, firsts, j);
        }
      }
      ScanFindsNone(routes, host);
    } else {
      MatchIsCovering(m, host, routes, firsts, best.value);
      forall i | 0 <= i < |routes| && Covers(routes[i].entry, host) {
        BestIsFirst(m, host, best.value, routes, firsts, i);
      }
      ScanFindsFirst(routes, host, firsts[best.value.order]);
    }
  }

  lemma BestIsFirst(m: Matcher, host: Host, best: RouteDecision, routes: seq<Route>, firsts: seq<nat>, i: nat)
    requires Indexed(m, routes, firsts) && !UnobservedHost(host) && IsBest(m, host, Some(best))
    requires best.order < |firsts|
    requires i < |routes| && Covers(routes[i].entry, host)
    ensures firsts[best.order] <= i
  {
    var d := CoveringEntryMatches(m, host, routes, firsts, i);
    OrdersFollowPositions(m, routes, firsts, best.order, d.order);
  }

  lemma OrdersFollowPositions(m: Matcher, routes: seq<Route>, firsts: seq<nat>, a: nat, b: nat)
    requires Indexed(m, routes, firsts) && a <= b < |firsts|
    ensures firsts[a] <= firsts[b]
  {
  }

  // ----- collapsing rules does not move a route -----

  lemma {:induction false} ScanConcat(a: seq<Route>, b: seq<Route>, host: Host)
    ensures Scan(a + b, host) == if Scan(a, host).Some? then Scan(a, host) else Scan(b, host)
  {
    if a == [] {
      assert a + b == b;
    } else {
      ScanConcat(a[1..], b, host);
      assert (a + b)[1..] == a[1..] + b;
    }
  }

  lemma {:induction false} ScanEntries(entries: seq<Entry>, routeLabel: string, host: Host)
    ensures Scan(EntryRoutes(entries, routeLabel), host)
         == if ListCovers(entries, host) then Some(routeLabel) else None
  {
    if entries != [] {
      var rest := entries[1..];
      ScanEntries(rest, routeLabel, host);
      assert EntryRoutes(entries, routeLabel)[1..] == EntryRoutes(rest, routeLabel);
      assert entries == [entries[0]] + rest;
      assert ListCovers(entries, host) <==> Covers(entries[0], host) || ListCovers(rest, host) by {
        if Covers(entries[0], host) {
          assert entries[0] in entries;
        }
      }
    }
  }

  ghost function NormalizedRules(rules: seq<Rule>): seq<Rule> {
    seq(|rules|, i requires 0 <= i < |rules| => rules[i].(domains := Normalized(rules[i].domains)))
  }

  lemma NormalizingKeepsRule(state: State, rule: Rule, host: Host)
    ensures Scan(RuleRoutes(state, rule.(domains := Normalized(rule.domains))), host)
         == Scan(RuleRoutes(state, rule), host)
  {
    var rule' := rule.(domains := Normalized(rule.domains));
    if Active(state.providers, rule) {
      var routeLabel := Label(state, rule, FindProvider(state.providers, rule.providerId).value);
      assert routeLabel == Label(state, rule', FindProvider(state.providers, rule.providerId).value);
      ScanEntries(rule.domains, routeLabel, host);
      ScanEntries(rule'.domains, routeLabel, host);
      NormalizeKeepsCoverage(rule.domains, host);
    }
  }

  /** Normalising every rule's entries leaves each host's route as it was. */
  lemma {:induction false} NormalizingKeepsRoutes(state: State, rules: seq<Rule>, host: Host)
    ensures Scan(Routes(state, NormalizedRules(rules)), host) == Scan(Routes(state, rules), host)
  {
    if rules != [] {
      var init, last := rules[..|rules| - 1], rules[|rules| - 1];
      var last' := last.(domains := Normalized(last.domains));
      NormalizingKeepsRoutes(state, init, host);
      NormalizingKeepsRule(state, last, host);
      assert NormalizedRules(rules)[..|rules| - 1] == NormalizedRules(init);
      ScanConcat(Routes(state, init), RuleRoutes(state, last), host);
      ScanConcat(Routes(state, NormalizedRules(init)), RuleRoutes(state, last'), host);
    }
  }

  // ----- which rule a host is attributed to -----

  /** The rule is switched on, so is its provider, and an entry of it stands for the host. */
  ghost predicate RuleReaches(state: State, rule: Rule, host: Host) {
    var provider := FindProvider(state.providers, rule.providerId);
    && rule.enabled && provider.Some? && provider.value.enabled
    && exists e :: e in rule.domains && Reaches(e, host)
  }

  lemma ListReaches(entries: seq<Entry>, host: Host)
    ensures ListCovers(entries, host) <==> exists e :: e in entries && Reaches(e, host)
  {
    forall e
      ensures Covers(e, host) <==> Reaches(e, host)
    {
      CoversIffReaches(e, host);
    }
  }

  lemma RuleScan(state: State, rule: Rule, host: Host)
    ensures Scan(RuleRoutes(state, rule), host).Some? <==> RuleReaches(state, rule, host)
    ensures RuleReaches(state, rule, host) ==>
      var provider := FindProvider(state.providers, rule.providerId).value;
      Scan(RuleRoutes(state, rule), host) == Some(Label(state, rule, provider))
  {
    hide Reaches, Covers;
    ListReaches(rule.domains, host);
    if Active(state.providers, rule) {
      ScanEntries(rule.domains, Label(state, rule, FindProvider(state.providers, rule.providerId).value), host);
    }
  }

  /** A host belongs to the first rule that reaches it, and is labelled with the name of its
      provider and what tells the tunnel: location or interface. */
  lemma {:induction false} AttributedToFirstRule(state: State, rules: seq<Rule>, host: Host, i: nat)
    requires i < |rules| && RuleReaches(state, rules[i], host)
    requires forall j :: 0 <= j < i ==> !RuleReaches(state, rules[j], host)
    ensures
      var provider := FindProvider(state.providers, rules[i].providerId).value;
      var tunnel := if provider.kind == Subscription then rules[i].location else state.vpnIface;
      Scan(Routes(state, rules), host) == Some(if tunnel == "" then provider.name else provider.name + " / " + tunnel)
  {
    hide Scan, RuleReaches, RuleRoutes, FindProvider, Reaches;
    var n := |rules| - 1;
    ScanConcat(Routes(state, rules[..n]), RuleRoutes(state, rules[n]), host);
    if i < n {
      AttributedToFirstRule(state, rules[..n], host, i);
    } else {
      UnreachedHasNoRoute(state, rules[..n], host);
      RuleScan(state, rules[n], host);
    }
  }

  lemma {:induction false} UnreachedHasNoRoute(state: State, rules: seq<Rule>, host: Host)
    requires forall r :: r in rules ==> !RuleReaches(state, r, host)
    ensures Scan(Routes(state, rules), host) == None
  {
    if rules != [] {
      var init, last := rules[..|rules| - 1], rules[|rules| - 1];
      assert rules == init + [last];
      UnreachedHasNoRoute(state, init, host);
      ScanConcat(Routes(state, init), RuleRoutes(state, last), host);
      RuleScan(state, last, host);
    }
  }

  /** A rule for a reserved name covers it, yet the matcher attributes it to no route. */
  lemma ReservedNamesAreNotAttributed() returns (routes: seq<Route>, host: Host)
    ensures UnobservedHost(host) && Scan(routes, host) == Some("tunnel")
  {
    routes, host := [Route(Domain("localdomain"), "tunnel")], HostName("printer.localdomain");
    assert StrictlyUnder("printer.localdomain", "localdomain");
    assert HasSuffix("printer.localdomain", ".localdomain");
  }
}
