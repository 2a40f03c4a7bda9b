/** Routing entries: dotted names and IPv4 prefixes, the hosts they cover, and
    the list normalisation that drops repeated and covered names. */
module Entries {

  // ----- dotted names -----

  /** Name `d` covers name `h`: they are equal, or `h` ends with a dot and then `d`. */
  predicate CoversName(d: string, h: string) {
    d == h || StrictlyUnder(h, d)
  }

  /** `h` is a longer name ending with a dot and then `d`. */
  predicate StrictlyUnder(h: string, d: string) {
    |d| < |h| && h[|h| - |d| - 1] == '.' && h[|h| - |d|..] == d
  }

  function IndexDot(s: string): (i: int)
    ensures -1 <= i < |s|
    ensures 0 <= i ==> s[i] == '.' && forall k :: 0 <= k < i ==> s[k] != '.'
    ensures i < 0 ==> '.' !in s
  {
    if s == [] then -1
    else if s[0] == '.' then 0
    else
      var rest := IndexDot(s[1..]);
      if rest < 0 then -1 else rest + 1
  }

  lemma UnderIsTransitive(a: string, b: string, c: string)
    requires CoversName(a, b) && CoversName(b, c)
    ensures CoversName(a, c)
  {
    if a != b && b != c {
      assert c[|c| - |a|..] == c[|c| - |b|..][|b| - |a|..];
      assert c[|c| - |a| - 1] == c[|c| - |b|..][|b| - |a| - 1];
    }
  }

  lemma DropTwice(s: string, i: nat, j: nat)
    requires i + j <= |s|
    ensures s[i..][j..] == s[i + j..]
  {
  }

  /** Cutting `h` at its first dot reaches the longest name strictly above it, and
      every other name strictly above `h` is strictly above the cut. */
  lemma CutReachesParents(h: string, d: string)
    requires StrictlyUnder(h, d)
    ensures 0 <= IndexDot(h) && CoversName(d, h[IndexDot(h) + 1..])
  {
    var at, cut := |h| - |d| - 1, IndexDot(h);
    assert h[at] in h;
    var parent := h[cut + 1..];
    DropTwice(h, cut + 1, at - cut);
    if cut < at {
      assert parent[|parent| - |d| - 1] == h[at];
      assert parent[|parent| - |d|..] == d;
    }
  }

  // ----- IPv4 prefixes -----

  const ADDRESSES := 0x1_0000_0000
  type Address = a: nat | a < ADDRESSES
  type Bits = b: nat | b <= 32
  datatype Prefix = Prefix(addr: Address, bits: Bits)

  /** `a` without its last `n` bits. */
  function ShiftRight(a: nat, n: nat): nat {
    if n == 0 then a else ShiftRight(a / 2, n - 1)
  }

  predicate InPrefix(p: Prefix, a: Address) {
    ShiftRight(a, 32 - p.bits) == ShiftRight(p.addr, 32 - p.bits)
  }

  predicate PrefixesOverlap(left: Prefix, right: Prefix) {
    InPrefix(left, right.addr) || InPrefix(right, left.addr)
  }

  ghost predicate ShareAddress(left: Prefix, right: Prefix) {
    exists a: Address :: InPrefix(left, a) && InPrefix(right, a)
  }

  lemma {:induction false} ShiftTwice(a: nat, m: nat, n: nat)
    ensures ShiftRight(a, m + n) == ShiftRight(ShiftRight(a, m), n)
  {
    if 0 < m {
      ShiftTwice(a / 2, m - 1, n);
    }
  }

  /** A shorter prefix cannot tell two addresses apart that a longer one puts together. */
  lemma ShorterPrefixIsCoarser(short: Bits, long: Bits, a: Address, b: Address)
    requires short <= long && ShiftRight(a, 32 - long) == ShiftRight(b, 32 - long)
    ensures ShiftRight(a, 32 - short) == ShiftRight(b, 32 - short)
  {
    ShiftTwice(a, 32 - long, long - short);
    ShiftTwice(b, 32 - long, long - short);
  }

  /** CIDR ranges nest or are disjoint (section 3.1 of RFC 4632): comparing base
      addresses finds exactly the pairs that share an address. */
  lemma OverlapIffShareAddress(left: Prefix, right: Prefix)
    ensures PrefixesOverlap(left, right) <==> ShareAddress(left, right)
  {
    if PrefixesOverlap(left, right) {
      if InPrefix(left, right.addr) {
        assert InPrefix(right, right.addr);
      } else {
        assert InPrefix(left, left.addr);
      }
    }
    if ShareAddress(left, right) {
      var a: Address :| InPrefix(left, a) && InPrefix(right, a);
      if left.bits <= right.bits {
        ShorterPrefixIsCoarser(left.bits, right.bits, a, right.addr);
      } else {
        ShorterPrefixIsCoarser(right.bits, left.bits, a, left.addr);
      }
    }
  }

  // ----- entries and hosts -----

  /** A normalised entry. `Addr` and `Net` keep the two spellings "a" and "a/32" apart. */
  datatype Entry =
    | Domain(name: string)
    | Addr(addr: Address)
    | Net(prefix: Prefix)

  datatype Host = HostName(name: string) | HostAddr(addr: Address)

  predicate IsIP(e: Entry) { !e.Domain? }

  function IPPrefix(e: Entry): Prefix
    requires IsIP(e)
  {
    match e
    case Addr(a) => Prefix(a, 32)
    case Net(p) => p
  }

  predicate Covers(e: Entry, h: Host) {
    match h
    case HostName(name) => e.Domain? && e.name != "" && CoversName(e.name, name)
    case HostAddr(addr) => IsIP(e) && InPrefix(IPPrefix(e), addr)
  }

  ghost predicate ListCovers(entries: seq<Entry>, h: Host) {
    exists e :: e in entries && Covers(e, h)
  }

  // ----- what an entry stands for -----

  ghost function Pow2(n: nat): (r: nat)
    ensures 0 < r
  {
    if n == 0 then 1 else 2 * Pow2(n - 1)
  }

  /** A name stands for itself and every name below it, an address for itself, and a prefix of
      `bits` bits for the range of 2^(32 - bits) addresses that it lies in. */
  ghost predicate Reaches(e: Entry, h: Host) {
    match e
    case Domain(name) => h.HostName? && name != "" && (h.name == name || exists stem :: h.name == stem + "." + name)
    case Addr(a) => h == HostAddr(a)
    case Net(p) => h.HostAddr? && h.addr / Pow2(32 - p.bits) == p.addr / Pow2(32 - p.bits)
  }

  lemma QuotientOf(a: nat, d: nat, k: nat, r: nat)
    requires a == d * k + r && r < d
    ensures a / d == k
  {
    var q := a / d;
    assert a == d * q + a % d;
    if q < k {
      ProductGrows(d, q, k);
    } else if k < q {
      ProductGrows(d, k, q);
    }
  }

  lemma {:induction false} ProductGrows(d: nat, x: nat, y: nat)
    requires x < y
    ensures d * x + d <= d * y
  {
    if x + 1 < y {
      ProductGrows(d, x, y - 1);
    }
    assert d * y == d * (y - 1) + d;
  }

  lemma {:induction false} ShiftIsQuotient(a: nat, n: nat)
    ensures ShiftRight(a, n) == a / Pow2(n)
  {
    if 0 < n {
      ShiftIsQuotient(a / 2, n - 1);
      HalfQuotient(a, Pow2(n - 1));
    }
  }

  lemma HalfQuotient(a: nat, p: nat)
    requires 0 < p
    ensures a / 2 / p == a / (2 * p)
  {
    var k, r := a / 2 / p, a / 2 % p;
    DoubledProduct(p, k);
    QuotientOf(a, 2 * p, k, 2 * r + a % 2);
  }

  lemma DoubledProduct(p: nat, k: nat)
    ensures 2 * p * k == 2 * (p * k)
  {
  }

  /** The tests on suffixes and shifted addresses find exactly what an entry stands for. */
  lemma CoversIffReaches(e: Entry, h: Host)
    ensures Covers(e, h) <==> Reaches(e, h)
  {
    match e
    case Domain(name) =>
      if h.HostName? && StrictlyUnder(h.name, name) {
        var stem := h.name[..|h.name| - |name| - 1];
        assert h.name == stem + "." + name;
      }
    case Addr(a) =>
    case Net(p) =>
      if h.HostAddr? {
        ShiftIsQuotient(h.addr, 32 - p.bits);
        ShiftIsQuotient(p.addr, 32 - p.bits);
      }
  }

  // ----- normalisation -----

  predicate NoDuplicates<T(==)>(s: seq<T>) {
    forall i, j :: 0 <= i < j < |s| ==> s[i] != s[j]
  }

  /** Some non-empty name of `all` lies strictly above entry `e`. */
  ghost predicate Redundant(e: Entry, all: seq<Entry>) {
    e.Domain? && exists p :: p in all && p.Domain? && p.name != "" && StrictlyUnder(e.name, p.name)
  }

  ghost function KeepIrredundant(entries: seq<Entry>, all: seq<Entry>): (r: seq<Entry>)
    ensures forall e :: e in r <==> e in entries && !Redundant(e, all)
    ensures |r| <= |entries|
  {
    if entries == [] then []
    else
      var init, last := entries[..|entries| - 1], entries[|entries| - 1];
      assert entries == init + [last];
      KeepIrredundant(init, all) + (if Redundant(last, all) then [] else [last])
  }

  ghost function Collapsed(entries: seq<Entry>): seq<Entry> {
    KeepIrredundant(entries, entries)
  }

  ghost function FirstOccurrences<T(!new)>(s: seq<T>): (r: seq<T>)
    ensures forall x :: x in r <==> x in s
    ensures NoDuplicates(r)
  {
    if s == [] then []
    else
      var init, last := s[..|s| - 1], s[|s| - 1];
      assert s == init + [last];
      FirstOccurrences(init) + (if last in init then [] else [last])
  }

  ghost function Normalized(entries: seq<Entry>): seq<Entry> {
    Collapsed(FirstOccurrences(entries))
  }

  ghost predicate IsNormal(entries: seq<Entry>) {
    NoDuplicates(entries) && forall e :: e in entries ==> !Redundant(e, entries)
  }

  method UnderAny(name: string, names: set<string>) returns (covered: bool)
    ensures covered <==> exists p :: p in names && p != "" && StrictlyUnder(name, p)
  {
    var current := name;
    while true
      invariant CoversName(current, name)
      invariant forall p :: p in names && p != "" && StrictlyUnder(name, p) ==> StrictlyUnder(current, p)
      decreases |current|
    {
      forall p | StrictlyUnder(current, p) {
        CutReachesParents(current, p);
      }
      var nextDot := IndexDot(current);
      if nextDot < 0 || nextDot >= |current| - 1 {
        return false;
      }
      var parent := current[nextDot + 1..];
      assert StrictlyUnder(current, parent);
      UnderIsTransitive(parent, current, name);
      if parent in names {
        return true;
      }
      current := parent;
    }
  }

  method CollapseCovered(entries: seq<Entry>) returns (result: seq<Entry>)
    ensures result == Collapsed(entries)
  {
    if |entries| < 2 {
      assert entries == [] || entries == [] + [entries[0]];
      return entries;
    }
    var names := set e | e in entries && e.Domain? :: e.name;
    result := [];
    for i := 0 to |entries|
      invariant result == KeepIrredundant(entries[..i], entries)
    {
      assert entries[..i + 1][..i] == entries[..i];
      var e := entries[i];
      if IsIP(e) {
        result := result + [e];
      } else {
        var covered := UnderAny(e.name, names);
        assert covered <==> Redundant(e, entries) by {
          if covered {
            var p :| p in names && p != "" && StrictlyUnder(e.name, p);
            assert Domain(p) in entries;
          }
        }
        if !covered {
          result := result + [e];
        }
      }
    }
    assert entries[..|entries|] == entries;
  }

  method NormalizeEntries(entries: seq<Entry>) returns (result: seq<Entry>)
    ensures result == Normalized(entries)
  {
    var distinct: seq<Entry> := [];
    var seen: set<Entry> := {};
    for i := 0 to |entries|
      invariant seen == set e | e in entries[..i]
      invariant distinct == FirstOccurrences(entries[..i])
    {
      assert entries[..i + 1][..i] == entries[..i];
      if entries[i] !in seen {
        seen := seen + {entries[i]};
        distinct := distinct + [entries[i]];
      }
    }
    assert entries[..|entries|] == entries;
    result := CollapseCovered(distinct);
  }

  // ----- what normalisation keeps -----

  /** Every name has an irredundant name of the list at or above it. */
  lemma {:induction false} IrredundantAbove(e: Entry, entries: seq<Entry>) returns (top: Entry)
    requires e in entries
    ensures top in entries && !Redundant(top, entries)
    ensures top == e || (top.Domain? && top.name != "" && e.Domain? && StrictlyUnder(e.name, top.name))
    decreases if e.Domain? then |e.name| else 0
  {
    top := e;
    if Redundant(e, entries) {
      var p :| p in entries && p.Domain? && p.name != "" && StrictlyUnder(e.name, p.name);
      top := IrredundantAbove(p, entries);
      UnderIsTransitive(top.name, p.name, e.name);
    }
  }

  /** Collapsing changes no host's coverage. */
  lemma CollapseKeepsCoverage(entries: seq<Entry>, h: Host)
    ensures ListCovers(Collapsed(entries), h) <==> ListCovers(entries, h)
  {
    if ListCovers(entries, h) {
      var e :| e in entries && Covers(e, h);
      var top := IrredundantAbove(e, entries);
      if top != e {
        UnderIsTransitive(top.name, e.name, h.name);
      }
      assert top in Collapsed(entries) && Covers(top, h);
    }
  }

  lemma NormalizeKeepsCoverage(entries: seq<Entry>, h: Host)
    ensures ListCovers(Normalized(entries), h) <==> ListCovers(entries, h)
  {
    CollapseKeepsCoverage(FirstOccurrences(entries), h);
  }

  lemma {:induction false} KeepIrredundantKeepsDistinct(entries: seq<Entry>, all: seq<Entry>)
    requires NoDuplicates(entries)
    ensures NoDuplicates(KeepIrredundant(entries, all))
  {
    if entries != [] {
      var init := entries[..|entries| - 1];
      KeepIrredundantKeepsDistinct(init, all);
      assert entries[|entries| - 1] !in init;
    }
  }

  /** No name of a normalised list lies under another, and no entry is repeated. */
  lemma NormalizedIsNormal(entries: seq<Entry>)
    ensures IsNormal(Normalized(entries))
  {
    var distinct := FirstOccurrences(entries);
    KeepIrredundantKeepsDistinct(distinct, distinct);
    assert forall e :: Redundant(e, Collapsed(distinct)) ==> Redundant(e, distinct);
  }

  lemma {:induction false} FirstOccurrencesOfDistinct<T(!new)>(s: seq<T>)
    requires NoDuplicates(s)
    ensures FirstOccurrences(s) == s
  {
    if s != [] {
      var init := s[..|s| - 1];
      FirstOccurrencesOfDistinct(init);
      assert s[|s| - 1] !in init;
    }
  }

  lemma {:induction false} KeepIrredundantKeepsAll(entries: seq<Entry>, all: seq<Entry>)
    requires forall e :: e in entries ==> !Redundant(e, all)
    ensures KeepIrredundant(entries, all) == entries
  {
    if entries != [] {
      var init, last := entries[..|entries| - 1], entries[|entries| - 1];
      assert entries == init + [last] && last in entries;
      assert forall e :: e in init ==> e in entries;
      KeepIrredundantKeepsAll(init, all);
    }
  }

  /** Normal lists are exactly the fixed points of normalisation. */
  lemma NormalIffFixedPoint(entries: seq<Entry>)
    ensures IsNormal(entries) <==> Normalized(entries) == entries
  {
    if IsNormal(entries) {
      FirstOccurrencesOfDistinct(entries);
      KeepIrredundantKeepsAll(entries, entries);
    }
    NormalizedIsNormal(entries);
  }
}
