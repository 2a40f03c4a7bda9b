/** Index-based allocation: routing tables, firewall marks kept as text, and the tunnel
    networks of subscription instances. */
module Allocation {
  import opened Config
  import Entries

  // ----- 64-bit integers -----

  const HALF := 0x8000_0000_0000_0000
  const WHOLE := 0x1_0000_0000_0000_0000

  type Int64 = x: int | -0x8000_0000_0000_0000 <= x < 0x8000_0000_0000_0000

  /** The sum as 64-bit addition leaves it. */
  function Wrap(x: int): Int64 {
    (x + HALF) % WHOLE - HALF
  }

  lemma WrapTwice(x: int, a: int)
    ensures Wrap(Wrap(x) + a) == Wrap(x + a)
  {
    var k := (x + HALF) / WHOLE;
    assert Wrap(x) + a + HALF == x + a + HALF - k * WHOLE;
  }

  /** Sums less than 2^64 apart wrap to different integers. */
  lemma WrapApart(x: int, d: int)
    requires 0 < d < WHOLE
    ensures Wrap(x + d) != Wrap(x)
  {
    var before, after := (x + HALF) / WHOLE, (x + d + HALF) / WHOLE;
    assert Wrap(x) == x - before * WHOLE && Wrap(x + d) == x + d - after * WHOLE;
  }

  lemma WrapInRange(x: Int64)
    ensures Wrap(x) == x
  {
  }

  // ----- digits -----

  type Radix = r: nat | r == 10 || r == 16 witness 10

  const DIGITS := "0123456789abcdef"

  function DigitValue(c: char): Option<nat> {
    if '0' <= c <= '9' then Some(c as nat - '0' as nat)
    else if 'a' <= c <= 'f' then Some(c as nat - 'a' as nat + 10)
    else if 'A' <= c <= 'F' then Some(c as nat - 'A' as nat + 10)
    else None
  }

  function Digits(v: nat, radix: Radix): (s: string)
    ensures s != ""
    decreases v
  {
    if v < radix then [DIGITS[v]] else Digits(v / radix, radix) + [DIGITS[v % radix]]
  }

  function Join(high: nat, digit: nat, radix: Radix): nat {
    high * radix + digit
  }

  function ParseDigits(s: string, radix: Radix): Option<nat> {
    if s == "" then Some(0)
    else
      var init, last := ParseDigits(s[..|s| - 1], radix), DigitValue(s[|s| - 1]);
      if init.Some? && last.Some? && last.value < radix then Some(Join(init.value, last.value, radix)) else None
  }

  lemma DigitOfValue(v: nat)
    requires v < 16
    ensures DigitValue(DIGITS[v]) == Some(v)
  {
  }

  lemma QuotientAndRest(v: nat, radix: Radix)
    ensures Join(v / radix, v % radix, radix) == v
  {
  }

  lemma {:induction false} ParseOfDigits(v: nat, radix: Radix)
    ensures ParseDigits(Digits(v, radix), radix) == Some(v)
    decreases v
  {
    hide Join, DigitValue;
    var s := Digits(v, radix);
    DigitOfValue(v % radix);
    QuotientAndRest(v, radix);
    if v < radix {
      assert s[..|s| - 1] == "";
    } else {
      ParseOfDigits(v / radix, radix);
      assert s[..|s| - 1] == Digits(v / radix, radix);
    }
  }

  function Magnitude(v: int): nat {
    if v < 0 then -v else v
  }

  function Format(v: int, radix: Radix): string {
    if v < 0 then "-" + Digits(Magnitude(v), radix) else Digits(Magnitude(v), radix)
  }

  /** Reads an optional sign and digits; empty, foreign or out-of-range text is an error. */
  function ParseInt(s: string, radix: Radix): Option<Int64> {
    var signed := s != "" && (s[0] == '-' || s[0] == '+');
    var digits := if signed then s[1..] else s;
    var magnitude := ParseDigits(digits, radix);
    if digits == "" || magnitude.None? then None
    else
      var v := if signed && s[0] == '-' then 0 - magnitude.value else magnitude.value;
      if -HALF <= v < HALF then Some(v) else None
  }

  /** Numerals are the usual ones: ten digits, six letters in either case, and each further
      digit counts the ones before it `radix` times. */
  lemma {:induction false} NumeralsRead(s: string, c: char, radix: Radix)
    ensures '0' <= c <= '9' && ParseDigits(s, radix).Some? ==>
      ParseDigits(s + [c], radix) == Some(ParseDigits(s, radix).value * radix + (c as nat - 48))
    ensures radix == 16 && 'a' <= c <= 'f' && ParseDigits(s, 16).Some? ==>
      ParseDigits(s + [c], 16) == Some(ParseDigits(s, 16).value * 16 + (c as nat - 87))
    ensures radix == 16 && 'A' <= c <= 'F' && ParseDigits(s, 16).Some? ==>
      ParseDigits(s + [c], 16) == Some(ParseDigits(s, 16).value * 16 + (c as nat - 55))
    ensures !('0' <= c <= '9') && (radix == 10 || !('a' <= c <= 'f' || 'A' <= c <= 'F')) ==>
      ParseDigits(s + [c], radix).None?
    ensures ParseDigits(s, radix).None? ==> ParseDigits(s + [c], radix).None?
    ensures ParseDigits("", radix) == Some(0)
  {
    assert (s + [c])[..|s|] == s;
  }

  /** One sign may stand before the digits, of which there is at least one; the number has to
      fit into 64 bits. */
  lemma {:induction false} SignsRead(s: string, radix: Radix)
    requires s != "" && s[0] != '-' && s[0] != '+'
    ensures ParseInt(s, radix) ==
      if ParseDigits(s, radix).Some? && ParseDigits(s, radix).value < 0x8000_0000_0000_0000 then
        Some(ParseDigits(s, radix).value)
      else None
    ensures ParseInt("+" + s, radix) == ParseInt(s, radix)
    ensures ParseInt("-" + s, radix) ==
      if ParseDigits(s, radix).Some? && ParseDigits(s, radix).value <= 0x8000_0000_0000_0000 then
        Some(-(ParseDigits(s, radix).value as int))
      else None
    ensures ParseInt("", radix).None? && ParseInt("+", radix).None? && ParseInt("-", radix).None?
  {
    assert ("+" + s)[1..] == s && ("-" + s)[1..] == s;
  }

  lemma {:induction false} DigitsStart(v: nat, radix: Radix)
    ensures DigitValue(Digits(v, radix)[0]).Some?
    decreases v
  {
    DigitOfValue(v % radix);
    if radix <= v {
      DigitsStart(v / radix, radix);
    }
  }

  lemma ParseOfFormat(v: Int64, radix: Radix)
    ensures ParseInt(Format(v, radix), radix) == Some(v)
  {
    var magnitude := Magnitude(v);
    ParseOfDigits(magnitude, radix);
    DigitsStart(magnitude, radix);
    if v < 0 {
      assert Format(v, radix)[1..] == Digits(magnitude, radix);
    }
  }

  // ----- firewall marks -----

  predicate Space(c: char) {
    c == ' ' || c == '\t' || c == '\n' || c == '\r' || c == '\U{B}' || c == '\U{C}'
  }

  function TrimLeft(s: string): string {
    if s != "" && Space(s[0]) then TrimLeft(s[1..]) else s
  }

  function TrimRight(s: string): string {
    if s != "" && Space(s[|s| - 1]) then TrimRight(s[..|s| - 1]) else s
  }

  function Trim(s: string): string {
    TrimRight(TrimLeft(s))
  }

  /** The text whose number a mark stands for. */
  function MarkText(mark: string): string {
    if Trim(mark) == "" then "0x1" else Trim(mark)
  }

  predicate IsHex(text: string) {
    2 <= |text| && text[0] == '0' && (text[1] == 'x' || text[1] == 'X')
  }

  function MarkRadix(mark: string): Radix {
    if IsHex(MarkText(mark)) then 16 else 10
  }

  /** The number a mark stands for, 1 if it is unreadable. */
  function MarkValue(mark: string): Int64 {
    var text := MarkText(mark);
    var value := if IsHex(text) then ParseInt(text[2..], 16) else ParseInt(text, 10);
    if value.Some? then value.value else 1
  }

  function WriteMark(v: Int64, radix: Radix): string {
    if radix == 16 then "0x" + Format(v, 16) else Format(v, 10)
  }

  function IncrementMark(mark: string, offset: int): string {
    WriteMark(Wrap(MarkValue(mark) + offset), MarkRadix(mark))
  }

  lemma {:induction false} DigitsEnd(v: nat, radix: Radix)
    ensures DigitValue(Digits(v, radix)[|Digits(v, radix)| - 1]).Some?
  {
    DigitOfValue(v % radix);
  }

  lemma {:induction false} DecimalDigits(v: nat)
    ensures forall c :: c in Digits(v, 10) ==> '0' <= c <= '9'
    decreases v
  {
    if 10 <= v {
      DecimalDigits(v / 10);
    }
  }

  lemma FormatEnds(v: Int64, radix: Radix)
    ensures
      var s := Format(v, radix);
      s != "" && !Space(s[0]) && !Space(s[|s| - 1])
  {
    var magnitude := Magnitude(v);
    DigitsStart(magnitude, radix);
    DigitsEnd(magnitude, radix);
  }

  lemma DecimalIsNotHex(v: Int64)
    ensures !IsHex(Format(v, 10))
  {
    var magnitude := Magnitude(v);
    DecimalDigits(magnitude);
    if v >= 0 && 2 <= |Format(v, 10)| {
      assert Format(v, 10)[1] in Digits(magnitude, 10);
    }
  }

  lemma WrittenMarkIsTrimmed(v: Int64, radix: Radix)
    ensures MarkText(WriteMark(v, radix)) == WriteMark(v, radix)
    ensures IsHex(WriteMark(v, radix)) <==> radix == 16
  {
    hide Format;
    FormatEnds(v, radix);
    DecimalIsNotHex(v);
    var text := WriteMark(v, radix);
    assert text[|text| - 1] == Format(v, radix)[|Format(v, radix)| - 1];
  }

  /** Writing a mark and reading it back gives its number, in the same notation. */
  lemma ReadWrittenMark(v: Int64, radix: Radix)
    ensures MarkValue(WriteMark(v, radix)) == v && MarkRadix(WriteMark(v, radix)) == radix
  {
    WrittenMarkIsTrimmed(v, radix);
    ParseOfFormat(v, radix);
    if radix == 16 {
      assert WriteMark(v, radix)[2..] == Format(v, 16);
    }
  }

  ghost predicate AllSpace(s: string) {
    forall i :: 0 <= i < |s| ==> s[i] in {' ', '\t', '\n', '\r', '\U{B}', '\U{C}'}
  }

  lemma SpaceWithin(s: string)
    requires AllSpace(s) && s != ""
    ensures Space(s[0]) && AllSpace(s[1..]) && Space(s[|s| - 1]) && AllSpace(s[..|s| - 1])
  {
  }

  lemma {:induction false} TrimPadded(left: string, text: string, right: string)
    requires AllSpace(left) && AllSpace(right)
    requires text == "" || (!Space(text[0]) && !Space(text[|text| - 1]))
    ensures Trim(left + text + right) == text
    decreases |left| + |right|
  {
    if left != "" {
      SpaceWithin(left);
      assert (left + text + right)[1..] == left[1..] + text + right;
      TrimPadded(left[1..], text, right);
    } else if right != "" {
      assert left + text + right == text + right;
      TrimTail(text, right);
    } else {
      assert left + text + right == text;
    }
  }

  lemma {:induction false} TrimTail(text: string, right: string)
    requires AllSpace(right) && (text == "" || (!Space(text[0]) && !Space(text[|text| - 1])))
    ensures Trim(text + right) == text
  {
    if text == "" {
      assert text + right == right;
      TrimSpace(right);
    } else {
      TrimEnd(text, right);
      if right == "" {
        assert text + right == text;
      }
    }
  }

  lemma {:induction false} TrimSpace(s: string)
    requires AllSpace(s)
    ensures TrimLeft(s) == ""
  {
    if s != "" {
      SpaceWithin(s);
      TrimSpace(s[1..]);
    }
  }

  lemma {:induction false} TrimEnd(text: string, right: string)
    requires AllSpace(right) && text != "" && !Space(text[|text| - 1])
    ensures TrimRight(text + right) == text
  {
    if right != "" {
      SpaceWithin(right);
      assert (text + right)[..|text + right| - 1] == text + right[..|right| - 1];
      TrimEnd(text, right[..|right| - 1]);
    } else {
      assert text + right == text;
    }
  }

  /** A mark that stands for a number, with white space around it or not, is incremented in
      its own notation. */
  lemma PaddedMark(left: string, v: Int64, radix: Radix, right: string, offset: int)
    requires AllSpace(left) && AllSpace(right)
    ensures IncrementMark(left + WriteMark(v, radix) + right, offset) == WriteMark(Wrap(v + offset), radix)
    ensures WriteMark(v, 16) == "0x" + Format(v, 16) && WriteMark(v, 10) == Format(v, 10)
  {
    hide Wrap, ParseInt, Format, Digits;
    FormatEnds(v, radix);
    var text := WriteMark(v, radix);
    assert text[|text| - 1] == Format(v, radix)[|Format(v, radix)| - 1];
    assert !Space(text[0]);
    hide Space;
    TrimPadded(left, text, right);
    ReadWrittenMark(v, radix);
    WrittenMarkIsTrimmed(v, radix);
  }

  /** A blank mark counts as 0x1. */
  lemma BlankMark(blank: string, offset: int)
    requires AllSpace(blank)
    ensures IncrementMark(blank, offset) == "0x" + Format(Wrap(1 + offset), 16)
  {
    hide Wrap, Format;
    assert blank + "" + "" == blank;
    TrimPadded(blank, "", "");
    NumeralsRead("", '1', 16);
    assert "" + ['1'] == "0x1"[2..];
  }

  /** A mark that does not read as a number counts as 1, in its own notation. */
  lemma UnreadableMark(rest: string, offset: int)
    requires rest == "" || (!Space(rest[0]) && !Space(rest[|rest| - 1]))
    ensures ParseInt(rest, 16).None? ==>
      IncrementMark("0x" + rest, offset) == IncrementMark("0X" + rest, offset) == "0x" + Format(Wrap(1 + offset), 16)
    ensures rest != "" && !IsHex(rest) && ParseInt(rest, 10).None? ==>
      IncrementMark(rest, offset) == Format(Wrap(1 + offset), 10)
  {
    hide Wrap, Format, ParseInt;
    forall text | text == "0x" + rest || text == "0X" + rest || text == rest
      ensures Trim(text) == text
    {
      assert text != "" && rest != "" ==> text[|text| - 1] == rest[|rest| - 1];
      assert "" + text + "" == text;
      TrimPadded("", text, "");
    }
    assert ("0x" + rest)[2..] == rest && ("0X" + rest)[2..] == rest;
  }

  /** Increments compose through the text, even where the sum wraps. */
  lemma IncrementTwice(mark: string, a: int, b: int)
    ensures IncrementMark(IncrementMark(mark, a), b) == IncrementMark(mark, a + b)
  {
    hide Wrap, MarkValue, WriteMark, MarkRadix;
    var sum := MarkValue(mark) + a;
    ReadWrittenMark(Wrap(sum), MarkRadix(mark));
    WrapTwice(sum, b);
  }

  /** Different offsets less than 2^64 apart give different marks. */
  lemma MarksDistinct(mark: string, i: int, j: int)
    requires i < j < i + WHOLE
    ensures IncrementMark(mark, i) != IncrementMark(mark, j)
    ensures MarkValue(IncrementMark(mark, i)) != MarkValue(IncrementMark(mark, j))
  {
    hide Wrap, MarkValue, WriteMark, MarkRadix;
    var v, radix := MarkValue(mark), MarkRadix(mark);
    ReadWrittenMark(Wrap(v + i), radix);
    ReadWrittenMark(Wrap(v + j), radix);
    WrapApart(v + i, j - i);
  }

  // ----- routing settings -----

  datatype Settings = Settings(
    routeMode: string, gateway: string, iface: string, table: Int64, mark: string, ipset: string)

  function Shift(settings: Settings, offset: int): Settings {
    if offset <= 0 then settings
    else settings.(table := Wrap(settings.table + offset), mark := IncrementMark(settings.mark, offset))
  }

  function TrimTo(s: string, limit: nat): string {
    if |s| <= limit then s else s[..limit]
  }

  /** The settings of the instance at `index`; `hash` names its provider and location. */
  function Derive(base: Settings, hash: string, index: nat): Settings
    requires 10 <= |hash|
  {
    Settings("dev", "", TrimTo("sb" + hash[..10], 15), Wrap(base.table + index), IncrementMark(base.mark, index),
             TrimTo(base.ipset + "_" + hash[..8], 31))
  }

  /** The interface is named after the digest, and the set after the base's and the digest, cut
      to the length that the kernel allows. */
  lemma DerivedNames(base: Settings, hash: string, index: nat)
    requires 10 <= |hash|
    ensures
      var s := Derive(base, hash, index);
      && s.routeMode == "dev" && s.gateway == "" && s.iface == "sb" + hash[..10]
      && s.ipset <= base.ipset + "_" + hash[..8]
      && |s.ipset| == if |base.ipset| + 9 <= 31 then |base.ipset| + 9 else 31
    ensures Shift(base, 0) == base && Shift(base, -1) == base
  {
  }

  /** Instances at different indices never share a table or a mark. */
  lemma DerivedDistinct(base: Settings, hashI: string, hashJ: string, i: nat, j: nat)
    requires 10 <= |hashI| && 10 <= |hashJ| && i < j < i + WHOLE
    ensures Derive(base, hashI, i).table != Derive(base, hashJ, j).table
    ensures Derive(base, hashI, i).mark != Derive(base, hashJ, j).mark
  {
    hide Wrap, IncrementMark, TrimTo;
    MarksDistinct(base.mark, i, j);
    WrapApart(base.table + i, j - i);
  }

  /** With the base shifted by one, no instance meets the table or the mark that the
      unshifted base leaves to OpenVPN. */
  lemma ShiftedNeverMeetsBase(base: Settings, hash: string, index: nat)
    requires 10 <= |hash| && index + 1 < WHOLE
    ensures
      var derived := Derive(Shift(base, 1), hash, index);
      && derived.table == Wrap(base.table + index + 1) && derived.table != base.table
      && derived.mark == IncrementMark(base.mark, index + 1) && MarkValue(derived.mark) != MarkValue(base.mark)
  {
    hide Wrap, MarkValue, WriteMark, MarkRadix, TrimTo;
    var v := MarkValue(base.mark);
    WrapTwice(base.table + 1, index);
    IncrementTwice(base.mark, 1, index);
    ReadWrittenMark(Wrap(v + (index + 1)), MarkRadix(base.mark));
    WrapInRange(v);
    WrapInRange(base.table);
    WrapApart(v, index + 1);
    WrapApart(base.table, index + 1);
  }

  // ----- tunnel networks -----

  datatype TunnelAddress = TunnelAddress(third: nat, fourth: nat)

  function TunAddress(index: nat): TunnelAddress {
    TunnelAddress(index / 64, index % 64 * 4 + 1)
  }

  predicate ValidOctets(t: TunnelAddress) {
    t.third < 256 && t.fourth < 256
  }

  /** The /30 network that holds 172.29.third.fourth. */
  function TunnelNetwork(t: TunnelAddress): Entries.Prefix
    requires ValidOctets(t)
  {
    Entries.Prefix(172 * 0x100_0000 + 29 * 0x1_0000 + t.third * 0x100 + t.fourth, 30)
  }

  /** The octets are valid below index 16384, where each tunnel takes the first host of the
      next block of four addresses. */
  lemma OctetsValidIff(index: nat)
    ensures ValidOctets(TunAddress(index)) <==> index < 16384
    ensures TunAddress(index).third * 256 + TunAddress(index).fourth == 4 * index + 1
  {
  }

  lemma BlockOfIndex(index: nat)
    requires index < 16384
    ensures Entries.ShiftRight(TunnelNetwork(TunAddress(index)).addr, 2) == 43 * 0x100_0000 + 29 * 0x4000 + index
  {
    var t := TunAddress(index);
    var addr := TunnelNetwork(t).addr;
    assert addr == 4 * (43 * 0x100_0000 + 29 * 0x4000 + index) + 1;
    assert Entries.ShiftRight(addr, 2) == Entries.ShiftRight(addr / 2, 1) == Entries.ShiftRight(addr / 2 / 2, 0);
  }

  /** Tunnel networks of different indices share no address. */
  lemma TunnelsDisjoint(i: nat, j: nat)
    requires i < j < 16384
    ensures !Entries.ShareAddress(TunnelNetwork(TunAddress(i)), TunnelNetwork(TunAddress(j)))
  {
    BlockOfIndex(i);
    BlockOfIndex(j);
    Entries.OverlapIffShareAddress(TunnelNetwork(TunAddress(i)), TunnelNetwork(TunAddress(j)));
  }
}
