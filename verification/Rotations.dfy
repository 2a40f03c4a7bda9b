/** Walking a list from a given place and wrapping around. */
module Rotations {

  ghost function Rotated<T>(s: seq<T>, start: nat): seq<T>
    requires start <= |s|
  {
    s[start..] + s[..start]
  }

  method Rotate<T>(s: seq<T>, start: nat) returns (out: seq<T>)
    requires start <= |s|
    ensures out == Rotated(s, start)
  {
    out := [];
    for offset := 0 to |s|
      invariant out == Rotated(s, start)[..offset]
    {
      WrapsOnce(start + offset, |s|);
      out := out + [s[(start + offset) % |s|]];
    }
    assert Rotated(s, start)[..|s|] == Rotated(s, start);
  }

  lemma WrapsOnce(x: nat, n: nat)
    requires x < 2 * n
    ensures x % n == if x < n then x else x - n
  {
    if n <= x {
      assert x / n == 1;
    }
  }

  /** A rotation keeps every element, as often as it occurred. */
  lemma RotatedIsPermutation<T>(s: seq<T>, start: nat)
    requires start <= |s|
    ensures multiset(Rotated(s, start)) == multiset(s)
  {
    assert s == s[..start] + s[start..];
  }
}
