/** Time buckets: the multiples of a bucket length that cover a window. */
module Buckets {
  import opened Config

  /** `t` modulo the bucket length. */
  function Rest(t: Time, bucket: Time): (r: Time)
    requires 0 < bucket
    ensures r < bucket && r <= t
  {
    if t < bucket then t else Rest(t - bucket, bucket)
  }

  function Truncate(t: Time, bucket: Time): (r: Time)
    requires 0 < bucket
    ensures r <= t < r + bucket
  {
    t - Rest(t, bucket)
  }

  lemma {:induction false} TruncateIsMultiple(t: Time, bucket: Time)
    requires 0 < bucket
    ensures Rest(Truncate(t, bucket), bucket) == 0
  {
    if bucket <= t {
      TruncateIsMultiple(t - bucket, bucket);
    }
  }

  /** Two multiples less than a bucket apart are the same. */
  lemma {:induction false} MultiplesApart(a: Time, b: Time, bucket: Time)
    requires 0 < bucket && Rest(a, bucket) == 0 && Rest(b, bucket) == 0 && a <= b < a + bucket
    ensures a == b
  {
    if bucket <= a {
      MultiplesApart(a - bucket, b - bucket, bucket);
    }
  }

  /** Truncation keeps the order of instants. */
  lemma TruncateMonotone(s: Time, t: Time, bucket: Time)
    requires 0 < bucket && s <= t
    ensures Truncate(s, bucket) <= Truncate(t, bucket)
  {
    TruncateIsMultiple(s, bucket);
    TruncateIsMultiple(t, bucket);
    if Truncate(t, bucket) < Truncate(s, bucket) {
      MultiplesApart(Truncate(t, bucket), Truncate(s, bucket), bucket);
    }
  }

  /** The times are increasing, and they are exactly the multiples from the bucket of
      `from` up to `to`. */
  ghost predicate AreBuckets(times: seq<Time>, from: Time, to: Time, bucket: Time)
    requires 0 < bucket
  {
    && (forall i, j :: 0 <= i < j < |times| ==> times[i] < times[j])
    && forall t :: t in times <==> IsBucket(t, from, to, bucket)
  }

  ghost predicate IsBucket(t: Time, from: Time, to: Time, bucket: Time)
    requires 0 < bucket
  {
    Truncate(from, bucket) <= t <= to && Rest(t, bucket) == 0
  }

  method BucketTimes(from: Time, to: Time, bucket: Time) returns (times: seq<Time>)
    requires 0 < bucket
    ensures AreBuckets(times, from, to, bucket)
  {
    times := [];
    var at := Truncate(from, bucket);
    TruncateIsMultiple(from, bucket);
    while at <= to
      invariant Rest(at, bucket) == 0 && Truncate(from, bucket) <= at
      invariant forall i :: 0 <= i < |times| ==> times[i] < at
      invariant forall i, j :: 0 <= i < j < |times| ==> times[i] < times[j]
      invariant forall t: Time :: t in times <==> IsBucket(t, from, to, bucket) && t < at
      decreases bucket + to - at
    {
      times := times + [at];
      forall t: Time | at <= t < at + bucket && Rest(t, bucket) == 0
        ensures t == at
      {
        MultiplesApart(at, t, bucket);
      }
      at := at + bucket;
    }
  }

  ghost predicate IsIndex(index: map<Time, nat>, times: seq<Time>) {
    && (forall t :: t in index <==> t in times)
    && forall t :: t in index ==> index[t] < |times| && times[index[t]] == t
  }

  method IndexTimes(times: seq<Time>) returns (index: map<Time, nat>)
    ensures IsIndex(index, times)
  {
    index := map[];
    for i := 0 to |times|
      invariant forall t :: t in index <==> t in times[..i]
      invariant forall t :: t in index ==> index[t] < i && times[index[t]] == t
    {
      index := index[times[i] := i];
    }
    assert times[..|times|] == times;
  }

  /** Every instant of the window falls into one of its buckets. */
  lemma WindowIsCovered(times: seq<Time>, from: Time, to: Time, bucket: Time, t: Time)
    requires 0 < bucket && AreBuckets(times, from, to, bucket) && from <= t <= to
    ensures Truncate(t, bucket) in times
  {
    TruncateIsMultiple(t, bucket);
    TruncateMonotone(from, t, bucket);
    assert IsBucket(Truncate(t, bucket), from, to, bucket);
  }
}
