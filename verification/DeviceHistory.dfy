/** The traffic history of one device, added up per time bucket. */
module DeviceHistory {
  import opened Config
  import opened Buckets
  import opened TrafficTables

  datatype Measured = Measured(at: Time, usage: Usage)

  datatype Point = Point(at: Time, usage: Usage)

  datatype Report = Report(points: seq<Point>, total: Usage, peak: nat)

  function Plus(a: Usage, b: Usage): Usage {
    Usage(a.bytes + b.bytes, a.packets + b.packets, a.tunneled + b.tunneled, a.direct + b.direct)
  }

  lemma PlusNothing(a: Usage)
    ensures Plus(a, NO_USAGE) == a
  {
  }

  /** Everything measured in the window. */
  ghost function WindowTotal(samples: seq<Measured>, from: Time, to: Time): Usage {
    if samples == [] then NO_USAGE
    else
      var init, last := WindowTotal(samples[..|samples| - 1], from, to), samples[|samples| - 1];
      if from <= last.at <= to then Plus(init, last.usage) else init
  }

  /** Everything measured in the window and in the bucket that starts at `at`. */
  ghost function BucketTotal(samples: seq<Measured>, from: Time, to: Time, bucket: Time, at: Time): Usage
    requires 0 < bucket
  {
    if samples == [] then NO_USAGE
    else
      var init, last := BucketTotal(samples[..|samples| - 1], from, to, bucket, at), samples[|samples| - 1];
      if from <= last.at <= to && Truncate(last.at, bucket) == at then Plus(init, last.usage) else init
  }

  ghost function PointSum(points: seq<Point>): Usage {
    if points == [] then NO_USAGE
    else Plus(PointSum(points[..|points| - 1]), points[|points| - 1].usage)
  }

  ghost predicate IsDevicePeak(peak: nat, points: seq<Point>) {
    && (forall p :: p in points ==> p.usage.bytes <= peak)
    && (peak == 0 || exists p :: p in points && p.usage.bytes == peak)
  }

  lemma {:induction false} PointSumGrows(points: seq<Point>, i: nat, added: Usage)
    requires i < |points|
    ensures PointSum(points[i := points[i].(usage := Plus(points[i].usage, added))]) == Plus(PointSum(points), added)
  {
    var n := |points| - 1;
    var grown := points[i := points[i].(usage := Plus(points[i].usage, added))];
    if i < n {
      PointSumGrows(points[..n], i, added);
      assert grown[..n] == points[..n][i := points[i].(usage := Plus(points[i].usage, added))];
    } else {
      assert grown[..n] == points[..n];
    }
  }

  lemma {:induction false} EmptyPoints(points: seq<Point>)
    requires forall p :: p in points ==> p.usage == NO_USAGE
    ensures PointSum(points) == NO_USAGE
  {
    hide Plus;
    if points != [] {
      EmptyPoints(points[..|points| - 1]);
      PlusNothing(NO_USAGE);
    }
  }

  ghost predicate Filled(points: seq<Point>, times: seq<Time>, samples: seq<Measured>, from: Time, to: Time,
      bucket: Time)
    requires 0 < bucket
  {
    && |points| == |times|
    && forall i :: 0 <= i < |points| ==>
         points[i] == Point(times[i], BucketTotal(samples, from, to, bucket, times[i]))
  }

  lemma StartEmpty(points: seq<Point>, times: seq<Time>, from: Time, to: Time, bucket: Time)
    requires 0 < bucket && |points| == |times|
    requires forall i :: 0 <= i < |points| ==> points[i] == Point(times[i], NO_USAGE)
    ensures Filled(points, times, [], from, to, bucket) && PointSum(points) == NO_USAGE
  {
    EmptyPoints(points);
  }

  lemma FilledLength(points: seq<Point>, times: seq<Time>, samples: seq<Measured>, from: Time, to: Time, bucket: Time)
    requires 0 < bucket && Filled(points, times, samples, from, to, bucket)
    ensures |points| == |times|
  {
  }

  lemma BucketIsOne(times: seq<Time>, from: Time, to: Time, bucket: Time, i: nat)
    requires 0 < bucket && AreBuckets(times, from, to, bucket) && i < |times|
    ensures forall j :: 0 <= j < |times| && j != i ==> times[j] != times[i]
  {
  }

  /** One more sample is added to its own point `i`, if it lies in the window. */
  lemma FilledMore(before: seq<Point>, after: seq<Point>, times: seq<Time>, samples: seq<Measured>, from: Time,
      to: Time, bucket: Time, i: nat)
    requires 0 < bucket && samples != []
    requires Filled(before, times, samples[..|samples| - 1], from, to, bucket)
    requires
      var sample := samples[|samples| - 1];
      if from <= sample.at <= to then
        && i < |before| && i < |times| && times[i] == Truncate(sample.at, bucket)
        && (forall j :: 0 <= j < |times| && j != i ==> times[j] != times[i])
        && after == before[i := before[i].(usage := Plus(before[i].usage, sample.usage))]
      else after == before
    ensures Filled(after, times, samples, from, to, bucket)
  {
  }

  /** Every sample of the window lands in its bucket: no byte is dropped or counted twice. */
  method Aggregate(samples: seq<Measured>, bucket: Time, from: Time, to: Time)
    returns (r: Report, ghost times: seq<Time>)
    requires 0 < bucket
    ensures from == 0 || to <= from ==> r == Report([], NO_USAGE, 0)
    ensures 0 < from < to ==>
      && AreBuckets(times, from, to, bucket)
      && Filled(r.points, times, samples, from, to, bucket)
      && r.total == WindowTotal(samples, from, to) == PointSum(r.points)
      && IsDevicePeak(r.peak, r.points)
    ensures (forall m :: m in samples ==> Balances(m.usage)) ==> forall p :: p in r.points ==> Balances(p.usage)
  {
    if from == 0 || to == 0 || to <= from {
      return Report([], NO_USAGE, 0), [];
    }
    hide Filled, AreBuckets, PointSum;
    var starts := BucketTimes(from, to, bucket);
    times := starts;
    var points: seq<Point> := seq(|starts|, i requires 0 <= i < |starts| => Point(starts[i], NO_USAGE));
    var index := IndexTimes(starts);
    StartEmpty(points, starts, from, to, bucket);
    var total := NO_USAGE;
    for k := 0 to |samples|
      invariant Filled(points, starts, samples[..k], from, to, bucket)
      invariant total == WindowTotal(samples[..k], from, to) == PointSum(points)
    {
      var sample := samples[k];
      assert samples[..k + 1][..k] == samples[..k];
      ghost var before := points;
      if sample.at < from || to < sample.at {
        FilledMore(before, points, starts, samples[..k + 1], from, to, bucket, 0);
        continue;
      }
      var at := Truncate(sample.at, bucket);
      WindowIsCovered(starts, from, to, bucket, sample.at);
      if at !in index {
        continue;
      }
      FilledLength(points, starts, samples[..k], from, to, bucket);
      PointSumGrows(points, index[at], sample.usage);
      points := points[index[at] := points[index[at]].(usage := Plus(points[index[at]].usage, sample.usage))];
      total := Plus(total, sample.usage);
      BucketIsOne(starts, from, to, bucket, index[at]);
      FilledMore(before, points, starts, samples[..k + 1], from, to, bucket, index[at]);
    }
    assert samples[..|samples|] == samples;
    var peak := Peak(points);
    PointsBalance(points, starts, samples, from, to, bucket);
    r := Report(points, total, peak);
  }

  method Peak(points: seq<Point>) returns (peak: nat)
    ensures IsDevicePeak(peak, points)
  {
    peak := 0;
    for i := 0 to |points|
      invariant IsDevicePeak(peak, points[..i])
    {
      assert points[..i + 1] == points[..i] + [points[i]];
      if points[i].usage.bytes > peak {
        peak := points[i].usage.bytes;
        assert points[i] in points[..i + 1];
      }
    }
    assert points[..|points|] == points;
  }

  /** Points keep the balance of tunneled and direct bytes. */
  lemma PointsBalance(points: seq<Point>, times: seq<Time>, samples: seq<Measured>, from: Time, to: Time, bucket: Time)
    requires 0 < bucket && Filled(points, times, samples, from, to, bucket)
    ensures (forall m :: m in samples ==> Balances(m.usage)) ==> forall p :: p in points ==> Balances(p.usage)
  {
    if forall m :: m in samples ==> Balances(m.usage) {
      forall p | p in points
        ensures Balances(p.usage)
      {
        BucketBalances(samples, from, to, bucket, p.at);
      }
    }
  }

  lemma {:induction false} BucketBalances(samples: seq<Measured>, from: Time, to: Time, bucket: Time, at: Time)
    requires 0 < bucket && forall m :: m in samples ==> Balances(m.usage)
    ensures Balances(BucketTotal(samples, from, to, bucket, at))
  {
    if samples != [] {
      BucketBalances(samples[..|samples| - 1], from, to, bucket, at);
    }
  }
}
