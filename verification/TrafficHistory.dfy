/** The traffic history of all routes: differences of counter samples, added up per time
    bucket, per route, and per route and bucket. */
module TrafficHistory {
  import opened Config
  import opened Counters
  import opened Sums
  import opened Buckets

  datatype RouteStat = RouteStat(key: string, rx: nat, tx: nat)

  datatype Sampled = Sampled(at: Time, routes: seq<RouteStat>)

  datatype Flow = Flow(rx: nat, tx: nat, total: nat)

  datatype Series = Series(points: seq<Flow>, total: nat, peak: nat)

  datatype Report = Report(points: seq<nat>, total: nat, breakdown: map<string, Flow>, series: map<string, Series>)

  const NO_FLOW := Flow(0, 0, 0)

  // ----- the contributions of a window -----

  /** What a route moved between two samples, in the bucket that starts at `at`. */
  datatype Moved = Moved(at: Time, key: string, rx: nat, tx: nat)

  /** The last route of that key. */
  ghost function Latest(routes: seq<RouteStat>, key: string): Option<RouteStat> {
    if routes == [] then None
    else if routes[|routes| - 1].key == key then Some(routes[|routes| - 1])
    else Latest(routes[..|routes| - 1], key)
  }

  ghost function MovedBetween(before: seq<RouteStat>, routes: seq<RouteStat>, at: Time): seq<Moved> {
    if routes == [] then []
    else
      var init, last := MovedBetween(before, routes[..|routes| - 1], at), routes[|routes| - 1];
      var previous := Latest(before, last.key);
      if previous.None? then init
      else
        var rx, tx := CounterDelta(last.rx, previous.value.rx), CounterDelta(last.tx, previous.value.tx);
        if rx + tx == 0 then init else init + [Moved(at, last.key, rx, tx)]
  }

  /** Everything moved from one sample to the next, for the samples of the window. */
  ghost function MovedIn(samples: seq<Sampled>, from: Time, times: seq<Time>, bucket: Time): seq<Moved>
    requires 0 < bucket
  {
    if |samples| < 2 then []
    else
      var init, last := MovedIn(samples[..|samples| - 1], from, times, bucket), samples[|samples| - 1];
      if last.at < from || Truncate(last.at, bucket) !in times then init
      else init + MovedBetween(samples[|samples| - 2].routes, last.routes, Truncate(last.at, bucket))
  }

  // ----- sums of contributions -----

  ghost function MovedBytes(m: Moved): nat {
    m.rx + m.tx
  }

  ghost function AllBytes(ms: seq<Moved>): nat {
    if ms == [] then 0 else AllBytes(ms[..|ms| - 1]) + MovedBytes(ms[|ms| - 1])
  }

  ghost function BytesAt(ms: seq<Moved>, at: Time): nat {
    if ms == [] then 0
    else BytesAt(ms[..|ms| - 1], at) + if ms[|ms| - 1].at == at then MovedBytes(ms[|ms| - 1]) else 0
  }

  function AddFlow(f: Flow, rx: nat, tx: nat): Flow {
    Flow(f.rx + rx, f.tx + tx, f.total + (rx + tx))
  }

  ghost function FlowOf(ms: seq<Moved>, key: string): Flow {
    if ms == [] then NO_FLOW
    else
      var init, last := FlowOf(ms[..|ms| - 1], key), ms[|ms| - 1];
      if last.key == key then AddFlow(init, last.rx, last.tx) else init
  }

  /** What a route received, and what it sent. */
  ghost function RxOf(ms: seq<Moved>, key: string): nat {
    if ms == [] then 0 else RxOf(ms[..|ms| - 1], key) + if ms[|ms| - 1].key == key then ms[|ms| - 1].rx else 0
  }

  ghost function TxOf(ms: seq<Moved>, key: string): nat {
    if ms == [] then 0 else TxOf(ms[..|ms| - 1], key) + if ms[|ms| - 1].key == key then ms[|ms| - 1].tx else 0
  }

  ghost function FlowAt(ms: seq<Moved>, key: string, at: Time): Flow {
    if ms == [] then NO_FLOW
    else
      var init, last := FlowAt(ms[..|ms| - 1], key, at), ms[|ms| - 1];
      if last.key == key && last.at == at then AddFlow(init, last.rx, last.tx) else init
  }

  ghost function KeysOf(ms: seq<Moved>): set<string> {
    set m | m in ms :: m.key
  }

  // ----- what a report says -----

  ghost predicate IsPeak(peak: nat, points: seq<Flow>) {
    && (forall i :: 0 <= i < |points| ==> points[i].total <= peak)
    && exists i :: 0 <= i < |points| && points[i].total == peak
  }

  ghost predicate SeriesSays(s: Series, times: seq<Time>, ms: seq<Moved>, key: string) {
    && |s.points| == |times|
    && (forall i :: 0 <= i < |times| ==> s.points[i] == FlowAt(ms, key, times[i]))
    && s.total == FlowOf(ms, key).total
    && IsPeak(s.peak, s.points)
  }

  ghost predicate PointsSay(points: seq<nat>, times: seq<Time>, ms: seq<Moved>) {
    |points| == |times| && forall i :: 0 <= i < |times| ==> points[i] == BytesAt(ms, times[i])
  }

  /** The report holds the sums of the contributions per bucket, per route, and both. */
  ghost predicate Says(r: Report, times: seq<Time>, ms: seq<Moved>) {
    && PointsSay(r.points, times, ms)
    && r.total == AllBytes(ms)
    && r.breakdown.Keys == r.series.Keys == KeysOf(ms)
    && (forall key :: key in r.breakdown ==> r.breakdown[key] == FlowOf(ms, key))
    && forall key :: key in r.series ==> SeriesSays(r.series[key], times, ms, key)
  }

  lemma Snoc(ms: seq<Moved>, m: Moved)
    ensures (ms + [m])[..|ms + [m]| - 1] == ms && (ms + [m])[|ms + [m]| - 1] == m
  {
  }

  lemma {:induction false} UnmovedKey(ms: seq<Moved>, key: string, at: Time)
    requires key !in KeysOf(ms)
    ensures FlowOf(ms, key) == NO_FLOW && FlowAt(ms, key, at) == NO_FLOW
  {
    if ms != [] {
      var init := ms[..|ms| - 1];
      assert ms == init + [ms[|ms| - 1]];
      assert ms[|ms| - 1] in ms;
      UnmovedKey(init, key, at);
    }
  }

  ghost predicate Distinct(times: seq<Time>) {
    forall i, j :: 0 <= i < j < |times| ==> times[i] != times[j]
  }

  function Blank(n: nat): Series {
    Series(seq(n, _ => NO_FLOW), 0, 0)
  }

  lemma BlankSays(times: seq<Time>, ms: seq<Moved>, key: string)
    requires key !in KeysOf(ms) && 0 < |times|
    ensures SeriesSays(Blank(|times|), times, ms, key)
  {
    assert Blank(|times|).points[0].total == 0;
    forall i | 0 <= i < |times| {
      UnmovedKey(ms, key, times[i]);
    }
    UnmovedKey(ms, key, 0);
  }

  function Extended(s: Series, pos: nat, rx: nat, tx: nat): Series
    requires pos < |s.points|
  {
    var flow := AddFlow(s.points[pos], rx, tx);
    Series(s.points[pos := flow], s.total + (rx + tx), if flow.total > s.peak then flow.total else s.peak)
  }

  lemma PeakExtends(s: Series, pos: nat, rx: nat, tx: nat)
    requires IsPeak(s.peak, s.points) && pos < |s.points|
    ensures IsPeak(Extended(s, pos, rx, tx).peak, Extended(s, pos, rx, tx).points)
  {
    var s' := Extended(s, pos, rx, tx);
    assert s'.points[pos].total >= s.points[pos].total;
    if s'.points[pos].total <= s.peak {
      var i :| 0 <= i < |s.points| && s.points[i].total == s.peak;
      assert s'.points[i].total == s.peak;
    }
  }

  lemma SeriesExtends(s: Series, times: seq<Time>, ms: seq<Moved>, pos: nat, m: Moved)
    requires SeriesSays(s, times, ms, m.key) && Distinct(times) && pos < |times| && times[pos] == m.at
    ensures SeriesSays(Extended(s, pos, m.rx, m.tx), times, ms + [m], m.key)
  {
    Snoc(ms, m);
    PeakExtends(s, pos, m.rx, m.tx);
    assert forall i :: 0 <= i < |times| && i != pos ==> times[i] != m.at;
  }

  lemma SeriesUnmoved(s: Series, times: seq<Time>, ms: seq<Moved>, m: Moved, key: string)
    requires SeriesSays(s, times, ms, key) && key != m.key
    ensures SeriesSays(s, times, ms + [m], key)
  {
    Snoc(ms, m);
  }

  lemma PointsExtend(points: seq<nat>, times: seq<Time>, ms: seq<Moved>, pos: nat, m: Moved)
    requires PointsSay(points, times, ms) && Distinct(times) && pos < |times| && times[pos] == m.at
    ensures PointsSay(points[pos := points[pos] + (m.rx + m.tx)], times, ms + [m])
  {
    Snoc(ms, m);
    assert forall i :: 0 <= i < |times| && i != pos ==> times[i] != m.at;
  }

  lemma BreakdownExtends(breakdown: map<string, Flow>, ms: seq<Moved>, m: Moved)
    requires breakdown.Keys == KeysOf(ms) && forall key :: key in breakdown ==> breakdown[key] == FlowOf(ms, key)
    ensures
      var item := if m.key in breakdown then breakdown[m.key] else NO_FLOW;
      var breakdown' := breakdown[m.key := AddFlow(item, m.rx, m.tx)];
      && breakdown'.Keys == KeysOf(ms + [m])
      && forall key :: key in breakdown' ==> breakdown'[key] == FlowOf(ms + [m], key)
  {
    Snoc(ms, m);
    assert KeysOf(ms + [m]) == KeysOf(ms) + {m.key};
    if m.key !in breakdown {
      UnmovedKey(ms, m.key, 0);
    }
  }

  /** Adds one contribution to the point, the breakdown and the series of its route. */
  method Record(r: Report, pos: nat, key: string, rx: nat, tx: nat, ghost times: seq<Time>, ghost ms: seq<Moved>)
    returns (out: Report)
    requires Says(r, times, ms) && Distinct(times) && pos < |times|
    ensures Says(out, times, ms + [Moved(times[pos], key, rx, tx)])
  {
    hide SeriesSays, Distinct;
    ghost var m := Moved(times[pos], key, rx, tx);
    Snoc(ms, m);
    PointsExtend(r.points, times, ms, pos, m);
    BreakdownExtends(r.breakdown, ms, m);
    if key !in r.series {
      BlankSays(times, ms, key);
    }
    var item := if key in r.breakdown then r.breakdown[key] else NO_FLOW;
    var series := if key in r.series then r.series[key] else Blank(|r.points|);
    SeriesLength(series, times, ms, key);
    SeriesExtends(series, times, ms, pos, m);
    forall k | k in r.series && k != key {
      SeriesUnmoved(r.series[k], times, ms, m, k);
    }
    out := Report(r.points[pos := r.points[pos] + (rx + tx)], r.total + (rx + tx),
      r.breakdown[key := AddFlow(item, rx, tx)], r.series[key := Extended(series, pos, rx, tx)]);
  }

  lemma SeriesLength(s: Series, times: seq<Time>, ms: seq<Moved>, key: string)
    requires SeriesSays(s, times, ms, key)
    ensures |s.points| == |times|
  {
  }

  // ----- the aggregation -----

  ghost predicate IsLatest(byKey: map<string, RouteStat>, routes: seq<RouteStat>) {
    forall key :: LatestAt(byKey, routes, key)
  }

  ghost predicate LatestAt(byKey: map<string, RouteStat>, routes: seq<RouteStat>, key: string) {
    Latest(routes, key) == if key in byKey then Some(byKey[key]) else None
  }

  lemma LatestMore(byKey: map<string, RouteStat>, routes: seq<RouteStat>, route: RouteStat)
    requires IsLatest(byKey, routes)
    ensures IsLatest(byKey[route.key := route], routes + [route])
  {
    var more, byKey' := routes + [route], byKey[route.key := route];
    assert more[..|more| - 1] == routes;
    forall key
      ensures LatestAt(byKey', more, key)
    {
      assert LatestAt(byKey, routes, key);
    }
  }

  method LatestByKey(routes: seq<RouteStat>) returns (byKey: map<string, RouteStat>)
    ensures IsLatest(byKey, routes)
  {
    byKey := map[];
    for i := 0 to |routes|
      invariant IsLatest(byKey, routes[..i])
    {
      LatestMore(byKey, routes[..i], routes[i]);
      assert routes[..i + 1] == routes[..i] + [routes[i]];
      byKey := byKey[routes[i].key := routes[i]];
    }
    assert routes[..|routes|] == routes;
  }

  lemma MovedMore(before: seq<RouteStat>, routes: seq<RouteStat>, j: nat, at: Time)
    requires j < |routes|
    ensures
      var previous, init := Latest(before, routes[j].key), MovedBetween(before, routes[..j], at);
      MovedBetween(before, routes[..j + 1], at) ==
      if previous.None? then init
      else
        var rx, tx := CounterDelta(routes[j].rx, previous.value.rx), CounterDelta(routes[j].tx, previous.value.tx);
        if rx + tx == 0 then init else init + [Moved(at, routes[j].key, rx, tx)]
  {
    assert routes[..j + 1][..j] == routes[..j];
  }

  /** Adds what moved between two samples to the point `pos`. */
  method AddSample(r: Report, before: seq<RouteStat>, routes: seq<RouteStat>, pos: nat, ghost times: seq<Time>,
      ghost ms: seq<Moved>)
    returns (out: Report)
    requires Says(r, times, ms) && Distinct(times) && pos < |times|
    ensures Says(out, times, ms + MovedBetween(before, routes, times[pos]))
  {
    hide Says, Distinct, MovedBetween;
    var previousByKey := LatestByKey(before);
    out := r;
    NothingMoved(before, times[pos]);
    assert ms + [] == ms;
    for j := 0 to |routes|
      invariant Says(out, times, ms + MovedBetween(before, routes[..j], times[pos]))
    {
      ghost var so := MovedBetween(before, routes[..j], times[pos]);
      MovedMore(before, routes, j, times[pos]);
      assert LatestAt(previousByKey, before, routes[j].key);
      if routes[j].key !in previousByKey {
        continue;
      }
      var previous := previousByKey[routes[j].key];
      var rx, tx := CounterDelta(routes[j].rx, previous.rx), CounterDelta(routes[j].tx, previous.tx);
      if rx + tx == 0 {
        continue;
      }
      out := Record(out, pos, routes[j].key, rx, tx, times, ms + so);
      ghost var m := Moved(times[pos], routes[j].key, rx, tx);
      assert ms + so + [m] == ms + (so + [m]);
    }
    assert routes[..|routes|] == routes;
  }

  lemma NothingMoved(before: seq<RouteStat>, at: Time)
    ensures MovedBetween(before, [], at) == []
  {
  }

  /** The samples are taken in order of time; the window reaches from `from` to `to`. */
  method Aggregate(samples: seq<Sampled>, bucket: Time, from: Time, to: Time)
    returns (r: Report, ghost times: seq<Time>)
    requires 0 < bucket
    ensures samples == [] ==> r == Report([], 0, map[], map[])
    ensures samples != [] ==>
      AreBuckets(times, from, to, bucket) && Says(r, times, MovedIn(samples, from, times, bucket))
    ensures PartsAddUp(r) && RoutesAddUp(r) && BucketsAddUp(r)
    ensures samples != [] ==> DirectionsApart(r, times, MovedIn(samples, from, times, bucket))
  {
    times := [];
    if |samples| == 0 {
      return Report([], 0, map[], map[]), [];
    }
    hide Says, Distinct, AreBuckets, MovedIn, PartsAddUp, RoutesAddUp, BucketsAddUp;
    var starts := BucketTimes(from, to, bucket);
    times := starts;
    var index := IndexTimes(starts);
    r := Report(seq(|starts|, _ => 0), 0, map[], map[]);
    BucketsDistinct(starts, from, to, bucket);
    for k := 1 to |samples|
      invariant Says(r, starts, MovedIn(samples[..k], from, starts, bucket))
    {
      MovedInMore(samples, k, from, starts, bucket);
      if samples[k].at < from {
        continue;
      }
      var at := Truncate(samples[k].at, bucket);
      if at !in index {
        continue;
      }
      r := AddSample(r, samples[k - 1].routes, samples[k].routes, index[at], starts,
        MovedIn(samples[..k], from, starts, bucket));
    }
    assert samples[..|samples|] == samples;
    ReportConserves(r, samples, from, to, starts, bucket);
    SaysDirections(r, starts, MovedIn(samples, from, starts, bucket));
  }

  lemma BucketsDistinct(times: seq<Time>, from: Time, to: Time, bucket: Time)
    requires 0 < bucket && AreBuckets(times, from, to, bucket)
    ensures Distinct(times)
  {
  }

  lemma MovedInMore(samples: seq<Sampled>, k: nat, from: Time, times: seq<Time>, bucket: Time)
    requires 0 < bucket && 1 <= k < |samples|
    ensures
      var init := MovedIn(samples[..k], from, times, bucket);
      MovedIn(samples[..k + 1], from, times, bucket) ==
      if samples[k].at < from || Truncate(samples[k].at, bucket) !in times then init
      else init + MovedBetween(samples[k - 1].routes, samples[k].routes, Truncate(samples[k].at, bucket))
  {
    assert samples[..k + 1][..k] == samples[..k];
  }

  // ----- the parts of a report add up to its total -----

  ghost function SeqSum(s: seq<nat>): nat {
    if s == [] then 0 else SeqSum(s[..|s| - 1]) + s[|s| - 1]
  }

  lemma {:induction false} SeqSumGrows(s: seq<nat>, i: nat, n: nat)
    requires i < |s|
    ensures SeqSum(s[i := s[i] + n]) == SeqSum(s) + n
  {
    var last := |s| - 1;
    if i < last {
      SeqSumGrows(s[..last], i, n);
      assert s[i := s[i] + n][..last] == s[..last][i := s[i] + n];
    } else {
      assert s[i := s[i] + n][..last] == s[..last];
    }
  }

  lemma {:induction false} ZeroSum(s: seq<nat>)
    requires forall i :: 0 <= i < |s| ==> s[i] == 0
    ensures SeqSum(s) == 0
  {
    if s != [] {
      ZeroSum(s[..|s| - 1]);
    }
  }

  ghost predicate InTimes(ms: seq<Moved>, times: seq<Time>) {
    forall m :: m in ms ==> m.at in times
  }

  ghost function Column(ms: seq<Moved>, times: seq<Time>): (s: seq<nat>)
    ensures |s| == |times| && forall i :: 0 <= i < |s| ==> s[i] == BytesAt(ms, times[i])
  {
    seq(|times|, i requires 0 <= i < |times| => BytesAt(ms, times[i]))
  }

  ghost function KeyColumn(ms: seq<Moved>, times: seq<Time>, key: string): (s: seq<nat>)
    ensures |s| == |times| && forall i :: 0 <= i < |s| ==> s[i] == FlowAt(ms, key, times[i]).total
  {
    seq(|times|, i requires 0 <= i < |times| => FlowAt(ms, key, times[i]).total)
  }

  lemma {:induction false} ColumnSums(ms: seq<Moved>, times: seq<Time>)
    requires Distinct(times) && InTimes(ms, times)
    ensures SeqSum(Column(ms, times)) == AllBytes(ms)
  {
    if ms == [] {
      ZeroSum(Column(ms, times));
    } else {
      var init, m := ms[..|ms| - 1], ms[|ms| - 1];
      assert ms == init + [m];
      ColumnSums(init, times);
      assert m in ms;
      var pos :| 0 <= pos < |times| && times[pos] == m.at;
      SeqSumGrows(Column(init, times), pos, MovedBytes(m));
      assert Column(ms, times) == Column(init, times)[pos := Column(init, times)[pos] + MovedBytes(m)];
    }
  }

  lemma {:induction false} KeyColumnSums(ms: seq<Moved>, times: seq<Time>, key: string)
    requires Distinct(times) && InTimes(ms, times)
    ensures SeqSum(KeyColumn(ms, times, key)) == FlowOf(ms, key).total
  {
    if ms == [] {
      ZeroSum(KeyColumn(ms, times, key));
    } else {
      var init, m := ms[..|ms| - 1], ms[|ms| - 1];
      assert ms == init + [m];
      KeyColumnSums(init, times, key);
      assert m in ms;
      var pos :| 0 <= pos < |times| && times[pos] == m.at;
      var before := KeyColumn(init, times, key);
      SeqSumGrows(before, pos, MovedBytes(m));
      assert KeyColumn(ms, times, key) == if m.key == key then before[pos := before[pos] + MovedBytes(m)] else before;
    }
  }

  ghost function KeyTotals(ms: seq<Moved>): map<string, nat> {
    map key | key in KeysOf(ms) :: FlowOf(ms, key).total
  }

  ghost function KeyTotalsAt(ms: seq<Moved>, at: Time): map<string, nat> {
    map key | key in KeysOf(ms) :: FlowAt(ms, key, at).total
  }

  lemma FlowMore(ms: seq<Moved>, m: Moved, key: string, at: Time)
    ensures FlowOf(ms + [m], key).total == FlowOf(ms, key).total + if m.key == key then MovedBytes(m) else 0
    ensures FlowAt(ms + [m], key, at).total
         == FlowAt(ms, key, at).total + if m.key == key && m.at == at then MovedBytes(m) else 0
    ensures key !in KeysOf(ms) ==> FlowOf(ms, key).total == 0 && FlowAt(ms, key, at).total == 0
  {
    Snoc(ms, m);
    if key !in KeysOf(ms) {
      UnmovedKey(ms, key, at);
    }
  }

  lemma KeyTotalsMore(ms: seq<Moved>, m: Moved)
    ensures KeyTotals(ms + [m]) == KeyTotals(ms)[m.key := ValueAt(KeyTotals(ms), m.key) + MovedBytes(m)]
  {
    hide FlowOf, FlowAt;
    assert KeysOf(ms + [m]) == KeysOf(ms) + {m.key};
    forall key
      ensures FlowOf(ms + [m], key).total == FlowOf(ms, key).total + if m.key == key then MovedBytes(m) else 0
    {
      FlowMore(ms, m, key, 0);
    }
    FlowMore(ms, m, m.key, 0);
  }

  lemma KeyTotalsAtMore(ms: seq<Moved>, m: Moved, at: Time)
    ensures
      var n := if m.at == at then MovedBytes(m) else 0;
      KeyTotalsAt(ms + [m], at) == KeyTotalsAt(ms, at)[m.key := ValueAt(KeyTotalsAt(ms, at), m.key) + n]
  {
    hide FlowOf, FlowAt;
    assert KeysOf(ms + [m]) == KeysOf(ms) + {m.key};
    forall key
      ensures FlowAt(ms + [m], key, at).total
           == FlowAt(ms, key, at).total + if m.key == key && m.at == at then MovedBytes(m) else 0
    {
      FlowMore(ms, m, key, at);
    }
    FlowMore(ms, m, m.key, at);
  }

  lemma {:induction false} KeyTotalsSum(ms: seq<Moved>, at: Time)
    ensures Sum(KeyTotals(ms)) == AllBytes(ms)
    ensures Sum(KeyTotalsAt(ms, at)) == BytesAt(ms, at)
  {
    hide KeyTotals, KeyTotalsAt;
    if ms == [] {
      NoKeyTotals(at);
    } else {
      var init, m := ms[..|ms| - 1], ms[|ms| - 1];
      assert ms == init + [m];
      var n := if m.at == at then MovedBytes(m) else 0;
      KeyTotalsSum(init, at);
      KeyTotalsMore(init, m);
      KeyTotalsAtMore(init, m, at);
      SumUpdate(KeyTotals(init), m.key, ValueAt(KeyTotals(init), m.key) + MovedBytes(m));
      SumUpdate(KeyTotalsAt(init, at), m.key, ValueAt(KeyTotalsAt(init, at), m.key) + n);
    }
  }

  lemma NoKeyTotals(at: Time)
    ensures KeyTotals([]) == map[] && KeyTotalsAt([], at) == map[]
  {
  }

  /** The part of the contributions that lies in one bucket. */
  ghost function InBucket(ms: seq<Moved>, at: Time): seq<Moved> {
    if ms == [] then []
    else InBucket(ms[..|ms| - 1], at) + if ms[|ms| - 1].at == at then [ms[|ms| - 1]] else []
  }

  lemma {:induction false} FlowSums(ms: seq<Moved>, key: string, at: Time)
    ensures FlowOf(ms, key) == Flow(RxOf(ms, key), TxOf(ms, key), RxOf(ms, key) + TxOf(ms, key))
    ensures
      var part := InBucket(ms, at);
      FlowAt(ms, key, at) == Flow(RxOf(part, key), TxOf(part, key), RxOf(part, key) + TxOf(part, key))
  {
    if ms != [] {
      var init, m := ms[..|ms| - 1], ms[|ms| - 1];
      FlowSums(init, key, at);
      assert InBucket(ms, at) == InBucket(init, at) + if m.at == at then [m] else [];
      if m.at == at {
        Snoc(InBucket(init, at), m);
      } else {
        assert InBucket(ms, at) == InBucket(init, at);
      }
    }
  }

  lemma {:induction false} FlowsAddUp(ms: seq<Moved>, key: string, at: Time)
    ensures FlowOf(ms, key).rx + FlowOf(ms, key).tx == FlowOf(ms, key).total
    ensures FlowAt(ms, key, at).rx + FlowAt(ms, key, at).tx == FlowAt(ms, key, at).total
  {
    if ms != [] {
      FlowsAddUp(ms[..|ms| - 1], key, at);
    }
  }

  ghost function FlowTotals(flows: map<string, Flow>): map<string, nat> {
    map key | key in flows :: flows[key].total
  }

  ghost function SeriesTotals(series: map<string, Series>): map<string, nat> {
    map key | key in series :: series[key].total
  }

  ghost function SeriesPoint(series: map<string, Series>, i: nat): map<string, nat>
    requires forall key :: key in series ==> i < |series[key].points|
  {
    map key | key in series :: series[key].points[i].total
  }

  ghost function PointTotals(s: Series): (t: seq<nat>)
    ensures |t| == |s.points| && forall i :: 0 <= i < |t| ==> t[i] == s.points[i].total
  {
    seq(|s.points|, i requires 0 <= i < |s.points| => s.points[i].total)
  }

  lemma SeriesTotal(s: Series, times: seq<Time>, ms: seq<Moved>, key: string)
    requires SeriesSays(s, times, ms, key)
    ensures s.total == FlowOf(ms, key).total
    ensures PointTotals(s) == KeyColumn(ms, times, key)
  {
  }

  lemma PointsConserve(points: seq<nat>, times: seq<Time>, ms: seq<Moved>)
    requires PointsSay(points, times, ms) && Distinct(times) && InTimes(ms, times)
    ensures SeqSum(points) == AllBytes(ms)
  {
    ColumnSums(ms, times);
    assert points == Column(ms, times);
  }

  lemma FlowsConserve(flows: map<string, Flow>, ms: seq<Moved>)
    requires flows.Keys == KeysOf(ms) && forall key :: key in flows ==> flows[key] == FlowOf(ms, key)
    ensures Sum(FlowTotals(flows)) == AllBytes(ms)
  {
    hide FlowOf, KeysOf;
    KeyTotalsSum(ms, 0);
    assert FlowTotals(flows) == KeyTotals(ms);
  }

  lemma SeriesConserve(series: map<string, Series>, times: seq<Time>, ms: seq<Moved>)
    requires series.Keys == KeysOf(ms) && forall key :: key in series ==> SeriesSays(series[key], times, ms, key)
    ensures Sum(SeriesTotals(series)) == AllBytes(ms)
  {
    hide FlowOf, KeysOf, SeriesSays;
    KeyTotalsSum(ms, 0);
    forall key | key in series
      ensures series[key].total == FlowOf(ms, key).total
    {
      SeriesTotal(series[key], times, ms, key);
    }
    assert SeriesTotals(series) == KeyTotals(ms);
  }

  lemma PartsConserve(r: Report, times: seq<Time>, ms: seq<Moved>)
    requires Says(r, times, ms) && Distinct(times) && InTimes(ms, times)
    ensures SeqSum(r.points) == r.total
    ensures Sum(FlowTotals(r.breakdown)) == r.total
    ensures Sum(SeriesTotals(r.series)) == r.total
  {
    hide SeriesSays, PointsSay, Distinct, InTimes, FlowOf;
    PointsConserve(r.points, times, ms);
    FlowsConserve(r.breakdown, ms);
    SeriesConserve(r.series, times, ms);
  }

  lemma RouteConserves(r: Report, times: seq<Time>, ms: seq<Moved>, key: string)
    requires Says(r, times, ms) && Distinct(times) && InTimes(ms, times) && key in r.series
    ensures SeqSum(PointTotals(r.series[key])) == r.series[key].total == r.breakdown[key].total
    ensures r.breakdown[key].rx + r.breakdown[key].tx == r.breakdown[key].total
  {
    hide SeriesSays, PointsSay, Distinct, InTimes, FlowOf;
    KeyColumnSums(ms, times, key);
    SeriesTotal(r.series[key], times, ms, key);
    FlowsAddUp(ms, key, 0);
  }

  lemma BucketConserves(r: Report, times: seq<Time>, ms: seq<Moved>, i: nat)
    requires Says(r, times, ms) && i < |times|
    ensures forall key :: key in r.series ==> i < |r.series[key].points|
    ensures i < |r.points| && Sum(SeriesPoint(r.series, i)) == r.points[i]
  {
    hide FlowOf, FlowAt, KeysOf, SeriesSays, IsPeak;
    KeyTotalsSum(ms, times[i]);
    forall key | key in r.series
      ensures i < |r.series[key].points| && r.series[key].points[i].total == FlowAt(ms, key, times[i]).total
    {
      SeriesAtPoint(r.series[key], times, ms, key, i);
    }
    assert SeriesPoint(r.series, i) == KeyTotalsAt(ms, times[i]);
  }

  /** Points, breakdown and series all add up to the total. */
  ghost predicate PartsAddUp(r: Report) {
    SeqSum(r.points) == r.total && Sum(FlowTotals(r.breakdown)) == r.total && Sum(SeriesTotals(r.series)) == r.total
  }

  /** Each route's series adds up to its breakdown, received and sent together. */
  ghost predicate RoutesAddUp(r: Report) {
    && r.breakdown.Keys == r.series.Keys
    && forall key :: key in r.series ==> RouteAddsUp(r.series[key], r.breakdown[key])
  }

  ghost predicate RouteAddsUp(s: Series, flow: Flow) {
    SeqSum(PointTotals(s)) == s.total == flow.total == flow.rx + flow.tx
  }

  /** The routes of each bucket add up to its point. */
  ghost predicate BucketsAddUp(r: Report) {
    && (forall key :: key in r.series ==> |r.series[key].points| == |r.points|)
    && forall i: nat :: i < |r.points| ==> Sum(SeriesPoint(r.series, i)) == r.points[i]
  }

  lemma SaysBuckets(r: Report, times: seq<Time>, ms: seq<Moved>)
    requires Says(r, times, ms)
    ensures BucketsAddUp(r)
  {
    hide FlowOf, FlowAt, KeysOf, AllBytes, BytesAt, IsPeak;
    forall i: nat | i < |r.points|
      ensures Sum(SeriesPoint(r.series, i)) == r.points[i]
    {
      BucketConserves(r, times, ms, i);
    }
  }

  lemma SaysRoutes(r: Report, times: seq<Time>, ms: seq<Moved>)
    requires Says(r, times, ms) && Distinct(times) && InTimes(ms, times)
    ensures RoutesAddUp(r)
  {
    hide FlowOf, FlowAt, KeysOf, AllBytes, BytesAt, SeriesSays, PointsSay, Distinct, InTimes, PointTotals;
    forall key | key in r.series
      ensures RouteAddsUp(r.series[key], r.breakdown[key])
    {
      RouteConserves(r, times, ms, key);
    }
  }

  lemma ReportConserves(r: Report, samples: seq<Sampled>, from: Time, to: Time, times: seq<Time>, bucket: Time)
    requires 0 < bucket && AreBuckets(times, from, to, bucket)
    requires Says(r, times, MovedIn(samples, from, times, bucket))
    ensures PartsAddUp(r) && RoutesAddUp(r) && BucketsAddUp(r)
  {
    hide MovedIn, AreBuckets, Distinct, InTimes, Says, RoutesAddUp, BucketsAddUp;
    var ms := MovedIn(samples, from, times, bucket);
    MovedInTimes(samples, from, times, bucket);
    BucketsDistinct(times, from, to, bucket);
    PartsConserve(r, times, ms);
    SaysRoutes(r, times, ms);
    SaysBuckets(r, times, ms);
  }

  /** Received and sent bytes are summed apart, per route and per route and bucket. */
  ghost predicate DirectionsApart(r: Report, times: seq<Time>, ms: seq<Moved>) {
    && (forall key :: key in r.breakdown ==>
          r.breakdown[key].rx == RxOf(ms, key) && r.breakdown[key].tx == TxOf(ms, key))
    && forall key, i :: key in r.series && 0 <= i < |r.series[key].points| && i < |times| ==>
         && r.series[key].points[i].rx == RxOf(InBucket(ms, times[i]), key)
         && r.series[key].points[i].tx == TxOf(InBucket(ms, times[i]), key)
  }

  lemma SaysDirections(r: Report, times: seq<Time>, ms: seq<Moved>)
    requires Says(r, times, ms)
    ensures DirectionsApart(r, times, ms)
  {
    hide FlowOf, FlowAt, KeysOf, AllBytes, BytesAt, IsPeak, RxOf, TxOf, InBucket;
    forall key | key in r.breakdown
      ensures r.breakdown[key].rx == RxOf(ms, key) && r.breakdown[key].tx == TxOf(ms, key)
    {
      FlowSums(ms, key, 0);
    }
    forall key, i | key in r.series && 0 <= i < |r.series[key].points| && i < |times|
      ensures r.series[key].points[i].rx == RxOf(InBucket(ms, times[i]), key)
      ensures r.series[key].points[i].tx == TxOf(InBucket(ms, times[i]), key)
    {
      FlowSums(ms, key, times[i]);
    }
  }

  lemma SeriesAtPoint(s: Series, times: seq<Time>, ms: seq<Moved>, key: string, i: nat)
    requires SeriesSays(s, times, ms, key) && i < |times|
    ensures i < |s.points| && s.points[i] == FlowAt(ms, key, times[i])
  {
  }

  lemma {:induction false} MovedBetweenAt(before: seq<RouteStat>, routes: seq<RouteStat>, at: Time)
    ensures forall m :: m in MovedBetween(before, routes, at) ==> m.at == at
  {
    if routes != [] {
      MovedBetweenAt(before, routes[..|routes| - 1], at);
    }
  }

  /** Everything aggregated lies in a bucket of the report. */
  lemma {:induction false} MovedInTimes(samples: seq<Sampled>, from: Time, times: seq<Time>, bucket: Time)
    requires 0 < bucket
    ensures InTimes(MovedIn(samples, from, times, bucket), times)
  {
    if |samples| >= 2 {
      var last := samples[|samples| - 1];
      MovedInTimes(samples[..|samples| - 1], from, times, bucket);
      MovedBetweenAt(samples[|samples| - 2].routes, last.routes, Truncate(last.at, bucket));
    }
  }
}
