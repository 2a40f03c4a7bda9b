/** The site, device and history tables that one connection sample is folded into, with
    their retention, purge and reset. */
module TrafficTables {
  import opened Config
  import opened Counters
  import opened Sums

  const CONNECTION_RETENTION := 24 * 3600
  const HISTORY_RETENTION := 30 * 24 * 3600

  type Device = string
  type Site = string

  datatype Connection = Connection(key: string, site: Site, device: Device, bytes: nat, packets: nat, viaTunnel: bool)

  datatype TrackedConnection = TrackedConnection(bytes: nat, packets: nat, lastSeen: Time)
  datatype Row = Row(bytes: nat, packets: nat, updatedAt: Time)
  datatype Usage = Usage(bytes: nat, packets: nat, tunneled: nat, direct: nat)
  datatype DeviceRow = DeviceRow(usage: Usage, updatedAt: Time)

  datatype Tables = Tables(
    connections: map<string, TrackedConnection>,
    sites: map<Site, Row>,
    devices: map<Device, DeviceRow>,
    deviceSites: map<(Device, Site), Row>,
    history: map<(Device, Time), Usage>,
    siteHistory: map<(Device, Site, Time), Row>)

  const EMPTY := Tables(map[], map[], map[], map[], map[], map[])

  const NO_USAGE := Usage(0, 0, 0, 0)

  function RowAt<K>(rows: map<K, Row>, k: K): Row {
    if k in rows then rows[k] else Row(0, 0, 0)
  }

  function DeviceAt(rows: map<Device, DeviceRow>, d: Device): Usage {
    if d in rows then rows[d].usage else NO_USAGE
  }

  function UsageAt(rows: map<(Device, Time), Usage>, k: (Device, Time)): Usage {
    if k in rows then rows[k] else NO_USAGE
  }

  function AddRow(row: Row, bytes: nat, packets: nat, now: Time): Row {
    Row(row.bytes + bytes, row.packets + packets, now)
  }

  function AddUsage(s: Usage, bytes: nat, packets: nat, viaTunnel: bool): Usage {
    Usage(s.bytes + bytes, s.packets + packets,
          s.tunneled + (if viaTunnel then bytes else 0), s.direct + (if viaTunnel then 0 else bytes))
  }

  function BucketAt(now: Time): Time {
    now - now % 60
  }

  // ----- specification -----

  /** What a sample adds: `bytes` and `packets` of one connection. */
  datatype Delta = Delta(site: Site, device: Device, bytes: nat, packets: nat, viaTunnel: bool)

  function DeltaOf(t: Tables, c: Connection): Delta {
    var previous := if c.key in t.connections then t.connections[c.key] else TrackedConnection(0, 0, 0);
    Delta(c.site, c.device, CounterDelta(c.bytes, previous.bytes), CounterDelta(c.packets, previous.packets),
          c.viaTunnel)
  }

  ghost function Added(t: Tables, d: Delta, now: Time): Tables {
    var bucket := BucketAt(now);
    t.(
      sites := t.sites[d.site := AddRow(RowAt(t.sites, d.site), d.bytes, d.packets, now)],
      devices := t.devices[d.device :=
        DeviceRow(AddUsage(DeviceAt(t.devices, d.device), d.bytes, d.packets, d.viaTunnel), now)],
      deviceSites := t.deviceSites[(d.device, d.site) :=
        AddRow(RowAt(t.deviceSites, (d.device, d.site)), d.bytes, d.packets, now)],
      history := t.history[(d.device, bucket) :=
        AddUsage(UsageAt(t.history, (d.device, bucket)), d.bytes, d.packets, d.viaTunnel)],
      siteHistory := t.siteHistory[(d.device, d.site, bucket) :=
        AddRow(RowAt(t.siteHistory, (d.device, d.site, bucket)), d.bytes, d.packets, bucket)])
  }

  ghost function AfterConnection(t: Tables, c: Connection, now: Time): Tables {
    var d := DeltaOf(t, c);
    var seen := t.(connections := t.connections[c.key := TrackedConnection(c.bytes, c.packets, now)]);
    if d.bytes == 0 && d.packets == 0 then seen else Added(seen, d, now)
  }

  ghost function AfterConnections(t: Tables, cs: seq<Connection>, now: Time): Tables {
    if cs == [] then t
    else AfterConnection(AfterConnections(t, cs[..|cs| - 1], now), cs[|cs| - 1], now)
  }

  function Before(now: Time, span: nat): Time {
    if span <= now then now - span else 0
  }

  function KeepConnections(rows: map<string, TrackedConnection>, cutoff: Time): map<string, TrackedConnection> {
    map k | k in rows && rows[k].lastSeen >= cutoff :: rows[k]
  }

  function KeepHistory(rows: map<(Device, Time), Usage>, cutoff: Time): map<(Device, Time), Usage> {
    map k | k in rows && k.1 >= cutoff :: rows[k]
  }

  function KeepSiteHistory(rows: map<(Device, Site, Time), Row>, cutoff: Time): map<(Device, Site, Time), Row> {
    map k | k in rows && k.2 >= cutoff :: rows[k]
  }

  function KeepRows<K>(rows: map<K, Row>, cutoff: Time): map<K, Row> {
    map k | k in rows && rows[k].updatedAt >= cutoff :: rows[k]
  }

  function KeepDevices(rows: map<Device, DeviceRow>, cutoff: Time): map<Device, DeviceRow> {
    map k | k in rows && rows[k].updatedAt >= cutoff :: rows[k]
  }

  function Retained(t: Tables, now: Time): Tables {
    t.(connections := KeepConnections(t.connections, Before(now, CONNECTION_RETENTION)),
       history := KeepHistory(t.history, Before(now, HISTORY_RETENTION)),
       siteHistory := KeepSiteHistory(t.siteHistory, Before(now, HISTORY_RETENTION)))
  }

  /** Which statements of a purge succeed; each may fail alone. */
  datatype Deletes = Deletes(
    sites: bool, connections: bool, devices: bool, deviceSites: bool, history: bool, siteHistory: bool)

  function Purged(t: Tables, cutoff: Time, ok: Deletes): Tables {
    Tables(
      if ok.connections then KeepConnections(t.connections, cutoff) else t.connections,
      if ok.sites then KeepRows(t.sites, cutoff) else t.sites,
      if ok.devices then KeepDevices(t.devices, cutoff) else t.devices,
      if ok.deviceSites then KeepRows(t.deviceSites, cutoff) else t.deviceSites,
      if ok.history then KeepHistory(t.history, cutoff) else t.history,
      if ok.siteHistory then KeepSiteHistory(t.siteHistory, cutoff) else t.siteHistory)
  }

  // ----- what the tables keep against each other -----

  ghost predicate Balances(s: Usage) {
    s.tunneled + s.direct == s.bytes
  }

  /** Tunneled and direct bytes make up the bytes of every device and history row. */
  ghost predicate AllBalanced(t: Tables) {
    && (forall d :: d in t.devices ==> Balances(t.devices[d].usage))
    && forall k :: k in t.history ==> Balances(t.history[k])
  }

  ghost function SitesOf(rows: map<(Device, Site), Row>, d: Device): map<(Device, Site), nat> {
    map k | k in rows && k.0 == d :: rows[k].bytes
  }

  ghost function DevicesOf(rows: map<(Device, Site), Row>, s: Site): map<(Device, Site), nat> {
    map k | k in rows && k.1 == s :: rows[k].bytes
  }

  ghost function SitesInBucket(rows: map<(Device, Site, Time), Row>, d: Device, b: Time)
      : map<(Device, Site, Time), nat>
  {
    map k | k in rows && k.0 == d && k.2 == b :: rows[k].bytes
  }

  ghost function Bytes<K>(rows: map<K, Row>): map<K, nat> {
    map k | k in rows :: rows[k].bytes
  }

  ghost function DeviceBytes(rows: map<Device, DeviceRow>): map<Device, nat> {
    map d | d in rows :: rows[d].usage.bytes
  }

  /** A device's history row is the sum of its sites' rows of the same bucket. */
  ghost predicate HistoryAgrees(t: Tables) {
    forall d, b :: BucketAgrees(t, d, b)
  }

  ghost predicate BucketAgrees(t: Tables, d: Device, b: Time) {
    Sum(SitesInBucket(t.siteHistory, d, b)) == UsageAt(t.history, (d, b)).bytes
  }

  /** Per device, per site and overall, the three tables hold the same bytes. */
  ghost predicate TotalsAgree(t: Tables) {
    && (forall d :: DeviceAgrees(t, d))
    && (forall s :: SiteAgrees(t, s))
    && Sum(Bytes(t.sites)) == Sum(DeviceBytes(t.devices)) == Sum(Bytes(t.deviceSites))
  }

  ghost predicate DeviceAgrees(t: Tables, d: Device) {
    Sum(SitesOf(t.deviceSites, d)) == DeviceAt(t.devices, d).bytes
  }

  ghost predicate SiteAgrees(t: Tables, s: Site) {
    Sum(DevicesOf(t.deviceSites, s)) == RowAt(t.sites, s).bytes
  }

  /** A device's sites never add up to more than the device, whose row is the newest. */
  ghost predicate Bounded(t: Tables, clock: Time) {
    && DevicesAbove(t)
    && (forall k :: k in t.deviceSites ==>
         k.0 in t.devices && t.deviceSites[k].updatedAt <= t.devices[k.0].updatedAt)
    && forall d :: d in t.devices ==> t.devices[d].updatedAt <= clock
  }

  ghost predicate DeviceBounds(t: Tables, d: Device) {
    Sum(SitesOf(t.deviceSites, d)) <= DeviceAt(t.devices, d).bytes
  }

  /** No device's sites add up to more than the device. */
  ghost predicate DevicesAbove(t: Tables) {
    forall d :: DeviceBounds(t, d)
  }

  // ----- adding keeps all of it -----

  ghost function Grown<K>(rows: map<K, Row>, k: K, n: nat, packets: nat, now: Time): map<K, Row> {
    rows[k := AddRow(RowAt(rows, k), n, packets, now)]
  }

  lemma GrownSites(rows: map<(Device, Site), Row>, k: (Device, Site), n: nat, packets: nat, now: Time, d: Device)
    ensures Sum(SitesOf(Grown(rows, k, n, packets, now), d)) == Sum(SitesOf(rows, d)) + if k.0 == d then n else 0
  {
    var before, after := SitesOf(rows, d), SitesOf(Grown(rows, k, n, packets, now), d);
    SumUpdate(before, k, ValueAt(before, k) + n);
    assert after == if k.0 == d then before[k := ValueAt(before, k) + n] else before;
  }

  lemma GrownDevices(rows: map<(Device, Site), Row>, k: (Device, Site), n: nat, packets: nat, now: Time, s: Site)
    ensures Sum(DevicesOf(Grown(rows, k, n, packets, now), s)) == Sum(DevicesOf(rows, s)) + if k.1 == s then n else 0
  {
    var before, after := DevicesOf(rows, s), DevicesOf(Grown(rows, k, n, packets, now), s);
    SumUpdate(before, k, ValueAt(before, k) + n);
    assert after == if k.1 == s then before[k := ValueAt(before, k) + n] else before;
  }

  lemma GrownBucket(rows: map<(Device, Site, Time), Row>, k: (Device, Site, Time), n: nat, packets: nat, now: Time,
      d: Device, b: Time)
    ensures Sum(SitesInBucket(Grown(rows, k, n, packets, now), d, b))
         == Sum(SitesInBucket(rows, d, b)) + if k.0 == d && k.2 == b then n else 0
  {
    var before, after := SitesInBucket(rows, d, b), SitesInBucket(Grown(rows, k, n, packets, now), d, b);
    SumUpdate(before, k, ValueAt(before, k) + n);
    assert after == if k.0 == d && k.2 == b then before[k := ValueAt(before, k) + n] else before;
  }

  lemma GrownTotal<K(!new)>(rows: map<K, Row>, k: K, n: nat, packets: nat, now: Time)
    ensures Sum(Bytes(Grown(rows, k, n, packets, now))) == Sum(Bytes(rows)) + n
  {
    var before := Bytes(rows);
    SumUpdate(before, k, ValueAt(before, k) + n);
    assert Bytes(Grown(rows, k, n, packets, now)) == before[k := ValueAt(before, k) + n];
  }

  lemma GrownDeviceTotal(rows: map<Device, DeviceRow>, d: Device, row: DeviceRow, n: nat)
    requires row.usage.bytes == DeviceAt(rows, d).bytes + n
    ensures Sum(DeviceBytes(rows[d := row])) == Sum(DeviceBytes(rows)) + n
  {
    var before := DeviceBytes(rows);
    SumUpdate(before, d, ValueAt(before, d) + n);
    assert DeviceBytes(rows[d := row]) == before[d := ValueAt(before, d) + n];
  }

  lemma AddedBalances(t: Tables, d: Delta, now: Time)
    requires AllBalanced(t)
    ensures AllBalanced(Added(t, d, now))
  {
  }

  lemma AddedHistory(t: Tables, d: Delta, now: Time)
    requires HistoryAgrees(t)
    ensures HistoryAgrees(Added(t, d, now))
  {
    forall device, b
      ensures BucketAgrees(Added(t, d, now), device, b)
    {
      assert BucketAgrees(t, device, b);
      GrownBucket(t.siteHistory, (d.device, d.site, BucketAt(now)), d.bytes, d.packets, BucketAt(now), device, b);
    }
  }

  lemma AddedTotals(t: Tables, d: Delta, now: Time)
    requires TotalsAgree(t)
    ensures TotalsAgree(Added(t, d, now))
  {
    var t', both := Added(t, d, now), (d.device, d.site);
    forall device
      ensures DeviceAgrees(t', device)
    {
      assert DeviceAgrees(t, device);
      GrownSites(t.deviceSites, both, d.bytes, d.packets, now, device);
    }
    forall site
      ensures SiteAgrees(t', site)
    {
      assert SiteAgrees(t, site);
      GrownDevices(t.deviceSites, both, d.bytes, d.packets, now, site);
    }
    GrownTotal(t.sites, d.site, d.bytes, d.packets, now);
    GrownTotal(t.deviceSites, both, d.bytes, d.packets, now);
    GrownDeviceTotal(t.devices, d.device, t'.devices[d.device], d.bytes);
  }

  lemma AddedStaysAbove(t: Tables, d: Delta, now: Time)
    requires DevicesAbove(t)
    ensures DevicesAbove(Added(t, d, now))
  {
    forall device
      ensures DeviceBounds(Added(t, d, now), device)
    {
      assert DeviceBounds(t, device);
      GrownSites(t.deviceSites, (d.device, d.site), d.bytes, d.packets, now, device);
    }
  }

  lemma AddedBounds(t: Tables, d: Delta, clock: Time, now: Time)
    requires Bounded(t, clock) && clock <= now
    ensures Bounded(Added(t, d, now), now)
  {
    AddedStaysAbove(t, d, now);
  }

  // ----- deleting old rows -----

  lemma KeptBucket(t: Tables, cutoff: Time, d: Device, b: Time)
    ensures SitesInBucket(KeepSiteHistory(t.siteHistory, cutoff), d, b)
         == if b >= cutoff then SitesInBucket(t.siteHistory, d, b) else map[]
    ensures UsageAt(KeepHistory(t.history, cutoff), (d, b))
         == if b >= cutoff then UsageAt(t.history, (d, b)) else NO_USAGE
  {
  }

  lemma RetainedKeeps(t: Tables, now: Time)
    ensures AllBalanced(t) ==> AllBalanced(Retained(t, now))
    ensures HistoryAgrees(t) ==> HistoryAgrees(Retained(t, now))
  {
    if HistoryAgrees(t) {
      forall d, b
        ensures BucketAgrees(Retained(t, now), d, b)
      {
        assert BucketAgrees(t, d, b);
        KeptBucket(t, Before(now, HISTORY_RETENTION), d, b);
      }
    }
  }

  /** No history row that the cutoff removes holds bytes. */
  ghost predicate NothingBefore(t: Tables, cutoff: Time) {
    forall d, b: Time :: b < cutoff ==> UsageAt(t.history, (d, b)).bytes == 0
  }

  /** A purge keeps the two histories equal exactly when both their deletes succeed, or
      both fail, or there was nothing to delete. */
  lemma PurgeHistoryIff(t: Tables, cutoff: Time, ok: Deletes)
    requires HistoryAgrees(t)
    ensures HistoryAgrees(Purged(t, cutoff, ok)) <==> ok.history == ok.siteHistory || NothingBefore(t, cutoff)
  {
    var t' := Purged(t, cutoff, ok);
    forall d, b: Time
      ensures BucketAgrees(t', d, b)
         <==> ok.history == ok.siteHistory || b >= cutoff || UsageAt(t.history, (d, b)).bytes == 0
    {
      assert BucketAgrees(t, d, b);
      KeptBucket(t, cutoff, d, b);
    }
    if HistoryAgrees(t') && ok.history != ok.siteHistory {
      forall d, b: Time | b < cutoff
        ensures UsageAt(t.history, (d, b)).bytes == 0
      {
        assert BucketAgrees(t', d, b);
      }
    }
  }

  /** Of a device that the purge deletes it leaves no site with bytes. */
  ghost predicate OrphansNoSite(t: Tables, cutoff: Time, ok: Deletes) {
    forall k :: k in t.deviceSites && t.deviceSites[k].bytes > 0 && DeletesDevice(t, cutoff, ok, k.0) ==>
      ok.deviceSites && t.deviceSites[k].updatedAt < cutoff
  }

  predicate DeletesDevice(t: Tables, cutoff: Time, ok: Deletes, d: Device) {
    ok.devices && d in t.devices && t.devices[d].updatedAt < cutoff
  }

  lemma {:induction false} SumIsZeroIff<K(!new)>(m: map<K, nat>)
    ensures Sum(m) == 0 <==> forall k :: k in m ==> m[k] == 0
    decreases |m|
  {
    forall k | k in m {
      SumAtLeast(m, k);
    }
    if m != map[] {
      var k :| k in m;
      SumPick(m, k);
      SumIsZeroIff(m - {k});
    }
  }

  /** A purge keeps devices above their sites exactly when it orphans no site's bytes. */
  lemma PurgeBoundsIff(t: Tables, cutoff: Time, ok: Deletes)
    requires DevicesAbove(t)
    ensures DevicesAbove(Purged(t, cutoff, ok)) <==> OrphansNoSite(t, cutoff, ok)
  {
    var t' := Purged(t, cutoff, ok);
    if OrphansNoSite(t, cutoff, ok) {
      forall d
        ensures DeviceBounds(t', d)
      {
        assert DeviceBounds(t, d);
        SumMonotone(SitesOf(t'.deviceSites, d), SitesOf(t.deviceSites, d));
        SumIsZeroIff(SitesOf(t'.deviceSites, d));
      }
    }
    if DevicesAbove(t') {
      forall k | k in t.deviceSites && t.deviceSites[k].bytes > 0 && DeletesDevice(t, cutoff, ok, k.0)
        ensures ok.deviceSites && t.deviceSites[k].updatedAt < cutoff
      {
        assert DeviceBounds(t', k.0);
        SumAtLeast(SitesOf(t'.deviceSites, k.0), k);
      }
    }
  }

  /** With the newest row a device goes last, so that nothing of it is orphaned. */
  lemma PurgeStaysBounded(t: Tables, clock: Time, cutoff: Time, ok: Deletes)
    requires Bounded(t, clock) && (ok.devices ==> ok.deviceSites)
    ensures OrphansNoSite(t, cutoff, ok) && Bounded(Purged(t, cutoff, ok), clock)
  {
    assert OrphansNoSite(t, cutoff, ok);
    PurgeBoundsIff(t, cutoff, ok);
  }

  /** Each statement of a purge keeps exactly the rows dated at or after the cutoff, and leaves
      its table alone if it fails. */
  lemma PurgeKeepsNewer(t: Tables, cutoff: Time, ok: Deletes)
    ensures Purged(t, cutoff, ok).connections
         == map k | k in t.connections && (ok.connections ==> t.connections[k].lastSeen >= cutoff) :: t.connections[k]
    ensures Purged(t, cutoff, ok).sites
         == map k | k in t.sites && (ok.sites ==> t.sites[k].updatedAt >= cutoff) :: t.sites[k]
    ensures Purged(t, cutoff, ok).devices
         == map k | k in t.devices && (ok.devices ==> t.devices[k].updatedAt >= cutoff) :: t.devices[k]
    ensures Purged(t, cutoff, ok).deviceSites
         == map k | k in t.deviceSites && (ok.deviceSites ==> t.deviceSites[k].updatedAt >= cutoff) :: t.deviceSites[k]
    ensures Purged(t, cutoff, ok).history
         == map k | k in t.history && (ok.history ==> k.1 >= cutoff) :: t.history[k]
    ensures Purged(t, cutoff, ok).siteHistory
         == map k | k in t.siteHistory && (ok.siteHistory ==> k.2 >= cutoff) :: t.siteHistory[k]
  {
  }

  // ----- runs -----

  datatype Event =
    | Sample(connections: seq<Connection>, now: Time, commits: bool)
    | Purge(cutoff: Time, deletes: Deletes)
    | Reset(commits: bool)

  ghost function After(t: Tables, e: Event): Tables {
    match e
    case Sample(cs, now, commits) => if commits then Retained(AfterConnections(t, cs, now), now) else t
    case Purge(cutoff, ok) => Purged(t, cutoff, ok)
    case Reset(commits) => if commits then EMPTY else t
  }

  ghost function AfterAll(t: Tables, es: seq<Event>): Tables {
    if es == [] then t else After(AfterAll(t, es[..|es| - 1]), es[|es| - 1])
  }

  lemma EmptyAgrees()
    ensures AllBalanced(EMPTY) && HistoryAgrees(EMPTY) && TotalsAgree(EMPTY) && Bounded(EMPTY, 0)
  {
    assert forall d, b :: SitesInBucket(EMPTY.siteHistory, d, b) == map[];
    assert forall d :: SitesOf(EMPTY.deviceSites, d) == map[];
    assert forall s :: DevicesOf(EMPTY.deviceSites, s) == map[];
    assert Bytes(EMPTY.sites) == map[] && DeviceBytes(EMPTY.devices) == map[] && Bytes(EMPTY.deviceSites) == map[];
  }

  lemma ConnectionKeeps(t: Tables, c: Connection, now: Time, clock: Time)
    ensures AllBalanced(t) ==> AllBalanced(AfterConnection(t, c, now))
    ensures HistoryAgrees(t) ==> HistoryAgrees(AfterConnection(t, c, now))
    ensures TotalsAgree(t) ==> TotalsAgree(AfterConnection(t, c, now))
    ensures Bounded(t, clock) && clock <= now ==> Bounded(AfterConnection(t, c, now), now)
    ensures DevicesAbove(t) ==> DevicesAbove(AfterConnection(t, c, now))
  {
    var seen := t.(connections := t.connections[c.key := TrackedConnection(c.bytes, c.packets, now)]);
    var d := DeltaOf(t, c);
    SameRows(t, seen, clock);
    if AllBalanced(t) {
      AddedBalances(seen, d, now);
    }
    if HistoryAgrees(t) {
      AddedHistory(seen, d, now);
    }
    if TotalsAgree(t) {
      AddedTotals(seen, d, now);
    }
    if Bounded(t, clock) && clock <= now {
      AddedBounds(seen, d, clock, now);
    }
    if DevicesAbove(t) {
      AddedStaysAbove(seen, d, now);
    }
  }

  /** Tables that differ in the tracked connections only agree alike. */
  lemma SameRows(t: Tables, t': Tables, clock: Time)
    requires t' == t.(connections := t'.connections)
    ensures AllBalanced(t') == AllBalanced(t)
    ensures HistoryAgrees(t) ==> HistoryAgrees(t')
    ensures TotalsAgree(t) ==> TotalsAgree(t')
    ensures Bounded(t, clock) ==> Bounded(t', clock)
    ensures DevicesAbove(t) ==> DevicesAbove(t')
  {
    assert HistoryAgrees(t) ==> forall d, b :: BucketAgrees(t, d, b) ==> BucketAgrees(t', d, b);
    assert TotalsAgree(t) ==> forall d :: DeviceAgrees(t, d) ==> DeviceAgrees(t', d);
    assert TotalsAgree(t) ==> forall s :: SiteAgrees(t, s) ==> SiteAgrees(t', s);
    assert DevicesAbove(t) ==> forall d :: DeviceBounds(t, d) ==> DeviceBounds(t', d);
  }

  lemma {:induction false} ConnectionsKeep(t: Tables, cs: seq<Connection>, now: Time, clock: Time)
    ensures AllBalanced(t) ==> AllBalanced(AfterConnections(t, cs, now))
    ensures HistoryAgrees(t) ==> HistoryAgrees(AfterConnections(t, cs, now))
    ensures TotalsAgree(t) ==> TotalsAgree(AfterConnections(t, cs, now))
    ensures Bounded(t, clock) && clock <= now ==> Bounded(AfterConnections(t, cs, now), now)
    ensures DevicesAbove(t) ==> DevicesAbove(AfterConnections(t, cs, now))
  {
    hide AllBalanced, HistoryAgrees, TotalsAgree, DevicesAbove;
    if cs != [] {
      ConnectionsKeep(t, cs[..|cs| - 1], now, clock);
      ConnectionKeeps(AfterConnections(t, cs[..|cs| - 1], now), cs[|cs| - 1], now, now);
    }
  }

  lemma SampleKeeps(t: Tables, cs: seq<Connection>, now: Time, clock: Time)
    ensures
      var t' := Retained(AfterConnections(t, cs, now), now);
      && (AllBalanced(t) ==> AllBalanced(t')) && (HistoryAgrees(t) ==> HistoryAgrees(t'))
      && (TotalsAgree(t) ==> TotalsAgree(t'))
      && (Bounded(t, clock) && clock <= now ==> Bounded(t', now)) && (DevicesAbove(t) ==> DevicesAbove(t'))
  {
    var mid := AfterConnections(t, cs, now);
    ConnectionsKeep(t, cs, now, clock);
    RetainedKeeps(mid, now);
    SameTotals(mid, Retained(mid, now), now);
  }

  lemma SameTotals(t: Tables, t': Tables, clock: Time)
    requires t'.sites == t.sites && t'.devices == t.devices && t'.deviceSites == t.deviceSites
    ensures TotalsAgree(t) ==> TotalsAgree(t')
    ensures Bounded(t, clock) ==> Bounded(t', clock)
    ensures DevicesAbove(t) ==> DevicesAbove(t')
  {
    assert TotalsAgree(t) ==> forall d :: DeviceAgrees(t, d) ==> DeviceAgrees(t', d);
    assert TotalsAgree(t) ==> forall s :: SiteAgrees(t, s) ==> SiteAgrees(t', s);
    assert DevicesAbove(t) ==> forall d :: DeviceBounds(t, d) ==> DeviceBounds(t', d);
  }

  /** On every run tunneled and direct bytes make up each device and history row. */
  lemma {:induction false} RunsBalance(es: seq<Event>)
    ensures AllBalanced(AfterAll(EMPTY, es))
  {
    if es == [] {
      EmptyAgrees();
    } else {
      RunsBalance(es[..|es| - 1]);
      var t, last := AfterAll(EMPTY, es[..|es| - 1]), es[|es| - 1];
      if last.Sample? {
        SampleKeeps(t, last.connections, last.now, 0);
      }
    }
  }

  ghost predicate KeepsHistory(t: Tables, e: Event) {
    e.Purge? ==> e.deletes.history == e.deletes.siteHistory || NothingBefore(t, e.cutoff)
  }

  lemma HistoryStepIff(t: Tables, e: Event)
    requires HistoryAgrees(t)
    ensures HistoryAgrees(After(t, e)) <==> KeepsHistory(t, e)
  {
    match e
    case Sample(cs, now, _) => SampleKeeps(t, cs, now, 0);
    case Purge(cutoff, ok) => PurgeHistoryIff(t, cutoff, ok);
    case Reset(_) => EmptyAgrees();
  }

  /** Throughout a run each history row is the sum of its sites' rows exactly if every purge
      deletes both histories or neither, or finds nothing to delete. */
  lemma {:induction false} RunsKeepHistoryIff(es: seq<Event>)
    ensures (forall i :: 0 <= i <= |es| ==> HistoryAgrees(AfterAll(EMPTY, es[..i])))
       <==> forall i :: 0 <= i < |es| ==> KeepsHistory(AfterAll(EMPTY, es[..i]), es[i])
  {
    hide HistoryAgrees, KeepsHistory, After, AfterAll;
    if es == [] {
      NoEvents();
      assert es[..0] == [];
    } else {
      var n := |es| - 1;
      RunsKeepHistoryIff(es[..n]);
      RunPrefixes(es);
      if forall i :: 0 <= i <= n ==> HistoryAgrees(AfterAll(EMPTY, es[..i])) {
        HistoryStepIff(AfterAll(EMPTY, es[..n]), es[n]);
      }
    }
  }

  lemma NoEvents()
    ensures AfterAll(EMPTY, []) == EMPTY && HistoryAgrees(EMPTY) && DevicesAbove(EMPTY)
  {
    EmptyAgrees();
  }

  lemma RunPrefixes(es: seq<Event>)
    requires es != []
    ensures es[..|es|] == es && AfterAll(EMPTY, es) == After(AfterAll(EMPTY, es[..|es| - 1]), es[|es| - 1])
    ensures forall i :: 0 <= i < |es| ==> es[..|es| - 1][..i] == es[..i]
  {
  }

  ghost predicate KeepsAbove(t: Tables, e: Event) {
    e.Purge? ==> OrphansNoSite(t, e.cutoff, e.deletes)
  }

  lemma AboveStepIff(t: Tables, e: Event)
    requires DevicesAbove(t)
    ensures DevicesAbove(After(t, e)) <==> KeepsAbove(t, e)
  {
    match e
    case Sample(cs, now, _) => SampleKeeps(t, cs, now, 0);
    case Purge(cutoff, ok) => PurgeBoundsIff(t, cutoff, ok);
    case Reset(_) =>
      EmptyAgrees();
  }

  /** Throughout a run, in whatever order its times come, no device's sites add up to more
      than the device exactly if no purge orphans a site's bytes. */
  lemma {:induction false} RunsStayAboveIff(es: seq<Event>)
    ensures (forall i :: 0 <= i <= |es| ==> DevicesAbove(AfterAll(EMPTY, es[..i])))
       <==> forall i :: 0 <= i < |es| ==> KeepsAbove(AfterAll(EMPTY, es[..i]), es[i])
  {
    hide DevicesAbove, KeepsAbove, After, AfterAll;
    if es == [] {
      NoEvents();
      assert es[..0] == [];
    } else {
      var n := |es| - 1;
      RunsStayAboveIff(es[..n]);
      RunPrefixes(es);
      if forall i :: 0 <= i <= n ==> DevicesAbove(AfterAll(EMPTY, es[..i])) {
        AboveStepIff(AfterAll(EMPTY, es[..n]), es[n]);
      }
    }
  }

  /** On every run without a purge the site, device and device-site tables hold the same
      bytes, per site, per device and overall. */
  lemma {:induction false} RunsConserve(es: seq<Event>)
    requires forall e :: e in es ==> !e.Purge?
    ensures TotalsAgree(AfterAll(EMPTY, es))
  {
    if es == [] {
      EmptyAgrees();
    } else {
      var init, last := es[..|es| - 1], es[|es| - 1];
      assert es == init + [last];
      RunsConserve(init);
      if last.Sample? {
        SampleKeeps(AfterAll(EMPTY, init), last.connections, last.now, 0);
      } else {
        EmptyAgrees();
      }
    }
  }

  ghost predicate InOrder(es: seq<Event>, until: Time) {
    && (forall i, j :: 0 <= i < j < |es| && es[i].Sample? && es[j].Sample? ==> es[i].now <= es[j].now)
    && forall e :: e in es && e.Sample? ==> e.now <= until
  }

  /** On every run with samples in order of time, whose purges never delete the devices
      alone, a device's sites never add up to more than the device. */
  lemma {:induction false} RunsStayBounded(es: seq<Event>, until: Time)
    requires InOrder(es, until)
    requires forall e :: e in es && e.Purge? && e.deletes.devices ==> e.deletes.deviceSites
    ensures Bounded(AfterAll(EMPTY, es), until)
  {
    if es == [] {
      EmptyAgrees();
    } else {
      var init, last := es[..|es| - 1], es[|es| - 1];
      assert es == init + [last];
      var t := AfterAll(EMPTY, init);
      var reached := if last.Sample? then last.now else until;
      assert forall e :: e in init && e.Sample? ==> e.now <= reached;
      RunsStayBounded(init, reached);
      match last
      case Sample(cs, now, _) =>
        SampleKeeps(t, cs, now, now);
      case Purge(cutoff, ok) => PurgeStaysBounded(t, until, cutoff, ok);
      case Reset(_) =>
        EmptyAgrees();
    }
  }

  // ----- what the rows hold: the growth of the connections -----

  /** What a row is kept of. */
  datatype Part =
    | OfDevice(d: Device)
    | Tunneled(d: Device)
    | Direct(d: Device)
    | OfSite(s: Site)
    | OfBoth(d: Device, s: Site)

  predicate Belongs(c: Connection, part: Part) {
    match part
    case OfDevice(d) => c.device == d
    case Tunneled(d) => c.device == d && c.viaTunnel
    case Direct(d) => c.device == d && !c.viaTunnel
    case OfSite(s) => c.site == s
    case OfBoth(d, s) => c.device == d && c.site == s
  }

  datatype Amount = Amount(bytes: nat, packets: nat)

  const NOTHING := Amount(0, 0)

  /** The last reading of a connection in one sample. */
  ghost function LastIn(cs: seq<Connection>, key: string): Option<Amount> {
    if cs == [] then None
    else if cs[|cs| - 1].key == key then Some(Amount(cs[|cs| - 1].bytes, cs[|cs| - 1].packets))
    else LastIn(cs[..|cs| - 1], key)
  }

  datatype Reading = Reading(amount: Amount, at: Time)

  /** The last reading of a connection in a run: one older than a day when a sample is stored
      is forgotten. */
  ghost function LastReading(es: seq<Event>, key: string): Option<Reading> {
    if es == [] then None
    else
      var before := LastReading(es[..|es| - 1], key);
      match es[|es| - 1]
      case Sample(cs, now, commits) =>
        if !commits then before
        else
          var last := if LastIn(cs, key).Some? then Some(Reading(LastIn(cs, key).value, now)) else before;
          if last.Some? && now <= last.value.at + 86400 then last else None
      case Purge(_, _) => before
      case Reset(commits) => if commits then None else before
  }

  /** The counters of a connection before it is read in a sample, at 0 if it is new. */
  ghost function ReadBefore(es: seq<Event>, earlier: seq<Connection>, key: string): Amount {
    if LastIn(earlier, key).Some? then LastIn(earlier, key).value
    else if LastReading(es, key).Some? then LastReading(es, key).value.amount
    else NOTHING
  }

  /** How much a connection grew since it was read before. A counter that fell has started
      anew. */
  ghost function GrownBy(before: Amount, c: Connection): Amount {
    Amount(if c.bytes < before.bytes then c.bytes else c.bytes - before.bytes,
           if c.packets < before.packets then c.packets else c.packets - before.packets)
  }

  ghost function AddAmounts(a: Amount, b: Amount): Amount {
    Amount(a.bytes + b.bytes, a.packets + b.packets)
  }

  /** How much the connections of a part grew from the run before to the sample. */
  ghost function SampleGrowth(es: seq<Event>, cs: seq<Connection>, part: Part): Amount {
    if cs == [] then NOTHING
    else
      var init, c := cs[..|cs| - 1], cs[|cs| - 1];
      AddAmounts(SampleGrowth(es, init, part),
           if Belongs(c, part) then GrownBy(ReadBefore(es, init, c.key), c) else NOTHING)
  }

  /** How much they grew over a run, since the last reset. */
  ghost function Growth(es: seq<Event>, part: Part): Amount {
    if es == [] then NOTHING
    else
      var init := es[..|es| - 1];
      match es[|es| - 1]
      case Sample(cs, _, commits) =>
        AddAmounts(Growth(init, part), if commits then SampleGrowth(init, cs, part) else NOTHING)
      case Purge(_, _) => Growth(init, part)
      case Reset(commits) => if commits then NOTHING else Growth(init, part)
  }

  /** How much they grew in the minute that starts at `b`, kept for thirty days. */
  ghost function MinuteGrowth(es: seq<Event>, part: Part, b: Time): Amount {
    if es == [] then NOTHING
    else
      var init := es[..|es| - 1];
      match es[|es| - 1]
      case Sample(cs, now, commits) =>
        var more := if commits && b % 60 == 0 && b <= now < b + 60 then SampleGrowth(init, cs, part) else NOTHING;
        if commits && b + 30 * 86400 < now then NOTHING
        else AddAmounts(MinuteGrowth(init, part, b), more)
      case Purge(_, _) => MinuteGrowth(init, part, b)
      case Reset(commits) => if commits then NOTHING else MinuteGrowth(init, part, b)
  }

  /** The bytes that the tables hold of a part. */
  ghost function HeldBytes(t: Tables, part: Part): nat {
    match part
    case OfDevice(d) => DeviceAt(t.devices, d).bytes
    case Tunneled(d) => DeviceAt(t.devices, d).tunneled
    case Direct(d) => DeviceAt(t.devices, d).direct
    case OfSite(s) => RowAt(t.sites, s).bytes
    case OfBoth(d, s) => RowAt(t.deviceSites, (d, s)).bytes
  }

  ghost function HeldPackets(t: Tables, part: Part): nat
    requires !part.Tunneled? && !part.Direct?
  {
    match part
    case OfDevice(d) => DeviceAt(t.devices, d).packets
    case OfSite(s) => RowAt(t.sites, s).packets
    case OfBoth(d, s) => RowAt(t.deviceSites, (d, s)).packets
  }

  ghost function HeldBytesAt(t: Tables, part: Part, b: Time): nat
    requires !part.OfSite?
  {
    match part
    case OfDevice(d) => UsageAt(t.history, (d, b)).bytes
    case Tunneled(d) => UsageAt(t.history, (d, b)).tunneled
    case Direct(d) => UsageAt(t.history, (d, b)).direct
    case OfBoth(d, s) => RowAt(t.siteHistory, (d, s, b)).bytes
  }

  ghost function HeldPacketsAt(t: Tables, part: Part, b: Time): nat
    requires part.OfDevice? || part.OfBoth?
  {
    match part
    case OfDevice(d) => UsageAt(t.history, (d, b)).packets
    case OfBoth(d, s) => RowAt(t.siteHistory, (d, s, b)).packets
  }

  /** What the tables hold of a part, overall and per minute, is `more` beyond `before`. */
  ghost predicate HoldsMore(before: Tables, t: Tables, part: Part, more: Amount) {
    && HeldBytes(t, part) == HeldBytes(before, part) + more.bytes
    && (!part.Tunneled? && !part.Direct? ==> HeldPackets(t, part) == HeldPackets(before, part) + more.packets)
  }

  ghost predicate HoldsMoreAt(before: Tables, t: Tables, part: Part, b: Time, more: Amount) {
    && (!part.OfSite? ==> HeldBytesAt(t, part, b) == HeldBytesAt(before, part, b) + more.bytes)
    && (part.OfDevice? || part.OfBoth? ==> HeldPacketsAt(t, part, b) == HeldPacketsAt(before, part, b) + more.packets)
  }

  function DeltaAmount(t: Tables, c: Connection): Amount {
    Amount(DeltaOf(t, c).bytes, DeltaOf(t, c).packets)
  }

  lemma ConnectionAdds(t: Tables, c: Connection, now: Time, part: Part)
    ensures HoldsMore(t, AfterConnection(t, c, now), part, if Belongs(c, part) then DeltaAmount(t, c) else NOTHING)
  {
  }

  lemma BucketIff(now: Time, b: Time)
    ensures BucketAt(now) == b <==> b % 60 == 0 && b <= now < b + 60
  {
  }

  lemma ConnectionAddsAt(t: Tables, c: Connection, now: Time, part: Part, b: Time)
    ensures
      var here := Belongs(c, part) && b % 60 == 0 && b <= now < b + 60;
      HoldsMoreAt(t, AfterConnection(t, c, now), part, b, if here then DeltaAmount(t, c) else NOTHING)
  {
    hide BucketAt, CounterDelta;
    BucketIff(now, b);
  }

  /** The tables track each connection at its last reading. */
  ghost predicate TracksAt(t: Tables, es: seq<Event>, cs: seq<Connection>, key: string) {
    && (key in t.connections <==> LastIn(cs, key).Some? || LastReading(es, key).Some?)
    && (key in t.connections ==>
          Amount(t.connections[key].bytes, t.connections[key].packets) == ReadBefore(es, cs, key))
  }

  ghost predicate Tracks(t: Tables, es: seq<Event>, cs: seq<Connection>) {
    forall key :: TracksAt(t, es, cs, key)
  }

  lemma ConnectionTracks(t: Tables, es: seq<Event>, cs: seq<Connection>, c: Connection, now: Time)
    requires Tracks(t, es, cs)
    ensures Tracks(AfterConnection(t, c, now), es, cs + [c])
    ensures DeltaAmount(t, c) == GrownBy(ReadBefore(es, cs, c.key), c)
  {
    assert TracksAt(t, es, cs, c.key);
    assert (cs + [c])[..|cs|] == cs;
    forall key
      ensures TracksAt(AfterConnection(t, c, now), es, cs + [c], key)
    {
      assert TracksAt(t, es, cs, key);
    }
  }

  lemma {:induction false} ConnectionsTrack(t: Tables, es: seq<Event>, cs: seq<Connection>, now: Time)
    requires Tracks(t, es, [])
    ensures Tracks(AfterConnections(t, cs, now), es, cs)
  {
    if cs != [] {
      hide Tracks, AfterConnection;
      assert cs == cs[..|cs| - 1] + [cs[|cs| - 1]];
      ConnectionsTrack(t, es, cs[..|cs| - 1], now);
      ConnectionTracks(AfterConnections(t, cs[..|cs| - 1], now), es, cs[..|cs| - 1], cs[|cs| - 1], now);
    }
  }

  lemma MoreTwice(before: Tables, mid: Tables, after: Tables, part: Part, b: Time, x: Amount, y: Amount)
    ensures HoldsMore(before, mid, part, x) && HoldsMore(mid, after, part, y) ==>
      HoldsMore(before, after, part, AddAmounts(x, y))
    ensures HoldsMoreAt(before, mid, part, b, x) && HoldsMoreAt(mid, after, part, b, y) ==>
      HoldsMoreAt(before, after, part, b, AddAmounts(x, y))
    ensures HoldsMore(before, before, part, NOTHING) && HoldsMoreAt(before, before, part, b, NOTHING)
  {
  }

  ghost function GrowthHere(es: seq<Event>, cs: seq<Connection>, now: Time, part: Part, b: Time): Amount {
    if b % 60 == 0 && b <= now < b + 60 then SampleGrowth(es, cs, part) else NOTHING
  }

  lemma AddNothing(a: Amount)
    ensures AddAmounts(a, NOTHING) == a
  {
  }

  lemma {:induction false} GrowthMore(t: Tables, es: seq<Event>, cs: seq<Connection>, c: Connection, now: Time,
      part: Part, b: Time)
    requires Tracks(t, es, cs)
    ensures
      var more := if Belongs(c, part) then DeltaAmount(t, c) else NOTHING;
      var here := if b % 60 == 0 && b <= now < b + 60 then more else NOTHING;
      && SampleGrowth(es, cs + [c], part) == AddAmounts(SampleGrowth(es, cs, part), more)
      && GrowthHere(es, cs + [c], now, part, b) == AddAmounts(GrowthHere(es, cs, now, part, b), here)
  {
    hide Tracks, AfterConnection, DeltaAmount, ReadBefore, Belongs, GrownBy, AddAmounts;
    ConnectionTracks(t, es, cs, c, now);
    assert (cs + [c])[..|cs|] == cs;
    AddNothing(NOTHING);
  }

  /** Folding a sample adds the growth of its connections to each row. */
  lemma {:induction false} ConnectionsAdd(t: Tables, es: seq<Event>, cs: seq<Connection>, now: Time, part: Part,
      b: Time)
    requires Tracks(t, es, [])
    ensures HoldsMore(t, AfterConnections(t, cs, now), part, SampleGrowth(es, cs, part))
    ensures HoldsMoreAt(t, AfterConnections(t, cs, now), part, b, GrowthHere(es, cs, now, part, b))
  {
    hide Tracks, DeltaAmount, AfterConnection, ReadBefore, HoldsMore, HoldsMoreAt, Belongs, AddAmounts;
    if cs == [] {
      MoreTwice(t, t, t, part, b, NOTHING, NOTHING);
    } else {
      var init, c := cs[..|cs| - 1], cs[|cs| - 1];
      assert cs == init + [c];
      ConnectionsAdd(t, es, init, now, part, b);
      hide SampleGrowth, GrowthHere;
      ConnectionsTrack(t, es, init, now);
      var mid := AfterConnections(t, init, now);
      GrowthMore(mid, es, init, c, now, part, b);
      ConnectionAdds(mid, c, now, part);
      ConnectionAddsAt(mid, c, now, part, b);
      var more := if Belongs(c, part) then DeltaAmount(mid, c) else NOTHING;
      var here := if b % 60 == 0 && b <= now < b + 60 then more else NOTHING;
      MoreTwice(t, mid, AfterConnections(t, cs, now), part, b, SampleGrowth(es, init, part), more);
      MoreTwice(t, mid, AfterConnections(t, cs, now), part, b, GrowthHere(es, init, now, part, b), here);
    }
  }

  /** Each connection is tracked since when it was last read. */
  ghost predicate DatedAt(t: Tables, es: seq<Event>, key: string) {
    key in t.connections ==>
      LastReading(es, key).Some? && t.connections[key].lastSeen == LastReading(es, key).value.at
  }

  ghost predicate Dated(t: Tables, es: seq<Event>) {
    forall key :: DatedAt(t, es, key)
  }

  lemma {:induction false} SeenNow(t: Tables, cs: seq<Connection>, now: Time, key: string)
    ensures key in AfterConnections(t, cs, now).connections <==> LastIn(cs, key).Some? || key in t.connections
    ensures key in AfterConnections(t, cs, now).connections ==>
      AfterConnections(t, cs, now).connections[key].lastSeen
        == if LastIn(cs, key).Some? then now else t.connections[key].lastSeen
  {
    if cs != [] {
      SeenNow(t, cs[..|cs| - 1], now, key);
    }
  }

  lemma SampleTracksAt(t: Tables, es: seq<Event>, cs: seq<Connection>, now: Time, key: string)
    requires Tracks(t, es, []) && Dated(t, es)
    ensures
      var e := Sample(cs, now, true);
      TracksAt(After(t, e), es + [e], [], key) && DatedAt(After(t, e), es + [e], key)
  {
    hide AfterConnections;
    ConnectionsTrack(t, es, cs, now);
    assert TracksAt(t, es, [], key) && DatedAt(t, es, key);
    assert TracksAt(AfterConnections(t, cs, now), es, cs, key);
    hide Tracks, Dated;
    SeenNow(t, cs, now, key);
    var more := es + [Sample(cs, now, true)];
    assert more[..|es|] == es;
  }

  lemma EventTracks(t: Tables, es: seq<Event>, e: Event)
    requires Tracks(t, es, []) && Dated(t, es) && !e.Purge?
    ensures Tracks(After(t, e), es + [e], []) && Dated(After(t, e), es + [e])
  {
    hide AfterConnections, Retained;
    var more := es + [e];
    assert more[..|es|] == es;
    forall key
      ensures TracksAt(After(t, e), more, [], key) && DatedAt(After(t, e), more, key)
    {
      if e.Sample? && e.commits {
        SampleTracksAt(t, es, e.connections, e.now, key);
      } else {
        assert TracksAt(t, es, [], key) && DatedAt(t, es, key);
      }
    }
  }

  lemma {:induction false} RunsTrack(es: seq<Event>)
    requires forall e :: e in es ==> !e.Purge?
    ensures Tracks(AfterAll(EMPTY, es), es, []) && Dated(AfterAll(EMPTY, es), es)
  {
    if es != [] {
      hide Tracks, Dated, After;
      var n := |es| - 1;
      assert es == es[..n] + [es[n]];
      RunsTrack(es[..n]);
      EventTracks(AfterAll(EMPTY, es[..n]), es[..n], es[n]);
    }
  }

  lemma KeptMinute(t: Tables, now: Time, part: Part, b: Time)
    ensures HoldsMore(t, Retained(t, now), part, NOTHING)
    ensures HoldsMoreAt(if b + 30 * 86400 < now then EMPTY else t, Retained(t, now), part, b, NOTHING)
  {
  }

  /** What a stored sample leaves of a part. */
  lemma SampleHolds(t: Tables, es: seq<Event>, cs: seq<Connection>, now: Time, part: Part, b: Time,
      x: Amount, y: Amount)
    requires Tracks(t, es, [])
    requires HoldsMore(EMPTY, t, part, x) && HoldsMoreAt(EMPTY, t, part, b, y)
    ensures
      var t' := Retained(AfterConnections(t, cs, now), now);
      && HoldsMore(EMPTY, t', part, AddAmounts(x, SampleGrowth(es, cs, part)))
      && HoldsMoreAt(EMPTY, t', part, b,
           if b + 30 * 86400 < now then NOTHING else AddAmounts(y, GrowthHere(es, cs, now, part, b)))
  {
    hide Tracks, Retained, AfterConnections, HoldsMore, HoldsMoreAt, AddAmounts, SampleGrowth, GrowthHere;
    var mid := AfterConnections(t, cs, now);
    ConnectionsAdd(t, es, cs, now, part, b);
    MoreTwice(EMPTY, t, mid, part, b, x, SampleGrowth(es, cs, part));
    MoreTwice(EMPTY, t, mid, part, b, y, GrowthHere(es, cs, now, part, b));
    KeptMinute(mid, now, part, b);
    MoreTwice(EMPTY, mid, Retained(mid, now), part, b, AddAmounts(x, SampleGrowth(es, cs, part)), NOTHING);
    MoreTwice(EMPTY, mid, Retained(mid, now), part, b, AddAmounts(y, GrowthHere(es, cs, now, part, b)), NOTHING);
    AddNothing(AddAmounts(x, SampleGrowth(es, cs, part)));
    AddNothing(AddAmounts(y, GrowthHere(es, cs, now, part, b)));
  }

  /** On every run without a purge each row holds what its connections grew by between the
      samples since the last reset: a device's tunneled bytes those of its tunneled
      connections, its direct bytes those of the others; and likewise per minute. */
  lemma {:induction false} RunsHoldGrowth(es: seq<Event>, part: Part, b: Time)
    requires forall e :: e in es ==> !e.Purge?
    ensures HoldsMore(EMPTY, AfterAll(EMPTY, es), part, Growth(es, part))
    ensures HoldsMoreAt(EMPTY, AfterAll(EMPTY, es), part, b, MinuteGrowth(es, part, b))
  {
    hide Tracks, Dated, SampleGrowth, HoldsMore, HoldsMoreAt, AddAmounts, Retained, AfterConnections;
    MoreTwice(EMPTY, EMPTY, EMPTY, part, b, NOTHING, NOTHING);
    if es != [] {
      var init, e := es[..|es| - 1], es[|es| - 1];
      assert es == init + [e];
      var t := AfterAll(EMPTY, init);
      RunsHoldGrowth(init, part, b);
      AddNothing(Growth(init, part));
      AddNothing(MinuteGrowth(init, part, b));
      if e.Sample? && e.commits {
        RunsTrack(init);
        SampleHolds(t, init, e.connections, e.now, part, b, Growth(init, part), MinuteGrowth(init, part, b));
      }
    }
  }

  // ----- purges that go wrong -----

  /** The tables after the first sample, of one connection with bytes. */
  lemma FirstSample(c: Connection, now: Time)
    requires c.bytes > 0
    ensures
      var t := AfterAll(EMPTY, [Sample([c], now, true)]);
      && t.connections.Keys == {c.key} && t.devices.Keys == {c.device} && t.devices[c.device].updatedAt == now
      && t.deviceSites == map[(c.device, c.site) := Row(c.bytes, c.packets, now)]
      && UsageAt(t.history, (c.device, BucketAt(now))).bytes == c.bytes
  {
    assert [c][..0] == [];
    assert AfterConnections(EMPTY, [], now) == EMPTY;
    var e := Sample([c], now, true);
    assert [e][..0] == [];
    assert AfterAll(EMPTY, [e]) == After(AfterAll(EMPTY, []), e);
    assert BucketAt(now) >= Before(now, HISTORY_RETENTION);
  }

  const ALL_DELETED := Deletes(true, true, true, true, true, true)

  /** One sample, and a purge that fails to delete the site history only: the site history
      then holds what no history row does. */
  lemma FailedDeleteSplitsHistory(c: Connection, now: Time, cutoff: Time)
    requires c.bytes > 0 && now < cutoff
    ensures
      var es := [Sample([c], now, true), Purge(cutoff, ALL_DELETED.(siteHistory := false))];
      !HistoryAgrees(AfterAll(EMPTY, es))
  {
    var e, ok := Sample([c], now, true), ALL_DELETED.(siteHistory := false);
    var t := AfterAll(EMPTY, [e]);
    hide HistoryAgrees;
    FirstSample(c, now);
    assert HistoryAgrees(t) by {
      FirstAgrees(c, now);
    }
    PurgeHistoryIff(t, cutoff, ok);
    assert !NothingBefore(t, cutoff);
  }

  lemma FirstAgrees(c: Connection, now: Time)
    ensures HistoryAgrees(AfterAll(EMPTY, [Sample([c], now, true)]))
    ensures DevicesAbove(AfterAll(EMPTY, [Sample([c], now, true)]))
  {
    hide HistoryAgrees, DevicesAbove;
    EmptyAgrees();
    SampleKeeps(EMPTY, [c], now, 0);
  }

  lemma RunOf3(e: Event, f: Event, g: Event)
    ensures AfterAll(EMPTY, [e, f, g]) == After(AfterAll(EMPTY, [e, f]), g)
  {
    assert [e, f, g][..2] == [e, f];
  }

  /** One sample, and a purge that deletes the device but fails to delete its site. */
  lemma FailedDeleteOrphansSite(c: Connection, now: Time, cutoff: Time)
    requires c.bytes > 0 && now < cutoff
    ensures
      var es := [Sample([c], now, true), Purge(cutoff, ALL_DELETED.(deviceSites := false))];
      !DevicesAbove(AfterAll(EMPTY, es))
  {
    var e, ok := Sample([c], now, true), ALL_DELETED.(deviceSites := false);
    var t := AfterAll(EMPTY, [e]);
    hide DevicesAbove;
    FirstSample(c, now);
    FirstAgrees(c, now);
    PurgeBoundsIff(t, cutoff, ok);
    assert (c.device, c.site) in t.deviceSites && DeletesDevice(t, cutoff, ok, c.device);
  }

  /** The clock goes back between two samples of a device: its row gets older than that of
      the first site, so that a purge in which every statement succeeds orphans the site. */
  lemma BackwardClockOrphansSite(c: Connection, later: Time, d: Connection, earlier: Time, cutoff: Time)
    requires c.bytes > 0 && d.bytes > 0 && c.device == d.device && c.site != d.site && c.key != d.key
    requires earlier < cutoff <= later
    ensures
      var es := [Sample([c], later, true), Sample([d], earlier, true), Purge(cutoff, ALL_DELETED)];
      !DevicesAbove(AfterAll(EMPTY, es))
  {
    var e, f := Sample([c], later, true), Sample([d], earlier, true);
    var t, t' := AfterAll(EMPTY, [e]), AfterAll(EMPTY, [e, f]);
    hide DevicesAbove;
    FirstSample(c, later);
    FirstAgrees(c, later);
    RunOf3(e, f, Purge(cutoff, ALL_DELETED));
    SampleKeeps(t, [d], earlier, 0);
    SecondSample(t, d, earlier);
    PurgeBoundsIff(t', cutoff, ALL_DELETED);
    assert (c.device, c.site) in t'.deviceSites && DeletesDevice(t', cutoff, ALL_DELETED, c.device);
  }

  lemma SecondSample(t: Tables, d: Connection, now: Time)
    requires d.bytes > 0 && d.key !in t.connections
    ensures
      var t' := After(t, Sample([d], now, true));
      && d.device in t'.devices && t'.devices[d.device].updatedAt == now
      && forall k :: k in t.deviceSites && k != (d.device, d.site) ==>
           k in t'.deviceSites && t'.deviceSites[k] == t.deviceSites[k]
  {
    assert [d][..0] == [];
    assert AfterConnections(t, [], now) == t;
    assert AfterConnections(t, [d], now) == AfterConnection(t, d, now);
  }

  class TrafficStore {
    var tables: Tables

    constructor ()
      ensures tables == EMPTY
    {
      tables := EMPTY;
    }

    /** Folds one sample of connections into every table, all of it or nothing. */
    method UpsertConnections(entries: seq<Connection>, now: Time, commits: bool)
      modifies this
      ensures tables == After(old(tables), Sample(entries, now, commits))
    {
      var t := tables;
      var bucket := BucketAt(now);
      for i := 0 to |entries|
        invariant t == AfterConnections(old(tables), entries[..i], now) && tables == old(tables)
      {
        assert entries[..i + 1][..i] == entries[..i];
        var entry := entries[i];
        var d := DeltaOf(t, entry);
        t := t.(connections := t.connections[entry.key := TrackedConnection(entry.bytes, entry.packets, now)]);
        if d.bytes == 0 && d.packets == 0 {
          continue;
        }
        t := t.(sites := t.sites[d.site := AddRow(RowAt(t.sites, d.site), d.bytes, d.packets, now)]);
        t := t.(devices := t.devices[d.device :=
          DeviceRow(AddUsage(DeviceAt(t.devices, d.device), d.bytes, d.packets, d.viaTunnel), now)]);
        t := t.(deviceSites := t.deviceSites[(d.device, d.site) :=
          AddRow(RowAt(t.deviceSites, (d.device, d.site)), d.bytes, d.packets, now)]);
        t := t.(history := t.history[(d.device, bucket) :=
          AddUsage(UsageAt(t.history, (d.device, bucket)), d.bytes, d.packets, d.viaTunnel)]);
        t := t.(siteHistory := t.siteHistory[(d.device, d.site, bucket) :=
          AddRow(RowAt(t.siteHistory, (d.device, d.site, bucket)), d.bytes, d.packets, bucket)]);
      }
      assert entries[..|entries|] == entries;
      if commits {
        tables := Retained(t, now);
      }
    }

    method PurgeOlderThan(cutoff: Time, ok: Deletes)
      modifies this
      ensures tables == After(old(tables), Purge(cutoff, ok))
    {
      var t := tables;
      if ok.sites {
        t := t.(sites := KeepRows(t.sites, cutoff));
      }
      if ok.connections {
        t := t.(connections := KeepConnections(t.connections, cutoff));
      }
      if ok.devices {
        t := t.(devices := KeepDevices(t.devices, cutoff));
      }
      if ok.deviceSites {
        t := t.(deviceSites := KeepRows(t.deviceSites, cutoff));
      }
      if ok.history {
        t := t.(history := KeepHistory(t.history, cutoff));
      }
      if ok.siteHistory {
        t := t.(siteHistory := KeepSiteHistory(t.siteHistory, cutoff));
      }
      tables := t;
    }

    method ResetAll(commits: bool)
      modifies this
      ensures tables == After(old(tables), Reset(commits))
    {
      if commits {
        tables := EMPTY;
      }
    }
  }
}
