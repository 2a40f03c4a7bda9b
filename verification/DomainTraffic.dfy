/** Per-domain traffic: kernel counters that may restart, the stored counter snapshots,
    and the totals accumulated from their differences. */
module DomainTraffic {
  import opened Config
  import opened Counters
  import opened Sums

  // ----- counter names -----

  function LastBar(s: string): (i: int)
    ensures -1 <= i < |s|
    ensures 0 <= i ==> s[i] == '|' && forall k :: i < k < |s| ==> s[k] != '|'
    ensures i < 0 ==> '|' !in s
  {
    if s == "" then -1 else if s[|s| - 1] == '|' then |s| - 1 else LastBar(s[..|s| - 1])
  }

  datatype Direction = Tagged | Untagged

  function SplitDirection(raw: string): (string, Direction) {
    var i := LastBar(raw);
    if i < 0 then (raw, Untagged)
    else if raw[i + 1..] == "up" || raw[i + 1..] == "dn" then (raw[..i], Tagged)
    else (raw, Untagged)
  }

  function DomainOf(raw: string): string {
    SplitDirection(raw).0
  }

  lemma TaggedBar(domain: string, tag: string)
    requires tag == "|up" || tag == "|dn"
    ensures LastBar(domain + tag) == |domain|
  {
    var s := domain + tag;
    assert s[|domain|] == '|' && s[|domain| + 1] != '|' && s[|domain| + 2] != '|';
  }

  /** A domain's counters are its upload and download ones, and its own name if that
      carries no tag. */
  lemma CountersOfDomain(raw: string, domain: string)
    ensures DomainOf(raw) == domain
       <==> raw == domain + "|up" || raw == domain + "|dn" || (raw == domain && SplitDirection(domain).1 == Untagged)
  {
    TaggedBar(domain, "|up");
    TaggedBar(domain, "|dn");
    var i := LastBar(raw);
    if 0 <= i {
      assert raw == raw[..i] + ['|'] + raw[i + 1..];
    }
  }

  // ----- the tables -----

  datatype Stat = Stat(key: string, bytes: nat, packets: nat)

  datatype Count = Count(bytes: nat, packets: nat)

  datatype Total = Total(bytes: nat, packets: nat, updatedAt: Time)

  datatype Tables = Tables(counters: map<string, Count>, totals: map<string, Total>)

  function Previous(t: Tables, key: string): Count {
    if key in t.counters then t.counters[key] else Count(0, 0)
  }

  function TotalOf(t: Tables, domain: string): nat {
    if domain in t.totals then t.totals[domain].bytes else 0
  }

  function PacketsOf(t: Tables, domain: string): nat {
    if domain in t.totals then t.totals[domain].packets else 0
  }

  predicate IsZero(s: Stat) {
    s.bytes == 0 && s.packets == 0
  }

  ghost function AfterStat(t: Tables, s: Stat, now: Time): Tables {
    if IsZero(s) then t
    else
      var domain, previous := DomainOf(s.key), Previous(t, s.key);
      var bytes, packets := CounterDelta(s.bytes, previous.bytes), CounterDelta(s.packets, previous.packets);
      Tables(
        t.counters[s.key := Count(s.bytes, s.packets)],
        if bytes == 0 && packets == 0 then t.totals
        else t.totals[domain := Total(TotalOf(t, domain) + bytes, PacketsOf(t, domain) + packets, now)])
  }

  ghost function AfterStats(t: Tables, stats: seq<Stat>, now: Time): Tables {
    if stats == [] then t
    else AfterStat(AfterStats(t, stats[..|stats| - 1], now), stats[|stats| - 1], now)
  }

  // ----- the ledger -----

  /** Ghost: per counter, its kernel value, all bytes it ever counted, those credited to a
      total that still stands, those dropped, and those credited once more. */
  datatype Ledger = Ledger(
    live: map<string, nat>, seen: map<string, nat>, credited: map<string, nat>,
    lost: map<string, nat>, over: map<string, nat>)

  /** Bytes that the next sample will credit. */
  ghost function Pending(t: Tables, l: Ledger, key: string): nat {
    CounterDelta(ValueAt(l.live, key), Previous(t, key).bytes)
  }

  ghost predicate Balanced(t: Tables, l: Ledger, key: string) {
    && ValueAt(l.credited, key) + Pending(t, l, key) + ValueAt(l.lost, key)
         == ValueAt(l.seen, key) + ValueAt(l.over, key)
    && ValueAt(l.live, key) <= ValueAt(l.seen, key)
  }

  ghost function DomainSum(m: map<string, nat>, domain: string): nat {
    ValueAt(m, domain + "|up") + ValueAt(m, domain + "|dn")
      + if SplitDirection(domain).1 == Untagged then ValueAt(m, domain) else 0
  }

  ghost predicate Credits(t: Tables, l: Ledger, domain: string) {
    TotalOf(t, domain) == DomainSum(l.credited, domain)
  }

  /** Every byte a counter counted, and every one credited once more, is credited, pending or
      lost, and every total is what its domain's counters were credited. */
  ghost predicate Accounts(t: Tables, l: Ledger) {
    && (forall key :: Balanced(t, l, key))
    && forall domain :: Credits(t, l, domain)
  }

  ghost function PendingOf(t: Tables, l: Ledger, domain: string): nat {
    Pending(t, l, domain + "|up") + Pending(t, l, domain + "|dn")
      + if SplitDirection(domain).1 == Untagged then Pending(t, l, domain) else 0
  }

  /** The total falls short of what the domain's counters counted by what is pending and
      lost, and exceeds it by what was credited once more. */
  lemma TotalAddsUp(t: Tables, l: Ledger, domain: string)
    requires Accounts(t, l)
    ensures TotalOf(t, domain) + PendingOf(t, l, domain) + DomainSum(l.lost, domain)
         == DomainSum(l.seen, domain) + DomainSum(l.over, domain)
  {
    hide Pending, TotalOf, SplitDirection, ValueAt;
    assert Credits(t, l, domain);
    assert Balanced(t, l, domain + "|up") && Balanced(t, l, domain + "|dn") && Balanced(t, l, domain);
  }

  /** The counter of a key changes; other keys stay as they were. */
  lemma OtherKeysStay(t: Tables, l: Ledger, t': Tables, l': Ledger, key: string)
    requires Accounts(t, l)
    requires forall k :: k != key ==> Previous(t', k) == Previous(t, k)
    requires forall k :: k != key ==>
      ValueAt(l'.live, k) == ValueAt(l.live, k) && ValueAt(l'.seen, k) == ValueAt(l.seen, k)
      && ValueAt(l'.credited, k) == ValueAt(l.credited, k) && ValueAt(l'.lost, k) == ValueAt(l.lost, k)
      && ValueAt(l'.over, k) == ValueAt(l.over, k)
    requires Balanced(t', l', key)
    requires forall domain :: Credits(t', l', domain)
    ensures Accounts(t', l')
  {
    forall k | k != key
      ensures Balanced(t', l', k)
    {
      assert Balanced(t, l, k);
    }
  }

  // ----- what happens to the counters -----

  /** `n` more bytes pass. A restarted counter that grows past its old snapshot hides as
      many bytes as that snapshot held. */
  ghost function Counted(t: Tables, l: Ledger, key: string, n: nat): Ledger {
    var live, previous := ValueAt(l.live, key), Previous(t, key).bytes;
    l.(live := l.live[key := live + n], seen := l.seen[key := ValueAt(l.seen, key) + n],
       lost := if live < previous <= live + n then l.lost[key := ValueAt(l.lost, key) + previous] else l.lost)
  }

  lemma CountedKeeps(t: Tables, l: Ledger, key: string, n: nat)
    requires Accounts(t, l)
    ensures Accounts(t, Counted(t, l, key, n))
  {
    assert Balanced(t, l, key);
    forall domain
      ensures Credits(t, Counted(t, l, key, n), domain)
    {
      assert Credits(t, l, domain);
    }
    OtherKeysStay(t, l, t, Counted(t, l, key, n), key);
  }

  /** The kernel counter starts anew: what was pending is lost. */
  ghost function Restarted(t: Tables, l: Ledger, key: string): Ledger {
    l.(live := l.live[key := 0], lost := l.lost[key := ValueAt(l.lost, key) + Pending(t, l, key)])
  }

  lemma RestartedKeeps(t: Tables, l: Ledger, key: string)
    requires Accounts(t, l)
    ensures Accounts(t, Restarted(t, l, key))
  {
    assert Balanced(t, l, key);
    forall domain
      ensures Credits(t, Restarted(t, l, key), domain)
    {
      assert Credits(t, l, domain);
    }
    OtherKeysStay(t, l, t, Restarted(t, l, key), key);
  }

  /** The bytes that storing a reading credits once more, for the snapshot it meets and the
      counter as it stands by then. */
  function Excess(reading: nat, previous: nat, live: nat): nat {
    if previous <= reading then
      if reading <= live then 0 else if previous <= live then reading else reading - previous
    else
      if live < reading then reading else if previous <= live then previous else 0
  }

  /** A reading does no harm if it lies between snapshot and counter, or is the snapshot; or
      if the counter has restarted and not reached the snapshot again. */
  lemma HarmlessIff(reading: nat, previous: nat, live: nat)
    ensures CounterDelta(reading, previous) + CounterDelta(live, reading)
         == CounterDelta(live, previous) + Excess(reading, previous, live)
    ensures Excess(reading, previous, live) == 0
       <==> previous <= reading <= live || reading == previous || reading <= live < previous
    ensures reading <= live && previous <= live ==>
      Excess(reading, previous, live) == if previous <= reading then 0 else previous
  {
  }

  ghost function CreditStat(t: Tables, l: Ledger, s: Stat): Ledger {
    if IsZero(s) then l
    else
      var previous := Previous(t, s.key).bytes;
      var excess := Excess(s.bytes, previous, ValueAt(l.live, s.key));
      l.(credited := l.credited[s.key := ValueAt(l.credited, s.key) + CounterDelta(s.bytes, previous)],
         over := if excess == 0 then l.over else l.over[s.key := ValueAt(l.over, s.key) + excess])
  }

  lemma TagsDiffer(domain: string)
    ensures domain + "|up" != domain + "|dn" && domain + "|up" != domain && domain + "|dn" != domain
  {
    assert (domain + "|up")[|domain| + 1] != (domain + "|dn")[|domain| + 1];
    assert |domain + "|up"| != |domain| && |domain + "|dn"| != |domain|;
  }

  lemma StatCredits(t: Tables, l: Ledger, s: Stat, now: Time, domain: string)
    requires Credits(t, l, domain)
    ensures Credits(AfterStat(t, s, now), CreditStat(t, l, s), domain)
  {
    hide DomainOf, SplitDirection, CounterDelta, Excess;
    CountersOfDomain(s.key, domain);
    TagsDiffer(domain);
  }

  lemma StatBalances(t: Tables, l: Ledger, s: Stat, now: Time)
    requires Balanced(t, l, s.key)
    ensures Balanced(AfterStat(t, s, now), CreditStat(t, l, s), s.key)
  {
    hide DomainOf, Excess, CounterDelta;
    HarmlessIff(s.bytes, Previous(t, s.key).bytes, ValueAt(l.live, s.key));
  }

  /** Storing one reading, whenever it was taken, keeps the account. */
  lemma StatKeeps(t: Tables, l: Ledger, s: Stat, now: Time)
    requires Accounts(t, l)
    ensures Accounts(AfterStat(t, s, now), CreditStat(t, l, s))
  {
    hide DomainOf, Excess, CounterDelta, Balanced;
    assert Balanced(t, l, s.key);
    StatBalances(t, l, s, now);
    forall domain
      ensures Credits(AfterStat(t, s, now), CreditStat(t, l, s), domain)
    {
      assert Credits(t, l, domain);
      StatCredits(t, l, s, now, domain);
    }
    OtherKeysStay(t, l, AfterStat(t, s, now), CreditStat(t, l, s), s.key);
  }

  ghost function CreditStats(t: Tables, l: Ledger, stats: seq<Stat>, now: Time): Ledger {
    if stats == [] then l
    else
      var init := stats[..|stats| - 1];
      CreditStat(AfterStats(t, init, now), CreditStats(t, l, init, now), stats[|stats| - 1])
  }

  /** What storing the stats credits once more for a counter. */
  ghost function StatsExcess(t: Tables, stats: seq<Stat>, now: Time, key: string, live: nat): nat {
    if stats == [] then 0
    else
      var init, last := stats[..|stats| - 1], stats[|stats| - 1];
      StatsExcess(t, init, now, key, live)
        + if last.key != key || IsZero(last) then 0
          else Excess(last.bytes, Previous(AfterStats(t, init, now), key).bytes, live)
  }

  /** Storing a sample keeps the account, whatever was read and however long ago. */
  lemma {:induction false} StoreKeeps(t: Tables, l: Ledger, stats: seq<Stat>, now: Time)
    requires Accounts(t, l)
    ensures Accounts(AfterStats(t, stats, now), CreditStats(t, l, stats, now))
  {
    if stats != [] {
      var init, last := stats[..|stats| - 1], stats[|stats| - 1];
      StoreKeeps(t, l, init, now);
      StatKeeps(AfterStats(t, init, now), CreditStats(t, l, init, now), last, now);
    }
  }

  lemma {:induction false} StoreExceeds(t: Tables, l: Ledger, stats: seq<Stat>, now: Time, key: string)
    ensures
      var l' := CreditStats(t, l, stats, now);
      && l'.(credited := l.credited, over := l.over) == l
      && ValueAt(l'.over, key) == ValueAt(l.over, key) + StatsExcess(t, stats, now, key, ValueAt(l.live, key))
  {
    if stats != [] {
      StoreExceeds(t, l, stats[..|stats| - 1], now, key);
    }
  }

  /** A stored reading adds its growth in bytes and in packets to the row of its domain, dates
      the row, and becomes the snapshot; rows of other domains and counters stay. */
  lemma {:induction false} StoredReading(t: Tables, s: Stat, now: Time)
    requires !IsZero(s)
    ensures
      var before := if s.key in t.counters then t.counters[s.key] else Count(0, 0);
      var row := if DomainOf(s.key) in t.totals then t.totals[DomainOf(s.key)] else Total(0, 0, 0);
      var bytes := if s.bytes < before.bytes then s.bytes else s.bytes - before.bytes;
      var packets := if s.packets < before.packets then s.packets else s.packets - before.packets;
      var after := AfterStats(t, [s], now);
      && after.counters == t.counters[s.key := Count(s.bytes, s.packets)]
      && after.totals == if bytes == 0 && packets == 0 then t.totals
           else t.totals[DomainOf(s.key) := Total(row.bytes + bytes, row.packets + packets, now)]
  {
    hide DomainOf;
    assert [s][..0] == [];
    assert AfterStats(t, [s], now) == AfterStat(AfterStats(t, [], now), s, now);
  }

  /** The stats are the current kernel counters. */
  ghost predicate IsCurrent(stats: seq<Stat>, l: Ledger) {
    forall s :: s in stats ==> s.bytes == ValueAt(l.live, s.key)
  }

  /** A sample stored before the counters change credits exactly what is pending. */
  lemma {:induction false} PromptStore(t: Tables, l: Ledger, stats: seq<Stat>, now: Time)
    requires IsCurrent(stats, l)
    ensures
      var l' := CreditStats(t, l, stats, now);
      && l'.(credited := l.credited) == l
      && (forall s :: s in stats ==> Pending(AfterStats(t, stats, now), l', s.key) == 0)
      && forall key :: (forall s :: s in stats ==> s.key != key) ==>
           Pending(AfterStats(t, stats, now), l', key) == Pending(t, l, key)
  {
    if stats != [] {
      var init, last := stats[..|stats| - 1], stats[|stats| - 1];
      assert stats == init + [last];
      PromptStore(t, l, init, now);
      HarmlessIff(last.bytes, Previous(AfterStats(t, init, now), last.key).bytes, ValueAt(l.live, last.key));
    }
  }

  ghost function Purged(t: Tables, cutoff: Time): Tables {
    t.(totals := map domain | domain in t.totals && t.totals[domain].updatedAt >= cutoff :: t.totals[domain])
  }

  /** The credits of the counters that `gone` selects become losses. */
  ghost function Forfeited(l: Ledger, gone: string -> bool): Ledger {
    l.(credited := map key | key in l.credited && !gone(key) :: l.credited[key],
       lost := map key | key in l.lost.Keys + l.credited.Keys ::
         ValueAt(l.lost, key) + if gone(key) then ValueAt(l.credited, key) else 0)
  }

  ghost function PurgedLedger(t: Tables, l: Ledger, cutoff: Time): Ledger {
    Forfeited(l, key => DomainOf(key) !in Purged(t, cutoff).totals)
  }

  lemma PurgeKeeps(t: Tables, l: Ledger, cutoff: Time)
    requires Accounts(t, l)
    ensures Accounts(Purged(t, cutoff), PurgedLedger(t, l, cutoff))
  {
    forall key
      ensures Balanced(Purged(t, cutoff), PurgedLedger(t, l, cutoff), key)
    {
      assert Balanced(t, l, key);
    }
    forall domain
      ensures Credits(Purged(t, cutoff), PurgedLedger(t, l, cutoff), domain)
    {
      assert Credits(t, l, domain);
      CountersOfDomain(domain + "|up", domain);
      CountersOfDomain(domain + "|dn", domain);
      CountersOfDomain(domain, domain);
    }
  }

  lemma TotalsResetKeeps(t: Tables, l: Ledger)
    requires Accounts(t, l)
    ensures Accounts(t.(totals := map[]), Forfeited(l, key => true))
  {
    var t', l' := t.(totals := map[]), Forfeited(l, key => true);
    forall key
      ensures Balanced(t', l', key)
    {
      assert Balanced(t, l, key);
    }
  }

  ghost function ResetLedger(l: Ledger): Ledger {
    l.(credited := map[], over := map[],
       lost := map key | key in l.seen ::
         if l.seen[key] >= ValueAt(l.live, key) then l.seen[key] - ValueAt(l.live, key) else 0)
  }

  /** After a reset everything a live counter holds is pending again. */
  lemma ResetKeeps(t: Tables, l: Ledger)
    requires Accounts(t, l)
    ensures Accounts(Tables(map[], map[]), ResetLedger(l))
  {
    forall key
      ensures Balanced(Tables(map[], map[]), ResetLedger(l), key)
    {
      assert Balanced(t, l, key);
    }
  }

  // ----- whole runs -----

  datatype Meter = Meter(tables: Tables, ledger: Ledger)

  const EMPTY := Meter(Tables(map[], map[]), Ledger(map[], map[], map[], map[], map[]))

  /** Reading the counters and storing what was read are two steps; others come between. */
  datatype Event =
    | Passes(key: string, n: nat)
    | Restarts(key: string)
    | Reads(stats: seq<Stat>)
    | Stores(stats: seq<Stat>, now: Time, commits: bool)
    | Purges(cutoff: Time, deleted: bool)
    | Resets(totalsDeleted: bool, countersDeleted: bool)

  ghost function AfterEvent(m: Meter, e: Event): Meter {
    match e
    case Passes(key, n) => m.(ledger := Counted(m.tables, m.ledger, key, n))
    case Restarts(key) => m.(ledger := Restarted(m.tables, m.ledger, key))
    case Reads(_) => m
    case Stores(stats, now, commits) =>
      if !commits then m
      else Meter(AfterStats(m.tables, stats, now), CreditStats(m.tables, m.ledger, stats, now))
    case Purges(cutoff, deleted) =>
      if !deleted then m else Meter(Purged(m.tables, cutoff), PurgedLedger(m.tables, m.ledger, cutoff))
    case Resets(totalsDeleted, countersDeleted) =>
      if !totalsDeleted then m
      else if !countersDeleted then Meter(m.tables.(totals := map[]), Forfeited(m.ledger, key => true))
      else Meter(Tables(map[], map[]), ResetLedger(m.ledger))
  }

  ghost function AfterEvents(events: seq<Event>): Meter {
    if events == [] then EMPTY
    else AfterEvent(AfterEvents(events[..|events| - 1]), events[|events| - 1])
  }

  ghost predicate Passing(e: Event, domain: string) {
    e.Passes? && DomainOf(e.key) == domain
  }

  /** The bytes that passed for a domain. */
  ghost function TrafficOf(events: seq<Event>, domain: string): nat {
    if events == [] then 0
    else
      var last := events[|events| - 1];
      TrafficOf(events[..|events| - 1], domain) + if Passing(last, domain) then last.n else 0
  }

  const WHOLE_RESET := Resets(true, true)

  /** The bytes of a counter that no total will hold because of the event: those a restarted
      counter hides when it grows past its old snapshot, those pending when it restarts, and
      those of totals that are deleted, unless their counter still holds them. */
  ghost function LostBy(m: Meter, e: Event, key: string): nat {
    var live, previous := ValueAt(m.ledger.live, key), Previous(m.tables, key).bytes;
    match e
    case Passes(k, n) => if k == key && live < previous <= live + n then previous else 0
    case Restarts(k) => if k == key then Pending(m.tables, m.ledger, key) else 0
    case Reads(_) => 0
    case Stores(_, _, _) => 0
    case Purges(cutoff, deleted) =>
      if deleted && DomainOf(key) !in Purged(m.tables, cutoff).totals then ValueAt(m.ledger.credited, key) else 0
    case Resets(totalsDeleted, countersDeleted) =>
      if !totalsDeleted then 0
      else if !countersDeleted then ValueAt(m.ledger.credited, key)
      else ValueAt(ResetLedger(m.ledger).lost, key)
  }

  /** The bytes of a counter that the event credits once more. */
  ghost function ExcessBy(m: Meter, e: Event, key: string): nat {
    if e.Stores? && e.commits then StatsExcess(m.tables, e.stats, e.now, key, ValueAt(m.ledger.live, key)) else 0
  }

  lemma EventKeeps(m: Meter, e: Event)
    requires Accounts(m.tables, m.ledger)
    ensures Accounts(AfterEvent(m, e).tables, AfterEvent(m, e).ledger)
  {
    hide Accounts;
    match e
    case Passes(key, n) => CountedKeeps(m.tables, m.ledger, key, n);
    case Restarts(key) => RestartedKeeps(m.tables, m.ledger, key);
    case Reads(_) =>
    case Stores(stats, now, _) => StoreKeeps(m.tables, m.ledger, stats, now);
    case Purges(cutoff, _) => PurgeKeeps(m.tables, m.ledger, cutoff);
    case Resets(_, _) =>
      TotalsResetKeeps(m.tables, m.ledger);
      ResetKeeps(m.tables, m.ledger);
  }

  lemma EventBooks(m: Meter, e: Event, key: string)
    ensures ValueAt(AfterEvent(m, e).ledger.lost, key)
         == (if e == WHOLE_RESET then 0 else ValueAt(m.ledger.lost, key)) + LostBy(m, e, key)
    ensures ValueAt(AfterEvent(m, e).ledger.over, key)
         == (if e == WHOLE_RESET then 0 else ValueAt(m.ledger.over, key)) + ExcessBy(m, e, key)
  {
    if e.Stores? {
      StoreExceeds(m.tables, m.ledger, e.stats, e.now, key);
    }
  }

  lemma EventCounts(m: Meter, e: Event, domain: string)
    ensures DomainSum(AfterEvent(m, e).ledger.seen, domain)
         == DomainSum(m.ledger.seen, domain) + if Passing(e, domain) then e.n else 0
  {
    if e.Stores? {
      StoreExceeds(m.tables, m.ledger, e.stats, e.now, domain);
    }
    if e.Passes? {
      CountersOfDomain(e.key, domain);
      TagsDiffer(domain);
    }
  }

  /** Nothing is counted before the first event. */
  lemma NothingCounted()
    ensures Accounts(EMPTY.tables, EMPTY.ledger)
  {
  }

  lemma {:induction false} RunsAccount(events: seq<Event>)
    ensures Accounts(AfterEvents(events).tables, AfterEvents(events).ledger)
  {
    hide Accounts, AfterEvent;
    if events == [] {
      NothingCounted();
    } else {
      RunsAccount(events[..|events| - 1]);
      EventKeeps(AfterEvents(events[..|events| - 1]), events[|events| - 1]);
    }
  }

  /** What the counters ever counted is what passed. */
  lemma {:induction false} RunsCount(events: seq<Event>, domain: string)
    ensures DomainSum(AfterEvents(events).ledger.seen, domain) == TrafficOf(events, domain)
  {
    hide DomainSum, Passing, AfterEvent;
    if events == [] {
      EmptySums(domain);
    } else {
      RunsCount(events[..|events| - 1], domain);
      EventCounts(AfterEvents(events[..|events| - 1]), events[|events| - 1], domain);
    }
  }

  lemma EmptySums(domain: string)
    ensures DomainSum(EMPTY.ledger.seen, domain) == 0
  {
  }

  // ----- what a run loses and what it credits once more -----

  /** The bytes of a counter lost since the last whole reset, which makes the whole counter
      pending again. */
  ghost function LostIn(events: seq<Event>, key: string): nat {
    if events == [] then 0
    else
      var init, last := events[..|events| - 1], events[|events| - 1];
      (if last == WHOLE_RESET then 0 else LostIn(init, key)) + LostBy(AfterEvents(init), last, key)
  }

  ghost function ExcessIn(events: seq<Event>, key: string): nat {
    if events == [] then 0
    else
      var init, last := events[..|events| - 1], events[|events| - 1];
      (if last == WHOLE_RESET then 0 else ExcessIn(init, key)) + ExcessBy(AfterEvents(init), last, key)
  }

  lemma {:induction false} RunsBook(events: seq<Event>, key: string)
    ensures ValueAt(AfterEvents(events).ledger.lost, key) == LostIn(events, key)
    ensures ValueAt(AfterEvents(events).ledger.over, key) == ExcessIn(events, key)
  {
    hide LostBy, ExcessBy, AfterEvent;
    if events != [] {
      RunsBook(events[..|events| - 1], key);
      EventBooks(AfterEvents(events[..|events| - 1]), events[|events| - 1], key);
    }
  }

  ghost function DomainLost(events: seq<Event>, domain: string): nat {
    LostIn(events, domain + "|up") + LostIn(events, domain + "|dn")
      + if SplitDirection(domain).1 == Untagged then LostIn(events, domain) else 0
  }

  ghost function DomainExcess(events: seq<Event>, domain: string): nat {
    ExcessIn(events, domain + "|up") + ExcessIn(events, domain + "|dn")
      + if SplitDirection(domain).1 == Untagged then ExcessIn(events, domain) else 0
  }

  /** On every run, however reading and storing interleave, a domain's total exceeds the
      traffic that passed exactly if more was credited once more than is pending and lost,
      and is that traffic exactly if these are the same. */
  lemma RunsOvercountIff(events: seq<Event>, domain: string)
    ensures
      var m := AfterEvents(events);
      var total, pending := TotalOf(m.tables, domain), PendingOf(m.tables, m.ledger, domain);
      && total + pending + DomainLost(events, domain) == TrafficOf(events, domain) + DomainExcess(events, domain)
      && (total > TrafficOf(events, domain) <==> DomainExcess(events, domain) > pending + DomainLost(events, domain))
      && (total == TrafficOf(events, domain) <==> DomainExcess(events, domain) == pending + DomainLost(events, domain))
  {
    hide Accounts, PendingOf, AfterEvents, TrafficOf, LostIn, ExcessIn;
    var m := AfterEvents(events);
    RunsAccount(events);
    RunsCount(events, domain);
    TotalAddsUp(m.tables, m.ledger, domain);
    RunsBook(events, domain + "|up");
    RunsBook(events, domain + "|dn");
    RunsBook(events, domain);
  }

  /** The place of the last whole reset; the beginning if there is none. */
  ghost function SinceReset(events: seq<Event>): (k: nat)
    ensures k <= |events|
  {
    if events == [] then 0
    else if events[|events| - 1] == WHOLE_RESET then |events| - 1
    else SinceReset(events[..|events| - 1])
  }

  /** Since the last whole reset, itself included, no event lost a byte of the counter. */
  ghost predicate NothingLost(events: seq<Event>, key: string) {
    forall i :: SinceReset(events) <= i < |events| ==> LostBy(AfterEvents(events[..i]), events[i], key) == 0
  }

  /** Since then, no store credited one once more. */
  ghost predicate NothingTwice(events: seq<Event>, key: string) {
    forall i :: SinceReset(events) <= i < |events| ==> ExcessBy(AfterEvents(events[..i]), events[i], key) == 0
  }

  lemma {:induction false} NothingLostIff(events: seq<Event>, key: string)
    ensures LostIn(events, key) == 0 <==> NothingLost(events, key)
    ensures ExcessIn(events, key) == 0 <==> NothingTwice(events, key)
  {
    hide LostBy, ExcessBy, AfterEvents;
    if events != [] {
      var init := events[..|events| - 1];
      NothingLostIff(init, key);
      assert forall i :: 0 <= i < |init| ==> init[..i] == events[..i] && init[i] == events[i];
    }
  }

  lemma AllZeroIff(events: seq<Event>, domain: string)
    ensures
      var m := AfterEvents(events);
      PendingOf(m.tables, m.ledger, domain) + DomainLost(events, domain) == 0
      <==> forall key :: DomainOf(key) == domain ==>
             Pending(m.tables, m.ledger, key) == 0 && LostIn(events, key) == 0
    ensures DomainExcess(events, domain) == 0
       <==> forall key :: DomainOf(key) == domain ==> ExcessIn(events, key) == 0
  {
    hide Pending, LostIn, ExcessIn, AfterEvents, DomainOf, SplitDirection;
    CountersOfDomain(domain + "|up", domain);
    CountersOfDomain(domain + "|dn", domain);
    CountersOfDomain(domain, domain);
    forall key | DomainOf(key) == domain {
      CountersOfDomain(key, domain);
    }
  }

  /** If no store credits anything once more the total is at most the traffic, and it is all
      of it exactly if nothing is pending and nothing was lost. */
  lemma RunsNeverOvercount(events: seq<Event>, domain: string)
    requires forall key :: DomainOf(key) == domain ==> NothingTwice(events, key)
    ensures
      var m := AfterEvents(events);
      && TotalOf(m.tables, domain) <= TrafficOf(events, domain)
      && (TotalOf(m.tables, domain) == TrafficOf(events, domain)
          <==> forall key :: DomainOf(key) == domain ==>
                 Pending(m.tables, m.ledger, key) == 0 && NothingLost(events, key))
  {
    hide Pending, NothingLost, NothingTwice, AfterEvents, PendingOf, TrafficOf, DomainLost, DomainExcess;
    RunsOvercountIff(events, domain);
    AllZeroIff(events, domain);
    forall key {
      NothingLostIff(events, key);
    }
  }

  // ----- when reading and storing cross -----

  /** Every reading is of the counters at its moment, and only readings are stored. */
  ghost predicate ReadsFirst(events: seq<Event>) {
    && (forall i :: 0 <= i < |events| && events[i].Reads? ==>
          IsCurrent(events[i].stats, AfterEvents(events[..i]).ledger))
    && forall i :: 0 <= i < |events| && events[i].Stores? ==> Reads(events[i].stats) in events[..i]
  }

  /** Every sample is stored before the counters change. */
  ghost predicate StoresPromptly(events: seq<Event>) {
    forall i :: 0 <= i < |events| && events[i].Stores? ==> IsCurrent(events[i].stats, AfterEvents(events[..i]).ledger)
  }

  lemma PromptlyNothingTwice(events: seq<Event>, key: string)
    requires StoresPromptly(events)
    ensures NothingTwice(events, key)
  {
    forall i | 0 <= i < |events|
      ensures ExcessBy(AfterEvents(events[..i]), events[i], key) == 0
    {
      var m, e := AfterEvents(events[..i]), events[i];
      if e.Stores? {
        PromptStore(m.tables, m.ledger, e.stats, e.now);
        StoreExceeds(m.tables, m.ledger, e.stats, e.now, key);
      }
    }
  }

  ghost predicate NeverRestarts(events: seq<Event>, key: string) {
    Restarts(key) !in events
  }

  /** No stat of the counter is older than the snapshot it meets. */
  ghost predicate NotOlder(t: Tables, stats: seq<Stat>, now: Time, key: string) {
    forall k :: 0 <= k < |stats| && stats[k].key == key && !IsZero(stats[k]) ==>
      Previous(AfterStats(t, stats[..k], now), key).bytes <= stats[k].bytes
  }

  /** With snapshot and readings below the counter a store credits something once more
      exactly if it puts back an older reading. */
  lemma {:induction false} SteadyStats(t: Tables, stats: seq<Stat>, now: Time, key: string, live: nat)
    requires Previous(t, key).bytes <= live && forall s :: s in stats && s.key == key ==> s.bytes <= live
    ensures Previous(AfterStats(t, stats, now), key).bytes <= live
    ensures StatsExcess(t, stats, now, key, live) == 0 <==> NotOlder(t, stats, now, key)
  {
    if stats != [] {
      var init, last := stats[..|stats| - 1], stats[|stats| - 1];
      assert stats == init + [last];
      SteadyStats(t, init, now, key, live);
      HarmlessIff(last.bytes, Previous(AfterStats(t, init, now), key).bytes, live);
      assert forall k :: 0 <= k < |init| ==> init[..k] == stats[..k] && init[k] == stats[k];
    }
  }

  lemma ReadsFirstInit(events: seq<Event>, i: nat)
    requires ReadsFirst(events) && i <= |events|
    ensures ReadsFirst(events[..i])
    ensures i < |events| && events[i].Reads? ==> IsCurrent(events[i].stats, AfterEvents(events[..i]).ledger)
    ensures i < |events| && events[i].Stores? ==> Reads(events[i].stats) in events[..i]
  {
    assert forall k :: 0 <= k < i ==> events[..i][..k] == events[..k] && events[..i][k] == events[k];
  }

  /** The counter as it was read. */
  ghost predicate WasRead(events: seq<Event>, s: Stat) {
    exists e :: e in events && e.Reads? && s in e.stats
  }

  lemma SteadyStep(m: Meter, e: Event, key: string)
    requires Previous(m.tables, key).bytes <= ValueAt(m.ledger.live, key) && e != Restarts(key)
    requires e.Stores? ==> forall s :: s in e.stats && s.key == key ==> s.bytes <= ValueAt(m.ledger.live, key)
    ensures
      var m' := AfterEvent(m, e);
      && Previous(m'.tables, key).bytes <= ValueAt(m'.ledger.live, key)
      && ValueAt(m.ledger.live, key) <= ValueAt(m'.ledger.live, key)
  {
    if e.Stores? {
      SteadyStats(m.tables, e.stats, e.now, key, ValueAt(m.ledger.live, key));
      StoreExceeds(m.tables, m.ledger, e.stats, e.now, key);
    }
  }

  /** The counter is not below its snapshot or any reading. */
  ghost predicate Steady(m: Meter, events: seq<Event>, key: string) {
    && Previous(m.tables, key).bytes <= ValueAt(m.ledger.live, key)
    && forall s :: WasRead(events, s) && s.key == key ==> s.bytes <= ValueAt(m.ledger.live, key)
  }

  lemma SteadyMore(m: Meter, events: seq<Event>, e: Event, key: string)
    requires Steady(m, events, key) && e != Restarts(key)
    requires e.Reads? ==> IsCurrent(e.stats, m.ledger)
    requires e.Stores? ==> Reads(e.stats) in events
    ensures Steady(AfterEvent(m, e), events + [e], key)
  {
    assert e.Stores? ==> forall s :: s in e.stats ==> WasRead(events, s);
    SteadyStep(m, e, key);
    hide WasRead;
    forall s | WasRead(events + [e], s) {
      WasReadMore(events, e, s);
    }
  }

  /** As long as a counter does not restart it stays so. */
  lemma {:induction false} SteadyRun(events: seq<Event>, key: string)
    requires ReadsFirst(events) && NeverRestarts(events, key)
    ensures Steady(AfterEvents(events), events, key)
  {
    hide ReadsFirst, AfterEvent;
    if events != [] {
      var n := |events| - 1;
      assert events == events[..n] + [events[n]];
      ReadsFirstInit(events, n);
      SteadyRun(events[..n], key);
      hide Steady;
      SteadyMore(AfterEvents(events[..n]), events[..n], events[n], key);
    }
  }

  lemma WasReadMore(events: seq<Event>, e: Event, s: Stat)
    requires WasRead(events + [e], s)
    ensures WasRead(events, s) || (e.Reads? && s in e.stats)
  {
  }

  /** While a counter does not restart its bytes are counted once exactly if no store puts
      back a reading that is older than the snapshot. */
  lemma SteadyRunsIff(events: seq<Event>, key: string)
    requires ReadsFirst(events) && NeverRestarts(events, key)
    ensures NothingTwice(events, key)
       <==> forall i :: SinceReset(events) <= i < |events| && events[i].Stores? && events[i].commits ==>
              NotOlder(AfterEvents(events[..i]).tables, events[i].stats, events[i].now, key)
  {
    hide NotOlder, StatsExcess, AfterEvents, ReadsFirst;
    forall i | 0 <= i < |events| && events[i].Stores? && events[i].commits
      ensures ExcessBy(AfterEvents(events[..i]), events[i], key) == 0
         <==> NotOlder(AfterEvents(events[..i]).tables, events[i].stats, events[i].now, key)
    {
      var m := AfterEvents(events[..i]);
      ReadsFirstInit(events, i);
      SteadyRun(events[..i], key);
      assert forall s :: s in events[i].stats ==> WasRead(events[..i], s);
      SteadyStats(m.tables, events[i].stats, events[i].now, key, ValueAt(m.ledger.live, key));
    }
  }

  /** A run, with the counter, its snapshot, its domain's total and the traffic so far. */
  ghost predicate RunAt(events: seq<Event>, key: string, live: nat, snapshot: nat, total: nat, traffic: nat) {
    var m := AfterEvents(events);
    && ReadsFirst(events) && TrafficOf(events, DomainOf(key)) == traffic
    && ValueAt(m.ledger.live, key) == live && Previous(m.tables, key).bytes == snapshot
    && TotalOf(m.tables, DomainOf(key)) == total
  }

  lemma OneMoreEvent(events: seq<Event>, e: Event, domain: string)
    requires ReadsFirst(events)
    requires e.Reads? ==> IsCurrent(e.stats, AfterEvents(events).ledger)
    requires e.Stores? ==> Reads(e.stats) in events
    ensures ReadsFirst(events + [e]) && AfterEvents(events + [e]) == AfterEvent(AfterEvents(events), e)
    ensures TrafficOf(events + [e], domain) == TrafficOf(events, domain) + if Passing(e, domain) then e.n else 0
  {
    var more := events + [e];
    assert more[..|events|] == events;
    assert forall i :: 0 <= i < |events| ==> more[..i] == events[..i];
  }

  lemma RunPasses(events: seq<Event>, key: string, live: nat, snapshot: nat, total: nat, traffic: nat, n: nat)
    requires RunAt(events, key, live, snapshot, total, traffic)
    ensures RunAt(events + [Passes(key, n)], key, live + n, snapshot, total, traffic + n)
  {
    hide DomainOf, ReadsFirst, TrafficOf, AfterEvents;
    OneMoreEvent(events, Passes(key, n), DomainOf(key));
  }

  lemma RunReads(events: seq<Event>, key: string, live: nat, snapshot: nat, total: nat, traffic: nat, packets: nat)
    requires RunAt(events, key, live, snapshot, total, traffic)
    ensures RunAt(events + [Reads([Stat(key, live, packets)])], key, live, snapshot, total, traffic)
  {
    hide DomainOf, ReadsFirst, TrafficOf, AfterEvents;
    OneMoreEvent(events, Reads([Stat(key, live, packets)]), DomainOf(key));
  }

  lemma RunStores(events: seq<Event>, live: nat, snapshot: nat, total: nat, traffic: nat, s: Stat, now: Time)
    requires RunAt(events, s.key, live, snapshot, total, traffic) && Reads([s]) in events && 0 < s.bytes
    ensures RunAt(events + [Stores([s], now, true)], s.key, live, s.bytes,
      total + CounterDelta(s.bytes, snapshot), traffic)
  {
    hide DomainOf, ReadsFirst, TrafficOf, AfterEvents;
    var m := AfterEvents(events);
    OneMoreEvent(events, Stores([s], now, true), DomainOf(s.key));
    StoreExceeds(m.tables, m.ledger, [s], now, s.key);
    assert [s][..0] == [];
    assert AfterStats(m.tables, [s], now) == AfterStat(AfterStats(m.tables, [], now), s, now);
  }

  /** Two samplers read `a` and later `b` bytes, and store in the other order. The sample
      after that brings the total to twice what passed. */
  lemma LateStoreOvercounts(key: string, a: nat, b: nat, now: Time) returns (events: seq<Event>)
    requires 0 < a < b
    ensures ReadsFirst(events) && TrafficOf(events, DomainOf(key)) == b
    ensures TotalOf(AfterEvents(events).tables, DomainOf(key)) == 2 * b
  {
    hide RunAt, ReadsFirst, TrafficOf, AfterEvents, TotalOf, DomainOf;
    var early, late := Stat(key, a, 1), Stat(key, b, 2);
    events := TwoReadings(key, a, b);
    RunStores(events, b, 0, 0, b, late, now);
    events := events + [Stores([late], now, true)];
    RunStores(events, b, b, b, b, early, now);
    events := events + [Stores([early], now, true)];
    RunReads(events, key, b, a, b + a, b, 2);
    events := events + [Reads([late])];
    RunStores(events, b, a, b + a, b, late, now);
    events := events + [Stores([late], now, true)];
    RunSays(events, key, b, b, 2 * b, b);
  }

  lemma TwoReadings(key: string, a: nat, b: nat) returns (events: seq<Event>)
    requires 0 < a < b
    ensures RunAt(events, key, b, 0, 0, b)
    ensures Reads([Stat(key, a, 1)]) in events && Reads([Stat(key, b, 2)]) in events
  {
    hide RunAt;
    NoEventsYet(key);
    RunPasses([], key, 0, 0, 0, 0, a);
    events := [] + [Passes(key, a)];
    RunReads(events, key, a, 0, 0, a, 1);
    events := events + [Reads([Stat(key, a, 1)])];
    RunPasses(events, key, a, 0, 0, a, b - a);
    events := events + [Passes(key, b - a)];
    RunReads(events, key, b, 0, 0, b, 2);
    events := events + [Reads([Stat(key, b, 2)])];
  }

  lemma NoEventsYet(key: string)
    ensures RunAt([], key, 0, 0, 0, 0)
  {
  }

  lemma RunSays(events: seq<Event>, key: string, live: nat, snapshot: nat, total: nat, traffic: nat)
    requires RunAt(events, key, live, snapshot, total, traffic)
    ensures ReadsFirst(events) && TrafficOf(events, DomainOf(key)) == traffic
    ensures TotalOf(AfterEvents(events).tables, DomainOf(key)) == total
  {
  }

  /** The stored tables, with the ledger of the counters they follow. */
  class DomainMeter {
    var tables: Tables
    ghost var ledger: Ledger

    ghost predicate Valid()
      reads this
    {
      Accounts(tables, ledger)
    }

    ghost function State(): Meter
      reads this
    {
      Meter(tables, ledger)
    }

    constructor ()
      ensures Valid() && State() == EMPTY
    {
      tables := Tables(map[], map[]);
      ledger := Ledger(map[], map[], map[], map[], map[]);
    }

    ghost method Pass(key: string, n: nat)
      requires Valid()
      modifies this`ledger
      ensures Valid() && State() == AfterEvent(old(State()), Passes(key, n))
    {
      CountedKeeps(tables, ledger, key, n);
      ledger := Counted(tables, ledger, key, n);
    }

    ghost method Restart(key: string)
      requires Valid()
      modifies this`ledger
      ensures Valid() && State() == AfterEvent(old(State()), Restarts(key))
    {
      RestartedKeeps(tables, ledger, key);
      ledger := Restarted(tables, ledger, key);
    }

    /** Stores one sample, all of it or nothing, whenever it was read. If that was just now
        nothing is left pending and nothing credited once more. */
    method Upsert(stats: seq<Stat>, now: Time, commits: bool)
      requires Valid()
      modifies this
      ensures Valid() && State() == AfterEvent(old(State()), Stores(stats, now, commits))
      ensures ledger.seen == old(ledger.seen) && ledger.live == old(ledger.live) && ledger.lost == old(ledger.lost)
      ensures IsCurrent(stats, old(ledger)) ==> ledger.over == old(ledger.over)
      ensures IsCurrent(stats, old(ledger)) && commits ==>
        forall s :: s in stats ==> Pending(tables, ledger, s.key) == 0
    {
      hide Accounts, IsCurrent, CreditStats, DomainOf, CounterDelta;
      var updated := tables;
      for i := 0 to |stats|
        invariant updated == AfterStats(tables, stats[..i], now)
        invariant tables == old(tables) && ledger == old(ledger)
      {
        assert stats[..i + 1][..i] == stats[..i];
        var stat := stats[i];
        if stat.bytes == 0 && stat.packets == 0 {
          continue;
        }
        var domain, previous := DomainOf(stat.key), Previous(updated, stat.key);
        var deltaBytes := CounterDelta(stat.bytes, previous.bytes);
        var deltaPackets := CounterDelta(stat.packets, previous.packets);
        updated := updated.(counters := updated.counters[stat.key := Count(stat.bytes, stat.packets)]);
        if deltaBytes > 0 || deltaPackets > 0 {
          updated := updated.(totals := updated.totals[domain :=
            Total(TotalOf(updated, domain) + deltaBytes, PacketsOf(updated, domain) + deltaPackets, now)]);
        }
      }
      assert stats[..|stats|] == stats;
      if commits {
        StoreKeeps(tables, ledger, stats, now);
        StoreExceeds(tables, ledger, stats, now, "");
        if IsCurrent(stats, ledger) {
          PromptStore(tables, ledger, stats, now);
        }
        ledger := CreditStats(tables, ledger, stats, now);
        tables := updated;
      }
    }

    method Purge(cutoff: Time, deleted: bool)
      requires Valid()
      modifies this
      ensures Valid() && State() == AfterEvent(old(State()), Purges(cutoff, deleted))
      ensures ledger.seen == old(ledger.seen) && ledger.live == old(ledger.live)
    {
      if deleted {
        PurgeKeeps(tables, ledger, cutoff);
        ledger := PurgedLedger(tables, ledger, cutoff);
        tables := tables.(totals := map domain | domain in tables.totals && tables.totals[domain].updatedAt >= cutoff
          :: tables.totals[domain]);
      }
    }

    /** Deletes the totals, then the snapshots; the second statement may fail alone. */
    method Reset(totalsDeleted: bool, countersDeleted: bool) returns (ok: bool)
      requires Valid()
      modifies this
      ensures Valid() && (ok <==> totalsDeleted && countersDeleted)
      ensures State() == AfterEvent(old(State()), Resets(totalsDeleted, countersDeleted))
      ensures ledger.seen == old(ledger.seen) && ledger.live == old(ledger.live)
    {
      if !totalsDeleted {
        return false;
      }
      ghost var before := tables;
      tables := tables.(totals := map[]);
      if !countersDeleted {
        TotalsResetKeeps(before, ledger);
        ledger := Forfeited(ledger, key => true);
        return false;
      }
      ResetKeeps(before, ledger);
      ledger := ResetLedger(ledger);
      tables := tables.(counters := map[]);
      return true;
    }
  }

  // ----- one name in two chains -----

  /** What one sample of both chains credits beyond the growth of their counters from
      `first0` and `second0`: less than nothing if it falls short of it. */
  function TwoChainsExcess(first0: nat, second0: nat, first: nat, second: nat): int {
    if first > second && first >= second0 then first0
    else if first >= second0 then first0 - first
    else second0 + first0 - first
  }

  /** A name that two chains count is read twice in one sample, as while it moves between
      runtimes: its new chain is set up before the old one is torn down, and the old one
      stays if that fails. The snapshot is then always the second chain's. */
  lemma OneTwoChainsSample(t: Tables, first: Stat, second: Stat, first0: nat, now: Time)
    requires first.key == second.key && !IsZero(first) && !IsZero(second)
    requires first0 <= first.bytes && Previous(t, first.key).bytes <= second.bytes
    ensures
      var after, second0 := AfterStats(t, [first, second], now), Previous(t, first.key).bytes;
      var domain, growth := DomainOf(first.key), first.bytes - first0 + (second.bytes - second0);
      && Previous(after, first.key).bytes == second.bytes
      && TotalOf(after, domain)
           == TotalOf(t, domain) + growth + TwoChainsExcess(first0, second0, first.bytes, second.bytes)
  {
    hide DomainOf;
    TwoStats(t, first, second, now);
  }

  /** A second sample of unchanged counters adds nothing exactly if they hold as many bytes or
      one is blank. Else it adds the larger one. */
  lemma TwoChainsOvercountIff(t: Tables, first: Stat, second: Stat, now: Time, later: Time)
    requires first.key == second.key
    ensures
      var once := AfterStats(t, [first, second], now);
      var twice := AfterStats(once, [first, second], later);
      var domain := DomainOf(first.key);
      TotalOf(twice, domain) == TotalOf(once, domain)
        + if first.bytes == second.bytes || IsZero(first) || IsZero(second) then 0
          else if first.bytes < second.bytes then second.bytes else first.bytes
  {
    hide DomainOf;
    var once := AfterStats(t, [first, second], now);
    TwoStats(t, first, second, now);
    TwoStats(once, first, second, later);
  }

  /** 10 bytes passed in one chain and 20 in the other: two samples make 40 of them. */
  lemma TwoChainsOvercount(now: Time, later: Time)
    ensures
      var stats := [Stat("a.com|up", 10, 1), Stat("a.com|up", 20, 1)];
      var once := AfterStats(Tables(map[], map[]), stats, now);
      TotalOf(once, "a.com") == 20 && TotalOf(AfterStats(once, stats, later), "a.com") == 40
  {
    var first, second := Stat("a.com|up", 10, 1), Stat("a.com|up", 20, 1);
    TaggedBar("a.com", "|up");
    assert "a.com|up" == "a.com" + "|up";
    assert DomainOf("a.com|up") == "a.com";
    TwoStats(Tables(map[], map[]), first, second, now);
    TwoChainsOvercountIff(Tables(map[], map[]), first, second, now, later);
  }

  lemma TwoStats(t: Tables, first: Stat, second: Stat, now: Time)
    ensures AfterStats(t, [first, second], now) == AfterStat(AfterStat(t, first, now), second, now)
  {
    assert [first, second][..1] == [first];
    assert [first][..0] == [];
    assert AfterStats(t, [first], now) == AfterStat(AfterStats(t, [], now), first, now);
  }
}
