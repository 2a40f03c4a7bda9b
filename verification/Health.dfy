/** Probe health of a provider or priority target: a constant-size record that must
    say the same as the full history of probes. */
module Health {
  import opened Config

  datatype Status = Unknown | Healthy | Degraded | Unhealthy

  datatype Probe = Probe(healthy: bool, latencyMs: nat)

  datatype Health = Health(
    failures: nat, successes: nat, unhealthySince: Time, healthySince: Time, lastChecked: Time, status: Status)

  const UNPROBED := Health(0, 0, 0, 0, 0, Unknown)

  /** The record after one more probe; slow answers at or over `warningMs` degrade it. */
  function Observe(h: Health, probe: Probe, now: Time, warningMs: nat): Health {
    if probe.healthy then
      h.(successes := h.successes + 1, failures := 0, lastChecked := now,
         healthySince := if h.healthySince == 0 then now else h.healthySince,
         unhealthySince := 0,
         status := if probe.latencyMs >= warningMs then Degraded else Healthy)
    else
      h.(failures := h.failures + 1, successes := 0, lastChecked := now,
         unhealthySince := if h.unhealthySince == 0 then now else h.unhealthySince,
         healthySince := 0,
         status := Unhealthy)
  }

  // ----- the history it stands for -----

  datatype Sample = Sample(at: Time, healthy: bool)

  type History = seq<Sample>

  ghost predicate InOrder(history: History) {
    && (forall i :: 0 <= i < |history| ==> 0 < history[i].at)
    && (forall i, j :: 0 <= i < j < |history| ==> history[i].at <= history[j].at)
  }

  /** The last `n` probes gave `result`. */
  ghost predicate EndsWith(history: History, result: bool, n: nat) {
    n <= |history| && forall i :: |history| - n <= i < |history| ==> history[i].healthy == result
  }

  /** `n` is the length of the longest run of `result` at the end of the history, and
      `since` is when that run began (0 if it is empty). */
  ghost predicate FinalRun(history: History, result: bool, n: nat, since: Time) {
    && EndsWith(history, result, n)
    && (n < |history| ==> history[|history| - n - 1].healthy != result)
    && since == if n == 0 then 0 else history[|history| - n].at
  }

  ghost predicate Describes(h: Health, history: History) {
    && FinalRun(history, false, h.failures, h.unhealthySince)
    && FinalRun(history, true, h.successes, h.healthySince)
    && (h.status == Unknown <==> history == [])
    && (history != [] ==>
          var last := history[|history| - 1];
          h.lastChecked == last.at && (h.status == Unhealthy <==> !last.healthy))
  }

  /** Recording a probe keeps the record equal to the history; a slow answer degrades it. */
  lemma ObserveDescribes(h: Health, history: History, probe: Probe, now: Time, warningMs: nat)
    requires Describes(h, history) && InOrder(history) && 0 < now
    ensures Describes(Observe(h, probe, now, warningMs), history + [Sample(now, probe.healthy)])
    ensures Observe(h, probe, now, warningMs).status == Degraded <==> probe.healthy && probe.latencyMs >= warningMs
  {
    var more := history + [Sample(now, probe.healthy)];
    var h' := Observe(h, probe, now, warningMs);
    RunExtends(history, probe.healthy,
      if probe.healthy then h.successes else h.failures,
      if probe.healthy then h.healthySince else h.unhealthySince, now);
    assert FinalRun(more, !probe.healthy, 0, 0);
  }

  lemma RunExtends(history: History, result: bool, n: nat, since: Time, now: Time)
    requires FinalRun(history, result, n, since) && InOrder(history)
    ensures FinalRun(history + [Sample(now, result)], result, n + 1, if since == 0 then now else since)
  {
    var more := history + [Sample(now, result)];
    assert forall i :: 0 <= i < |history| ==> more[i] == history[i];
  }

  /** At most one of the two "since" times is set, and none before the first probe. */
  lemma OneSinceIsSet(h: Health, history: History)
    requires Describes(h, history) && InOrder(history)
    ensures history != [] ==> (h.unhealthySince == 0) != (h.healthySince == 0)
    ensures history == [] ==> h.unhealthySince == 0 && h.healthySince == 0
  {
    if history != [] {
      var last := history[|history| - 1];
      if last.healthy {
        assert !EndsWith(history, false, 1);
        assert 0 < h.successes;
      } else {
        assert !EndsWith(history, true, 1);
        assert 0 < h.failures;
      }
    }
  }

  // ----- thresholds -----

  /** At least `streak` probes in a row ended with `result`, the first of them at least
      `duration` seconds ago. */
  ghost predicate Uninterrupted(history: History, result: bool, streak: nat, duration: nat, now: Time) {
    exists n :: 0 < n && streak <= n && EndsWith(history, result, n) && history[|history| - n].at + duration <= now
  }

  predicate LongFailing(h: Health, streak: nat, duration: nat, now: Time) {
    h.unhealthySince != 0 && h.unhealthySince + duration <= now && streak <= h.failures
  }

  predicate LongHealthy(h: Health, streak: nat, duration: nat, now: Time) {
    h.healthySince != 0 && h.healthySince + duration <= now && streak <= h.successes
  }

  /** The test on the record is the test on the whole history. */
  lemma ThresholdIffUninterrupted(h: Health, history: History, streak: nat, duration: nat, now: Time)
    requires Describes(h, history) && InOrder(history)
    ensures LongFailing(h, streak, duration, now) <==> Uninterrupted(history, false, streak, duration, now)
    ensures LongHealthy(h, streak, duration, now) <==> Uninterrupted(history, true, streak, duration, now)
  {
    RunThreshold(history, false, h.failures, h.unhealthySince, streak, duration, now);
    RunThreshold(history, true, h.successes, h.healthySince, streak, duration, now);
  }

  lemma RunThreshold(history: History, result: bool, run: nat, since: Time, streak: nat, duration: nat, now: Time)
    requires FinalRun(history, result, run, since) && InOrder(history)
    ensures (since != 0 && since + duration <= now && streak <= run)
       <==> Uninterrupted(history, result, streak, duration, now)
  {
    if Uninterrupted(history, result, streak, duration, now) {
      var n :| 0 < n && streak <= n && EndsWith(history, result, n) && history[|history| - n].at + duration <= now;
      assert n <= run;
    }
  }

  // ----- a table of records -----

  type Records<!K> = map<K, Health>
  type Histories<!K> = map<K, History>

  function RecordOf<K>(records: Records<K>, id: K): Health {
    if id in records then records[id] else UNPROBED
  }

  ghost function HistoryOf<K>(histories: Histories<K>, id: K): History {
    if id in histories then histories[id] else []
  }

  /** Every record is the fold of its history, and no probe is later than `clock`. */
  ghost predicate Faithful<K(!new)>(records: Records<K>, histories: Histories<K>, clock: Time) {
    forall id :: FaithfulAt(records, histories, clock, id)
  }

  ghost predicate FaithfulAt<K(!new)>(records: Records<K>, histories: Histories<K>, clock: Time, id: K) {
    var history := HistoryOf(histories, id);
    Describes(RecordOf(records, id), history) && InOrder(history) && NotAfter(history, clock)
  }

  ghost predicate NotAfter(history: History, clock: Time) {
    forall s :: s in history ==> s.at <= clock
  }

  ghost function Recorded<K>(histories: Histories<K>, id: K, s: Sample): Histories<K> {
    histories[id := HistoryOf(histories, id) + [s]]
  }

  lemma AppendInOrder(history: History, clock: Time, s: Sample)
    requires InOrder(history) && NotAfter(history, clock) && clock <= s.at && 0 < s.at
    ensures InOrder(history + [s]) && NotAfter(history + [s], s.at)
  {
    assert forall i :: 0 <= i < |history| ==> history[i] in history;
  }

  /** Probing one id at `now` keeps the table faithful and touches no other id. */
  lemma RecordKeepsFaithful<K(!new)>(records: Records<K>, histories: Histories<K>, clock: Time,
      id: K, probe: Probe, now: Time, warningMs: nat)
    requires Faithful(records, histories, clock) && clock <= now && 0 < now
    ensures Faithful(
      records[id := Observe(RecordOf(records, id), probe, now, warningMs)],
      Recorded(histories, id, Sample(now, probe.healthy)), now)
  {
    hide Describes, InOrder, Observe;
    var history := HistoryOf(histories, id);
    var records' := records[id := Observe(RecordOf(records, id), probe, now, warningMs)];
    var histories' := Recorded(histories, id, Sample(now, probe.healthy));
    assert FaithfulAt(records, histories, clock, id);
    ObserveDescribes(RecordOf(records, id), history, probe, now, warningMs);
    AppendInOrder(history, clock, Sample(now, probe.healthy));
    forall other
      ensures FaithfulAt(records', histories', now, other)
    {
      assert FaithfulAt(records, histories, clock, other);
    }
  }

  lemma LaterClock<K(!new)>(records: Records<K>, histories: Histories<K>, clock: Time, now: Time)
    requires Faithful(records, histories, clock) && clock <= now
    ensures Faithful(records, histories, now)
  {
    forall id
      ensures FaithfulAt(records, histories, now, id)
    {
      assert FaithfulAt(records, histories, clock, id);
    }
  }
}
