/** Priority runs: how a policy selects its location, with hysteresis and manual
    overrides, and when a set of decisions is applied. */
module PriorityRuns {
  import opened Entries
  import opened Config
  import opened Health
  import opened Schedule
  import opened PriorityMerge
  import opened RuleApply
  import opened Rotations

  datatype Manual = Manual(location: string, since: Time)

  type TargetKey = (string, string)    // policy, location

  /** What the outside world answers during one priority step. */
  datatype PriorityWorld = PriorityWorld(
    now: Time,
    running: set<(string, string)>,    // provider, location
    probe: (string, nat) -> Probe)     // by policy and place in its rotation

  datatype Limits = Limits(failureStreak: nat, failureSeconds: nat, restoreStreak: nat, restoreSeconds: nat)

  function LimitsOf(state: State, failureStreak: nat, restoreStreak: nat): Limits {
    Limits(failureStreak, FailureSeconds(state), restoreStreak, RestoreSeconds(state))
  }

  // ----- the rotation of a policy -----

  ghost function NonBlank(targets: seq<string>): seq<string> {
    if targets == [] then []
    else
      var last := targets[|targets| - 1];
      NonBlank(targets[..|targets| - 1]) + if last != "" then [last] else []
  }

  function PlaceOf(locations: seq<string>, location: string): (k: nat)
    ensures k <= |locations|
    ensures k < |locations| ==> locations[k] == location
    ensures forall j :: 0 <= j < k ==> locations[j] != location
  {
    if locations == [] || locations[0] == location then 0 else 1 + PlaceOf(locations[1..], location)
  }

  /** The targets, beginning with the preferred one if it is a target. */
  ghost function Candidates(targets: seq<string>, preferred: string): seq<string> {
    var locations := NonBlank(targets);
    var at := PlaceOf(locations, preferred);
    Rotated(locations, if at == |locations| then 0 else at)
  }

  method CandidateLocations(targets: seq<string>, preferred: string) returns (out: seq<string>)
    ensures out == Candidates(targets, preferred)
  {
    var locations: seq<string> := [];
    for i := 0 to |targets|
      invariant locations == NonBlank(targets[..i])
    {
      assert targets[..i + 1][..i] == targets[..i];
      if targets[i] != "" {
        locations := locations + [targets[i]];
      }
    }
    assert targets[..|targets|] == targets;
    if |locations| == 0 {
      return [];
    }
    var start := 0;
    for index := 0 to |locations|
      invariant start == 0 && forall j :: 0 <= j < index ==> locations[j] != preferred
    {
      if locations[index] == preferred {
        start := index;
        break;
      }
    }
    out := Rotate(locations, start);
  }

  lemma {:induction false} NonBlankMembers(targets: seq<string>)
    ensures forall l :: l in NonBlank(targets) <==> l in targets && l != ""
  {
    if targets != [] {
      assert targets == targets[..|targets| - 1] + [targets[|targets| - 1]];
      NonBlankMembers(targets[..|targets| - 1]);
    }
  }

  /** The rotation tries every target, and the preferred one first if it is a target. */
  lemma CandidatesAreTargets(targets: seq<string>, preferred: string)
    ensures multiset(Candidates(targets, preferred)) == multiset(NonBlank(targets))
    ensures forall l :: l in Candidates(targets, preferred) <==> l in targets && l != ""
    ensures preferred in targets && preferred != "" ==> Candidates(targets, preferred)[0] == preferred
  {
    var locations, candidates := NonBlank(targets), Candidates(targets, preferred);
    var at := PlaceOf(locations, preferred);
    NonBlankMembers(targets);
    RotatedIsPermutation(locations, if at == |locations| then 0 else at);
    assert forall l :: l in candidates <==> l in multiset(candidates);
    assert forall l :: l in locations <==> l in multiset(locations);
  }

  // ----- the selection -----

  /** One evaluation: what is known before the rotation is probed. */
  datatype Query = Query(policy: Policy, active: string, preferred: string, limits: Limits, w: PriorityWorld)

  /** The active location must also be running; other targets are only probed. */
  function TargetProbe(q: Query, k: nat, location: string): Probe {
    if q.active == location && (q.policy.providerId, location) !in q.w.running then Probe(false, 0)
    else q.w.probe(q.policy.id, k)
  }

  ghost function After(q: Query, histories: Histories<TargetKey>, candidates: seq<string>): Histories<TargetKey> {
    if candidates == [] then histories
    else
      var k := |candidates| - 1;
      Recorded(After(q, histories, candidates[..k]), (q.policy.id, candidates[k]),
        Sample(q.w.now, TargetProbe(q, k, candidates[k]).healthy))
  }

  lemma AfterOne(q: Query, histories: Histories<TargetKey>, candidates: seq<string>, k: nat)
    requires k < |candidates|
    ensures After(q, histories, candidates[..k + 1])
         == Recorded(After(q, histories, candidates[..k]), (q.policy.id, candidates[k]),
              Sample(q.w.now, TargetProbe(q, k, candidates[k]).healthy))
  {
    assert candidates[..k + 1][..k] == candidates[..k];
  }

  ghost predicate TargetFailed(q: Query, histories: Histories<TargetKey>, location: string) {
    Uninterrupted(HistoryOf(histories, (q.policy.id, location)), false,
      q.limits.failureStreak, q.limits.failureSeconds, q.w.now)
  }

  ghost predicate Stable(q: Query, histories: Histories<TargetKey>, location: string) {
    Uninterrupted(HistoryOf(histories, (q.policy.id, location)), true,
      q.limits.restoreStreak, q.limits.restoreSeconds, q.w.now)
  }

  ghost predicate Answers(q: Query, histories: Histories<TargetKey>, location: string) {
    EndsWith(HistoryOf(histories, (q.policy.id, location)), true, 1)
  }

  /** The rotation stops at `location`, whose latest probe is in the histories. */
  ghost predicate Stops(q: Query, histories: Histories<TargetKey>, location: string) {
    if Answers(q, histories, location) then
      location == q.preferred && q.active != "" && q.active != q.preferred ==> Stable(q, histories, location)
    else
      location == q.active && !TargetFailed(q, histories, location)
  }

  ghost predicate StopsAt(q: Query, histories: Histories<TargetKey>, candidates: seq<string>, k: nat)
    requires k < |candidates|
  {
    Stops(q, After(q, histories, candidates[..k + 1]), candidates[k])
  }

  /** `location` is where the rotation stops first; `probed` targets were probed. Without a
      stop the active location is kept, or the preferred one taken if there is none. */
  ghost predicate IsSelection(q: Query, histories: Histories<TargetKey>, candidates: seq<string>, probed: nat,
      location: string)
  {
    && probed <= |candidates|
    && (if 0 < probed && StopsAt(q, histories, candidates, probed - 1) then
          location == candidates[probed - 1] && NoStop(q, histories, candidates, probed - 1)
        else
          probed == |candidates| && NoStop(q, histories, candidates, probed)
          && location == if q.active != "" then q.active else q.preferred)
  }

  ghost predicate NoStop(q: Query, histories: Histories<TargetKey>, candidates: seq<string>, n: nat)
    requires n <= |candidates|
  {
    forall k :: 0 <= k < n ==> !StopsAt(q, histories, candidates, k)
  }

  // ----- hysteresis -----

  ghost predicate Precedes(candidates: seq<string>, a: string, b: string) {
    exists k :: 0 <= k < |candidates| && candidates[k] == a && b !in candidates[..k]
  }

  lemma {:induction false} AfterOthers(q: Query, histories: Histories<TargetKey>, candidates: seq<string>, from: nat,
      to: nat, location: string)
    requires from <= to <= |candidates| && forall j :: from <= j < to ==> candidates[j] != location
    ensures HistoryOf(After(q, histories, candidates[..to]), (q.policy.id, location))
         == HistoryOf(After(q, histories, candidates[..from]), (q.policy.id, location))
  {
    hide After;
    if from < to {
      AfterOne(q, histories, candidates, to - 1);
      AfterOthers(q, histories, candidates, from, to - 1, location);
    }
  }

  lemma {:induction false} LastPlace(locations: seq<string>, location: string) returns (k: nat)
    requires location in locations
    ensures k < |locations| && locations[k] == location && location !in locations[k + 1..]
  {
    k := |locations| - 1;
    if locations[k] != location {
      var init := locations[..k];
      assert locations == init + [locations[k]];
      var j := LastPlace(init, location);
      assert locations[j + 1..] == init[j + 1..] + [locations[k]];
      k := j;
    }
  }

  /** The active location is left only for a target that answers (and is stable, if it is
      the preferred one), and only if the active one has failed for long enough or comes
      later in the rotation. */
  lemma Hysteresis(q: Query, histories: Histories<TargetKey>, candidates: seq<string>, probed: nat, location: string)
    requires IsSelection(q, histories, candidates, probed, location)
    requires q.active != "" && location != q.active
    ensures
      var after := After(q, histories, candidates[..probed]);
      && Answers(q, after, location)
      && (location == q.preferred ==> Stable(q, after, location))
      && (q.active in candidates ==> TargetFailed(q, after, q.active) || Precedes(candidates, location, q.active))
  {
    hide Uninterrupted, EndsWith, After, HistoryOf;
    var k := probed - 1;
    if q.active in candidates[..k] {
      var a := LastPlace(candidates[..k], q.active);
      AfterOthers(q, histories, candidates, a + 1, probed, q.active);
      assert !StopsAt(q, histories, candidates, a);
    } else {
      assert candidates[k] == location;
    }
  }

  /** Whatever happens, some location is selected: traffic is never released. */
  lemma SelectionIsNotBlank(q: Query, histories: Histories<TargetKey>, candidates: seq<string>, probed: nat,
      location: string)
    requires IsSelection(q, histories, candidates, probed, location)
    requires "" !in candidates && q.preferred != ""
    ensures location != ""
  {
    if 0 < probed && StopsAt(q, histories, candidates, probed - 1) {
      assert candidates[probed - 1] in candidates;
    }
  }

  // ----- when the preferred location is taken -----

  /** With one more probe of the same result now, `result` has lasted for `streak` probes
      and `duration` seconds. */
  ghost predicate Lasts(prior: History, result: bool, streak: nat, duration: nat, now: Time) {
    || (streak <= 1 && duration == 0)
    || exists n :: 0 < n && streak <= n + 1 && EndsWith(prior, result, n) && prior[|prior| - n].at + duration <= now
  }

  lemma LastsIff(prior: History, s: Sample, result: bool, streak: nat, duration: nat)
    ensures Uninterrupted(prior + [s], result, streak, duration, s.at)
       <==> s.healthy == result && Lasts(prior, result, streak, duration, s.at)
  {
    var history := prior + [s];
    assert forall i :: 0 <= i < |prior| ==> history[i] == prior[i];
    assert history[|prior|] == s;
    if Uninterrupted(history, result, streak, duration, s.at) {
      var n :| 0 < n && streak <= n && EndsWith(history, result, n) && history[|history| - n].at + duration <= s.at;
      assert n > 1 ==> EndsWith(prior, result, n - 1) && prior[|prior| - (n - 1)] == history[|history| - n];
    }
    if s.healthy == result && Lasts(prior, result, streak, duration, s.at) {
      assert EndsWith(history, result, 1);
      if n :| 0 < n && streak <= n + 1 && EndsWith(prior, result, n) && prior[|prior| - n].at + duration <= s.at {
        assert EndsWith(history, result, n + 1) && history[|history| - (n + 1)] == prior[|prior| - n];
      }
    }
  }

  /** No other target of the rotation answers. */
  ghost predicate OthersFail(q: Query, candidates: seq<string>) {
    forall k :: 0 <= k < |candidates| && candidates[k] != q.preferred ==> !TargetProbe(q, k, candidates[k]).healthy
  }

  /** Read off the probes and the history before the step: the preferred location takes over
      from another one only if it answers now and has done so for long enough before. If it
      is in use already, or nothing is, one answer will do, or that no other answers. */
  ghost predicate TakesPreferred(q: Query, histories: Histories<TargetKey>, candidates: seq<string>) {
    var prior := HistoryOf(histories, (q.policy.id, q.preferred));
    var listed := q.preferred in candidates;
    var answers := listed && TargetProbe(q, 0, q.preferred).healthy;
    if q.active == "" then answers || OthersFail(q, candidates)
    else if q.active == q.preferred then
      || answers || OthersFail(q, candidates)
      || (listed && !Lasts(prior, false, q.limits.failureStreak, q.limits.failureSeconds, q.w.now))
    else answers && Lasts(prior, true, q.limits.restoreStreak, q.limits.restoreSeconds, q.w.now)
  }

  /** The preferred target comes first in the rotation and only there. */
  ghost predicate LeadsOnce(candidates: seq<string>, preferred: string) {
    && "" !in candidates
    && (preferred in candidates ==> candidates[0] == preferred && preferred !in candidates[1..])
  }

  lemma AnswersIff(q: Query, histories: Histories<TargetKey>, candidates: seq<string>, k: nat)
    requires k < |candidates|
    ensures Answers(q, After(q, histories, candidates[..k + 1]), candidates[k])
       <==> TargetProbe(q, k, candidates[k]).healthy
  {
    AfterOne(q, histories, candidates, k);
    var history := HistoryOf(After(q, histories, candidates[..k + 1]), (q.policy.id, candidates[k]));
    assert history[|history| - 1] == Sample(q.w.now, TargetProbe(q, k, candidates[k]).healthy);
  }

  /** A target other than the preferred one stops the rotation if it answers, and else only
      if it is the active one. */
  lemma OtherStopsIff(q: Query, histories: Histories<TargetKey>, candidates: seq<string>, k: nat)
    requires k < |candidates| && candidates[k] != q.preferred && "" !in candidates
    requires q.active == "" || q.active == q.preferred
    ensures StopsAt(q, histories, candidates, k) <==> TargetProbe(q, k, candidates[k]).healthy
  {
    hide Answers, After;
    AnswersIff(q, histories, candidates, k);
    assert candidates[k] in candidates;
  }

  lemma FirstStopsIff(q: Query, histories: Histories<TargetKey>, candidates: seq<string>)
    requires candidates != [] && candidates[0] == q.preferred != ""
    ensures
      var prior := HistoryOf(histories, (q.policy.id, q.preferred));
      StopsAt(q, histories, candidates, 0)
      <==> if TargetProbe(q, 0, q.preferred).healthy then
             q.active != "" && q.active != q.preferred ==>
               Lasts(prior, true, q.limits.restoreStreak, q.limits.restoreSeconds, q.w.now)
           else
             q.active == q.preferred && !Lasts(prior, false, q.limits.failureStreak, q.limits.failureSeconds, q.w.now)
  {
    hide Uninterrupted, Lasts, Answers;
    AnswersIff(q, histories, candidates, 0);
    var prior := HistoryOf(histories, (q.policy.id, q.preferred));
    var probe := Sample(q.w.now, TargetProbe(q, 0, q.preferred).healthy);
    AfterOne(q, histories, candidates, 0);
    assert candidates[..0] == [];
    LastsIff(prior, probe, true, q.limits.restoreStreak, q.limits.restoreSeconds);
    LastsIff(prior, probe, false, q.limits.failureStreak, q.limits.failureSeconds);
  }

  /** When exactly the rotation selects the preferred location. */
  lemma PreferredTakenIff(q: Query, histories: Histories<TargetKey>, candidates: seq<string>, probed: nat,
      location: string)
    requires IsSelection(q, histories, candidates, probed, location)
    requires LeadsOnce(candidates, q.preferred) && q.preferred != ""
    ensures location == q.preferred <==> TakesPreferred(q, histories, candidates)
  {
    hide Stops, After, Lasts;
    if q.preferred in candidates {
      FirstStopsIff(q, histories, candidates);
    }
    if q.active == "" || q.active == q.preferred {
      forall k | 0 <= k < |candidates| && candidates[k] != q.preferred
        ensures StopsAt(q, histories, candidates, k) <==> TargetProbe(q, k, candidates[k]).healthy
      {
        OtherStopsIff(q, histories, candidates, k);
      }
    }
  }

  ghost predicate DistinctTargets(targets: seq<string>) {
    forall i, j :: 0 <= i < j < |targets| ==> targets[i] != targets[j]
  }

  lemma {:induction false} NonBlankDistinct(targets: seq<string>)
    requires DistinctTargets(targets)
    ensures DistinctTargets(NonBlank(targets))
  {
    if targets != [] {
      var init, last := targets[..|targets| - 1], targets[|targets| - 1];
      NonBlankDistinct(init);
      NonBlankMembers(init);
      assert last !in init;
    }
  }

  lemma RotationLeadsOnce(targets: seq<string>, preferred: string)
    requires DistinctTargets(targets)
    ensures LeadsOnce(Candidates(targets, preferred), preferred)
  {
    hide PlaceOf, NonBlank;
    var locations, candidates := NonBlank(targets), Candidates(targets, preferred);
    NonBlankDistinct(targets);
    CandidatesAreTargets(targets, preferred);
    NonBlankMembers(targets);
    if preferred in candidates {
      var at := PlaceOf(locations, preferred);
      assert preferred in locations && at < |locations|;
      assert candidates == [preferred] + (locations[at + 1..] + locations[..at]);
    }
  }

  /** A manual choice that does not take effect: NL answers, but it was never probed before,
      so DE stays and the choice is dropped at once. */
  lemma ManualChoiceIsDropped()
    ensures
      var p := Policy("p", "vpn", "", true, ["DE", "NL"], []);
      var w := PriorityWorld(1000, {("vpn", "DE")}, (id, k) => Probe(true, 10));
      var q := Query(p, "DE", "NL", Limits(3, 120, 2, 60), w);
      && IsSelection(q, map[], Candidates(p.targets, "NL"), 2, "DE")
      && AfterSelection(map["p" := Manual("NL", 990)], "p", "DE") == map[]
  {
    var p := Policy("p", "vpn", "", true, ["DE", "NL"], []);
    var w := PriorityWorld(1000, {("vpn", "DE")}, (id, k) => Probe(true, 10));
    var q := Query(p, "DE", "NL", Limits(3, 120, 2, 60), w);
    hide After, Answers, Candidates, TargetFailed, Stable;
    TwoCandidates("DE", "NL");
    FirstStopsIff(q, map[], ["NL", "DE"]);
    AnswersIff(q, map[], ["NL", "DE"], 1);
  }

  lemma TwoCandidates(a: string, b: string)
    requires a != "" && b != "" && a != b
    ensures Candidates([a, b], b) == [b, a]
  {
    assert [a, b][..1] == [a] && [a][..0] == [];
    assert NonBlank([a]) == [a];
    assert NonBlank([a, b]) == [a, b];
    assert [a, b][1..] == [b];
    assert PlaceOf([a, b], b) == 1;
  }

  // ----- decisions -----

  function RunningTarget(providerId: string, targets: seq<string>, running: set<(string, string)>): (r: string)
    ensures r != "" ==> r in targets && (providerId, r) in running
    ensures r == "" ==> forall l :: l in targets && l != "" ==> (providerId, l) !in running
  {
    if targets == [] then ""
    else if targets[0] != "" && (providerId, targets[0]) in running then targets[0]
    else RunningTarget(providerId, targets[1..], running)
  }

  function ActiveTarget(decisions: Decisions, p: Policy, running: set<(string, string)>): string {
    if p.id in decisions && decisions[p.id].activeLocation != "" then decisions[p.id].activeLocation
    else RunningTarget(p.providerId, p.targets, running)
  }

  type Manuals = map<string, Manual>

  function Preferred(manuals: Manuals, p: Policy, now: Time): string {
    if p.id in manuals then manuals[p.id].location else PreferredLocation(p, now)
  }

  function QueryOf(p: Policy, decisions: Decisions, manuals: Manuals, limits: Limits, w: PriorityWorld): Query {
    Query(p, ActiveTarget(decisions, p, w.running), Preferred(manuals, p, w.now), limits, w)
  }

  function DecisionSince(decisions: Decisions, id: string, now: Time, location: string,
      fingerprint: Fingerprint): Time
  {
    if id in decisions && decisions[id].activeLocation == location && decisions[id].mode == ViaProvider
       && decisions[id].fingerprint == fingerprint && decisions[id].since != 0
    then decisions[id].since
    else now
  }

  /** Leaving the active location needs its cause in the probe history. */
  ghost predicate Warranted(q: Query, histories: Histories<TargetKey>, location: string) {
    q.active != "" && location != q.active ==>
      && Answers(q, histories, location)
      && (location == q.preferred ==> Stable(q, histories, location))
      && (q.active in q.policy.targets ==>
            || TargetFailed(q, histories, q.active)
            || Precedes(Candidates(q.policy.targets, q.preferred), location, q.active))
  }

  /** Everything but the route's age. */
  predicate SameRoute(a: Decision, b: Decision) {
    && a.activeLocation == b.activeLocation && a.preferredLocation == b.preferredLocation
    && a.mode == b.mode && a.fingerprint == b.fingerprint
  }

  predicate SameDecisions(left: Decisions, right: Decisions) {
    |left| == |right| && forall id | id in left :: id in right && SameRoute(left[id], right[id])
  }

  predicate RuntimeMatches(running: set<(string, string)>, decisions: Decisions) {
    forall id | id in decisions ::
      decisions[id].mode == Direct || decisions[id].activeLocation == ""
      || (decisions[id].providerId, decisions[id].activeLocation) in running
  }

  /** The decision of one evaluation. */
  ghost predicate IsDecision(state: State, q: Query, decisions: Decisions, location: string, d: Decision) {
    && d.policyId == q.policy.id && Backs(d, q.policy)
    && d.activeLocation == location && d.preferredLocation == q.preferred
    && d.fingerprint == PolicyFingerprint(q.policy, state)
    && d.since == DecisionSince(decisions, q.policy.id, q.w.now, location, d.fingerprint)
  }

  /** The rotation of the query was probed and `location` selected. */
  ghost predicate Selected(q: Query, before: Histories<TargetKey>, after: Histories<TargetKey>, location: string) {
    var candidates := Candidates(q.policy.targets, q.preferred);
    exists probed: nat ::
      IsSelection(q, before, candidates, probed, location) && after == After(q, before, candidates[..probed])
  }

  function AfterSelection(manuals: Manuals, id: string, location: string): Manuals {
    if id in manuals && manuals[id].location != location then manuals - {id} else manuals
  }

  /** A manual choice is dropped as soon as another location is selected. */
  ghost function AfterSelections(manuals: Manuals, next: Decisions): Manuals {
    map id | id in manuals && (id !in next || next[id].activeLocation == manuals[id].location) :: manuals[id]
  }

  ghost predicate DistinctPolicyIds(policies: seq<Policy>) {
    forall i, j :: 0 <= i < j < |policies| ==> policies[i].id != policies[j].id
  }

  /** What one step makes of a policy. */
  ghost predicate Settled(state: State, p: Policy, decisions: Decisions, manuals: Manuals, limits: Limits,
      w: PriorityWorld, histories: Histories<TargetKey>, next: Decisions)
  {
    && (p.id in next <==> Evaluates(state, p) && Preferred(manuals, p, w.now) != "")
    && (p.id in next ==>
          && Backs(next[p.id], p) && next[p.id].fingerprint == PolicyFingerprint(p, state)
          && Warranted(QueryOf(p, decisions, manuals, limits, w), histories, next[p.id].activeLocation))
  }

  ghost predicate AllSettled(state: State, policies: seq<Policy>, decisions: Decisions, manuals: Manuals,
      limits: Limits, w: PriorityWorld, histories: Histories<TargetKey>, next: Decisions)
  {
    && (forall p :: p in policies ==> Settled(state, p, decisions, manuals, limits, w, histories, next))
    && forall id :: id in next ==> exists p :: p in policies && p.id == id
  }

  function FindPolicy(policies: seq<Policy>, id: string): (r: Option<Policy>)
    ensures r.Some? ==> r.value in policies && r.value.id == id
    ensures r.None? ==> forall p :: p in policies ==> p.id != id
  {
    if policies == [] then None
    else if policies[|policies| - 1].id == id then Some(policies[|policies| - 1])
    else
      assert policies == policies[..|policies| - 1] + [policies[|policies| - 1]];
      FindPolicy(policies[..|policies| - 1], id)
  }

  ghost predicate SegmentEnded(p: Policy, since: Time, now: Time) {
    exists t :: since < t <= now && IsBoundary(p.schedule, t)
  }

  ghost predicate KeepsManual(policies: seq<Policy>, id: string, m: Manual, now: Time) {
    var p := FindPolicy(policies, id);
    p.Some? && m.location in p.value.targets && !SegmentEnded(p.value, m.since, now)
  }

  ghost function PrunedManuals(policies: seq<Policy>, manuals: Manuals, now: Time): Manuals {
    map id | id in manuals && KeepsManual(policies, id, manuals[id], now) :: manuals[id]
  }

  /** A decision's fingerprint names its provider. */
  ghost predicate Stamped(decisions: Decisions) {
    forall id :: id in decisions ==>
      decisions[id].fingerprint.Fingerprint? && decisions[id].fingerprint.providerId == decisions[id].providerId
  }

  /** What became of one priority step that evaluated to `next`. */
  ghost predicate Concluded(state: State, before: Decisions, after: Decisions, next: Decisions,
      running: set<(string, string)>, acted: bool, env: ApplyEnv)
  {
    var settled := SameDecisions(before, next) && RuntimeMatches(running, next);
    if acted then !settled && after == next && Acceptable(PriorityApplied(state, next))
    else after == before && (settled || !Guaranteed(env, PriorityApplied(state, next)))
  }

  lemma LimitsConfigured(state: State, failureStreak: nat, restoreStreak: nat)
    ensures LimitsOf(state, failureStreak, restoreStreak) == Limits(
      failureStreak, if state.automation.failureSeconds <= 0 then 120 else state.automation.failureSeconds,
      restoreStreak, if state.automation.restoreSeconds <= 0 then 60 else state.automation.restoreSeconds)
  {
  }

  /** A policy whose decision is in force leaves its location only for one that answers. It
      must have failed for the set time, two minutes by default, or come later in the rotation;
      and the preferred location must have answered for the set time, by default one minute. */
  lemma LeavingNeedsTime(state: State, p: Policy, decisions: Decisions, manuals: Manuals, failureStreak: nat,
      restoreStreak: nat, w: PriorityWorld, histories: Histories<TargetKey>, next: Decisions)
    requires Settled(state, p, decisions, manuals, LimitsOf(state, failureStreak, restoreStreak), w, histories, next)
    requires p.id in decisions && p.id in next
    requires
      var active := decisions[p.id].activeLocation;
      active != "" && active in p.targets && next[p.id].activeLocation != active
    ensures
      var active, location := decisions[p.id].activeLocation, next[p.id].activeLocation;
      var preferred := if p.id in manuals then manuals[p.id].location else PreferredLocation(p, w.now);
      var failure := if state.automation.failureSeconds <= 0 then 120 else state.automation.failureSeconds;
      var restore := if state.automation.restoreSeconds <= 0 then 60 else state.automation.restoreSeconds;
      && EndsWith(HistoryOf(histories, (p.id, location)), true, 1)
      && (Uninterrupted(HistoryOf(histories, (p.id, active)), false, failureStreak, failure, w.now)
          || Precedes(Candidates(p.targets, preferred), location, active))
      && (location == preferred ==>
            Uninterrupted(HistoryOf(histories, (p.id, location)), true, restoreStreak, restore, w.now))
  {
  }

  /** A target counts as answering if its probe does, and the active one only if it runs. */
  lemma AnswerCounts(q: Query, histories: Histories<TargetKey>, candidates: seq<string>, k: nat)
    requires k < |candidates|
    ensures Answers(q, After(q, histories, candidates[..k + 1]), candidates[k])
       <==> q.w.probe(q.policy.id, k).healthy
            && (candidates[k] == q.active ==> (q.policy.providerId, q.active) in q.w.running)
  {
    AnswersIff(q, histories, candidates, k);
  }

  /** Without a decision in force the active location is the first target that runs. */
  lemma {:induction false} RunningIsFirst(providerId: string, targets: seq<string>, running: set<(string, string)>,
      i: nat)
    requires i < |targets| && targets[i] != "" && (providerId, targets[i]) in running
    requires forall j :: 0 <= j < i ==> targets[j] == "" || (providerId, targets[j]) !in running
    ensures RunningTarget(providerId, targets, running) == targets[i]
  {
    if 0 < i {
      RunningIsFirst(providerId, targets[1..], running, i - 1);
    }
  }

  lemma FirstRunningIsActive(p: Policy, decisions: Decisions, manuals: Manuals, limits: Limits, w: PriorityWorld,
      i: nat)
    requires p.id !in decisions || decisions[p.id].activeLocation == ""
    requires i < |p.targets| && p.targets[i] != "" && (p.providerId, p.targets[i]) in w.running
    requires forall j :: 0 <= j < i ==> p.targets[j] == "" || (p.providerId, p.targets[j]) !in w.running
    ensures QueryOf(p, decisions, manuals, limits, w).active == p.targets[i]
  {
    RunningIsFirst(p.providerId, p.targets, w.running, i);
  }

  /** A step that could apply but did not has decisions in force that all run, and that differ
      from the new ones in nothing but age; one that did apply had cause to. */
  lemma ConcludedWithCause(state: State, before: Decisions, after: Decisions, next: Decisions,
      running: set<(string, string)>, acted: bool, env: ApplyEnv)
    requires Concluded(state, before, after, next, running, acted, env) && Backed(state, next)
    ensures !acted && Guaranteed(env, PriorityApplied(state, next)) ==>
      before.Keys == next.Keys && forall id :: id in before && id in next ==>
        && before[id].activeLocation == next[id].activeLocation
        && before[id].preferredLocation == next[id].preferredLocation
        && before[id].mode == next[id].mode && before[id].fingerprint == next[id].fingerprint
        && (next[id].providerId, next[id].activeLocation) in running
    ensures acted && before.Keys == next.Keys ==>
      || (exists id :: id in next && (next[id].providerId, next[id].activeLocation) !in running)
      || exists id :: id in before && id in next && before[id].(since := 0) != next[id].(since := 0)
  {
    SameDecisionsIff(before, next);
  }

  lemma SettledIsStamped(state: State, decisions: Decisions, manuals: Manuals, limits: Limits, w: PriorityWorld,
      histories: Histories<TargetKey>, next: Decisions)
    requires AllSettled(state, state.policies, decisions, manuals, limits, w, histories, next)
    ensures Stamped(next) && Backed(state, next)
  {
    forall id | id in next
      ensures next[id].fingerprint.Fingerprint? && next[id].fingerprint.providerId == next[id].providerId
      ensures exists p :: p in state.policies && p.id == id && Backs(next[id], p)
    {
      var p :| p in state.policies && p.id == id;
      assert Settled(state, p, decisions, manuals, limits, w, histories, next);
    }
  }

  lemma SameDecisionsIff(left: Decisions, right: Decisions)
    ensures SameDecisions(left, right)
       <==> left.Keys == right.Keys && forall id :: id in left && id in right ==> SameRoute(left[id], right[id])
  {
    if SameDecisions(left, right) {
      assert left.Keys <= right.Keys && |left.Keys| == |right.Keys|;
      assert right.Keys == left.Keys + (right.Keys - left.Keys);
    }
  }

  /** Not applying decisions that are the same but for their age loses nothing: they
      derive the same configuration. */
  lemma SameDecisionsApplySame(state: State, left: Decisions, right: Decisions)
    requires Stamped(left) && Stamped(right) && SameDecisions(left, right)
    ensures PriorityApplied(state, left) == PriorityApplied(state, right)
  {
    SameDecisionsIff(left, right);
    forall providerId
      ensures Controlled(left, providerId) <==> Controlled(right, providerId)
    {
    }
    SameUncontrolled(state.rules, left, right);
    SameMerged(state, left, right, state.policies);
    assert left == map[] <==> left.Keys == {};
    assert right == map[] <==> right.Keys == {};
  }

  lemma {:induction false} SameUncontrolled(rules: seq<Rule>, left: Decisions, right: Decisions)
    requires forall providerId :: Controlled(left, providerId) <==> Controlled(right, providerId)
    ensures Uncontrolled(rules, left) == Uncontrolled(rules, right)
  {
    if rules != [] {
      SameUncontrolled(rules[..|rules| - 1], left, right);
    }
  }

  lemma {:induction false} SameMerged(state: State, left: Decisions, right: Decisions, policies: seq<Policy>)
    requires left.Keys == right.Keys && forall id :: id in left ==> SameRoute(left[id], right[id])
    ensures MergedRules(state, left, policies) == MergedRules(state, right, policies)
  {
    if policies != [] {
      SameMerged(state, left, right, policies[..|policies| - 1]);
    }
  }

  /** The tests on the record are the tests on the history. */
  lemma StopsIff(q: Query, health: Records<TargetKey>, histories: Histories<TargetKey>, clock: Time, location: string,
      healthy: bool)
    requires Faithful(health, histories, clock)
    requires
      var history := HistoryOf(histories, (q.policy.id, location));
      history != [] && history[|history| - 1].healthy == healthy
    ensures
      var record := RecordOf(health, (q.policy.id, location));
      Stops(q, histories, location)
      <==> if healthy then
             location == q.preferred && q.active != "" && q.active != q.preferred ==>
               LongHealthy(record, q.limits.restoreStreak, q.limits.restoreSeconds, q.w.now)
           else
             location == q.active && !LongFailing(record, q.limits.failureStreak, q.limits.failureSeconds, q.w.now)
  {
    var key := (q.policy.id, location);
    assert FaithfulAt(health, histories, clock, key);
    ThresholdIffUninterrupted(RecordOf(health, key), HistoryOf(histories, key),
      q.limits.failureStreak, q.limits.failureSeconds, q.w.now);
    ThresholdIffUninterrupted(RecordOf(health, key), HistoryOf(histories, key),
      q.limits.restoreStreak, q.limits.restoreSeconds, q.w.now);
  }

  /** A kept manual choice never outlives the schedule segment it was made in. */
  lemma ManualWithinSegment(policies: seq<Policy>, id: string, m: Manual, now: Time, t: Time)
    requires KeepsManual(policies, id, m, now) && m.since <= t <= now
    ensures
      var p := FindPolicy(policies, id).value;
      ActiveLocation(p, t) == ActiveLocation(p, m.since)
  {
    ConstantUntilBoundary(FindPolicy(policies, id).value, m.since, t);
  }

  lemma {:induction false} OtherPoliciesUnprobed(q: Query, histories: Histories<TargetKey>, candidates: seq<string>,
      key: TargetKey)
    requires key.0 != q.policy.id
    ensures HistoryOf(After(q, histories, candidates), key) == HistoryOf(histories, key)
  {
    if candidates != [] {
      OtherPoliciesUnprobed(q, histories, candidates[..|candidates| - 1], key);
    }
  }

  lemma SelectedBy(q: Query, before: Histories<TargetKey>, after: Histories<TargetKey>, probed: nat, location: string)
    requires IsSelection(q, before, Candidates(q.policy.targets, q.preferred), probed, location)
    requires after == After(q, before, Candidates(q.policy.targets, q.preferred)[..probed])
    requires q.preferred != ""
    ensures Selected(q, before, after, location) && location != ""
  {
    CandidatesAreTargets(q.policy.targets, q.preferred);
    SelectionIsNotBlank(q, before, Candidates(q.policy.targets, q.preferred), probed, location);
  }

  lemma SelectedIsWarranted(q: Query, before: Histories<TargetKey>, after: Histories<TargetKey>, location: string)
    requires Selected(q, before, after, location)
    ensures Warranted(q, after, location)
    ensures forall key: TargetKey :: key.0 != q.policy.id ==> HistoryOf(after, key) == HistoryOf(before, key)
  {
    var candidates := Candidates(q.policy.targets, q.preferred);
    var probed: nat :|
      IsSelection(q, before, candidates, probed, location) && after == After(q, before, candidates[..probed]);
    CandidatesAreTargets(q.policy.targets, q.preferred);
    if q.active != "" && location != q.active {
      Hysteresis(q, before, candidates, probed, location);
    }
    forall key: TargetKey | key.0 != q.policy.id {
      OtherPoliciesUnprobed(q, before, candidates[..probed], key);
    }
  }

  lemma SettledStays(state: State, p: Policy, decisions: Decisions, manuals: Manuals, limits: Limits, w: PriorityWorld,
      before: Histories<TargetKey>, after: Histories<TargetKey>, known: Decisions, next: Decisions)
    requires Settled(state, p, decisions, manuals, limits, w, before, known)
    requires p.id in known <==> p.id in next
    requires p.id in next ==> next[p.id] == known[p.id]
    requires forall l :: HistoryOf(after, (p.id, l)) == HistoryOf(before, (p.id, l))
    ensures Settled(state, p, decisions, manuals, limits, w, after, next)
  {
  }

  /** One more policy evaluated to `d`, which joins the decisions. */
  ghost predicate Evaluated(state: State, policy: Policy, decisions: Decisions, manuals: Manuals, limits: Limits,
      w: PriorityWorld, before: Histories<TargetKey>, after: Histories<TargetKey>, d: Option<Decision>)
  {
    && (d.Some? <==> Evaluates(state, policy) && Preferred(manuals, policy, w.now) != "")
    && (d.None? ==> after == before)
    && (d.Some? ==>
          var q := QueryOf(policy, decisions, manuals, limits, w);
          && IsDecision(state, q, decisions, d.value.activeLocation, d.value)
          && Selected(q, before, after, d.value.activeLocation))
  }

  lemma SettledNew(state: State, policy: Policy, decisions: Decisions, manuals: Manuals, limits: Limits,
      w: PriorityWorld, before: Histories<TargetKey>, after: Histories<TargetKey>, next: Decisions, d: Option<Decision>)
    requires Evaluated(state, policy, decisions, manuals, limits, w, before, after, d)
    requires if d.Some? then policy.id in next && next[policy.id] == d.value else policy.id !in next
    ensures Settled(state, policy, decisions, manuals, limits, w, after, next)
  {
    if d.Some? {
      SelectedIsWarranted(QueryOf(policy, decisions, manuals, limits, w), before, after, d.value.activeLocation);
    }
  }

  /** The preferred location, manual or scheduled, is taken exactly if the histories before
      the step and its probes say so. */
  ghost predicate PreferredTaken(p: Policy, decisions: Decisions, manuals: Manuals, limits: Limits, w: PriorityWorld,
      start: Histories<TargetKey>, next: Decisions)
  {
    p.id in next && DistinctTargets(p.targets) ==>
      var q := QueryOf(p, decisions, manuals, limits, w);
      (next[p.id].activeLocation == q.preferred <==> TakesPreferred(q, start, Candidates(p.targets, q.preferred)))
  }

  ghost predicate AllPreferredTaken(policies: seq<Policy>, decisions: Decisions, manuals: Manuals, limits: Limits,
      w: PriorityWorld, start: Histories<TargetKey>, next: Decisions)
  {
    forall p :: p in policies ==> PreferredTaken(p, decisions, manuals, limits, w, start, next)
  }

  lemma SelectedPreferredIff(q: Query, start: Histories<TargetKey>, before: Histories<TargetKey>,
      after: Histories<TargetKey>, location: string)
    requires Selected(q, before, after, location) && q.preferred != "" && DistinctTargets(q.policy.targets)
    requires forall l :: HistoryOf(before, (q.policy.id, l)) == HistoryOf(start, (q.policy.id, l))
    ensures location == q.preferred <==> TakesPreferred(q, start, Candidates(q.policy.targets, q.preferred))
  {
    hide Candidates, StopsAt;
    var candidates := Candidates(q.policy.targets, q.preferred);
    var probed: nat :|
      IsSelection(q, before, candidates, probed, location) && after == After(q, before, candidates[..probed]);
    RotationLeadsOnce(q.policy.targets, q.preferred);
    PreferredTakenIff(q, before, candidates, probed, location);
  }

  /** Policies yet to be evaluated still have the histories they had at the start. */
  ghost predicate Unvisited(rest: seq<Policy>, start: Histories<TargetKey>, histories: Histories<TargetKey>) {
    forall p, l :: p in rest ==> HistoryOf(histories, (p.id, l)) == HistoryOf(start, (p.id, l))
  }

  lemma PreferredTakenExtends(state: State, i: nat, decisions: Decisions, manuals: Manuals, limits: Limits,
      w: PriorityWorld, start: Histories<TargetKey>, before: Histories<TargetKey>, after: Histories<TargetKey>,
      known: Decisions, next: Decisions, d: Option<Decision>)
    requires i < |state.policies| && DistinctPolicyIds(state.policies)
    requires Evaluated(state, state.policies[i], decisions, manuals, limits, w, before, after, d)
    requires state.policies[i].id !in known
    requires next == if d.Some? then known[state.policies[i].id := d.value] else known
    requires AllPreferredTaken(state.policies[..i], decisions, manuals, limits, w, start, known)
    requires Unvisited(state.policies[i..], start, before)
    ensures AllPreferredTaken(state.policies[..i + 1], decisions, manuals, limits, w, start, next)
    ensures Unvisited(state.policies[i + 1..], start, after)
  {
    hide Selected, IsDecision, TakesPreferred, Candidates;
    var policy := state.policies[i];
    assert policy in state.policies[i..];
    forall p | p in state.policies[..i + 1]
      ensures PreferredTaken(p, decisions, manuals, limits, w, start, next)
    {
      if p in state.policies[..i] {
        assert PreferredTaken(p, decisions, manuals, limits, w, start, known);
        assert p.id != policy.id;
      } else {
        assert p == policy;
        var q := QueryOf(policy, decisions, manuals, limits, w);
        if d.Some? && DistinctTargets(policy.targets) {
          SelectedPreferredIff(q, start, before, after, d.value.activeLocation);
          assert next[p.id] == d.value;
        }
      }
    }
    forall p, l | p in state.policies[i + 1..]
      ensures HistoryOf(after, (p.id, l)) == HistoryOf(start, (p.id, l))
    {
      assert p in state.policies[i..] && p.id != policy.id;
      OthersUntouched(state, policy, decisions, manuals, limits, w, before, after, d, (p.id, l));
    }
  }

  /** A manual choice survives a step that evaluates its policy exactly if it takes effect. */
  lemma ManualSurvivesIff(policies: seq<Policy>, p: Policy, decisions: Decisions, manuals: Manuals, limits: Limits,
      w: PriorityWorld, start: Histories<TargetKey>, next: Decisions)
    requires AllPreferredTaken(policies, decisions, manuals, limits, w, start, next) && p in policies
    requires p.id in manuals && p.id in next && DistinctTargets(p.targets)
    ensures
      var q := QueryOf(p, decisions, manuals, limits, w);
      p.id in AfterSelections(manuals, next)
      <==> TakesPreferred(q, start, Candidates(p.targets, manuals[p.id].location))
  {
    assert PreferredTaken(p, decisions, manuals, limits, w, start, next);
  }

  lemma OthersUntouched(state: State, policy: Policy, decisions: Decisions, manuals: Manuals, limits: Limits,
      w: PriorityWorld, before: Histories<TargetKey>, after: Histories<TargetKey>, d: Option<Decision>, key: TargetKey)
    requires Evaluated(state, policy, decisions, manuals, limits, w, before, after, d) && key.0 != policy.id
    ensures HistoryOf(after, key) == HistoryOf(before, key)
  {
    if d.Some? {
      SelectedIsWarranted(QueryOf(policy, decisions, manuals, limits, w), before, after, d.value.activeLocation);
    }
  }

  lemma SettledExtends(state: State, init: seq<Policy>, policy: Policy, decisions: Decisions, manuals: Manuals,
      limits: Limits, w: PriorityWorld, before: Histories<TargetKey>, after: Histories<TargetKey>, known: Decisions,
      next: Decisions, d: Option<Decision>)
    requires AllSettled(state, init, decisions, manuals, limits, w, before, known)
    requires forall p :: p in init ==> p.id != policy.id
    requires Evaluated(state, policy, decisions, manuals, limits, w, before, after, d)
    requires next == if d.Some? then known[policy.id := d.value] else known
    ensures AllSettled(state, init + [policy], decisions, manuals, limits, w, after, next)
  {
    hide Settled, Evaluated;
    assert policy.id !in known;
    SettledNew(state, policy, decisions, manuals, limits, w, before, after, next, d);
    forall p | p in init
      ensures Settled(state, p, decisions, manuals, limits, w, after, next)
    {
      forall l {
        OthersUntouched(state, policy, decisions, manuals, limits, w, before, after, d, (p.id, l));
      }
      SettledStays(state, p, decisions, manuals, limits, w, before, after, known, next);
    }
    assert forall id :: id in next ==> exists p :: p in init + [policy] && p.id == id;
  }

  /** A policy that was not evaluated yet still has its manual choice. */
  lemma ManualNotYetDropped(manuals: Manuals, known: Decisions, policy: Policy, now: Time, d: Option<Decision>,
      next: Decisions)
    requires policy.id !in known
    requires next == if d.Some? then known[policy.id := d.value] else known
    ensures Preferred(AfterSelections(manuals, known), policy, now) == Preferred(manuals, policy, now)
    ensures d.Some? ==>
      AfterSelections(manuals, next)
        == AfterSelection(AfterSelections(manuals, known), policy.id, d.value.activeLocation)
  {
  }

  lemma NothingSettled(state: State, decisions: Decisions, manuals: Manuals, limits: Limits, w: PriorityWorld,
      histories: Histories<TargetKey>)
    ensures AllSettled(state, state.policies[..0], decisions, manuals, limits, w, histories, map[])
    ensures AfterSelections(manuals, map[]) == manuals
  {
  }

  lemma NotYetKnown(state: State, i: nat, decisions: Decisions, manuals: Manuals, limits: Limits, w: PriorityWorld,
      histories: Histories<TargetKey>, known: Decisions)
    requires DistinctPolicyIds(state.policies) && i < |state.policies|
    requires AllSettled(state, state.policies[..i], decisions, manuals, limits, w, histories, known)
    ensures state.policies[i].id !in known
    ensures forall p :: p in state.policies[..i] ==> p.id != state.policies[i].id
  {
    assert forall j :: 0 <= j < i ==> state.policies[..i][j].id != state.policies[i].id;
  }

  method ApplyDecisions(store: DomainStore, state: State, next: Decisions, now: Time, env: ApplyEnv) returns (ok: bool)
    requires store.Valid()
    modifies store
    ensures store.Valid()
    ensures ok ==> Acceptable(PriorityApplied(state, next))
    ensures !ok ==> !Guaranteed(env, PriorityApplied(state, next))
  {
    var target := BuildPriorityApplied(state, next);
    var result; ghost var applied;
    result, applied := ApplyStateRules(store, target, now, env);
    ok := result.Applied?;
  }

  class PriorityRuntime {
    const failureStreak: nat
    const restoreStreak: nat
    const warningMs: nat

    var decisions: Decisions
    var manuals: Manuals
    var health: Records<TargetKey>

    /** Ghost: all probes, and the latest clock reading. */
    ghost var histories: Histories<TargetKey>
    ghost var clock: Time

    ghost predicate Valid()
      reads this
    {
      && Faithful(health, histories, clock) && Stamped(decisions)
      && forall id :: id in manuals ==> manuals[id].location != "" && 0 < manuals[id].since <= clock
    }

    constructor (failureStreak: nat, restoreStreak: nat, warningMs: nat)
      ensures Valid() && decisions == map[] && manuals == map[] && clock == 0
    {
      this.failureStreak, this.restoreStreak, this.warningMs := failureStreak, restoreStreak, warningMs;
      decisions, manuals, health := map[], map[], map[];
      histories, clock := map[], 0;
    }

    method SetManual(policyId: string, location: string, now: Time) returns (ok: bool)
      requires Valid() && clock <= now && 0 < now
      modifies this`manuals, this`clock
      ensures Valid() && clock == now
      ensures ok <==> policyId != "" && location != ""
      ensures manuals == if ok then old(manuals)[policyId := Manual(location, now)] else old(manuals)
    {
      LaterClock(health, histories, clock, now);
      clock := now;
      ok := policyId != "" && location != "";
      if ok {
        manuals := manuals[policyId := Manual(location, now)];
      }
    }

    method ClearManual(policyId: string)
      requires Valid()
      modifies this`manuals
      ensures Valid() && manuals == old(manuals) - {policyId}
    {
      manuals := manuals - {policyId};
    }

    method UpdateTargetHealth(key: TargetKey, probe: Probe, now: Time) returns (next: Health)
      requires Valid() && clock <= now && 0 < now
      modifies this`health, this`histories, this`clock
      ensures Valid() && clock == now
      ensures next == Observe(RecordOf(old(health), key), probe, now, warningMs)
      ensures health == old(health)[key := next]
      ensures histories == Recorded(old(histories), key, Sample(now, probe.healthy))
    {
      RecordKeepsFaithful(health, histories, clock, key, probe, now, warningMs);
      next := Observe(RecordOf(health, key), probe, now, warningMs);
      health := health[key := next];
      histories := Recorded(histories, key, Sample(now, probe.healthy));
      clock := now;
    }

    /** Probes the rotation until it stops, and names the location selected. */
    method Select(q: Query, candidates: seq<string>) returns (location: string, ghost probed: nat)
      requires Valid() && clock <= q.w.now && 0 < q.w.now
      modifies this`health, this`histories, this`clock
      ensures Valid() && clock <= q.w.now
      ensures IsSelection(q, old(histories), candidates, probed, location)
      ensures histories == After(q, old(histories), candidates[..probed])
    {
      hide Faithful, Stops, TargetProbe, Stamped;
      for k := 0 to |candidates|
        invariant Valid() && clock <= q.w.now
        invariant NoStop(q, old(histories), candidates, k)
        invariant histories == After(q, old(histories), candidates[..k])
      {
        location := candidates[k];
        var probe := TargetProbe(q, k, location);
        var record := UpdateTargetHealth((q.policy.id, location), probe, q.w.now);
        AfterOne(q, old(histories), candidates, k);
        StopsIff(q, health, histories, clock, location, probe.healthy);
        if !probe.healthy {
          if location == q.active && !LongFailing(record, q.limits.failureStreak, q.limits.failureSeconds, q.w.now) {
            return location, k + 1;
          }
          continue;
        }
        if location == q.preferred && q.active != "" && q.active != q.preferred {
          if !LongHealthy(record, q.limits.restoreStreak, q.limits.restoreSeconds, q.w.now) {
            continue;
          }
        }
        return location, k + 1;
      }
      return if q.active != "" then q.active else q.preferred, |candidates|;
    }

    /** Drops manual choices whose policy or target is gone, or whose schedule segment has
        ended. */
    method PruneManuals(policies: seq<Policy>, now: Time)
      requires Valid()
      modifies this`manuals
      ensures Valid() && manuals == PrunedManuals(policies, old(manuals), now)
    {
      var todo := manuals.Keys;
      while todo != {}
        invariant todo <= manuals.Keys <= old(manuals).Keys
        invariant forall id :: id in manuals ==> manuals[id] == old(manuals)[id]
        invariant forall id :: id in old(manuals) && id !in todo ==>
          (id in manuals <==> KeepsManual(policies, id, old(manuals)[id], now))
        decreases todo
      {
        var id :| id in todo;
        todo := todo - {id};
        var policy := FindPolicy(policies, id);
        if policy.None? || manuals[id].location !in policy.value.targets {
          manuals := manuals - {id};
          continue;
        }
        var boundary := NextBoundary(policy.value, manuals[id].since);
        if boundary != 0 && boundary <= now {
          manuals := manuals - {id};
        }
      }
    }

    method Evaluate(state: State, policy: Policy, w: PriorityWorld) returns (d: Option<Decision>)
      requires Valid() && clock <= w.now && 0 < w.now
      modifies this`health, this`histories, this`clock, this`manuals
      ensures Valid() && clock <= w.now
      ensures Evaluated(state, policy, decisions, old(manuals), LimitsOf(state, failureStreak, restoreStreak), w,
        old(histories), histories, d)
      ensures d.None? ==> manuals == old(manuals)
      ensures d.Some? ==> manuals == AfterSelection(old(manuals), policy.id, d.value.activeLocation)
      ensures d.Some? ==>
        var same := policy.id in decisions && decisions[policy.id].activeLocation == d.value.activeLocation
          && decisions[policy.id].mode == ViaProvider && decisions[policy.id].since != 0
          && decisions[policy.id].fingerprint == d.value.fingerprint;
        d.value.since == if same then decisions[policy.id].since else w.now
      ensures d.Some? && policy.id in old(manuals) ==> d.value.preferredLocation == old(manuals)[policy.id].location
      ensures Evaluates(state, policy) && policy.id !in old(manuals) ==>
        FollowsSchedule(policy, w.now, if d.Some? then d.value.preferredLocation else "")
    {
      hide FollowsSchedule, PreferredLocation, IsSelection, After, Candidates, Faithful;
      PreferredFollows(policy, w.now);
      if !Evaluates(state, policy) {
        return None;
      }
      var preferred := Preferred(manuals, policy, w.now);
      if preferred == "" {
        return None;
      }
      var active := ActiveTarget(decisions, policy, w.running);
      var entries := PriorityProviderEntries(state, policy.providerId);
      var fingerprint := Fingerprint.Fingerprint(policy.providerId, entries, policy.targets, policy.schedule);
      var candidates := CandidateLocations(policy.targets, preferred);
      var q := Query(policy, active, preferred, LimitsOf(state, failureStreak, restoreStreak), w);
      var location; ghost var probed;
      location, probed := Select(q, candidates);
      SelectedBy(q, old(histories), histories, probed, location);
      manuals := AfterSelection(manuals, policy.id, location);
      d := Some(Decision(policy.id, policy.providerId, location, preferred, ViaProvider,
        DecisionSince(decisions, policy.id, w.now, location, fingerprint), fingerprint));
    }

    /** Evaluates every policy, in order. */
    method EvaluateAll(state: State, w: PriorityWorld) returns (next: Decisions)
      requires Valid() && clock <= w.now && 0 < w.now && DistinctPolicyIds(state.policies)
      modifies this`health, this`histories, this`clock, this`manuals
      ensures Valid() && clock <= w.now
      ensures AllSettled(state, state.policies, decisions, old(manuals),
        LimitsOf(state, failureStreak, restoreStreak), w, histories, next)
      ensures AllPreferredTaken(state.policies, decisions, old(manuals),
        LimitsOf(state, failureStreak, restoreStreak), w, old(histories), next)
      ensures manuals == AfterSelections(old(manuals), next)
    {
      hide Faithful, Stamped, DistinctPolicyIds, AllSettled, AfterSelections, Selected, IsDecision, Evaluates,
        PreferredTaken;
      next := map[];
      NothingSettled(state, decisions, manuals, LimitsOf(state, failureStreak, restoreStreak), w, histories);
      for i := 0 to |state.policies|
        invariant Valid() && clock <= w.now
        invariant AllSettled(state, state.policies[..i], decisions, old(manuals),
          LimitsOf(state, failureStreak, restoreStreak), w, histories, next)
        invariant AllPreferredTaken(state.policies[..i], decisions, old(manuals),
          LimitsOf(state, failureStreak, restoreStreak), w, old(histories), next)
        invariant Unvisited(state.policies[i..], old(histories), histories)
        invariant manuals == AfterSelections(old(manuals), next)
      {
        ghost var before, known := histories, next;
        var policy := state.policies[i];
        var d := Evaluate(state, policy, w);
        if d.Some? {
          next := next[policy.id := d.value];
        }
        NotYetKnown(state, i, decisions, old(manuals), LimitsOf(state, failureStreak, restoreStreak), w, before, known);
        ManualNotYetDropped(old(manuals), known, policy, w.now, d, next);
        SettledExtends(state, state.policies[..i], policy, decisions, old(manuals),
          LimitsOf(state, failureStreak, restoreStreak), w, before, histories, known, next, d);
        PreferredTakenExtends(state, i, decisions, old(manuals), LimitsOf(state, failureStreak, restoreStreak), w,
          old(histories), before, histories, known, next, d);
        assert state.policies[..i + 1] == state.policies[..i] + [policy];
      }
      assert state.policies[..|state.policies|] == state.policies;
    }

    /** One priority step. The new decisions take effect only with a successful apply, and
        an apply is tried only if they differ from those in force or are not running. */
    method MaybePriorityPolicies(store: DomainStore, state: State, wanUp: bool, w: PriorityWorld, env: ApplyEnv)
      returns (acted: bool, ghost next: Decisions)
      requires Valid() && store.Valid() && clock <= w.now && 0 < w.now && DistinctPolicyIds(state.policies)
      modifies this, store
      ensures Valid() && store.Valid() && clock <= w.now
      ensures !wanUp ==> !acted && decisions == old(decisions) && manuals == old(manuals)
      ensures wanUp ==>
        var pruned := PrunedManuals(state.policies, old(manuals), w.now);
        && AllSettled(state, state.policies, old(decisions), pruned, LimitsOf(state, failureStreak, restoreStreak), w,
             histories, next)
        && AllPreferredTaken(state.policies, old(decisions), pruned, LimitsOf(state, failureStreak, restoreStreak), w,
             old(histories), next)
        && manuals == AfterSelections(pruned, next)
        && Concluded(state, old(decisions), decisions, next, w.running, acted, env)
      ensures acted ==> Backed(state, decisions)
    {
      hide AllSettled, DistinctPolicyIds, KeepsManual, Guaranteed, Acceptable, Faithful, SameDecisions, RuntimeMatches,
        PriorityApplied, IsNormal, PreferredTaken;
      acted, next := false, map[];
      if !wanUp {
        return;
      }
      PruneManuals(state.policies, w.now);
      var evaluated := EvaluateAll(state, w);
      next := evaluated;
      if SameDecisions(decisions, evaluated) && RuntimeMatches(w.running, evaluated) {
        return;
      }
      acted := ApplyDecisions(store, state, evaluated, w.now, env);
      if acted {
        SettledIsStamped(state, decisions, PrunedManuals(state.policies, old(manuals), w.now),
          LimitsOf(state, failureStreak, restoreStreak), w, histories, next);
        decisions := evaluated;
      }
    }
  }
}
