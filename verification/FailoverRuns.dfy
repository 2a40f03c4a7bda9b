/** Failover runs: the override table and the health records, stepped over whatever the
    probes, the clock and the applies answer. */
module FailoverRuns {
  import opened Entries
  import opened Config
  import opened Health
  import opened PriorityMerge
  import opened RuleApply
  import opened Failover

  // ----- failing and answering long enough -----

  const COOLDOWN := 60

  predicate Cooling(lastApply: Time, now: Time) {
    lastApply != 0 && now < lastApply + COOLDOWN
  }

  /** Any two applies are at least a cooldown apart. */
  ghost predicate Spaced(times: seq<Time>) {
    && (forall i :: 0 <= i < |times| ==> 0 < times[i])
    && (forall i, j :: 0 <= i < j < |times| ==> times[i] + COOLDOWN <= times[j])
  }

  lemma SpacedExtends(times: seq<Time>, now: Time)
    requires Spaced(times) && 0 < now
    requires times != [] ==> !Cooling(times[|times| - 1], now)
    ensures Spaced(times + [now])
  {
  }

  ghost predicate LongFailed(base: State, histories: Histories<string>, id: string, streak: nat, now: Time) {
    Uninterrupted(HistoryOf(histories, id), false, streak, FailureSeconds(base), now)
  }

  lemma LongFailedIff(base: State, health: Records<string>, histories: Histories<string>, clock: Time, id: string,
      streak: nat, now: Time)
    requires Faithful(health, histories, clock)
    ensures LongFailed(base, histories, id, streak, now)
       <==> LongFailing(RecordOf(health, id), streak, FailureSeconds(base), now)
  {
    assert FaithfulAt(health, histories, clock, id);
    ThresholdIffUninterrupted(RecordOf(health, id), HistoryOf(histories, id), streak, FailureSeconds(base), now);
  }

  /** The provider has overrides to give back, is enabled, and has answered well for long
      enough. */
  ghost predicate RestoreDue(base: State, overrides: Overrides, histories: Histories<string>, providerId: string,
      streak: nat, now: Time)
  {
    && GroupOf(base, overrides, providerId) != {}
    && ProviderEnabled(base.providers, providerId)
    && Uninterrupted(HistoryOf(histories, providerId), true, streak, RestoreSeconds(base), now)
  }

  lemma RestoreDueIff(base: State, overrides: Overrides, health: Records<string>, histories: Histories<string>,
      clock: Time, p: string, streak: nat, now: Time)
    requires Faithful(health, histories, clock)
    requires GroupOf(base, overrides, p) != {} && ProviderEnabled(base.providers, p)
    ensures RestoreDue(base, overrides, histories, p, streak, now)
       <==> LongHealthy(RecordOf(health, p), streak, RestoreSeconds(base), now)
  {
    assert FaithfulAt(health, histories, clock, p);
    ThresholdIffUninterrupted(RecordOf(health, p), HistoryOf(histories, p), streak, RestoreSeconds(base), now);
  }

  ghost predicate NothingToRestore(base: State, overrides: Overrides, histories: Histories<string>, streak: nat,
      now: Time)
  {
    forall p :: !RestoreDue(base, overrides, histories, p, streak, now)
  }

  /** A provider that has answered well for long enough is not left without its rules. */
  lemma HealthyIsRestored(base: State, overrides: Overrides, histories: Histories<string>, streak: nat, now: Time,
      id: string)
    requires NothingToRestore(base, overrides, histories, streak, now) && id in overrides
    requires StillFits(base, id, overrides[id]) && ProviderEnabled(base.providers, overrides[id].originalProviderId)
    ensures !Uninterrupted(HistoryOf(histories, overrides[id].originalProviderId), true, streak,
      if base.automation.restoreSeconds <= 0 then 60 else base.automation.restoreSeconds, now)
  {
    hide Uninterrupted;
    assert id in GroupOf(base, overrides, overrides[id].originalProviderId);
    assert !RestoreDue(base, overrides, histories, overrides[id].originalProviderId, streak, now);
  }

  lemma OthersStayNotDue(base: State, overrides: Overrides, before: Histories<string>, after: Histories<string>,
      id: string, todo: set<string>, streak: nat, now: Time)
    requires forall q :: q != id ==> HistoryOf(after, q) == HistoryOf(before, q)
    requires forall p :: p !in todo + {id} ==> !RestoreDue(base, overrides, before, p, streak, now)
    ensures forall p :: p !in todo + {id} ==> !RestoreDue(base, overrides, after, p, streak, now)
  {
  }

  // ----- readings of the clock -----

  ghost predicate ClockAdvances(clock: Time, w: World) {
    && 0 < w.restoreNow && clock <= w.restoreNow <= w.loopNow
    && forall id :: w.loopNow <= w.switchNow(id)
  }

  /** The clock readings of the provider loop come after everything recorded so far. */
  ghost predicate ClockRuns(clock: Time, w: World) {
    0 < w.loopNow && clock <= w.loopNow && forall id :: w.loopNow <= w.switchNow(id)
  }

  /** The clock is no later than some reading of the step. */
  ghost predicate Within(clock: Time, w: World) {
    exists id :: clock <= w.switchNow(id)
  }

  // ----- what a failover step may do -----

  datatype Action =
    | NoAction
    | Restore(providerId: string)
    | Switch(failedId: string, candidate: Provider, locations: Locations)
    | AllDown(downId: string)

  predicate FailoverEnabled(base: State, wanUp: bool) {
    base.automation.providerFailover && HasEnabledRules(base) && wanUp
  }

  /** A configuration a failover step can work on. */
  ghost predicate WellFormed(base: State) {
    UniqueRuleIds(base.rules) && UniqueProviderIds(base.providers) && base.policies == []
  }

  /** The candidate is the first eligible one of the rotation, at its locations. */
  ghost predicate IsSwitch(base: State, previous: Overrides, w: World, failedId: string, candidate: Provider,
      locations: Locations)
  {
    var affected := Affected(base, previous, failedId);
    && FirstEligible(w, FailoverApplied(base, previous), failedId, affected,
                     Rotation(base.providers, failedId), candidate)
    && LocationsFor(w, failedId, candidate, affected, locations)
  }

  /** A switch to the first eligible candidate, or "all down" when there is none. */
  ghost predicate SwitchOutcome(base: State, previous: Overrides, w: World, failedId: string, action: Action) {
    match action
    case Switch(id, candidate, locations) =>
      id == failedId && IsSwitch(base, previous, w, failedId, candidate, locations)
    case AllDown(id) =>
      && id == failedId
      && NoneEligible(w, FailoverApplied(base, previous), failedId, Affected(base, previous, failedId),
                      Rotation(base.providers, failedId))
    case _ => false
  }

  ghost function SwitchResult(base: State, previous: Overrides, w: World, action: Action): Overrides
    requires action.Switch?
  {
    SwitchAway(base, previous, action.failedId, action.candidate.id, action.locations, w.switchNow(action.failedId))
  }

  /** What an action leaves behind: the override table, the live configuration, which a
      successful apply makes the one the table derives, and the times of applies. */
  ghost predicate Landed(base: State, w: World, action: Action, before: Overrides, after: Overrides,
      liveBefore: State, live: State, timesBefore: seq<Time>, times: seq<Time>)
  {
    match action
    case Switch(id, _, _) =>
      && after == SwitchResult(base, before, w, action)
      && live == FailoverApplied(base, after) && Acceptable(live)
      && times == timesBefore + [w.switchNow(id)]
    case Restore(id) =>
      && after == Restored(base, before, id)
      && live == FailoverApplied(base, after) && Acceptable(live)
      && times == timesBefore + [w.restoreNow]
    case _ => after == before && live == liveBefore && times == timesBefore
  }

  datatype SwitchPlan = NothingAffected | AllDownPlan | Move(overrides: Overrides)

  /** What a switch away from the failed provider would do. */
  method PlanSwitch(base: State, previous: Overrides, applied: State, failedId: string, w: World)
    returns (plan: SwitchPlan, ghost action: Action)
    requires UniqueRuleIds(base.rules) && applied == FailoverApplied(base, previous)
    ensures plan.NothingAffected? ==> action == NoAction && Affected(base, previous, failedId) == []
    ensures !plan.NothingAffected? ==> SwitchOutcome(base, previous, w, failedId, action)
    ensures plan.Move? <==> action.Switch?
    ensures plan.Move? ==> plan.overrides == SwitchResult(base, previous, w, action)
    ensures plan.Move? && AllViaProvider(previous) ==> AllViaProvider(plan.overrides)
  {
    var affected := RulesUsingApplied(base, applied, failedId);
    if |affected| == 0 {
      return NothingAffected, NoAction;
    }
    RulesUsingMembers(base.rules, applied, failedId);
    var candidate, locations := FindFailoverCandidate(w, base, applied, failedId, affected);
    if candidate.None? {
      return AllDownPlan, AllDown(failedId);
    }
    var now := w.switchNow(failedId);
    var overrides := BuildSwitched(previous, affected, candidate.value.id, locations, now);
    SwitchedViaProvider(previous, affected, candidate.value.id, locations, now);
    return Move(overrides), Switch(failedId, candidate.value, locations);
  }

  // ----- why nothing was done -----

  /** A due provider's restore could not be counted on to apply. */
  ghost predicate RestoreRefused(base: State, overrides: Overrides, histories: Histories<string>, streak: nat,
      now: Time, env: string -> ApplyEnv)
  {
    exists p :: RestoreDue(base, overrides, histories, p, streak, now)
      && !Guaranteed(env(p), FailoverApplied(base, Restored(base, overrides, p)))
  }

  lemma RefusedBy(base: State, overrides: Overrides, histories: Histories<string>, streak: nat, now: Time,
      env: string -> ApplyEnv, p: string)
    requires RestoreDue(base, overrides, histories, p, streak, now)
    requires !Guaranteed(env(p), FailoverApplied(base, Restored(base, overrides, p)))
    ensures RestoreRefused(base, overrides, histories, streak, now, env)
  {
  }

  /** The switch to the first eligible candidate could not be counted on to apply. */
  ghost predicate SwitchRefused(base: State, previous: Overrides, w: World, failedId: string, env: ApplyEnv) {
    exists candidate, locations :: IsSwitch(base, previous, w, failedId, candidate, locations)
      && !Guaranteed(env,
            FailoverApplied(base, SwitchResult(base, previous, w, Switch(failedId, candidate, locations))))
  }

  lemma SwitchRefusedBy(base: State, previous: Overrides, w: World, failedId: string, env: ApplyEnv, action: Action)
    requires action.Switch? && SwitchOutcome(base, previous, w, failedId, action)
    requires !Guaranteed(env, FailoverApplied(base, SwitchResult(base, previous, w, action)))
    ensures SwitchRefused(base, previous, w, failedId, env)
  {
  }

  /** Why a provider was not switched away from. */
  ghost predicate LeftAlone(base: State, overrides: Overrides, histories: Histories<string>, id: string, streak: nat,
      lastApply: Time, w: World, env: ApplyEnv)
  {
    || !LongFailed(base, histories, id, streak, w.loopNow)
    || Cooling(lastApply, w.loopNow)
    || Affected(base, overrides, id) == []
    || SwitchRefused(base, overrides, w, id, env)
  }

  ghost predicate LeftAloneIn(ids: seq<string>, base: State, overrides: Overrides, histories: Histories<string>,
      streak: nat, lastApply: Time, w: World, env: string -> ApplyEnv)
  {
    forall id :: id in ids ==> LeftAlone(base, overrides, histories, id, streak, lastApply, w, env(id))
  }

  /** No provider in use was passed over without a reason. */
  ghost predicate AllLeftAlone(base: State, overrides: Overrides, histories: Histories<string>, streak: nat,
      lastApply: Time, w: World, env: string -> ApplyEnv)
  {
    forall id :: InUse(FailoverApplied(base, overrides), id) ==>
      LeftAlone(base, overrides, histories, id, streak, lastApply, w, env(id))
  }

  lemma OthersStayLeftAlone(base: State, overrides: Overrides, before: Histories<string>, after: Histories<string>,
      id: string, done: seq<string>, streak: nat, lastApply: Time, w: World, env: string -> ApplyEnv)
    requires forall q :: q != id ==> HistoryOf(after, q) == HistoryOf(before, q)
    requires LeftAlone(base, overrides, after, id, streak, lastApply, w, env(id))
    requires LeftAloneIn(done, base, overrides, before, streak, lastApply, w, env)
    ensures LeftAloneIn(done + [id], base, overrides, after, streak, lastApply, w, env)
  {
  }

  /** A minute after the last apply, a provider in use that has failed long enough is passed
      over only if no rule is affected or the switch could not be counted on to apply. */
  lemma FailedIsNotIgnored(base: State, overrides: Overrides, histories: Histories<string>, streak: nat,
      lastApply: Time, w: World, env: string -> ApplyEnv, id: string)
    requires AllLeftAlone(base, overrides, histories, streak, lastApply, w, env)
    requires lastApply == 0 || lastApply + 60 <= w.loopNow
    requires InUse(FailoverApplied(base, overrides), id)
    requires Uninterrupted(HistoryOf(histories, id), false, streak,
      if base.automation.failureSeconds <= 0 then 120 else base.automation.failureSeconds, w.loopNow)
    ensures Affected(base, overrides, id) == [] || SwitchRefused(base, overrides, w, id, env(id))
  {
  }

  // ----- why something was done -----

  /** The step acted on a provider that was in use and had failed for long enough, with
      no other failover apply during the cooldown. */
  ghost predicate ActedOn(base: State, overrides: Overrides, histories: Histories<string>, streak: nat, lastApply: Time,
      w: World, action: Action)
  {
    && (action.Switch? || action.AllDown?)
    && var id := if action.Switch? then action.failedId else action.downId;
    && InUse(FailoverApplied(base, overrides), id)
    && SwitchOutcome(base, overrides, w, id, action)
    && LongFailed(base, histories, id, streak, w.loopNow)
    && !Cooling(lastApply, w.loopNow)
  }

  /** Every action has its cause in the uninterrupted probe history and the cooldown. */
  ghost predicate Justified(base: State, overrides: Overrides, histories: Histories<string>, failureStreak: nat,
      restoreStreak: nat, lastApply: Time, w: World, action: Action)
  {
    match action
    case NoAction => true
    case Restore(p) =>
      !Cooling(lastApply, w.restoreNow) && RestoreDue(base, overrides, histories, p, restoreStreak, w.restoreNow)
    case _ => ActedOn(base, overrides, histories, failureStreak, lastApply, w, action)
  }

  lemma ActedIsJustified(base: State, overrides: Overrides, histories: Histories<string>, failureStreak: nat,
      restoreStreak: nat, lastApply: Time, w: World, action: Action)
    requires action == NoAction || ActedOn(base, overrides, histories, failureStreak, lastApply, w, action)
    ensures Justified(base, overrides, histories, failureStreak, restoreStreak, lastApply, w, action)
  {
  }

  /** What the guards of a switch establish about it. */
  lemma SwitchActionFits(base: State, previous: Overrides, w: World, failedId: string, action: Action)
    requires WellFormed(base) && action.Switch? && SwitchOutcome(base, previous, w, failedId, action)
    requires AllViaProvider(previous)
    ensures CanSwitch(base, previous, failedId, action.candidate.id, action.locations)
    ensures FindProvider(base.providers, action.candidate.id) == Some(action.candidate)
    ensures !WouldCreateMultipleOpenVPN(FailoverApplied(base, previous), failedId, action.candidate)
  {
    RulesUsingMembers(base.rules, FailoverApplied(base, previous), failedId);
    RotationIsPermutation(base.providers, failedId);
    var rotation := Rotation(base.providers, failedId);
    assert action.candidate in rotation && action.candidate in multiset(rotation);
    FindProviderFinds(base.providers, action.candidate);
  }

  lemma ActionKeepsCurrent(base: State, previous: Overrides, w: World, action: Action)
    requires WellFormed(base) && Current(base, previous) && AllViaProvider(previous)
    requires action.Switch? ==> SwitchOutcome(base, previous, w, action.failedId, action)
    ensures action.Switch? ==> Current(base, SwitchResult(base, previous, w, action))
    ensures action.Restore? ==> Current(base, Restored(base, previous, action.providerId))
  {
    if action.Restore? {
      RestoreKeepsCurrent(base, previous, action.providerId);
    }
    if action.Switch? {
      SwitchActionFits(base, previous, w, action.failedId, action);
      SwitchKeepsCurrent(base, previous, Affected(base, previous, action.failedId), action.candidate.id,
        action.locations, w.switchNow(action.failedId));
    }
  }

  /** After a switch every affected rule is at the candidate, at a location that it offers, and
      the other rules are where they were. */
  ghost predicate MovedRight(base: State, previous: Overrides, w: World, action: Action, live: State)
    requires action.Switch?
  {
    && |live.rules| == |base.rules|
    && forall i :: 0 <= i < |base.rules| ==>
         var rule := base.rules[i];
         if rule in Affected(base, previous, action.failedId) then
           && live.rules[i] == rule.(providerId := action.candidate.id, location := live.rules[i].location)
           && StandsRight(action.candidate, w.endpoints(action.failedId, action.candidate.id), rule,
                live.rules[i].location)
         else live.rules[i] == FailoverApplied(base, previous).rules[i]
  }

  lemma SwitchMovesRight(base: State, previous: Overrides, w: World, action: Action)
    requires WellFormed(base) && AllViaProvider(previous) && action.Switch?
    requires SwitchOutcome(base, previous, w, action.failedId, action)
    ensures MovedRight(base, previous, w, action, FailoverApplied(base, SwitchResult(base, previous, w, action)))
  {
    hide StandsRight, FailoverApplied, Switched, FirstEligible;
    var affected := Affected(base, previous, action.failedId);
    SwitchActionFits(base, previous, w, action.failedId, action);
    LocationsStandRight(w, action.failedId, action.candidate, affected, action.locations);
    AppliedLength(base, previous);
    AppliedLength(base, SwitchResult(base, previous, w, action));
    forall i | 0 <= i < |base.rules| {
      SwitchMoves(base, previous, affected, action.candidate.id, action.locations, w.switchNow(action.failedId), i);
    }
  }

  lemma AppliedLength(base: State, overrides: Overrides)
    ensures |FailoverApplied(base, overrides).rules| == |base.rules|
  {
  }

  /** A failover switch never puts a second OpenVPN provider in use. */
  lemma SwitchActionKeepsOneOpenVPN(base: State, previous: Overrides, w: World, action: Action)
    requires WellFormed(base) && AllViaProvider(previous) && action.Switch?
    requires SwitchOutcome(base, previous, w, action.failedId, action)
    requires |OpenVPNInUse(FailoverApplied(base, previous))| <= 1
    ensures |OpenVPNInUse(FailoverApplied(base, SwitchResult(base, previous, w, action)))| <= 1
  {
    SwitchActionFits(base, previous, w, action.failedId, action);
    SwitchKeepsOneOpenVPN(base, previous, action.failedId, action.candidate, action.locations,
      w.switchNow(action.failedId));
  }

  // ----- the runtime -----

  class FailoverRuntime {
    const store: DomainStore
    const failureStreak: nat
    const restoreStreak: nat
    const warningMs: nat

    var overrides: Overrides
    var health: Records<string>
    var lastApply: Time

    /** Ghost: all probes, all successful failover applies, the configuration of the last
        successful apply, and the latest clock reading. */
    ghost var histories: Histories<string>
    ghost var applyTimes: seq<Time>
    ghost var live: State
    ghost var clock: Time

    ghost predicate Valid()
      reads this, store
    {
      && store.Valid()
      && Faithful(health, histories, clock)
      && AllViaProvider(overrides)
      && Spaced(applyTimes)
      && lastApply == (if applyTimes == [] then 0 else applyTimes[|applyTimes| - 1])
      && lastApply <= clock
    }

    /** The override table describes the live configuration over this base. */
    ghost predicate InSync(base: State)
      reads this
    {
      Current(base, overrides) && live == FailoverApplied(base, overrides)
    }

    constructor (store: DomainStore, failureStreak: nat, restoreStreak: nat, warningMs: nat, ghost base: State)
      requires store.Valid()
      ensures Valid() && overrides == map[] && live == base && clock == 0
    {
      this.store := store;
      this.failureStreak, this.restoreStreak, this.warningMs := failureStreak, restoreStreak, warningMs;
      overrides, health, lastApply := map[], map[], 0;
      histories, applyTimes, live, clock := map[], [], base, 0;
    }

    method ApplyState(state: State, now: Time, env: ApplyEnv) returns (ok: bool)
      requires Valid() && state.policies == []
      modifies this`live, store
      ensures Valid()
      ensures ok ==> live == state && Acceptable(state)
      ensures !ok ==> live == old(live) && !Guaranteed(env, state)
    {
      hide Faithful, Spaced, AllViaProvider, IsNormal, IsSplit, Acceptable;
      var result; ghost var applied;
      result, applied := ApplyStateRules(store, state, now, env);
      assert applied == state;
      if result.Failed? {
        return false;
      }
      live := applied;
      return true;
    }

    method UpdateProviderHealth(id: string, probe: Probe, now: Time) returns (next: Health)
      requires Valid() && clock <= now && 0 < now
      modifies this`health, this`histories, this`clock
      ensures Valid() && clock == now
      ensures next == Observe(RecordOf(old(health), id), probe, now, warningMs)
      ensures health == old(health)[id := next]
      ensures histories == Recorded(old(histories), id, Sample(now, probe.healthy))
    {
      RecordKeepsFaithful(health, histories, clock, id, probe, now, warningMs);
      next := Observe(RecordOf(health, id), probe, now, warningMs);
      health := health[id := next];
      histories := Recorded(histories, id, Sample(now, probe.healthy));
      clock := now;
    }

    method PruneOverrides(base: State)
      requires Valid()
      modifies this`overrides
      ensures Valid() && overrides == Pruned(base, old(overrides)) && Current(base, overrides)
    {
      var todo := overrides.Keys;
      while todo != {}
        invariant todo <= overrides.Keys <= old(overrides).Keys
        invariant forall id :: id in overrides ==> overrides[id] == old(overrides)[id]
        invariant forall id :: id in old(overrides) && id !in todo ==>
          (id in overrides <==> StillFits(base, id, old(overrides)[id]))
        decreases todo
      {
        var id :| id in todo;
        todo := todo - {id};
        if !StillFits(base, id, overrides[id]) {
          overrides := overrides - {id};
        }
      }
    }

    /** Probes an original provider and tells whether its rules are due back. */
    method ProbeOriginal(base: State, w: World, p: string, group: Group) returns (due: bool)
      requires Valid() && clock <= w.restoreNow && 0 < w.restoreNow
      requires GroupedAt(base, overrides, {}, p, group)
      modifies this`health, this`histories, this`clock
      ensures Valid() && old(clock) <= clock <= w.restoreNow
      ensures due <==> RestoreDue(base, overrides, histories, p, restoreStreak, w.restoreNow)
      ensures forall q :: q != p ==> HistoryOf(histories, q) == HistoryOf(old(histories), q)
    {
      due := ProviderEnabled(base.providers, p);
      if due {
        var probe := w.restoreProbe(p, group.preferred);
        var record := UpdateProviderHealth(p, probe, w.restoreNow);
        RestoreDueIff(base, overrides, health, histories, clock, p, restoreStreak, w.restoreNow);
        due := probe.healthy && LongHealthy(record, restoreStreak, RestoreSeconds(base), w.restoreNow);
      }
    }

    /** Adopts an override table and applies what it derives; a failed apply puts the
        previous table back. */
    method ApplyOverrides(base: State, next: Overrides, now: Time, env: ApplyEnv) returns (ok: bool)
      requires Valid() && base.policies == [] && AllViaProvider(next)
      requires clock <= now && 0 < now && !Cooling(lastApply, now)
      modifies this`overrides, this`live, this`lastApply, this`applyTimes, this`clock, store
      ensures Valid() && old(clock) <= clock <= now
      ensures ok ==> overrides == next && live == FailoverApplied(base, next) && Acceptable(live)
      ensures ok ==> applyTimes == old(applyTimes) + [now]
      ensures !ok ==> overrides == old(overrides) && live == old(live) && applyTimes == old(applyTimes)
      ensures !ok ==> lastApply == old(lastApply) && clock == old(clock)
      ensures !ok ==> !Guaranteed(env, FailoverApplied(base, next))
    {
      var previous := overrides;
      overrides := next;
      var target := BuildFailoverApplied(base, overrides);
      ok := ApplyState(target, now, env);
      if !ok {
        overrides := previous;
        return;
      }
      CommitApply(now);
    }

    method CommitApply(now: Time)
      requires Valid() && clock <= now && 0 < now && !Cooling(lastApply, now)
      modifies this`lastApply, this`applyTimes, this`clock
      ensures Valid() && clock == now && applyTimes == old(applyTimes) + [now]
    {
      LaterClock(health, histories, clock, now);
      SpacedExtends(applyTimes, now);
      lastApply, clock := now, now;
      applyTimes := applyTimes + [now];
    }

    /** Probes original providers until one is due; the groups come in no fixed order. */
    method FirstDue(base: State, w: World, groups: map<string, Group>) returns (due: Option<string>)
      requires Valid() && clock <= w.restoreNow && 0 < w.restoreNow
      requires Grouped(base, overrides, {}, groups)
      modifies this`health, this`histories, this`clock
      ensures Valid() && old(clock) <= clock <= w.restoreNow
      ensures due.Some? ==> due.value in groups
      ensures due.Some? ==> RestoreDue(base, overrides, histories, due.value, restoreStreak, w.restoreNow)
      ensures due.None? ==> NothingToRestore(base, overrides, histories, restoreStreak, w.restoreNow)
    {
      var todo := groups.Keys;
      while todo != {}
        invariant Valid() && old(clock) <= clock <= w.restoreNow && todo <= groups.Keys
        invariant forall p :: p !in todo ==> !RestoreDue(base, overrides, histories, p, restoreStreak, w.restoreNow)
        decreases todo
      {
        var p :| p in todo;
        todo := todo - {p};
        assert GroupedAt(base, overrides, {}, p, groups[p]);
        ghost var before := histories;
        var isDue := ProbeOriginal(base, w, p, groups[p]);
        OthersStayNotDue(base, overrides, before, histories, p, todo, restoreStreak, w.restoreNow);
        if isDue {
          return Some(p);
        }
      }
      return None;
    }

    /** Gives the first due provider its rules back. A failed apply leaves overrides and
        the live configuration as they were. */
    method TryRestorePrimaries(base: State, w: World, env: string -> ApplyEnv)
      returns (done: bool, ghost restored: string)
      requires Valid() && base.policies == [] && clock <= w.restoreNow && 0 < w.restoreNow
      modifies this`health, this`histories, this`clock, this`overrides, this`live, this`lastApply, this`applyTimes,
        store
      ensures Valid() && old(clock) <= clock <= w.restoreNow
      ensures done ==> !Cooling(old(lastApply), w.restoreNow)
      ensures done ==> RestoreDue(base, old(overrides), histories, restored, restoreStreak, w.restoreNow)
      ensures Landed(base, w, if done then Restore(restored) else NoAction,
        old(overrides), overrides, old(live), live, old(applyTimes), applyTimes)
      ensures !done ==>
        || overrides == map[] || Cooling(lastApply, w.restoreNow)
        || NothingToRestore(base, overrides, histories, restoreStreak, w.restoreNow)
        || RestoreRefused(base, overrides, histories, restoreStreak, w.restoreNow, env)
    {
      done, restored := false, "";
      if |overrides| > 0 && !Cooling(lastApply, w.restoreNow) {
        var groups := OriginalGroups(base, overrides);
        var due := FirstDue(base, w, groups);
        if due.Some? {
          restored := due.value;
          assert GroupedAt(base, overrides, {}, restored, groups[due.value]);
          var next := overrides - groups[due.value].ruleIds;
          assert next == Restored(base, overrides, restored);
          done := ApplyOverrides(base, next, w.restoreNow, env(due.value));
          if !done {
            RefusedBy(base, overrides, histories, restoreStreak, w.restoreNow, env, restored);
          }
        }
      }
    }

    /** Moves the failed provider's rules to the first eligible candidate, if there is one.
        A failed apply leaves overrides and the live configuration as they were. */
    method SwitchProvider(base: State, applied: State, failedId: string, w: World, env: string -> ApplyEnv)
      returns (ok: bool, ghost action: Action)
      requires Valid() && base.policies == [] && UniqueRuleIds(base.rules)
      requires applied == FailoverApplied(base, overrides)
      requires clock <= w.switchNow(failedId) && 0 < w.switchNow(failedId) && !Cooling(lastApply, w.switchNow(failedId))
      modifies this`overrides, this`live, this`lastApply, this`applyTimes, this`clock, store
      ensures Valid() && old(clock) <= clock <= w.switchNow(failedId)
      ensures ok ==> SwitchOutcome(base, old(overrides), w, failedId, action)
      ensures Landed(base, w, action, old(overrides), overrides, old(live), live, old(applyTimes), applyTimes)
      ensures !ok ==> action == NoAction
      ensures !action.Switch? ==> lastApply == old(lastApply) && clock == old(clock)
      ensures !ok ==>
        Affected(base, overrides, failedId) == [] || SwitchRefused(base, overrides, w, failedId, env(failedId))
    {
      var next; ghost var plan;
      next, plan := PlanSwitch(base, overrides, applied, failedId, w);
      ok, action := next.AllDownPlan?, plan;
      if next.Move? {
        ok := ApplyOverrides(base, next.overrides, w.switchNow(failedId), env(failedId));
        if !ok {
          action := NoAction;
          SwitchRefusedBy(base, overrides, w, failedId, env(failedId), plan);
        }
      }
    }

    /** Probes one provider in use and switches away from it once it has failed for long
        enough and the cooldown is over. */
    method CheckProvider(base: State, applied: State, id: string, w: World, env: string -> ApplyEnv)
      returns (ok: bool, ghost action: Action)
      requires Valid() && base.policies == [] && UniqueRuleIds(base.rules)
      requires applied == FailoverApplied(base, overrides) && ClockRuns(clock, w)
      modifies this`health, this`histories, this`overrides, this`live, this`lastApply, this`applyTimes, this`clock,
        store
      ensures Valid() && old(clock) <= clock <= w.switchNow(id)
      ensures forall q :: q != id ==> HistoryOf(histories, q) == HistoryOf(old(histories), q)
      ensures ok ==> SwitchOutcome(base, old(overrides), w, id, action)
      ensures ok ==> LongFailed(base, histories, id, failureStreak, w.loopNow) && !Cooling(old(lastApply), w.loopNow)
      ensures Landed(base, w, action, old(overrides), overrides, old(live), live, old(applyTimes), applyTimes)
      ensures !ok ==> action == NoAction && clock <= w.loopNow && lastApply == old(lastApply)
      ensures !ok ==> LeftAlone(base, overrides, histories, id, failureStreak, lastApply, w, env(id))
    {
      var probe := w.currentProbe(id);
      var record := UpdateProviderHealth(id, probe, w.loopNow);
      LongFailedIff(base, health, histories, clock, id, failureStreak, w.loopNow);
      ok, action := false, NoAction;
      if !probe.healthy && LongFailing(record, failureStreak, FailureSeconds(base), w.loopNow)
        && !Cooling(lastApply, w.loopNow) {
        ok, action := SwitchProvider(base, applied, id, w, env);
      }
    }

    /** Checks the providers in use in configuration order until one check acts. */
    method CheckProviders(base: State, w: World, env: string -> ApplyEnv) returns (acted: bool, ghost action: Action)
      requires Valid() && base.policies == [] && UniqueRuleIds(base.rules) && ClockRuns(clock, w)
      modifies this`health, this`histories, this`overrides, this`live, this`lastApply, this`applyTimes, this`clock,
        store
      ensures Valid() && old(clock) <= clock && Within(clock, w)
      ensures acted ==> ActedOn(base, old(overrides), histories, failureStreak, old(lastApply), w, action)
      ensures Landed(base, w, action, old(overrides), overrides, old(live), live, old(applyTimes), applyTimes)
      ensures !acted ==> action == NoAction
      ensures !acted ==> AllLeftAlone(base, overrides, histories, failureStreak, lastApply, w, env)
    {
      var applied := BuildFailoverApplied(base, overrides);
      var ids := EnabledProviderIds(applied);
      for i := 0 to |ids|
        invariant Valid() && old(clock) <= clock && ClockRuns(clock, w) && lastApply == old(lastApply)
        invariant overrides == old(overrides) && live == old(live) && applyTimes == old(applyTimes)
        invariant LeftAloneIn(ids[..i], base, overrides, histories, failureStreak, lastApply, w, env)
      {
        ghost var before := histories;
        acted, action := CheckProvider(base, applied, ids[i], w, env);
        if acted {
          assert ids[i] in ids;
          return;
        }
        OthersStayLeftAlone(base, overrides, before, histories, ids[i], ids[..i], failureStreak, lastApply, w, env);
        assert ids[..i + 1] == ids[..i] + [ids[i]];
      }
      assert ids[..|ids|] == ids;
      assert clock <= w.loopNow <= w.switchNow("");
      return false, NoAction;
    }

    /** Restores a provider, or else checks the providers in use. */
    method RestoreOrCheck(base: State, w: World, restoreEnv: string -> ApplyEnv, switchEnv: string -> ApplyEnv)
      returns (acted: bool, ghost action: Action)
      requires Valid() && base.policies == [] && UniqueRuleIds(base.rules) && ClockAdvances(clock, w)
      modifies this`health, this`histories, this`overrides, this`live, this`lastApply, this`applyTimes, this`clock,
        store
      ensures Valid() && old(clock) <= clock && Within(clock, w)
      ensures acted <==> action != NoAction
      ensures Landed(base, w, action, old(overrides), overrides, old(live), live, old(applyTimes), applyTimes)
      ensures Justified(base, old(overrides), histories, failureStreak, restoreStreak, old(lastApply), w, action)
      ensures action == NoAction ==> AllLeftAlone(base, overrides, histories, failureStreak, lastApply, w, switchEnv)
    {
      hide UniqueRuleIds, Faithful, Spaced, AllViaProvider, SwitchOutcome, RestoreDue, RestoreRefused, NothingToRestore,
        AllLeftAlone, ActedOn, Acceptable;
      assert w.loopNow <= w.switchNow("");
      var restored; ghost var id;
      restored, id := TryRestorePrimaries(base, w, restoreEnv);
      if restored {
        return true, Restore(id);
      }
      acted, action := CheckProviders(base, w, switchEnv);
      ActedIsJustified(base, old(overrides), histories, failureStreak, restoreStreak, old(lastApply), w, action);
    }

    /** One failover step. It restores, switches, finds everything down, or does nothing;
        each only with cause, and a failed apply changes neither table nor live rules. */
    method MaybeProviderFailover(base: State, wanUp: bool, w: World, restoreEnv: string -> ApplyEnv,
        switchEnv: string -> ApplyEnv)
      returns (acted: bool, ghost action: Action)
      requires Valid() && WellFormed(base) && ClockAdvances(clock, w)
      modifies this`health, this`histories, this`overrides, this`live, this`lastApply, this`applyTimes, this`clock,
        store
      ensures Valid() && old(clock) <= clock && Within(clock, w)
      ensures acted <==> action != NoAction
      ensures
        var before := if FailoverEnabled(base, wanUp) then Pruned(base, old(overrides)) else old(overrides);
        && Landed(base, w, action, before, overrides, old(live), live, old(applyTimes), applyTimes)
        && (action != NoAction ==> FailoverEnabled(base, wanUp))
        && Justified(base, before, histories, failureStreak, restoreStreak, old(lastApply), w, action)
        && (FailoverEnabled(base, wanUp) && action == NoAction ==>
              AllLeftAlone(base, overrides, histories, failureStreak, lastApply, w, switchEnv))
      ensures
        if base.automation.providerFailover && wanUp && HasEnabledRules(base) then Current(base, overrides)
        else overrides == old(overrides) && histories == old(histories) && live == old(live)
      ensures action != NoAction ==>
        && base.automation.providerFailover && wanUp
        && (old(lastApply) == 0 || old(lastApply) + 60 <= if action.Restore? then w.restoreNow else w.loopNow)
      ensures action.Switch? || action.AllDown? ==>
        Uninterrupted(HistoryOf(histories, if action.Switch? then action.failedId else action.downId), false,
          failureStreak, if base.automation.failureSeconds <= 0 then 120 else base.automation.failureSeconds, w.loopNow)
      ensures action.Restore? ==>
        Uninterrupted(HistoryOf(histories, action.providerId), true, restoreStreak,
          if base.automation.restoreSeconds <= 0 then 60 else base.automation.restoreSeconds, w.restoreNow)
      ensures action.Switch? ==> MovedRight(base, Pruned(base, old(overrides)), w, action, live)
      ensures old(InSync(base)) ==> InSync(base)
    {
      hide Uninterrupted, HasEnabledRules, FailoverApplied, Affected, MovedRight, IsSwitch, Pruned;
      acted, action := false, NoAction;
      if !FailoverEnabled(base, wanUp) {
        assert clock <= w.loopNow <= w.switchNow("");
        return;
      }
      PrunedOfCurrent(base, overrides);
      PruneOverrides(base);
      ghost var pruned := overrides;
      acted, action := RestoreOrCheck(base, w, restoreEnv, switchEnv);
      ActionKeepsCurrent(base, pruned, w, action);
      if action.Switch? {
        SwitchMovesRight(base, pruned, w, action);
      }
    }
  }

  // ----- whole runs over a fixed base -----

  datatype FailoverStep = FailoverStep(
    wanUp: bool, world: World, restoreEnv: string -> ApplyEnv, switchEnv: string -> ApplyEnv)

  /** Each step reads clocks that come after the step before. */
  ghost predicate StepsInOrder(clock: Time, steps: seq<FailoverStep>) {
    && (forall k :: 0 <= k < |steps| ==> ClockAdvances(clock, steps[k].world))
    && (forall k, l, id :: 0 <= k < l < |steps| ==> steps[k].world.switchNow(id) <= steps[l].world.restoreNow)
  }

  /** Whatever probes, clocks and applies answer along a run, the live configuration stays
      the one the override table derives from the base, differs from the base only in
      provider and location of rules, and applies stay a cooldown apart. If it starts with
      at most one OpenVPN provider in use it keeps to that, through restores too. */
  method RunFailover(s: FailoverRuntime, base: State, steps: seq<FailoverStep>)
    requires s.Valid() && WellFormed(base) && s.InSync(base) && StepsInOrder(s.clock, steps)
    modifies s, s.store
    ensures s.Valid() && s.InSync(base)
    ensures SameButRoutes(s.live.rules, base.rules) && s.live.(rules := base.rules) == base
    ensures old(|ActiveOpenVPN(s.live)| <= 1) ==> |ActiveOpenVPN(s.live)| <= 1
    ensures old(Acceptable(s.live)) ==> Acceptable(s.live)
    ensures forall i, j :: 0 <= i < j < |s.applyTimes| ==> s.applyTimes[i] + 60 <= s.applyTimes[j]
  {
    for k := 0 to |steps|
      invariant s.Valid() && s.InSync(base)
      invariant old(|ActiveOpenVPN(s.live)| <= 1) ==> |ActiveOpenVPN(s.live)| <= 1
      invariant old(Acceptable(s.live)) ==> Acceptable(s.live)
      invariant forall l :: k <= l < |steps| ==> s.clock <= steps[l].world.restoreNow
    {
      var step := steps[k];
      assert ClockAdvances(old(s.clock), step.world);
      var acted; ghost var action;
      acted, action := s.MaybeProviderFailover(base, step.wanUp, step.world, step.restoreEnv, step.switchEnv);
      ghost var id :| s.clock <= step.world.switchNow(id);
      assert forall l :: k < l < |steps| ==> step.world.switchNow(id) <= steps[l].world.restoreNow;
    }
    FailoverReleasesNothing(base, s.overrides);
  }
}
