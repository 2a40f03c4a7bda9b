/** The supervisor's tick: the priority layer, the failover layer on top of what it
    derives, and the recovery of runtimes. */
module Supervision {
  import opened Entries
  import opened Config
  import opened Health
  import opened PriorityMerge
  import opened PriorityRuns
  import opened RuleApply
  import opened Failover
  import opened FailoverRuns

  // ----- no traffic is released -----

  /** An enabled rule names the host. */
  ghost predicate Routed(rules: seq<Rule>, h: Host) {
    exists r :: r in rules && r.enabled && ListCovers(r.domains, h)
  }

  /** An applied rule sends the host's traffic through some provider. */
  ghost predicate Tunneled(state: State, h: Host) {
    exists r :: r in state.rules && Active(state.providers, r) && ListCovers(r.domains, h)
  }

  /** `live` names the same hosts as `state` and lets none of its traffic out directly. */
  ghost predicate ReleasesNothing(state: State, live: State) {
    && live.providers == state.providers
    && forall h :: (Routed(live.rules, h) <==> Routed(state.rules, h)) && (Tunneled(state, h) ==> Tunneled(live, h))
  }

  lemma RoutedByProvider(rules: seq<Rule>, h: Host)
    ensures Routed(rules, h) <==> exists id :: ProviderCovers(rules, id, h)
  {
    if Routed(rules, h) {
      var r :| r in rules && r.enabled && ListCovers(r.domains, h);
      assert ProviderCovers(rules, r.providerId, h);
    }
  }

  lemma TunneledByProvider(state: State, h: Host)
    ensures Tunneled(state, h)
       <==> exists id :: ProviderEnabled(state.providers, id) && ProviderCovers(state.rules, id, h)
  {
    if Tunneled(state, h) {
      var r :| r in state.rules && Active(state.providers, r) && ListCovers(r.domains, h);
      assert ProviderCovers(state.rules, r.providerId, h);
    }
  }

  lemma SameCoverageKeeps(state: State, out: State, h: Host)
    requires out.providers == state.providers
    requires forall id :: ProviderCovers(out.rules, id, h) <==> ProviderCovers(state.rules, id, h)
    ensures Routed(out.rules, h) <==> Routed(state.rules, h)
    ensures Tunneled(out, h) <==> Tunneled(state, h)
  {
    RoutedByProvider(state.rules, h);
    RoutedByProvider(out.rules, h);
    TunneledByProvider(state, h);
    TunneledByProvider(out, h);
  }

  lemma PriorityKeeps(state: State, decisions: Decisions)
    requires Backed(state, decisions) && UniquePolicyIds(state.policies)
    ensures ReleasesNothing(state, PriorityApplied(state, decisions))
  {
    var out := PriorityApplied(state, decisions);
    forall h
      ensures Routed(out.rules, h) <==> Routed(state.rules, h)
      ensures Tunneled(state, h) ==> Tunneled(out, h)
    {
      forall id
        ensures ProviderCovers(out.rules, id, h) <==> ProviderCovers(state.rules, id, h)
      {
        BackedKeepsCoverage(state, decisions, id);
        assert SameCoverage(state.rules, out.rules, id);
      }
      SameCoverageKeeps(state, out, h);
    }
  }

  /** The merge leaves the provider its entries: it is not decided, or its first decided policy
      is enabled. */
  ghost predicate LeavesProvider(state: State, decisions: Decisions, id: string) {
    || state.policies == [] || !Controlled(decisions, id)
    || var first := FirstDecided(state.policies, decisions, id);
       first.Some? && first.value.enabled
  }

  /** A provider that the merge leaves alone still names the host, and an enabled one if the
      host was tunneled. */
  ghost predicate HostLeft(state: State, decisions: Decisions, h: Host) {
    && (Routed(state.rules, h) ==>
          exists id :: LeavesProvider(state, decisions, id) && ProviderCovers(state.rules, id, h))
    && (Tunneled(state, h) ==>
          exists id :: LeavesProvider(state, decisions, id) && ProviderCovers(state.rules, id, h)
            && ProviderEnabled(state.providers, id))
  }

  ghost predicate MergeLeavesAll(state: State, decisions: Decisions) {
    forall h :: HostLeft(state, decisions, h)
  }

  lemma MergedCover(state: State, decisions: Decisions, id: string, h: Host)
    ensures ProviderCovers(PriorityApplied(state, decisions).rules, id, h)
       <==> LeavesProvider(state, decisions, id) && ProviderCovers(state.rules, id, h)
  {
    if state.policies != [] {
      PriorityAppliedCover(state, decisions, id, h);
    }
  }

  /** For any decisions, stale ones included: the merged configuration releases nothing
      exactly if every host is left to some provider. */
  lemma MergeReleasesNothingIff(state: State, decisions: Decisions)
    ensures ReleasesNothing(state, PriorityApplied(state, decisions)) <==> MergeLeavesAll(state, decisions)
  {
    hide ProviderCovers, LeavesProvider, Routed, Tunneled, PriorityApplied;
    var out := PriorityApplied(state, decisions);
    MergedProviders(state, decisions);
    forall h
      ensures (Routed(out.rules, h) <==> Routed(state.rules, h)) && (Tunneled(state, h) ==> Tunneled(out, h))
         <==> HostLeft(state, decisions, h)
    {
      forall id {
        MergedCover(state, decisions, id, h);
      }
      RoutedByProvider(state.rules, h);
      RoutedByProvider(out.rules, h);
      TunneledByProvider(state, h);
      TunneledByProvider(out, h);
    }
  }

  lemma BackedLeavesAll(state: State, decisions: Decisions)
    requires Backed(state, decisions) && UniquePolicyIds(state.policies)
    ensures MergeLeavesAll(state, decisions)
  {
    PriorityKeeps(state, decisions);
    MergeReleasesNothingIff(state, decisions);
  }

  lemma MergedProviders(state: State, decisions: Decisions)
    ensures PriorityApplied(state, decisions).providers == state.providers
  {
  }

  lemma FailoverKeepsHost(base: State, overrides: Overrides, h: Host)
    requires AllViaProvider(overrides)
    ensures
      var out := FailoverApplied(base, overrides);
      && (Routed(out.rules, h) <==> Routed(base.rules, h))
      && (Tunneled(base, h) ==> Tunneled(out, h))
  {
    var out := FailoverApplied(base, overrides);
    if r :| && r in base.rules && r.enabled && ListCovers(r.domains, h)
            && (Tunneled(base, h) ==> Active(base.providers, r)) {
      var i :| 0 <= i < |base.rules| && base.rules[i] == r;
      assert out.rules[i] in out.rules;
    }
    if r :| r in out.rules && r.enabled && ListCovers(r.domains, h) {
      var i :| 0 <= i < |out.rules| && out.rules[i] == r;
      assert base.rules[i] in base.rules;
    }
  }

  lemma FailoverKeeps(base: State, overrides: Overrides)
    requires AllViaProvider(overrides)
    ensures ReleasesNothing(base, FailoverApplied(base, overrides))
  {
    forall h {
      FailoverKeepsHost(base, overrides, h);
    }
  }

  // ----- a stored configuration -----

  ghost predicate Stored(state: State) {
    && UniqueRuleIds(state.rules) && UniqueProviderIds(state.providers) && DistinctPolicyIds(state.policies)
    && OwnRuleIds(state)
  }

  lemma StoredPolicies(state: State)
    requires Stored(state)
    ensures DistinctPolicyIds(state.policies) && UniquePolicyIds(state.policies)
  {
  }

  lemma RuleIdInjective(a: string, b: string)
    requires RuleId(a) == RuleId(b)
    ensures a == b
  {
    var n := |"__priority_policy_"|;
    assert RuleId(a)[n..] == a && RuleId(b)[n..] == b;
  }

  lemma {:induction false} UncontrolledUnique(rules: seq<Rule>, decisions: Decisions)
    requires UniqueRuleIds(rules)
    ensures UniqueRuleIds(Uncontrolled(rules, decisions))
    ensures forall r :: r in Uncontrolled(rules, decisions) ==> r in rules
  {
    if rules != [] {
      LastRule(rules);
      UncontrolledUnique(rules[..|rules| - 1], decisions);
    }
  }

  lemma {:induction false} MergedUnique(state: State, decisions: Decisions, policies: seq<Policy>)
    requires DistinctPolicyIds(policies)
    ensures UniqueRuleIds(MergedRules(state, decisions, policies))
    ensures forall r :: r in MergedRules(state, decisions, policies) ==>
      exists p :: p in policies && r.id == RuleId(p.id)
  {
    if policies != [] {
      var init, last := policies[..|policies| - 1], policies[|policies| - 1];
      assert policies == init + [last];
      MergedUnique(state, decisions, init);
      forall r | r in MergedRules(state, decisions, init)
        ensures r.id != RuleId(last.id)
      {
        var p :| p in init && r.id == RuleId(p.id);
        if r.id == RuleId(last.id) {
          RuleIdInjective(p.id, last.id);
        }
      }
    }
  }

  /** What the priority layer derives is a base the failover layer can work on. */
  lemma PriorityAppliedWellFormed(state: State, decisions: Decisions)
    requires Stored(state)
    ensures WellFormed(PriorityApplied(state, decisions))
  {
    UncontrolledUnique(state.rules, decisions);
    MergedUnique(state, decisions, state.policies);
  }

  // ----- the tick -----

  /** What one tick sees and what its applies answer. */
  datatype TickWorld = TickWorld(
    wan: string, priority: PriorityWorld, priorityEnv: ApplyEnv,
    failover: World, restoreEnv: string -> ApplyEnv, switchEnv: string -> ApplyEnv,
    openvpnRunning: bool, recoverNow: Time, recoverEnv: ApplyEnv)

  datatype TickOutcome = Quiet | PriorityApply | FailoverAct(action: Action) | Recovery

  predicate OpenVPNRecoveryNeeded(state: State, openvpnRunning: bool) {
    !openvpnRunning && exists r | r in state.rules :: r.enabled && UsesOpenVPN(state.providers, r.providerId)
  }

  predicate SubscriptionRecoveryNeeded(state: State, running: set<(string, string)>) {
    exists r | r in state.rules ::
      Active(state.providers, r) && !UsesOpenVPN(state.providers, r.providerId)
      && r.location != "" && (r.providerId, r.location) !in running
  }

  /** The connection came back, or a runtime that should run does not. */
  predicate RecoveryDue(state: State, runtimeState: State, previousWan: string, w: TickWorld) {
    && previousWan != "" && w.wan == "up" && HasEnabledRules(state) && state.automation.autoRecover
    && (previousWan != "up" || OpenVPNRecoveryNeeded(runtimeState, w.openvpnRunning)
        || SubscriptionRecoveryNeeded(runtimeState, w.priority.running))
  }

  /** A recovery is due when the connection comes back, when an OpenVPN rule is active and its
      runtime is down, or when an active subscription rule's location does not run. */
  lemma RecoveryDueIff(state: State, runtimeState: State, previousWan: string, w: TickWorld)
    ensures RecoveryDue(state, runtimeState, previousWan, w)
       <==> previousWan != "" && w.wan == "up" && state.automation.autoRecover && HasEnabledRules(state)
            && (|| previousWan != "up"
                || (!w.openvpnRunning && NeedsRuntime(runtimeState, OpenVPN, {}))
                || NeedsRuntime(runtimeState, Subscription, w.priority.running))
    ensures HasEnabledRules(state)
       <==> || (exists r :: r in state.rules && r.enabled
                  && (ServedBy(state.providers, r, OpenVPN) || ServedBy(state.providers, r, Subscription)))
            || exists p :: p in state.policies && Evaluates(state, p)
  {
  }

  /** An enabled rule of a provider of that kind, which is switched on, has no runtime: a
      subscription has one per location. */
  ghost predicate NeedsRuntime(state: State, kind: ProviderKind, running: set<(string, string)>) {
    exists r :: r in state.rules && r.enabled && ServedBy(state.providers, r, kind)
      && (kind == Subscription ==> r.location != "" && (r.providerId, r.location) !in running)
  }

  ghost predicate ServedBy(providers: seq<Provider>, r: Rule, kind: ProviderKind) {
    var provider := FindProvider(providers, r.providerId);
    provider.Some? && provider.value.enabled && provider.value.kind == kind
  }

  /** The priority step was taken, and concluded with or without an apply. */
  ghost predicate PrioritySettled(state: State, w: TickWorld, before: Decisions, manuals: Manuals, limits: Limits,
      histories: Histories<TargetKey>, after: Decisions, acted: bool)
  {
    exists next :: Concluded(state, before, after, next, w.priority.running, acted, w.priorityEnv)
      && AllSettled(state, state.policies, before, PrunedManuals(state.policies, manuals, w.priority.now), limits,
           w.priority, histories, next)
  }

  /** The failover step was taken: it acted with cause, or left every provider alone with
      cause. */
  ghost predicate FailoverSettled(base: State, before: Overrides, after: Overrides, histories: Histories<string>,
      failureStreak: nat, restoreStreak: nat, lastBefore: Time, lastAfter: Time, w: TickWorld, action: Action)
  {
    FailoverEnabled(base, true) ==>
      && Justified(base, Pruned(base, before), histories, failureStreak, restoreStreak, lastBefore, w.failover, action)
      && (action == NoAction ==>
            AllLeftAlone(base, after, histories, failureStreak, lastAfter, w.failover, w.switchEnv))
  }

  /** The tick made a configuration live. */
  predicate Applies(outcome: TickOutcome) {
    match outcome
    case Quiet => false
    case FailoverAct(action) => action.Switch? || action.Restore?
    case _ => true
  }

  predicate Ticks(state: State, previousWan: string, wan: string) {
    previousWan != "" && HasEnabledRules(state) && wan == "up"
  }

  /** What a tick leaves live, for the base and overrides it ends with. */
  ghost predicate Left(outcome: TickOutcome, base: State, overrides: Overrides, decided: bool, before: State,
      live: State)
  {
    match outcome
    case Quiet => live == before
    case PriorityApply => live == base
    case FailoverAct(action) =>
      live == if action.Switch? || action.Restore? then FailoverApplied(base, overrides) else before
    case Recovery => decided || overrides != map[] ==> live == FailoverApplied(base, overrides)
  }

  /** The conditions under which a tick does anything. */
  ghost predicate Due(outcome: TickOutcome, state: State, previousWan: string, wan: string) {
    && (outcome != Quiet ==> previousWan != "" && wan == "up" && HasEnabledRules(state))
    && (outcome.FailoverAct? ==> state.automation.providerFailover)
    && (outcome.Recovery? ==> state.automation.autoRecover)
  }

  lemma RecoveredKeeps(state: State, decisions: Decisions, overrides: Overrides, live: State)
    requires MergeLeavesAll(state, decisions) && AllViaProvider(overrides)
    requires live == FailoverApplied(PriorityApplied(state, decisions), overrides)
    ensures ReleasesNothing(state, live)
  {
    MergeReleasesNothingIff(state, decisions);
    FailoverKeeps(PriorityApplied(state, decisions), overrides);
  }

  lemma DefaultsReleaseNothing(state: State, now: Time)
    requires UniquePolicyIds(state.policies)
    ensures ReleasesNothing(state, PriorityApplied(state, DefaultDecisions(state, state.policies, now)))
  {
    DefaultsDecideEligible(state, now);
    PriorityKeeps(state, DefaultDecisions(state, state.policies, now));
  }

  lemma DerivedPolicies(state: State, decisions: Decisions, overrides: Overrides)
    ensures FailoverApplied(PriorityApplied(state, decisions), overrides).policies == []
  {
  }

  /** Every override of a base rule names a provider that is not enabled, or the rule's own
      provider and location. */
  ghost predicate MovesNothing(base: State, overrides: Overrides) {
    forall r :: r in base.rules && r.id in overrides ==>
      || !ProviderEnabled(base.providers, overrides[r.id].activeProviderId)
      || (overrides[r.id].activeProviderId == r.providerId && overrides[r.id].activeLocation == r.location)
  }

  /** A priority apply ignores the failover overrides. The base it makes live is what they
      derive exactly when none of them moves a rule of it. */
  lemma PriorityApplyKeepsFailoverIff(base: State, overrides: Overrides)
    requires AllViaProvider(overrides)
    ensures base == FailoverApplied(base, overrides) <==> MovesNothing(base, overrides)
  {
    var applied := FailoverApplied(base, overrides);
    if applied == base {
      forall r | r in base.rules && r.id in overrides
        ensures
          || !ProviderEnabled(base.providers, overrides[r.id].activeProviderId)
          || (overrides[r.id].activeProviderId == r.providerId && overrides[r.id].activeLocation == r.location)
      {
        var i :| 0 <= i < |base.rules| && base.rules[i] == r;
        assert applied.rules[i] == r;
      }
    }
    if MovesNothing(base, overrides) {
      forall i | 0 <= i < |base.rules|
        ensures applied.rules[i] == base.rules[i]
      {
        assert base.rules[i] in base.rules;
      }
      assert applied.rules == base.rules;
    }
  }

  class Supervisor {
    const store: DomainStore
    const failover: FailoverRuntime
    const priority: PriorityRuntime
    var lastWan: string

    ghost predicate Valid()
      reads this, store, failover, priority
    {
      failover.store == store && failover.Valid() && priority.Valid()
    }

    /** The decisions belong to the stored configuration, and the live one releases none of
        its traffic. */
    ghost predicate Safe(state: State)
      reads this, failover, priority
    {
      Backed(state, priority.decisions) && ReleasesNothing(state, failover.live)
    }

    ghost function Base(state: State): State
      reads this, priority
    {
      PriorityApplied(state, priority.decisions)
    }

    constructor (failover: FailoverRuntime, priority: PriorityRuntime)
      requires failover.Valid() && priority.Valid()
      ensures Valid() && lastWan == "" && this.failover == failover && this.priority == priority
    {
      this.store, this.failover, this.priority := failover.store, failover, priority;
      lastWan := "";
    }

    method PriorityStep(state: State, w: TickWorld) returns (acted: bool)
      requires Valid() && Stored(state)
      requires priority.clock <= w.priority.now && 0 < w.priority.now
      modifies failover`live, priority, store
      ensures Valid()
      ensures acted ==> failover.live == Base(state) && Acceptable(failover.live) && Safe(state)
      ensures !acted ==> failover.live == old(failover.live) && priority.decisions == old(priority.decisions)
      ensures priority.clock <= w.priority.now
      ensures PrioritySettled(state, w, old(priority.decisions), old(priority.manuals),
        LimitsOf(state, priority.failureStreak, priority.restoreStreak), priority.histories, priority.decisions, acted)
    {
      hide Stored, DistinctPolicyIds, UniquePolicyIds, ReleasesNothing, MergeLeavesAll, AllSettled, Backed,
        Acceptable, Guaranteed, Faithful, Spaced, AllViaProvider, PriorityApplied, IsNormal;
      ghost var next;
      StoredPolicies(state);
      acted, next := priority.MaybePriorityPolicies(store, state, true, w.priority, w.priorityEnv);
      if acted {
        failover.live := PriorityApplied(state, priority.decisions);
        PriorityKeeps(state, priority.decisions);
      }
    }

    /** The priority step on request. */
    method ApplyPriorityPolicies(state: State, w: TickWorld) returns (acted: bool)
      requires Valid() && Stored(state)
      requires priority.clock <= w.priority.now && 0 < w.priority.now
      modifies failover`live, priority, store
      ensures Valid() && priority.clock <= w.priority.now
      ensures acted ==> w.wan == "up" && failover.live == Base(state) && Safe(state)
      ensures !acted ==> failover.live == old(failover.live) && priority.decisions == old(priority.decisions)
    {
      hide Stored, Safe, Acceptable, PrioritySettled, PriorityApplied;
      acted := false;
      if w.wan == "up" {
        acted := PriorityStep(state, w);
      }
    }

    /** Applies what both layers derive, or the stored configuration with its defaults. */
    method Recover(state: State, w: TickWorld) returns (ok: bool)
      requires Valid() && Stored(state)
      modifies failover`live, store
      ensures Valid()
      ensures ok && MergeLeavesAll(state, priority.decisions) ==> ReleasesNothing(state, failover.live)
      ensures ok && (failover.overrides != map[] || priority.decisions != map[]) ==>
        failover.live == FailoverApplied(Base(state), failover.overrides)
      ensures ok && failover.overrides == map[] && priority.decisions == map[] ==>
        failover.live == PriorityApplied(state, DefaultDecisions(state, state.policies, w.recoverNow))
      ensures !ok ==> failover.live == old(failover.live)
      ensures !ok && (failover.overrides != map[] || priority.decisions != map[]) ==>
        !Guaranteed(w.recoverEnv, FailoverApplied(Base(state), failover.overrides))
    {
      hide Stored, DistinctPolicyIds, UniquePolicyIds, ReleasesNothing, MergeLeavesAll, Backed, Acceptable, Faithful,
        Spaced, AllViaProvider, IsNormal, Guaranteed, PriorityApplied, FailoverApplied;
      StoredPolicies(state);
      if failover.overrides != map[] || priority.decisions != map[] {
        var base := BuildPriorityApplied(state, priority.decisions);
        var target := BuildFailoverApplied(base, failover.overrides);
        DerivedPolicies(state, priority.decisions, failover.overrides);
        ok := failover.ApplyState(target, w.recoverNow, w.recoverEnv);
        if ok && MergeLeavesAll(state, priority.decisions) {
          RecoveredKeeps(state, priority.decisions, failover.overrides, failover.live);
        }
      } else {
        ok := ApplyStored(state, w);
      }
    }

    /** Applies the stored configuration with its default decisions, as every request of the
        user to apply does. */
    method ApplyStored(state: State, w: TickWorld) returns (ok: bool)
      requires Valid() && UniquePolicyIds(state.policies)
      modifies failover`live, store
      ensures Valid()
      ensures ok ==> failover.live == PriorityApplied(state, DefaultDecisions(state, state.policies, w.recoverNow))
      ensures ok ==> ReleasesNothing(state, failover.live)
      ensures !ok ==> failover.live == old(failover.live)
    {
      hide UniquePolicyIds, ReleasesNothing, MergeLeavesAll, DefaultDecisions, Backed, IsSplit, Acceptable, Faithful,
        Spaced, AllViaProvider, IsNormal, StoredFor, Replaces, RuntimesOk, PriorityApplied;
      var result; ghost var applied;
      result, applied := ApplyStateRules(store, state, w.recoverNow, w.recoverEnv);
      ok := result.Applied?;
      if ok {
        failover.live := applied;
        DefaultsReleaseNothing(state, w.recoverNow);
      }
    }

    /** A failover step on the base that the priority layer derives. */
    method FailoverStep(state: State, w: TickWorld) returns (acted: bool, ghost action: Action)
      requires Valid() && Stored(state) && ClockAdvances(failover.clock, w.failover)
      modifies failover, store
      ensures Valid() && Within(failover.clock, w.failover)
      ensures (action.Switch? || action.Restore?) && MergeLeavesAll(state, priority.decisions) ==>
        ReleasesNothing(state, failover.live)
      ensures acted <==> action != NoAction
      ensures failover.live
           == if action.Switch? || action.Restore? then FailoverApplied(Base(state), failover.overrides)
                               else old(failover.live)
      ensures FailoverSettled(Base(state), old(failover.overrides), failover.overrides, failover.histories,
        failover.failureStreak, failover.restoreStreak, old(failover.lastApply), failover.lastApply, w, action)
    {
      hide Stored, DistinctPolicyIds, UniquePolicyIds, ReleasesNothing, MergeLeavesAll, Backed, Acceptable, Faithful,
        Spaced, AllViaProvider, IsNormal, WellFormed, Justified, AllLeftAlone, Current, PriorityApplied;
      StoredPolicies(state);
      PriorityAppliedWellFormed(state, priority.decisions);
      var base := BuildPriorityApplied(state, priority.decisions);
      acted, action := failover.MaybeProviderFailover(base, true, w.failover, w.restoreEnv, w.switchEnv);
      if (action.Switch? || action.Restore?) && MergeLeavesAll(state, priority.decisions) {
        RecoveredKeeps(state, priority.decisions, failover.overrides, failover.live);
      }
    }

    /** One tick over the configuration it loads. What it applies releases nothing if merging
        its decisions into that configuration does not, as with those of a priority apply. */
    method Tick(state: State, w: TickWorld) returns (ghost outcome: TickOutcome)
      requires Valid() && Stored(state)
      requires priority.clock <= w.priority.now && 0 < w.priority.now && ClockAdvances(failover.clock, w.failover)
      modifies this`lastWan, failover, priority, store
      ensures Valid() && lastWan == w.wan
      ensures Applies(outcome) && MergeLeavesAll(state, priority.decisions) ==> ReleasesNothing(state, failover.live)
      ensures if outcome == PriorityApply then Backed(state, priority.decisions)
              else priority.decisions == old(priority.decisions)
      ensures outcome == PriorityApply ==>
        (failover.live == FailoverApplied(Base(state), failover.overrides)
         <==> MovesNothing(Base(state), failover.overrides))
      ensures priority.clock <= w.priority.now && Within(failover.clock, w.failover)
      ensures Left(outcome, Base(state), failover.overrides, priority.decisions != map[],
                   old(failover.live), failover.live)
      ensures outcome == Recovery && failover.overrides == map[] && priority.decisions == map[] ==>
        failover.live == PriorityApplied(state, DefaultDecisions(state, state.policies, w.recoverNow))
      ensures Due(outcome, state, old(lastWan), w.wan)
      ensures outcome == Recovery ==>
        RecoveryDue(state, FailoverApplied(Base(state), failover.overrides), old(lastWan), w)
      ensures !Ticks(state, old(lastWan), w.wan) ==>
        && failover.overrides == old(failover.overrides) && priority.decisions == old(priority.decisions)
        && priority.manuals == old(priority.manuals)
      ensures Ticks(state, old(lastWan), w.wan) ==>
        PrioritySettled(state, w, old(priority.decisions), old(priority.manuals),
          LimitsOf(state, priority.failureStreak, priority.restoreStreak), priority.histories, priority.decisions,
          outcome == PriorityApply)
      ensures Ticks(state, old(lastWan), w.wan) && outcome != PriorityApply && state.automation.providerFailover ==>
        FailoverSettled(Base(state), old(failover.overrides), failover.overrides, failover.histories,
          failover.failureStreak, failover.restoreStreak, old(failover.lastApply), failover.lastApply, w,
          if outcome.FailoverAct? then outcome.action else NoAction)
      ensures
        && outcome == Quiet && RecoveryDue(state, FailoverApplied(Base(state), failover.overrides), old(lastWan), w)
        && (failover.overrides != map[] || priority.decisions != map[])
        ==> !Guaranteed(w.recoverEnv, FailoverApplied(Base(state), failover.overrides))
    {
      hide Stored, ReleasesNothing, MergeLeavesAll, Backed, Faithful, Spaced, AllViaProvider, IsNormal,
        PriorityApplied, PrioritySettled, FailoverSettled,
        MovesNothing, FailoverApplied, Guaranteed;
      outcome := Quiet;
      var previousWan := lastWan;
      lastWan := w.wan;
      assert failover.clock <= w.failover.loopNow <= w.failover.switchNow("");
      if previousWan == "" || !HasEnabledRules(state) {
        return;
      }
      var acted := false;
      if w.wan == "up" {
        acted := PriorityStep(state, w);
        if acted {
          PriorityApplyKeepsFailoverIff(Base(state), failover.overrides);
          return PriorityApply;
        }
      }
      if w.wan == "up" && state.automation.providerFailover {
        ghost var action;
        acted, action := FailoverStep(state, w);
        if acted {
          return FailoverAct(action);
        }
      }
      if !state.automation.autoRecover {
        return;
      }
      var base := BuildPriorityApplied(state, priority.decisions);
      var runtimeState := BuildFailoverApplied(base, failover.overrides);
      if RecoveryDue(state, runtimeState, previousWan, w) {
        var ok := Recover(state, w);
        if ok {
          outcome := Recovery;
        }
      }
    }
  }

  /** What happens in a run: ticks, and the requests of a user in between. A tick that a
      request interrupts is its priority, failover and recovery steps one by one. */
  datatype Act =
    | TickNow
    | ApplyPriorities
    | FailoverNow
    | RecoverNow
    | ApplyNow
    | SetChoice(policyId: string, location: string)
    | ClearChoice(policyId: string)

  /** One turn of a run: the configuration it has loaded, and what it sees. */
  datatype Turn = Turn(state: State, act: Act, w: TickWorld)

  datatype TurnOutcome =
    | Ticked(outcome: TickOutcome)
    | Prioritized(acted: bool)
    | StoredApplied(ok: bool)
    | ChoiceChanged

  ghost predicate TurnsInTime(priorityClock: Time, failoverClock: Time, turns: seq<Turn>) {
    && (forall k :: 0 <= k < |turns| ==>
         0 < turns[k].w.priority.now && priorityClock <= turns[k].w.priority.now
         && ClockAdvances(failoverClock, turns[k].w.failover))
    && (forall k, l :: 0 <= k < l < |turns| ==> turns[k].w.priority.now <= turns[l].w.priority.now)
    && (forall k, l, id :: 0 <= k < l < |turns| ==>
         turns[k].w.failover.switchNow(id) <= turns[l].w.failover.restoreNow)
  }

  /** What a turn of a run ended with. */
  datatype Moment = Moment(outcome: TurnOutcome, decisions: Decisions, live: State)

  /** The turn made a configuration live. */
  predicate MadeLive(outcome: TurnOutcome) {
    match outcome
    case Ticked(o) => Applies(o)
    case Prioritized(acted) => acted
    case StoredApplied(ok) => ok
    case ChoiceChanged => false
  }

  /** The turn applied decisions of its own. */
  predicate DecidedAnew(outcome: TurnOutcome) {
    outcome == Ticked(PriorityApply) || outcome == Prioritized(true)
  }

  ghost predicate MomentFits(turn: Turn, before: Moment, after: Moment) {
    && (MadeLive(after.outcome) && (after.outcome.StoredApplied? || MergeLeavesAll(turn.state, after.decisions)) ==>
          ReleasesNothing(turn.state, after.live))
    && (!MadeLive(after.outcome) ==> after.live == before.live)
    && if DecidedAnew(after.outcome) then Backed(turn.state, after.decisions) else after.decisions == before.decisions
  }

  ghost predicate IsTrace(turns: seq<Turn>, trace: seq<Moment>) {
    && |trace| == |turns| + 1
    && forall k :: 0 <= k < |turns| ==> MomentFits(turns[k], trace[k], trace[k + 1])
  }

  lemma OneMomentTrace(moment: Moment)
    ensures IsTrace([], [moment])
  {
  }

  lemma TraceExtends(turns: seq<Turn>, k: nat, trace: seq<Moment>, moment: Moment)
    requires k < |turns| && IsTrace(turns[..k], trace) && MomentFits(turns[k], trace[k], moment)
    ensures IsTrace(turns[..k + 1], trace + [moment])
  {
    assert turns[..k + 1] == turns[..k] + [turns[k]];
  }

  method RunTurn(s: Supervisor, turn: Turn, ghost before: Moment) returns (ghost after: Moment)
    requires s.Valid() && Stored(turn.state)
    requires s.priority.clock <= turn.w.priority.now && 0 < turn.w.priority.now
    requires ClockAdvances(s.failover.clock, turn.w.failover)
    requires before.decisions == s.priority.decisions && before.live == s.failover.live
    modifies s, s.failover, s.priority, s.store
    ensures s.Valid() && MomentFits(turn, before, after)
    ensures after.decisions == s.priority.decisions && after.live == s.failover.live
    ensures s.priority.clock <= turn.w.priority.now && Within(s.failover.clock, turn.w.failover)
  {
    hide Stored, ReleasesNothing, MergeLeavesAll, Backed, Faithful, Spaced, AllViaProvider, IsNormal,
      PriorityApplied, MovesNothing, PrioritySettled, FailoverSettled, FailoverApplied, Due, RecoveryDue, Guaranteed;
    assert s.failover.clock <= turn.w.failover.switchNow("");
    ghost var outcome := ChoiceChanged;
    match turn.act {
      case TickNow =>
        ghost var o := s.Tick(turn.state, turn.w);
        outcome := Ticked(o);
      case FailoverNow =>
        var acted; ghost var action;
        acted, action := s.FailoverStep(turn.state, turn.w);
        outcome := Ticked(FailoverAct(action));
      case RecoverNow =>
        var ok := s.Recover(turn.state, turn.w);
        outcome := Ticked(if ok then Recovery else Quiet);
      case ApplyNow =>
        StoredPolicies(turn.state);
        var ok := s.ApplyStored(turn.state, turn.w);
        outcome := StoredApplied(ok);
      case ApplyPriorities =>
        var acted := s.ApplyPriorityPolicies(turn.state, turn.w);
        outcome := Prioritized(acted);
      case SetChoice(policyId, location) =>
        var ok := s.priority.SetManual(policyId, location, turn.w.priority.now);
      case ClearChoice(policyId) =>
        s.priority.ClearManual(policyId);
    }
    after := Moment(outcome, s.priority.decisions, s.failover.live);
  }

  /** Any run of ticks and requests, with edits of the stored configuration in between. */
  method RunTurns(s: Supervisor, turns: seq<Turn>) returns (ghost trace: seq<Moment>)
    requires s.Valid() && forall k :: 0 <= k < |turns| ==> Stored(turns[k].state)
    requires TurnsInTime(s.priority.clock, s.failover.clock, turns)
    modifies s, s.failover, s.priority, s.store
    ensures s.Valid() && |trace| == |turns| + 1 && IsTrace(turns, trace)
    ensures trace[0] == Moment(ChoiceChanged, old(s.priority.decisions), old(s.failover.live))
    ensures trace[|turns|].decisions == s.priority.decisions && trace[|turns|].live == s.failover.live
  {
    hide Stored, MomentFits, Faithful, Spaced, AllViaProvider, IsNormal, IsTrace;
    OneMomentTrace(Moment(ChoiceChanged, s.priority.decisions, s.failover.live));
    assert turns[..0] == [];
    trace := [Moment(ChoiceChanged, s.priority.decisions, s.failover.live)];
    for k := 0 to |turns|
      invariant s.Valid() && |trace| == k + 1 && IsTrace(turns[..k], trace)
      invariant trace[0] == Moment(ChoiceChanged, old(s.priority.decisions), old(s.failover.live))
      invariant trace[k].decisions == s.priority.decisions && trace[k].live == s.failover.live
      invariant forall l :: k <= l < |turns| ==> s.priority.clock <= turns[l].w.priority.now
      invariant forall l :: k <= l < |turns| ==> s.failover.clock <= turns[l].w.failover.restoreNow
    {
      assert ClockAdvances(old(s.failover.clock), turns[k].w.failover);
      ghost var moment := RunTurn(s, turns[k], trace[k]);
      ghost var id :| s.failover.clock <= turns[k].w.failover.switchNow(id);
      assert forall l :: k < l < |turns| ==> turns[k].w.failover.switchNow(id) <= turns[l].w.failover.restoreNow;
      TraceExtends(turns, k, trace, moment);
      trace := trace + [moment];
    }
    assert turns[..|turns|] == turns;
  }

  /** The turn applies decisions, of an earlier configuration, whose merge into the one it has
      loaded releases some host. */
  ghost predicate AppliesStale(turn: Turn, after: Moment) {
    MadeLive(after.outcome) && !after.outcome.StoredApplied? && !MergeLeavesAll(turn.state, after.decisions)
  }

  /** The configuration that the last applying turn had loaded. */
  ghost function LastApplied(start: State, turns: seq<Turn>, trace: seq<Moment>): State
    requires |trace| == |turns| + 1
  {
    if turns == [] then start
    else
      var n := |turns| - 1;
      if MadeLive(trace[n + 1].outcome) then turns[n].state else LastApplied(start, turns[..n], trace[..n + 1])
  }

  /** At every moment of a run in which no turn applies stale decisions, the live
      configuration releases nothing of the one last applied: it names exactly its hosts and
      sends none of its tunneled traffic out directly. */
  lemma {:induction false} EditedRunsReleaseNothing(start: State, turns: seq<Turn>, trace: seq<Moment>)
    requires IsTrace(turns, trace) && ReleasesNothing(start, trace[0].live)
    requires forall k :: 0 <= k < |turns| ==> !AppliesStale(turns[k], trace[k + 1])
    ensures ReleasesNothing(LastApplied(start, turns, trace), trace[|turns|].live)
  {
    if turns != [] {
      var n := |turns| - 1;
      assert MomentFits(turns[n], trace[n], trace[n + 1]) && !AppliesStale(turns[n], trace[n + 1]);
      if !MadeLive(trace[n + 1].outcome) {
        EditedRunsReleaseNothing(start, turns[..n], trace[..n + 1]);
      }
    }
  }

  /** Without edits no decision gets stale, and every moment is safe. */
  lemma {:induction false} RunsReleaseNothing(state: State, turns: seq<Turn>, trace: seq<Moment>)
    requires IsTrace(turns, trace) && forall k :: 0 <= k < |turns| ==> turns[k].state == state
    requires UniquePolicyIds(state.policies)
    requires Backed(state, trace[0].decisions) && ReleasesNothing(state, trace[0].live)
    ensures Backed(state, trace[|turns|].decisions) && ReleasesNothing(state, trace[|turns|].live)
  {
    if turns != [] {
      var n := |turns| - 1;
      RunsReleaseNothing(state, turns[..n], trace[..n + 1]);
      if Backed(state, trace[n + 1].decisions) {
        BackedLeavesAll(state, trace[n + 1].decisions);
      }
      assert MomentFits(turns[n], trace[n], trace[n + 1]);
    }
  }

  // ----- a recovery with stale decisions -----

  /** The policy of provider p was deleted since its decision; a disabled one is left. */
  ghost predicate OutlivesPolicy(state: State, decisions: Decisions, p: string, e: Entry) {
    && p != "" && e != Domain("") && ProviderEnabled(state.providers, p)
    && state.rules == [Rule("r", "r", p, "NL", [e], true)]
    && state.policies == [Policy("new", "q", "new", false, ["DE"], [])]
    && decisions == map["old" := Decision("old", p, "NL", "NL", ViaProvider, 1, NoFingerprint)]
  }

  lemma OutlivedMerge(state: State, decisions: Decisions, p: string, e: Entry)
    requires OutlivesPolicy(state, decisions, p, e)
    ensures PriorityApplied(state, decisions).rules == []
    ensures Tunneled(state, SomeHost(e))
  {
    assert Controlled(decisions, p) by {
      assert decisions["old"].providerId == p;
    }
    assert state.rules[..0] == [] && Uncontrolled([], decisions) == [];
    assert state.policies[..0] == [] && MergedRules(state, decisions, []) == [];
    assert e in state.rules[0].domains && Covers(e, SomeHost(e)) && state.rules[0] in state.rules;
  }

  /** A decision that outlives its policy releases its provider's traffic. */
  lemma StaleDecisionReleases(state: State, decisions: Decisions, p: string, e: Entry)
    requires OutlivesPolicy(state, decisions, p, e)
    ensures Tunneled(state, SomeHost(e)) && !Tunneled(PriorityApplied(state, decisions), SomeHost(e))
    ensures !MergeLeavesAll(state, decisions)
  {
    OutlivedMerge(state, decisions, p, e);
    MergeReleasesNothingIff(state, decisions);
  }

  /** The connection comes back when such a decision is in force. The new decisions, which are
      none, cannot be applied; the recovery can, and applies the old one. */
  lemma StaleRecoveryReleases(state: State, decisions: Decisions, p: string, e: Entry, w: TickWorld)
    requires OutlivesPolicy(state, decisions, p, e)
    requires state.automation.autoRecover && w.wan == "up" && !w.priorityEnv.listed
    requires UniqueProviderIds(state.providers)
    ensures Stored(state) && Ticks(state, "down", w.wan)
    ensures PrioritySettled(state, w, decisions, map[], Limits(1, 120, 1, 60), map[], decisions, false)
    ensures
      var live := FailoverApplied(PriorityApplied(state, decisions), map[]);
      && RecoveryDue(state, live, "down", w) && Acceptable(live)
      && Left(Recovery, PriorityApplied(state, decisions), map[], true, state, live)
      && AppliesStale(Turn(state, TickNow, w), Moment(Ticked(Recovery), decisions, live))
      && !ReleasesNothing(state, live)
  {
    hide MergeLeavesAll, PriorityApplied;
    OutlivedMerge(state, decisions, p, e);
    StaleDecisionReleases(state, decisions, p, e);
    assert state.rules[0] in state.rules && |RuleId("new")| > |"r"|;
    assert PrunedManuals(state.policies, map[], w.priority.now) == map[];
    var next: Decisions := map[];
    assert AllSettled(state, state.policies, decisions, map[], Limits(1, 120, 1, 60), w.priority, map[], next);
    assert Concluded(state, decisions, decisions, next, w.priority.running, false, w.priorityEnv);
    NothingIsAcceptable(FailoverApplied(PriorityApplied(state, decisions), map[]));
  }

  lemma NothingIsAcceptable(state: State)
    requires state.rules == []
    ensures Acceptable(state) && forall h :: !Tunneled(state, h)
  {
    assert ActiveOpenVPN(state) == {};
  }

  // ----- a priority apply that undoes a failover -----

  ghost function ChoiceOf(state: State, policy: Policy, location: string, preferred: string): Decisions {
    map[policy.id := Decision(policy.id, policy.providerId, location, preferred, ViaProvider, 1,
      PolicyFingerprint(policy, state))]
  }

  /** One rule and one policy of the same provider, which offers the locations a and b. */
  ghost predicate OneChoice(state: State, policy: Policy, a: string, b: string, e: Entry) {
    && state.policies == [policy] && policy.targets == [a, b] && policy.schedule == [] && a != "" && b != "" && a != b
    && policy.providerId != "" && Evaluates(state, policy)
    && state.rules == [Rule("r", "r", policy.providerId, a, [e], true)]
  }

  lemma OneChoiceMerged(state: State, policy: Policy, a: string, b: string, e: Entry, location: string,
      preferred: string)
    requires OneChoice(state, policy, a, b, e) && location != ""
    ensures PriorityApplied(state, ChoiceOf(state, policy, location, preferred)).rules
         == [Rule(RuleId(policy.id), policy.name, policy.providerId, location, [e], true)]
  {
    hide Normalized, PolicyFingerprint;
    var decisions, rule := ChoiceOf(state, policy, location, preferred), state.rules[0];
    assert decisions[policy.id].providerId == policy.providerId;
    assert state.policies[..0] == [] && state.rules[..0] == [];
    assert RawEntries([], policy.providerId) == [];
    OneEntryIsNormal(e);
    assert RawEntries(state.rules, policy.providerId) == [e];
    assert Uncontrolled(state.rules, decisions) == Uncontrolled([], decisions) == [];
    assert MergedRules(state, decisions, []) == [];
    assert AddsRule(state, decisions, [], policy);
  }

  /** The location a has failed for long enough and b answers. */
  ghost function FailedOver(policy: Policy, a: string, b: string, now: Time): Histories<TargetKey> {
    map[(policy.id, a) := [Sample(1, false)], (policy.id, b) := [Sample(now, true)]]
  }

  lemma OneChoiceSettles(state: State, policy: Policy, a: string, b: string, e: Entry, w: TickWorld)
    requires OneChoice(state, policy, a, b, e) && 121 <= w.priority.now
    ensures PrioritySettled(state, w, ChoiceOf(state, policy, a, a), map[], Limits(1, 120, 1, 60),
      FailedOver(policy, a, b, w.priority.now), ChoiceOf(state, policy, b, a), true)
  {
    hide PolicyFingerprint, PriorityApplied;
    var before, after := ChoiceOf(state, policy, a, a), ChoiceOf(state, policy, b, a);
    var limits, histories := Limits(1, 120, 1, 60), FailedOver(policy, a, b, w.priority.now);
    assert PrunedManuals(state.policies, map[], w.priority.now) == map[];
    var q := QueryOf(policy, before, map[], limits, w.priority);
    assert q.active == a && q.preferred == a;
    assert EndsWith(HistoryOf(histories, (policy.id, a)), false, 1);
    assert TargetFailed(q, histories, a);
    assert EndsWith(HistoryOf(histories, (policy.id, b)), true, 1);
    assert Settled(state, policy, before, map[], limits, w.priority, histories, after);
    assert AllSettled(state, state.policies, before, map[], limits, w.priority, histories, after);
    OneChoiceMerged(state, policy, a, b, e, b, a);
    OneRuleIsAcceptable(PriorityApplied(state, after), policy.providerId);
    assert !SameRoute(before[policy.id], after[policy.id]);
    assert Concluded(state, before, after, after, w.priority.running, true, w.priorityEnv);
  }

  lemma OneRuleIsAcceptable(state: State, providerId: string)
    requires |state.rules| == 1 && state.rules[0].providerId == providerId
    ensures Acceptable(state)
  {
    assert ActiveOpenVPN(state) <= {providerId};
    assert ActiveOpenVPN(state) == {} || ActiveOpenVPN(state) == {providerId};
  }

  /** The provider has failed over to another one when its policy's choice changes from a to
      b. The priority apply takes the rule back to the failed provider, and the override
      table still says otherwise. */
  lemma PriorityApplyCanUndoFailover(state: State, policy: Policy, a: string, b: string, e: Entry, other: string,
      w: TickWorld)
    requires OneChoice(state, policy, a, b, e) && 121 <= w.priority.now
    requires ProviderEnabled(state.providers, other) && other != policy.providerId
    ensures
      var before, after := ChoiceOf(state, policy, a, a), ChoiceOf(state, policy, b, a);
      var overrides := map[RuleId(policy.id) := Override(policy.providerId, a, other, "", ViaProvider, 1)];
      && Current(PriorityApplied(state, before), overrides)
      && PrioritySettled(state, w, before, map[], Limits(1, 120, 1, 60), FailedOver(policy, a, b, w.priority.now),
           after, true)
      && !MovesNothing(PriorityApplied(state, after), overrides)
      && PriorityApplied(state, after) != FailoverApplied(PriorityApplied(state, after), overrides)
  {
    hide PrioritySettled, FailoverApplied, PolicyFingerprint;
    var before, after := ChoiceOf(state, policy, a, a), ChoiceOf(state, policy, b, a);
    var overrides := map[RuleId(policy.id) := Override(policy.providerId, a, other, "", ViaProvider, 1)];
    OneChoiceSettles(state, policy, a, b, e, w);
    OneChoiceMerged(state, policy, a, b, e, a, a);
    OneChoiceMerged(state, policy, a, b, e, b, a);
    FindRuleFinds(PriorityApplied(state, before).rules, 0);
    assert PriorityApplied(state, after).rules[0] in PriorityApplied(state, after).rules;
    PriorityApplyKeepsFailoverIff(PriorityApplied(state, after), overrides);
  }
}
