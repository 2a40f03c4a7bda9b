/** The subscription runtime manager: a persistent table of instances, the instances this
    process started itself, and the reconciliation of both with a list of plans. */
module SubscriptionRuntime {
  import opened Config
  import opened Entries
  import opened RuleApply
  import opened Allocation
  import opened DesiredInstances
  import opened Reconciliation

  /** The key has a row exactly if it has entries; its instance serves them and is alive. */
  ghost predicate KeyServed(providers: seq<Provider>, rules: seq<Rule>, key: Key, s: Runtime) {
    && (key in s.table <==> KeyEntries(providers, rules, key) != [])
    && (key in s.table ==>
          && s.table[key].pid in s.processes
          && s.table[key].entryCount == |FirstOccurrences(KeyEntries(providers, rules, key))|
          && (key in s.current ==> s.current[key] == s.table[key]))
  }

  ghost predicate PlansFit(list: seq<Wanted>, plans: seq<Plan>) {
    && |plans| == |list|
    && forall i :: 0 <= i < |list| ==> plans[i].key == list[i].key && plans[i].entries == list[i].entries
  }

  lemma NothingListed(providers: seq<Provider>, rules: seq<Rule>, key: Key)
    requires IsListing([], providers, rules)
    ensures KeyEntries(providers, rules, key) == []
  {
    assert !Listed([], key);
  }

  lemma PlannedIffEntries(providers: seq<Provider>, rules: seq<Rule>, list: seq<Wanted>, plans: seq<Plan>, key: Key)
    requires IsListing(list, providers, rules) && PlansFit(list, plans)
    ensures key in PlanKeys(plans) <==> KeyEntries(providers, rules, key) != []
    ensures forall p :: p in plans && p.key == key ==> p.entries == FirstOccurrences(KeyEntries(providers, rules, key))
  {
    forall p | p in plans && p.key == key
      ensures p.entries == FirstOccurrences(KeyEntries(providers, rules, key)) != []
    {
      var i :| 0 <= i < |plans| && plans[i] == p;
      assert list[i] in list && WantedFits(list[i], providers, rules);
    }
    if key in PlanKeys(plans) {
      var none: seq<Entry> := [];
      assert FirstOccurrences(none) == [];
    }
    if KeyEntries(providers, rules, key) != [] {
      var w :| w in list && w.key == key;
      var i :| 0 <= i < |list| && list[i] == w;
      assert plans[i] in plans;
    }
  }

  /** Every entry of every subscription rule is asked for at the rule's own provider and
      location, whose instance has a row and lives; and nothing else is asked for. */
  ghost predicate RulesServed(providers: seq<Provider>, rules: seq<Rule>, plans: seq<Plan>, s: Runtime) {
    && (forall r, e :: r in rules && OnSubscription(providers, r) && e in r.domains ==>
          && (exists p :: p in plans && p.key == (r.providerId, r.location) && e in p.entries)
          && (r.providerId, r.location) in s.table && s.table[(r.providerId, r.location)].pid in s.processes)
    && (forall p :: p in plans ==>
          p.entries != [] && forall e :: e in p.entries ==> AskedFor(providers, rules, p.key, e))
    && forall key :: key in s.table ==> exists p :: p in plans && p.key == key
  }

  lemma ServedAreRules(providers: seq<Provider>, rules: seq<Rule>, list: seq<Wanted>, plans: seq<Plan>, s: Runtime)
    requires IsListing(list, providers, rules) && PlansFit(list, plans)
    requires forall key :: KeyServed(providers, rules, key, s)
    ensures RulesServed(providers, rules, plans, s)
  {
    ListingServes(providers, rules, list);
    forall r, e | r in rules && OnSubscription(providers, r) && e in r.domains
      ensures exists p :: p in plans && p.key == (r.providerId, r.location) && e in p.entries
      ensures (r.providerId, r.location) in s.table && s.table[(r.providerId, r.location)].pid in s.processes
    {
      var w :| w in list && w.key == (r.providerId, r.location) && e in w.entries;
      var i :| 0 <= i < |list| && list[i] == w;
      assert plans[i] in plans;
      assert KeyServed(providers, rules, w.key, s);
      PlannedIffEntries(providers, rules, list, plans, w.key);
    }
    forall p | p in plans
      ensures p.entries != [] && forall e :: e in p.entries ==> AskedFor(providers, rules, p.key, e)
    {
      var i :| 0 <= i < |plans| && plans[i] == p;
      assert list[i] in list;
    }
    forall key | key in s.table
      ensures exists p :: p in plans && p.key == key
    {
      assert KeyServed(providers, rules, key, s);
      PlannedIffEntries(providers, rules, list, plans, key);
    }
  }

  lemma AllServed(providers: seq<Provider>, rules: seq<Rule>, list: seq<Wanted>, plans: seq<Plan>, s: Runtime, env: Env)
    requires IsListing(list, providers, rules) && PlansFit(list, plans)
    requires Paired(s) && HonestPids(env, s) && DistinctPlans(plans)
    requires AllStop(s, plans, env) && AllSucceed(env, plans, ReusableKeys(s, plans, env))
    ensures forall key :: KeyServed(providers, rules, key, Reconciled(s, plans, env))
  {
    var after := Reconciled(s, plans, env);
    ReconciledServes(s, plans, env);
    forall key
      ensures KeyServed(providers, rules, key, after)
    {
      PlannedIffEntries(providers, rules, list, plans, key);
      if key in after.table {
        var p :| p in plans && p.key == key;
        assert Served(s, after, p, env, ReusableKeys(s, plans, env));
      }
    }
  }

  /** Applying no plans: everything that is known is cleaned up. */
  lemma ApplyNothing(providers: seq<Provider>, rules: seq<Rule>, before: Runtime, env: Env)
    requires Paired(before) && IsListing([], providers, rules)
    ensures
      var after := Cleaned(before, env);
      && Paired(after)
      && (env.cleanupLoads && env.cleared ==>
           && after.table == map[] && after.current == map[] && (after.processes == {} <==> Known(before))
           && (forall key :: KeyServed(providers, rules, key, after)) && RulesServed(providers, rules, [], after))
      && (Tracked(before) && env.cleanupLoads ==> Tracked(after))
      && (SettingsDistinct(All(before)) ==> SettingsDistinct(All(after)))
    ensures forall key :: KeyEntries(providers, rules, key) == []
  {
    forall key
      ensures KeyEntries(providers, rules, key) == []
    {
      NothingListed(providers, rules, key);
    }
    CleanedIsPaired(before, env);
    if SettingsDistinct(All(before)) {
      CleanedStaysDistinct(before, env);
    }
    if env.cleanupLoads {
      CleanedEmptyIff(before, env);
      if env.cleared {
        ServedAreRules(providers, rules, [], [], Cleaned(before, env));
      }
      if Tracked(before) {
        TrackedIsKnown(before);
        CleanedKillsKnown(before, env);
      }
    }
  }

  /** Applying the plans of the listed keys. */
  lemma ApplyPlans(providers: seq<Provider>, rules: seq<Rule>, list: seq<Wanted>, plans: seq<Plan>, phase: Phase,
      ok: bool, before: Runtime, after: Runtime, env: Env)
    requires IsListing(list, providers, rules) && PlansFit(list, plans) && DistinctPlans(plans)
    requires Paired(before) && HonestPids(env, before)
    requires ReconciledIn(phase, ok, before, after, plans, env)
    ensures Paired(after)
    ensures forall key :: key in PlanKeys(plans) <==> KeyEntries(providers, rules, key) != []
    ensures ok ==>
      && (forall key :: KeyServed(providers, rules, key, after)) && RulesServed(providers, rules, plans, after)
      && (Tracked(after) <==> Known(before) && UnrecordedFit(before, plans, env))
      && (SettingsDistinct(All(after)) <==> LeftoversApart(before, plans))
    ensures Tracked(before) && env.cleanupLoads ==> Tracked(after)
    ensures SettingsDistinct(All(before)) && AllRecorded(before) ==> SettingsDistinct(All(after))
  {
    hide Tracked, Known, UnrecordedFit, LeftoversApart, SettingsDistinct, IsListing, HonestPids, Paired;
    hide KeyServed, DistinctPlans, PlanKeys, PlansFit, RulesServed;
    forall key
      ensures key in PlanKeys(plans) <==> KeyEntries(providers, rules, key) != []
    {
      PlannedIffEntries(providers, rules, list, plans, key);
    }
    StaysPaired(phase, ok, before, after, plans, env);
    if ok {
      AllServed(providers, rules, list, plans, before, env);
      ServedAreRules(providers, rules, list, plans, after);
      ReconciledTrackedIff(before, plans, env);
      ReconciledDistinctIff(before, plans, env);
    }
    if Tracked(before) && env.cleanupLoads {
      StaysTracked(phase, ok, before, after, plans, env);
    }
    if SettingsDistinct(All(before)) && AllRecorded(before) {
      StaysDistinct(phase, ok, before, after, plans, env);
    }
  }

  class Manager {
    var table: Instances
    var current: Instances
    ghost var processes: set<Pid>

    ghost function State(): Runtime
      reads this
    {
      Runtime(table, current, processes)
    }

    /** Opens on the stored rows; which of the old processes still live is up to the system. */
    constructor (rows: Instances, ghost live: set<Pid>)
      ensures State() == Runtime(rows, map[], live)
    {
      table, current := rows, map[];
      processes := live;
    }

    /** StopSucceeds one instance: it is forgotten and killed even if its row cannot be deleted. */
    method StopInstance(key: Key, env: Env) returns (ok: bool)
      requires key in table
      modifies this
      ensures ok <==> StopSucceeds(env, key)
      ensures State() == Stopped(old(State()), {key}, env)
    {
      processes := processes - {if key in current then current[key].pid else table[key].pid};
      current := current - {key};
      if env.rowDeleted(key) {
        table := table - {key};
      }
      ok := env.routeRemoved(key) && env.rowDeleted(key);
    }

    /** StopSucceeds every instance that no plan reuses, in any order, until one cannot be stopped. */
    method StopOthers(reusable: set<Key>, env: Env) returns (ok: bool, ghost stopped: set<Key>)
      modifies this
      ensures State() == Stopped(old(State()), stopped, env)
      ensures ok <==> forall key :: key in stopped ==> StopSucceeds(env, key)
      ensures stopped <= old(table).Keys - reusable && (ok ==> stopped == old(table).Keys - reusable)
    {
      hide Stopped, StopSucceeds;
      var todo := table.Keys - reusable;
      ok, stopped := true, {};
      NothingStopped(State(), env);
      while todo != {} && ok
        invariant State() == Stopped(old(State()), stopped, env)
        invariant todo !! stopped && todo + stopped == old(table).Keys - reusable
        invariant ok <==> forall key :: key in stopped ==> StopSucceeds(env, key)
        decreases todo
      {
        var key :| key in todo;
        todo := todo - {key};
        StopOneMore(old(State()), stopped, key, env);
        ok := StopInstance(key, env);
        stopped := stopped + {key};
      }
    }

    /** Forgets and kills what the table lists, whether this process started it or not. */
    method ForgetRows(env: Env) returns (ok: bool)
      modifies this`current, this`processes
      ensures current == old(current) - table.Keys
      ensures processes == old(processes) - PidsOf(old(State()), table.Keys)
      ensures ok <==> RoutesRemoved(env, table.Keys)
    {
      hide PidsOf;
      ok := true;
      var todo := table.Keys;
      NoPids(State());
      assert table.Keys - todo == {};
      while todo != {}
        invariant todo <= table.Keys
        invariant forall key :: key in current <==> key in old(current) && (key !in table || key in todo)
        invariant forall key :: key in current ==> current[key] == old(current)[key]
        invariant processes == old(processes) - PidsOf(old(State()), table.Keys - todo)
        invariant ok <==> RoutesRemoved(env, table.Keys - todo)
        decreases todo
      {
        var key :| key in todo;
        OneMorePid(old(State()), table.Keys - todo, key);
        assert table.Keys - (todo - {key}) == table.Keys - todo + {key};
        todo := todo - {key};
        processes := processes - {if key in current then current[key].pid else table[key].pid};
        current := current - {key};
        ok := ok && env.cleanupRouteRemoved(key);
      }
      assert table.Keys - todo == table.Keys;
    }

    method ForgetRest(env: Env) returns (ok: bool)
      modifies this`current, this`processes
      ensures current == map[] && processes == old(processes) - PidsOf(old(State()), old(current).Keys)
      ensures ok <==> RoutesRemoved(env, old(current).Keys)
    {
      hide PidsOf;
      ok := true;
      ghost var done := {};
      NoPids(State());
      while current != map[]
        invariant done !! current.Keys && done + current.Keys == old(current).Keys
        invariant forall key :: key in current ==> current[key] == old(current)[key]
        invariant processes == old(processes) - PidsOf(old(State()), done)
        invariant ok <==> RoutesRemoved(env, done)
        decreases current.Keys
      {
        var key :| key in current;
        OneMorePid(old(State()), done, key);
        done := done + {key};
        processes := processes - {current[key].pid};
        current := current - {key};
        ok := ok && env.cleanupRouteRemoved(key);
      }
      assert done == old(current).Keys;
    }

    /** Forgets and kills everything known, then clears the table. Without the stored rows
        it gives up and leaves everything as it is. */
    method Cleanup(env: Env) returns (ok: bool)
      modifies this
      ensures State() == Cleaned(old(State()), env)
      ensures ok <==> CleansUp(env, old(table).Keys + old(current).Keys)
    {
      if !env.cleanupLoads {
        return false;
      }
      var rowsOk := ForgetRows(env);
      ghost var rest := State();
      var restOk := ForgetRest(env);
      RestPids(old(State()), rest);
      if env.cleared {
        table := map[];
      }
      ok := rowsOk && restOk && env.cleared && env.cleanupPruned;
    }

    /** StartSucceeds the process of a plan, records it, and sets up its routing. */
    method StartPlan(plan: Plan, env: Env) returns (ok: bool)
      modifies this
      ensures ok <==> StartSucceeds(env, plan.key)
      ensures State() == Started(old(State()), plan, env)
    {
      var pid := env.started(plan.key);
      if pid.None? {
        return false;
      }
      var instance := NewInstance(plan, pid.value);
      processes := processes + {pid.value};
      current := current[plan.key := instance];
      if !env.saved(plan.key) {
        return false;
      }
      table := table[plan.key := instance];
      ok := env.interfaceAppears(plan.key) && env.routeAdded(plan.key) && env.savedAgain(plan.key);
    }

    /** Brings the routing of a reused instance up to date; its process keeps running. */
    method SyncPlan(plan: Plan, env: Env) returns (ok: bool)
      requires plan.key in table || plan.key in current
      modifies this
      ensures ok <==> SyncSucceeds(env, plan.key)
      ensures State() == Synced(old(State()), plan, env)
    {
      if !env.listWritten(plan.key) || !env.interfaceAppears(plan.key) {
        return false;
      }
      if !env.routeSynced(plan.key) && !env.routeAdded(plan.key) {
        return false;
      }
      var target := NewInstance(plan, if plan.key in current then current[plan.key].pid else table[plan.key].pid);
      if plan.key in current {
        current := current[plan.key := target];
      }
      if !env.saved(plan.key) {
        return false;
      }
      table := table[plan.key := target];
      return true;
    }

    /** SyncSucceeds the reused instances and starts the others, in order, until one fails. */
    method RunPlans(plans: seq<Plan>, reusable: set<Key>, env: Env) returns (ok: bool)
      requires forall key :: key in reusable ==> key in table || key in current
      modifies this
      ensures ok <==> AllSucceed(env, plans, reusable)
      ensures State() == AllRan(old(State()), plans, reusable, env)
    {
      hide AllRan, AllSucceed, StartSucceeds, SyncSucceeds;
      NothingRan(State(), reusable, env);
      for i := 0 to |plans|
        invariant AllSucceed(env, plans[..i], reusable)
        invariant State() == AllRan(old(State()), plans[..i], reusable, env)
        invariant forall key :: key in reusable ==> key in table || key in current
      {
        RunOneMore(old(State()), plans, i, reusable, env);
        if plans[i].key in reusable {
          ok := SyncPlan(plans[i], env);
        } else {
          ok := StartPlan(plans[i], env);
        }
        if !ok {
          StopAtFailure(old(State()), plans, i, reusable, env);
          return false;
        }
      }
      assert plans[..|plans|] == plans;
      return true;
    }

    method FindReusable(plans: seq<Plan>, env: Env) returns (keys: set<Key>)
      ensures keys == ReusableKeys(State(), plans, env)
    {
      keys := {};
      for i := 0 to |plans|
        invariant keys == ReusableKeys(State(), plans[..i], env)
      {
        assert plans[..i + 1] == plans[..i] + [plans[i]];
        var plan := plans[i];
        if plan.key in current {
          if CanReuse(current[plan.key], plan, env) {
            keys := keys + {plan.key};
          }
        } else if plan.key in table && CanReuse(table[plan.key], plan, env) {
          keys := keys + {plan.key};
        }
      }
      assert plans[..|plans|] == plans;
    }

    /** Reconciles the instances with the plans: reusable ones are kept, the others
        stopped, the missing ones started. A failed start or sync cleans everything up. */
    method Reconcile(plans: seq<Plan>, env: Env) returns (ok: bool, ghost phase: Phase)
      modifies this
      ensures ReconciledIn(phase, ok, old(State()), State(), plans, env)
    {
      if !env.loads {
        return false, Loading;
      }
      var reusable := FindReusable(plans, env);
      ghost var stopped;
      ok, stopped := StopOthers(reusable, env);
      if !ok {
        return false, Stopping(stopped);
      }
      ok := RunPlans(plans, reusable, env);
      if !ok {
        var cleaned := Cleanup(env);
        return false, Starting;
      }
      return env.pruned, Finished;
    }

    /** Applies the subscription rules of a configuration. After a success exactly the keys
        with entries have a row, and its instance lives and serves them. */
    method Apply(providers: seq<Provider>, rules: seq<Rule>, base: Settings, hash: Key -> string,
        available: Key -> bool, env: Env)
      returns (ok: bool, ghost asked: seq<Plan>)
      requires Paired(State()) && HonestPids(env, State())
      requires |rules| <= WHOLE && forall key :: 10 <= |hash(key)|
      modifies this
      ensures Paired(State())
      ensures !Servable(providers, rules, available) ==> !ok && State() == old(State())
      ensures ok ==> Servable(providers, rules, available)
      ensures ok ==> forall key :: KeyServed(providers, rules, key, State())
      ensures ok ==> RulesServed(providers, rules, asked, State())
      ensures ok ==> forall key :: key in PlanKeys(asked) <==> KeyEntries(providers, rules, key) != []
      ensures ok && asked != [] ==>
        && (Tracked(State()) <==> Known(old(State())) && UnrecordedFit(old(State()), asked, env))
        && (SettingsDistinct(All(State())) <==> LeftoversApart(old(State()), asked))
      ensures ok && asked == [] ==>
        table == map[] && current == map[] && (processes == {} <==> Known(old(State())))
      ensures old(Tracked(State())) && env.cleanupLoads ==> Tracked(State())
      ensures old(SettingsDistinct(All(State())) && AllRecorded(State())) ==> SettingsDistinct(All(State()))
    {
      hide Tracked, Known, UnrecordedFit, LeftoversApart, SettingsDistinct, Servable, IsListing, HonestPids, Paired;
      hide KeyServed, DistinctPlans, AllRecorded, RulesServed, ServesRules, CannotServe;
      asked := [];
      var answer := BuildDesired(providers, rules, available);
      if answer.Refused? {
        return false, asked;
      }
      if |answer.list| == 0 {
        var cleaned := Cleanup(env);
        ApplyNothing(providers, rules, old(State()), env);
        return cleaned && env.pruned, asked;
      }
      var plans := BuildPlans(answer.list, base, hash);
      asked := plans;
      ghost var phase;
      ok, phase := Reconcile(plans, env);
      ApplyPlans(providers, rules, answer.list, plans, phase, ok, old(State()), State(), env);
    }

    /** A process ends by itself: only the instance in memory that still owns it is
        forgotten. */
    method Exited(key: Key, pid: Pid, rowDeleted: bool)
      modifies this
      ensures State() == Ended(old(State()), key, pid, rowDeleted)
    {
      processes := processes - {pid};
      if key !in current {
        return;
      }
      if current[key].pid != 0 && current[key].pid != pid {
        return;
      }
      current := current - {key};
      if rowDeleted {
        table := table - {key};
      }
    }
  }
}
