/** What the subscription runtime does to its stored rows, its instances in memory and the
    live processes when it reconciles them with a list of plans. */
module Reconciliation {
  import opened Config
  import opened Entries
  import opened Allocation
  import opened DesiredInstances

  type Pid = nat    // 0 when unknown

  datatype Instance = Instance(settings: Settings, entryCount: nat, pid: Pid)

  type Instances = map<Key, Instance>

  /** How the file system, the processes, the routing script and the store answer. */
  datatype Env = Env(
    loads: bool,
    sameConfig: Key -> bool, interfaceUp: Key -> bool, alive: Pid -> bool,
    routeRemoved: Key -> bool, rowDeleted: Key -> bool,
    started: Key -> Option<Pid>, saved: Key -> bool, interfaceAppears: Key -> bool, routeAdded: Key -> bool,
    savedAgain: Key -> bool,
    listWritten: Key -> bool, routeSynced: Key -> bool,
    cleanupLoads: bool, cleanupRouteRemoved: Key -> bool, cleared: bool, cleanupPruned: bool,
    pruned: bool)

  /** What the manager holds and what the system runs: stored rows, instances in memory,
      and live processes. */
  datatype Runtime = Runtime(table: Instances, current: Instances, processes: set<Pid>)

  const EMPTY := Runtime(map[], map[], {})

  /** The instance of a key as the manager sees it: memory comes before the table. */
  function Holder(s: Runtime, key: Key): Instance
    requires key in s.current || key in s.table
  {
    if key in s.current then s.current[key] else s.table[key]
  }

  predicate CanReuse(instance: Instance, plan: Plan, env: Env) {
    && instance.settings == plan.settings && env.sameConfig(plan.key) && env.interfaceUp(plan.key)
    && instance.pid > 0 && env.alive(instance.pid)
  }

  predicate Reusable(s: Runtime, plan: Plan, env: Env) {
    (plan.key in s.current || plan.key in s.table) && CanReuse(Holder(s, plan.key), plan, env)
  }

  ghost function ReusableKeys(s: Runtime, plans: seq<Plan>, env: Env): set<Key> {
    set p | p in plans && Reusable(s, p, env) :: p.key
  }

  ghost function PlanKeys(plans: seq<Plan>): set<Key> {
    set p | p in plans :: p.key
  }

  // ----- what the operations do -----

  predicate StopSucceeds(env: Env, key: Key) {
    env.routeRemoved(key) && env.rowDeleted(key)
  }

  predicate StartSucceeds(env: Env, key: Key) {
    && env.started(key).Some? && env.saved(key)
    && env.interfaceAppears(key) && env.routeAdded(key) && env.savedAgain(key)
  }

  predicate RoutingSyncs(env: Env, key: Key) {
    env.listWritten(key) && env.interfaceAppears(key) && (env.routeSynced(key) || env.routeAdded(key))
  }

  predicate SyncSucceeds(env: Env, key: Key) {
    RoutingSyncs(env, key) && env.saved(key)
  }

  predicate Succeeds(env: Env, key: Key, reusable: set<Key>) {
    if key in reusable then SyncSucceeds(env, key) else StartSucceeds(env, key)
  }

  ghost predicate AllSucceed(env: Env, plans: seq<Plan>, reusable: set<Key>) {
    forall p :: p in plans ==> Succeeds(env, p.key, reusable)
  }

  ghost function PidsOf(s: Runtime, keys: set<Key>): set<Pid> {
    set key | key in keys && (key in s.current || key in s.table) :: Holder(s, key).pid
  }

  /** The instances of `keys` are killed and forgotten; a row stays if it cannot be deleted. */
  ghost function Stopped(s: Runtime, keys: set<Key>, env: Env): Runtime {
    Runtime(s.table - (set key | key in keys && env.rowDeleted(key)), s.current - keys, s.processes - PidsOf(s, keys))
  }

  /** Everything known is killed and forgotten, unless the rows cannot be loaded. */
  ghost function Cleaned(s: Runtime, env: Env): Runtime {
    if !env.cleanupLoads then s
    else Runtime(if env.cleared then map[] else s.table, map[], s.processes - PidsOf(s, s.table.Keys + s.current.Keys))
  }

  function NewInstance(plan: Plan, pid: Pid): Instance {
    Instance(plan.settings, |plan.entries|, pid)
  }

  ghost function Started(s: Runtime, plan: Plan, env: Env): Runtime {
    if env.started(plan.key).None? then s
    else
      var instance := NewInstance(plan, env.started(plan.key).value);
      Runtime(if env.saved(plan.key) then s.table[plan.key := instance] else s.table,
              s.current[plan.key := instance], s.processes + {instance.pid})
  }

  ghost function Synced(s: Runtime, plan: Plan, env: Env): Runtime {
    if !RoutingSyncs(env, plan.key) || (plan.key !in s.current && plan.key !in s.table) then s
    else
      var instance := NewInstance(plan, Holder(s, plan.key).pid);
      Runtime(if env.saved(plan.key) then s.table[plan.key := instance] else s.table,
              if plan.key in s.current then s.current[plan.key := instance] else s.current, s.processes)
  }

  ghost function Ran(s: Runtime, plan: Plan, reusable: set<Key>, env: Env): Runtime {
    if plan.key in reusable then Synced(s, plan, env) else Started(s, plan, env)
  }

  /** The plans run in order, until one fails. */
  ghost function AllRan(s: Runtime, plans: seq<Plan>, reusable: set<Key>, env: Env): Runtime {
    if plans == [] then s
    else
      var init := plans[..|plans| - 1];
      var before := AllRan(s, init, reusable, env);
      if AllSucceed(env, init, reusable) then Ran(before, plans[|plans| - 1], reusable, env) else before
  }

  /** All instances that no plan reuses are stopped, and then the plans run. */
  ghost function Reconciled(s: Runtime, plans: seq<Plan>, env: Env): Runtime {
    var reusable := ReusableKeys(s, plans, env);
    AllRan(Stopped(s, s.table.Keys - reusable, env), plans, reusable, env)
  }

  datatype Phase = Loading | Stopping(stopped: set<Key>) | Starting | Finished

  /** What a reconciliation leaves behind in each phase in which it can end. */
  ghost predicate ReconciledIn(phase: Phase, ok: bool, before: Runtime, after: Runtime, plans: seq<Plan>, env: Env) {
    var reusable := ReusableKeys(before, plans, env);
    var others := before.table.Keys - reusable;
    match phase
    case Loading => !ok && !env.loads && after == before
    case Stopping(stopped) =>
      && !ok && env.loads && stopped <= others && after == Stopped(before, stopped, env)
      && exists key :: key in stopped && !StopSucceeds(env, key)
    case Starting =>
      && !ok && env.loads && (forall key :: key in others ==> StopSucceeds(env, key))
      && !AllSucceed(env, plans, reusable) && after == Cleaned(Reconciled(before, plans, env), env)
    case Finished =>
      && (ok <==> env.pruned) && env.loads && (forall key :: key in others ==> StopSucceeds(env, key))
      && AllSucceed(env, plans, reusable) && after == Reconciled(before, plans, env)
  }

  ghost predicate RoutesRemoved(env: Env, keys: set<Key>) {
    forall key :: key in keys ==> env.cleanupRouteRemoved(key)
  }

  ghost predicate CleansUp(env: Env, keys: set<Key>) {
    env.cleanupLoads && env.cleared && env.cleanupPruned && RoutesRemoved(env, keys)
  }

  lemma NothingStopped(s: Runtime, env: Env)
    ensures Stopped(s, {}, env) == s
  {
  }

  lemma StopOneMore(s: Runtime, keys: set<Key>, key: Key, env: Env)
    requires key !in keys && key in s.table
    ensures key in Stopped(s, keys, env).table
    ensures Stopped(Stopped(s, keys, env), {key}, env) == Stopped(s, keys + {key}, env)
  {
    OneMorePid(s, keys, key);
  }

  lemma NoPids(s: Runtime)
    ensures PidsOf(s, {}) == {}
  {
  }

  lemma OneMorePid(s: Runtime, keys: set<Key>, key: Key)
    requires key in s.current || key in s.table
    ensures PidsOf(s, keys + {key}) == PidsOf(s, keys) + {Holder(s, key).pid}
  {
  }

  lemma RestPids(s: Runtime, rest: Runtime)
    requires rest.table == s.table && rest.current == s.current - s.table.Keys
    ensures PidsOf(s, s.table.Keys) + PidsOf(rest, rest.current.Keys) == PidsOf(s, s.table.Keys + s.current.Keys)
  {
  }

  lemma NothingRan(s: Runtime, reusable: set<Key>, env: Env)
    ensures AllRan(s, [], reusable, env) == s && AllSucceed(env, [], reusable)
  {
  }

  lemma RunOneMore(s: Runtime, plans: seq<Plan>, i: nat, reusable: set<Key>, env: Env)
    requires i < |plans|
    requires AllSucceed(env, plans[..i], reusable)
    ensures AllRan(s, plans[..i + 1], reusable, env)
         == Ran(AllRan(s, plans[..i], reusable, env), plans[i], reusable, env)
    ensures AllSucceed(env, plans[..i + 1], reusable) <==> Succeeds(env, plans[i].key, reusable)
  {
    assert plans[..i + 1][..i] == plans[..i];
    assert plans[..i + 1] == plans[..i] + [plans[i]];
  }

  lemma {:induction false} StopAtFailure(s: Runtime, plans: seq<Plan>, i: nat, reusable: set<Key>, env: Env)
    requires i < |plans| && !Succeeds(env, plans[i].key, reusable)
    ensures AllRan(s, plans, reusable, env) == AllRan(s, plans[..i + 1], reusable, env)
    ensures !AllSucceed(env, plans, reusable)
  {
    assert plans[i] in plans;
    if i == |plans| - 1 {
      assert plans[..i + 1] == plans;
    } else {
      var init := plans[..|plans| - 1];
      StopAtFailure(s, init, i, reusable, env);
      assert init[..i + 1] == plans[..i + 1];
    }
  }

  // ----- process numbers -----

  /** Rows and instances in memory together. */
  ghost function All(s: Runtime): Instances {
    s.table + s.current
  }

  ghost predicate HasPid(instances: Instances, pid: Pid) {
    exists key :: key in instances && instances[key].pid == pid
  }

  ghost predicate OwnPids(instances: Instances) {
    forall k, l :: k in instances && l in instances && k != l ==>
      instances[k].pid != instances[l].pid || instances[k].pid == 0
  }

  ghost predicate SameInstance(a: Instance, b: Instance) {
    a.pid == b.pid && a.settings == b.settings
  }

  /** No two keys have one process, and a row and the instance in memory of one key do. */
  ghost predicate Paired(s: Runtime) {
    && (forall key :: key in s.current && key in s.table ==> SameInstance(s.current[key], s.table[key]))
    && OwnPids(All(s)) && 0 !in s.processes
  }

  /** In memory only, as a cleanup that could not load the rows leaves an instance whose row
      could not be saved. */
  ghost predicate Unrecorded(s: Runtime, key: Key) {
    key in s.current && key !in s.table
  }

  /** A process seen alive is alive, and new processes get numbers that no live process has,
      and no instance that is in memory only. A row may still record the number, as after the
      router has started anew. */
  ghost predicate HonestPids(env: Env, s: Runtime) {
    && (forall pid :: env.alive(pid) ==> pid in s.processes)
    && (forall key :: env.started(key).Some? ==> IsFree(env.started(key).value, s))
    && OwnStarts(env)
  }

  ghost predicate IsFree(pid: Pid, s: Runtime) {
    pid != 0 && pid !in s.processes && forall key :: Unrecorded(s, key) ==> s.current[key].pid != pid
  }

  ghost predicate OwnStarts(env: Env) {
    forall k, l :: k != l && env.started(k).Some? && env.started(l).Some? ==> env.started(k) != env.started(l)
  }

  ghost predicate IsFresh(pid: Pid, s: Runtime) {
    pid != 0 && pid !in s.processes && !HasPid(All(s), pid)
  }

  /** Every live process belongs to a row or to an instance in memory. */
  ghost predicate Known(s: Runtime) {
    Paired(s) && forall pid :: pid in s.processes ==> HasPid(All(s), pid)
  }

  /** Every live process belongs to a row, and every instance in memory is a row's. */
  ghost predicate Tracked(s: Runtime) {
    && Paired(s)
    && (forall key :: key in s.current ==> key in s.table && s.current[key] == s.table[key])
    && forall pid :: pid in s.processes ==> HasPid(s.table, pid)
  }

  lemma TrackedIsKnown(s: Runtime)
    requires Tracked(s)
    ensures Known(s) && All(s) == s.table
  {
  }

  /** Fewer instances and fewer processes are paired alike. */
  lemma FewerArePaired(s: Runtime, fewer: Runtime)
    requires Paired(s) && fewer.processes <= s.processes
    requires forall key :: key in fewer.table ==> key in s.table && fewer.table[key] == s.table[key]
    requires forall key :: key in fewer.current ==> key in s.current && fewer.current[key] == s.current[key]
    ensures Paired(fewer)
    ensures forall pid :: HasPid(All(fewer), pid) ==> HasPid(All(s), pid)
  {
    forall key | key in All(fewer)
      ensures key in All(s) && All(fewer)[key].pid == All(s)[key].pid
    {
    }
  }

  lemma StoppedIsPaired(s: Runtime, keys: set<Key>, env: Env)
    requires Paired(s)
    ensures Paired(Stopped(s, keys, env))
    ensures forall pid :: IsFresh(pid, s) ==> IsFresh(pid, Stopped(s, keys, env))
  {
    FewerArePaired(s, Stopped(s, keys, env));
  }

  lemma CleanedIsPaired(s: Runtime, env: Env)
    requires Paired(s)
    ensures Paired(Cleaned(s, env))
  {
    FewerArePaired(s, Cleaned(s, env));
  }

  lemma PidOf(s: Runtime, key: Key)
    requires Paired(s) && key in All(s)
    ensures All(s)[key].pid == Holder(s, key).pid && All(s)[key].settings == Holder(s, key).settings
  {
  }

  /** A cleanup that can load the rows leaves nothing alive that was known. */
  lemma CleanedKillsKnown(s: Runtime, env: Env)
    requires Known(s) && env.cleanupLoads
    ensures Cleaned(s, env).processes == {} && Tracked(Cleaned(s, env))
  {
    CleanedIsPaired(s, env);
    forall pid | pid in s.processes
      ensures pid in PidsOf(s, s.table.Keys + s.current.Keys)
    {
      var key :| key in All(s) && All(s)[key].pid == pid;
      PidOf(s, key);
    }
  }

  // ----- one step -----

  /** Starting a plan keeps every live process known exactly if its key has no live process
      that is recorded in memory only. */
  ghost predicate OrphansNothing(s: Runtime, key: Key) {
    key in s.current && key !in s.table ==> s.current[key].pid !in s.processes
  }

  lemma AllStarted(s: Runtime, plan: Plan, env: Env)
    requires plan.key !in s.table && env.started(plan.key).Some?
    ensures
      var instance := NewInstance(plan, env.started(plan.key).value);
      All(Started(s, plan, env)) == All(s)[plan.key := instance]
  {
  }

  lemma FreshIsOwn(instances: Instances, key: Key, instance: Instance)
    requires OwnPids(instances) && !HasPid(instances, instance.pid)
    ensures OwnPids(instances[key := instance])
  {
  }

  /** Replacing an instance loses exactly its own process. */
  lemma ReplacedPids(instances: Instances, key: Key, instance: Instance, pid: Pid)
    requires OwnPids(instances) && pid != 0
    ensures HasPid(instances[key := instance], pid)
       <==> pid == instance.pid || (HasPid(instances, pid) && !(key in instances && instances[key].pid == pid))
  {
    var more := instances[key := instance];
    assert more[key] == instance;
    if HasPid(instances, pid) {
      var k :| k in instances && instances[k].pid == pid;
      assert k != key ==> more[k].pid == pid;
    }
  }

  lemma StartedIsPaired(s: Runtime, plan: Plan, env: Env)
    requires Paired(s) && plan.key !in s.table
    requires env.started(plan.key).Some? ==> IsFresh(env.started(plan.key).value, s)
    ensures Paired(Started(s, plan, env))
  {
    if env.started(plan.key).Some? {
      hide All, OwnPids, HasPid;
      AllStarted(s, plan, env);
      FreshIsOwn(All(s), plan.key, NewInstance(plan, env.started(plan.key).value));
    }
  }

  lemma StartedKnownIff(s: Runtime, plan: Plan, env: Env)
    requires Paired(s) && plan.key !in s.table && env.started(plan.key).Some?
    requires IsFresh(env.started(plan.key).value, s)
    ensures Known(Started(s, plan, env)) <==> Known(s) && OrphansNothing(s, plan.key)
  {
    hide OwnPids, HasPid;
    var s', instance := Started(s, plan, env), NewInstance(plan, env.started(plan.key).value);
    StartedIsPaired(s, plan, env);
    AllStarted(s, plan, env);
    assert plan.key in All(s) <==> plan.key in s.current;
    assert plan.key in s.current ==> All(s)[plan.key] == s.current[plan.key];
    if plan.key in s.current {
      assert HasPid(All(s), s.current[plan.key].pid) by {
        HolderHasPid(s, plan.key);
      }
    }
    hide All, Paired;
    forall pid | pid in s'.processes
      ensures HasPid(All(s'), pid)
         <==> pid == instance.pid || (HasPid(All(s), pid) && !(plan.key in s.current && s.current[plan.key].pid == pid))
    {
      NonZero(s', pid);
      PairedIsOwn(s);
      ReplacedPids(All(s), plan.key, instance, pid);
    }
  }

  lemma HolderHasPid(s: Runtime, key: Key)
    requires key in s.current
    ensures HasPid(All(s), s.current[key].pid)
  {
    assert All(s)[key] == s.current[key];
  }

  lemma NonZero(s: Runtime, pid: Pid)
    requires Paired(s) && pid in s.processes
    ensures pid != 0
  {
  }

  lemma PairedIsOwn(s: Runtime)
    requires Paired(s)
    ensures OwnPids(All(s))
  {
  }

  /** Two tables of instances with the same processes. */
  lemma SamePids(a: Instances, b: Instances)
    requires a.Keys == b.Keys && forall key :: key in a ==> a[key].pid == b[key].pid
    ensures OwnPids(a) ==> OwnPids(b)
    ensures forall pid :: HasPid(a, pid) <==> HasPid(b, pid)
  {
    forall pid
      ensures HasPid(a, pid) <==> HasPid(b, pid)
    {
      if key :| key in a && a[key].pid == pid {
        assert b[key].pid == pid;
      }
    }
  }

  lemma AllSynced(s: Runtime, plan: Plan, env: Env)
    requires Paired(s) && (plan.key in s.current || plan.key in s.table)
    ensures All(Synced(s, plan, env)).Keys == All(s).Keys
    ensures forall key :: key in All(s) ==> All(Synced(s, plan, env))[key].pid == All(s)[key].pid
  {
    hide OwnPids;
    PidOf(s, plan.key);
  }

  lemma SyncedIsPaired(s: Runtime, plan: Plan, env: Env)
    requires Paired(s) && (plan.key in s.current || plan.key in s.table)
    requires Holder(s, plan.key).settings == plan.settings
    ensures Paired(Synced(s, plan, env))
    ensures forall pid :: HasPid(All(Synced(s, plan, env)), pid) <==> HasPid(All(s), pid)
    ensures Known(s) <==> Known(Synced(s, plan, env))
  {
    hide All, OwnPids, HasPid;
    AllSynced(s, plan, env);
    SamePids(All(s), All(Synced(s, plan, env)));
  }

  // ----- running the plans -----

  ghost predicate DistinctPlanKeys(plans: seq<Plan>) {
    forall i, j :: 0 <= i < j < |plans| ==> plans[i].key != plans[j].key
  }

  /** The state once the other instances are stopped. */
  ghost predicate Ready(s: Runtime, plans: seq<Plan>, reusable: set<Key>, env: Env) {
    && Paired(s) && s.table.Keys <= reusable && DistinctPlanKeys(plans) && OwnStarts(env)
    && forall p :: p in plans ==> Awaits(s, p, reusable, env)
  }

  ghost predicate Awaits(s: Runtime, p: Plan, reusable: set<Key>, env: Env) {
    if p.key in reusable then
      && (p.key in s.current || p.key in s.table)
      && Holder(s, p.key).settings == p.settings && Holder(s, p.key).pid in s.processes
    else
      env.started(p.key).Some? ==> IsFresh(env.started(p.key).value, s)
  }

  lemma LastPlan(plans: seq<Plan>)
    requires plans != [] && DistinctPlanKeys(plans)
    ensures
      var init, last := plans[..|plans| - 1], plans[|plans| - 1];
      && DistinctPlanKeys(init) && last.key !in PlanKeys(init)
      && (forall p :: p in plans <==> p in init || p == last)
      && PlanKeys(plans) == PlanKeys(init) + {last.key}
  {
    assert plans == plans[..|plans| - 1] + [plans[|plans| - 1]];
  }

  lemma ReadyInit(s: Runtime, plans: seq<Plan>, reusable: set<Key>, env: Env)
    requires Ready(s, plans, reusable, env) && plans != []
    ensures Ready(s, plans[..|plans| - 1], reusable, env) && Awaits(s, plans[|plans| - 1], reusable, env)
  {
    LastPlan(plans);
  }

  ghost predicate SameAt(s: Runtime, t: Runtime, key: Key) {
    && (key in t.table <==> key in s.table) && (key in t.table ==> t.table[key] == s.table[key])
    && (key in t.current <==> key in s.current) && (key in t.current ==> t.current[key] == s.current[key])
  }

  lemma {:induction false} Untouched(s: Runtime, plans: seq<Plan>, reusable: set<Key>, env: Env, key: Key)
    requires key !in PlanKeys(plans)
    ensures SameAt(s, AllRan(s, plans, reusable, env), key)
  {
    if plans != [] {
      assert plans == plans[..|plans| - 1] + [plans[|plans| - 1]];
      assert plans[|plans| - 1].key in PlanKeys(plans);
      Untouched(s, plans[..|plans| - 1], reusable, env, key);
    }
  }

  ghost predicate Starters(plans: seq<Plan>, reusable: set<Key>, env: Env, pid: Pid) {
    exists p :: p in plans && p.key !in reusable && env.started(p.key) == Some(pid)
  }

  lemma {:induction false} LivesOrStarts(s: Runtime, plans: seq<Plan>, reusable: set<Key>, env: Env)
    ensures s.processes <= AllRan(s, plans, reusable, env).processes
    ensures forall pid :: pid in AllRan(s, plans, reusable, env).processes ==>
      pid in s.processes || Starters(plans, reusable, env, pid)
    ensures AllSucceed(env, plans, reusable) ==>
      forall pid :: Starters(plans, reusable, env, pid) ==> pid in AllRan(s, plans, reusable, env).processes
  {
    if plans != [] {
      var init, last := plans[..|plans| - 1], plans[|plans| - 1];
      assert plans == init + [last];
      LivesOrStarts(s, init, reusable, env);
      assert forall pid :: Starters(init, reusable, env, pid) ==> Starters(plans, reusable, env, pid);
      assert last in plans;
    }
  }

  /** One plan of a ready state: how it changes which processes are known. */
  lemma RanKeeps(s: Runtime, p: Plan, reusable: set<Key>, env: Env)
    requires Paired(s) && Awaits(s, p, reusable, env) && (p.key !in reusable ==> p.key !in s.table)
    ensures Paired(Ran(s, p, reusable, env))
    ensures forall pid: Pid :: IsFresh(pid, s) && (p.key in reusable || env.started(p.key) != Some(pid)) ==>
      IsFresh(pid, Ran(s, p, reusable, env))
    ensures Known(Ran(s, p, reusable, env))
       <==> Known(s) && (p.key !in reusable && env.started(p.key).Some? ==> OrphansNothing(s, p.key))
  {
    if p.key in reusable {
      SyncedIsPaired(s, p, env);
    } else {
      StartedIsPaired(s, p, env);
      if env.started(p.key).Some? {
        var instance := NewInstance(p, env.started(p.key).value);
        AllStarted(s, p, env);
        StartedKnownIff(s, p, env);
        hide All, OwnPids, HasPid, Paired;
        forall pid: Pid | IsFresh(pid, s) && env.started(p.key) != Some(pid)
          ensures IsFresh(pid, Started(s, p, env))
        {
          PairedIsOwn(s);
          ReplacedPids(All(s), p.key, instance, pid);
        }
      }
    }
  }

  /** No plan that the run reaches is started over a live instance that is recorded in
      memory only. */
  ghost predicate NothingOrphaned(s: Runtime, plans: seq<Plan>, reusable: set<Key>, env: Env) {
    forall i :: 0 <= i < |plans| && AllSucceed(env, plans[..i], reusable) ==> SparesAt(s, plans[i], reusable, env)
  }

  ghost predicate SparesAt(s: Runtime, p: Plan, reusable: set<Key>, env: Env) {
    p.key !in reusable && env.started(p.key).Some? ==> OrphansNothing(s, p.key)
  }

  lemma NothingOrphanedLast(s: Runtime, plans: seq<Plan>, reusable: set<Key>, env: Env)
    requires plans != []
    ensures
      var init, last := plans[..|plans| - 1], plans[|plans| - 1];
      NothingOrphaned(s, plans, reusable, env)
      <==> NothingOrphaned(s, init, reusable, env)
           && (AllSucceed(env, init, reusable) ==> SparesAt(s, last, reusable, env))
  {
    var init := plans[..|plans| - 1];
    assert forall i :: 0 <= i < |init| ==> init[..i] == plans[..i] && init[i] == plans[i];
  }

  /** While the plans run, no two keys come to share a process, and every live process stays
      known exactly if it was and no reached plan orphans one. */
  lemma {:induction false} RunKeeps(s: Runtime, plans: seq<Plan>, reusable: set<Key>, env: Env)
    requires Ready(s, plans, reusable, env)
    ensures Paired(AllRan(s, plans, reusable, env))
    ensures forall pid :: IsFresh(pid, s) && !Starters(plans, reusable, env, pid) ==>
      IsFresh(pid, AllRan(s, plans, reusable, env))
    ensures Known(AllRan(s, plans, reusable, env)) <==> Known(s) && NothingOrphaned(s, plans, reusable, env)
  {
    if plans != [] {
      var init, last := plans[..|plans| - 1], plans[|plans| - 1];
      var before := AllRan(s, init, reusable, env);
      LastPlan(plans);
      ReadyInit(s, plans, reusable, env);
      RunKeeps(s, init, reusable, env);
      NothingOrphanedLast(s, plans, reusable, env);
      assert forall pid :: Starters(init, reusable, env, pid) ==> Starters(plans, reusable, env, pid);
      if AllSucceed(env, init, reusable) {
        StillAwaits(s, init, last, reusable, env);
        RanKeeps(before, last, reusable, env);
        assert last in plans;
      }
    }
  }

  lemma StillAwaits(s: Runtime, init: seq<Plan>, last: Plan, reusable: set<Key>, env: Env)
    requires Ready(s, init, reusable, env) && Awaits(s, last, reusable, env) && last.key !in PlanKeys(init)
    requires forall pid :: IsFresh(pid, s) && !Starters(init, reusable, env, pid) ==>
      IsFresh(pid, AllRan(s, init, reusable, env))
    ensures Awaits(AllRan(s, init, reusable, env), last, reusable, env)
    ensures last.key !in reusable ==> last.key !in AllRan(s, init, reusable, env).table
    ensures last.key !in reusable ==>
      (OrphansNothing(AllRan(s, init, reusable, env), last.key) <==> OrphansNothing(s, last.key))
  {
    Untouched(s, init, reusable, env, last.key);
    LivesOrStarts(s, init, reusable, env);
    if last.key !in reusable && env.started(last.key).Some? {
      assert forall p :: p in init ==> p.key in PlanKeys(init);
      assert !Starters(init, reusable, env, env.started(last.key).value);
    }
    if last.key in s.current && last.key !in reusable {
      StartersAreFresh(s, init, reusable, env, s.current[last.key].pid);
      assert All(s)[last.key] == s.current[last.key];
    }
  }

  lemma StartersAreFresh(s: Runtime, plans: seq<Plan>, reusable: set<Key>, env: Env, pid: Pid)
    requires Ready(s, plans, reusable, env)
    ensures Starters(plans, reusable, env, pid) ==> IsFresh(pid, s)
  {
    if p :| p in plans && p.key !in reusable && env.started(p.key) == Some(pid) {
      assert Awaits(s, p, reusable, env);
    }
  }

  // ----- a whole reconciliation -----

  ghost predicate AllStop(s: Runtime, plans: seq<Plan>, env: Env) {
    forall key :: key in s.table && key !in ReusableKeys(s, plans, env) ==> StopSucceeds(env, key)
  }

  /** The state in which the plans run. */
  ghost function StoppedFor(s: Runtime, plans: seq<Plan>, env: Env): Runtime {
    Stopped(s, s.table.Keys - ReusableKeys(s, plans, env), env)
  }

  lemma DistinctPlansKeys(plans: seq<Plan>)
    requires DistinctPlans(plans)
    ensures DistinctPlanKeys(plans)
    ensures forall p, q :: p in plans && q in plans && p.key == q.key ==> p == q
  {
    forall i, j | 0 <= i < j < |plans|
      ensures plans[i].key != plans[j].key
    {
      assert Apart(plans[i], plans[j]);
    }
  }

  lemma StoppedAt(s: Runtime, plans: seq<Plan>, env: Env, key: Key)
    requires AllStop(s, plans, env)
    ensures
      var t, reusable := StoppedFor(s, plans, env), ReusableKeys(s, plans, env);
      && (key in t.table <==> key in s.table && key in reusable) && (key in t.table ==> t.table[key] == s.table[key])
      && (key in t.current <==> key in s.current && (key !in s.table || key in reusable))
      && (key in t.current ==> t.current[key] == s.current[key])
      && (key in reusable ==> (key in t.table || key in t.current) && Holder(t, key) == Holder(s, key))
  {
  }

  /** Stopping the others kills no process of an instance that stays. */
  lemma StoppedSpares(s: Runtime, plans: seq<Plan>, env: Env, key: Key)
    requires Paired(s) && (key in s.current || key in s.table)
    requires key !in s.table || key in ReusableKeys(s, plans, env)
    ensures Holder(s, key).pid in s.processes ==> Holder(s, key).pid in StoppedFor(s, plans, env).processes
  {
    var gone := s.table.Keys - ReusableKeys(s, plans, env);
    PidOf(s, key);
    forall k | k in gone
      ensures Holder(s, k).pid != Holder(s, key).pid || Holder(s, key).pid == 0
    {
      PidOf(s, k);
      assert k in All(s) && key in All(s);
    }
  }

  lemma ReadyAfterStop(s: Runtime, plans: seq<Plan>, env: Env)
    requires Paired(s) && HonestPids(env, s) && DistinctPlans(plans) && AllStop(s, plans, env)
    ensures Ready(StoppedFor(s, plans, env), plans, ReusableKeys(s, plans, env), env)
  {
    var t, reusable := StoppedFor(s, plans, env), ReusableKeys(s, plans, env);
    StoppedIsPaired(s, s.table.Keys - reusable, env);
    DistinctPlansKeys(plans);
    forall key | key in t.table
      ensures key in reusable
    {
      StoppedAt(s, plans, env, key);
    }
    forall p | p in plans
      ensures Awaits(t, p, reusable, env)
    {
      StoppedAt(s, plans, env, p.key);
      if p.key in reusable {
        var q :| q in plans && Reusable(s, q, env) && q.key == p.key;
        assert q == p;
        StoppedSpares(s, plans, env, p.key);
      } else if env.started(p.key).Some? {
        FreeIsFresh(s, plans, env, env.started(p.key).value);
      }
    }
  }

  /** Once the others are stopped a free number is fresh: the rows that stay are alive. */
  lemma FreeIsFresh(s: Runtime, plans: seq<Plan>, env: Env, pid: Pid)
    requires Paired(s) && HonestPids(env, s) && AllStop(s, plans, env) && IsFree(pid, s)
    ensures IsFresh(pid, StoppedFor(s, plans, env))
  {
    var t, reusable := StoppedFor(s, plans, env), ReusableKeys(s, plans, env);
    forall key | key in All(t)
      ensures All(t)[key].pid != pid
    {
      StoppedAt(s, plans, env, key);
      if key in reusable {
        assert Holder(s, key).pid in s.processes;
        PidOf(s, key);
      } else {
        assert Unrecorded(s, key);
      }
    }
  }

  /** The row of a plan once it runs: a reused instance keeps its process. */
  ghost predicate Serves(s: Runtime, row: Instance, p: Plan, env: Env, reusable: set<Key>) {
    if p.key in reusable then
      (p.key in s.current || p.key in s.table) && row == NewInstance(p, Holder(s, p.key).pid)
    else
      env.started(p.key).Some? && row == NewInstance(p, env.started(p.key).value)
  }

  /** The plan has its row, the instance in memory agrees with it, and it is alive. */
  ghost predicate Served(s: Runtime, after: Runtime, p: Plan, env: Env, reusable: set<Key>) {
    && p.key in after.table && Serves(s, after.table[p.key], p, env, reusable)
    && after.table[p.key].pid in after.processes
    && (p.key in after.current ==> after.current[p.key] == after.table[p.key])
  }

  lemma {:induction false} RunServes(s: Runtime, plans: seq<Plan>, reusable: set<Key>, env: Env, p: Plan)
    requires Ready(s, plans, reusable, env) && AllSucceed(env, plans, reusable) && p in plans
    ensures Served(s, AllRan(s, plans, reusable, env), p, env, reusable)
  {
    var init, last := plans[..|plans| - 1], plans[|plans| - 1];
    LastPlan(plans);
    ReadyInit(s, plans, reusable, env);
    assert AllSucceed(env, init, reusable);
    LivesOrStarts(s, init, reusable, env);
    if p == last {
      Untouched(s, init, reusable, env, p.key);
      assert Succeeds(env, p.key, reusable);
    } else {
      RunServes(s, init, reusable, env, p);
      assert p.key in PlanKeys(init);
    }
  }

  lemma {:induction false} RunRows(s: Runtime, plans: seq<Plan>, reusable: set<Key>, env: Env)
    requires s.table.Keys <= reusable
    ensures AllRan(s, plans, reusable, env).table.Keys <= reusable + PlanKeys(plans)
  {
    if plans != [] {
      assert plans == plans[..|plans| - 1] + [plans[|plans| - 1]];
      assert plans[|plans| - 1].key in PlanKeys(plans);
      RunRows(s, plans[..|plans| - 1], reusable, env);
    }
  }

  lemma ReusablePlanned(s: Runtime, plans: seq<Plan>, env: Env)
    ensures ReusableKeys(s, plans, env) <= PlanKeys(plans)
  {
  }

  lemma ServedSince(s: Runtime, t: Runtime, after: Runtime, p: Plan, env: Env, reusable: set<Key>)
    requires Served(t, after, p, env, reusable)
    requires p.key in reusable && (p.key in t.table || p.key in t.current) ==>
      (p.key in s.table || p.key in s.current) && Holder(t, p.key) == Holder(s, p.key)
    ensures Served(s, after, p, env, reusable)
  {
  }

  lemma ServedRows(s: Runtime, after: Runtime, plans: seq<Plan>, env: Env, reusable: set<Key>)
    requires forall p :: p in plans ==> Served(s, after, p, env, reusable)
    ensures PlanKeys(plans) <= after.table.Keys
  {
  }

  lemma ReconciledRows(s: Runtime, plans: seq<Plan>, env: Env)
    requires Paired(s) && HonestPids(env, s) && DistinctPlans(plans) && AllStop(s, plans, env)
    ensures Paired(Reconciled(s, plans, env)) && Reconciled(s, plans, env).table.Keys <= PlanKeys(plans)
  {
    hide Paired, HonestPids, DistinctPlans, AllStop, ReusableKeys;
    var t, reusable := StoppedFor(s, plans, env), ReusableKeys(s, plans, env);
    ReadyAfterStop(s, plans, env);
    RunKeeps(t, plans, reusable, env);
    RunRows(t, plans, reusable, env);
    ReusablePlanned(s, plans, env);
  }

  lemma ReconciledServesPlan(s: Runtime, plans: seq<Plan>, env: Env, p: Plan)
    requires Paired(s) && HonestPids(env, s) && DistinctPlans(plans) && p in plans
    requires AllStop(s, plans, env) && AllSucceed(env, plans, ReusableKeys(s, plans, env))
    ensures Served(s, Reconciled(s, plans, env), p, env, ReusableKeys(s, plans, env))
  {
    hide Paired, HonestPids, DistinctPlans, AllStop, ReusableKeys, AllSucceed, Served, Holder;
    var t, reusable := StoppedFor(s, plans, env), ReusableKeys(s, plans, env);
    ReadyAfterStop(s, plans, env);
    RunServes(t, plans, reusable, env, p);
    StoppedAt(s, plans, env, p.key);
    ServedSince(s, t, Reconciled(s, plans, env), p, env, reusable);
  }

  /** After a successful reconciliation the rows are those of the plans: settings and
      entries are the plan's, reused instances keep their process, and all are alive. */
  lemma ReconciledServes(s: Runtime, plans: seq<Plan>, env: Env)
    requires Paired(s) && HonestPids(env, s) && DistinctPlans(plans)
    requires AllStop(s, plans, env) && AllSucceed(env, plans, ReusableKeys(s, plans, env))
    ensures
      var after, reusable := Reconciled(s, plans, env), ReusableKeys(s, plans, env);
      && Paired(after) && after.table.Keys == PlanKeys(plans)
      && forall p :: p in plans ==> Served(s, after, p, env, reusable)
  {
    var after, reusable := Reconciled(s, plans, env), ReusableKeys(s, plans, env);
    hide Reconciled, Paired, HonestPids, AllStop, AllSucceed, DistinctPlans, ReusableKeys, Served, PlanKeys;
    ReconciledRows(s, plans, env);
    forall p | p in plans
      ensures Served(s, after, p, env, reusable)
    {
      ReconciledServesPlan(s, plans, env, p);
    }
    ServedRows(s, after, plans, env, reusable);
  }

  // ----- instances without a row -----

  ghost predicate AllRecorded(s: Runtime) {
    forall key :: !Unrecorded(s, key)
  }

  /** Every unrecorded instance is planned, and it is reusable or dead. */
  ghost predicate UnrecordedFit(s: Runtime, plans: seq<Plan>, env: Env) {
    forall key :: Unrecorded(s, key) ==>
      key in PlanKeys(plans) && (key in ReusableKeys(s, plans, env) || s.current[key].pid !in s.processes)
  }

  /** The instance of an unplanned key survives exactly if it is unrecorded. */
  lemma LeftInMemory(s: Runtime, plans: seq<Plan>, env: Env, key: Key)
    requires AllStop(s, plans, env) && key !in PlanKeys(plans)
    ensures
      var after := Reconciled(s, plans, env);
      && (key in after.current <==> Unrecorded(s, key))
      && (key in after.current ==> after.current[key] == s.current[key])
  {
    StoppedAt(s, plans, env, key);
    ReusablePlanned(s, plans, env);
    Untouched(StoppedFor(s, plans, env), plans, ReusableKeys(s, plans, env), env, key);
  }

  lemma ServedPid(s: Runtime, plans: seq<Plan>, env: Env, key: Key)
    requires Paired(s) && HonestPids(env, s) && DistinctPlans(plans)
    requires AllStop(s, plans, env) && AllSucceed(env, plans, ReusableKeys(s, plans, env))
    requires key in PlanKeys(plans)
    ensures
      var after := Reconciled(s, plans, env);
      && key in after.table && after.table[key].pid in after.processes
      && (key in after.current ==> after.current[key] == after.table[key])
      && if key in ReusableKeys(s, plans, env) then
           (key in s.current || key in s.table) && after.table[key].pid == Holder(s, key).pid
         else
           env.started(key) == Some(after.table[key].pid)
  {
    ReconciledServes(s, plans, env);
    var p :| p in plans && p.key == key;
    assert Served(s, Reconciled(s, plans, env), p, env, ReusableKeys(s, plans, env));
  }

  /** The instance of a key as it was known before: in memory, or else in the table. */
  ghost predicate IsKnownInstance(s: Runtime, key: Key, instance: Instance) {
    if key in s.current then instance == s.current[key] else key in s.table && instance == s.table[key]
  }

  /** After a success a plan keeps the process of its key's instance if that has the plan's
      settings and configuration, its interface is up, and it is alive; else it has a new one. */
  lemma KeepsProcessIff(s: Runtime, plans: seq<Plan>, env: Env, p: Plan)
    requires Paired(s) && HonestPids(env, s) && DistinctPlans(plans) && p in plans
    requires AllStop(s, plans, env) && AllSucceed(env, plans, ReusableKeys(s, plans, env))
    ensures
      var after := Reconciled(s, plans, env);
      && p.key in after.table
      && (env.sameConfig(p.key) && env.interfaceUp(p.key) ==>
            forall instance :: IsKnownInstance(s, p.key, instance) ==>
              instance.settings == p.settings && instance.pid > 0 && env.alive(instance.pid) ==>
                after.table[p.key].pid == instance.pid)
      && ((!env.sameConfig(p.key) || !env.interfaceUp(p.key)
           || forall instance :: IsKnownInstance(s, p.key, instance) ==>
                instance.settings != p.settings || instance.pid == 0 || !env.alive(instance.pid)) ==>
          env.started(p.key) == Some(after.table[p.key].pid))
  {
    hide Reconciled, HonestPids, AllStop, AllSucceed, DistinctPlans, Paired;
    ServedPid(s, plans, env, p.key);
    DistinctPlansKeys(plans);
    if p.key in ReusableKeys(s, plans, env) {
      var q :| q in plans && Reusable(s, q, env) && q.key == p.key;
      assert q == p && IsKnownInstance(s, p.key, Holder(s, p.key));
    } else {
      assert !Reusable(s, p, env);
      assert forall instance :: IsKnownInstance(s, p.key, instance) ==> instance == Holder(s, p.key);
    }
  }

  /** A reconciliation succeeds exactly if the rows load, every instance that is not kept can
      be torn down and its row deleted, every kept one can be routed anew and saved, every
      other plan can be started, saved and routed, and the files can be tidied up. */
  lemma SucceedsIff(phase: Phase, ok: bool, before: Runtime, after: Runtime, plans: seq<Plan>, env: Env)
    requires ReconciledIn(phase, ok, before, after, plans, env)
    ensures
      var kept := ReusableKeys(before, plans, env);
      ok <==>
        && env.loads && env.pruned
        && (forall key :: key in before.table && key !in kept ==> env.routeRemoved(key) && env.rowDeleted(key))
        && (forall p :: p in plans && p.key in kept ==>
              && env.listWritten(p.key) && env.interfaceAppears(p.key) && env.saved(p.key)
              && (env.routeSynced(p.key) || env.routeAdded(p.key)))
        && forall p :: p in plans && p.key !in kept ==>
             && env.started(p.key).Some? && env.saved(p.key) && env.interfaceAppears(p.key)
             && env.routeAdded(p.key) && env.savedAgain(p.key)
  {
    hide ReusableKeys, Reconciled, Cleaned, Stopped;
    match phase
    case Starting =>
      var p :| p in plans && !Succeeds(env, p.key, ReusableKeys(before, plans, env));
    case Stopping(stopped) =>
      var key :| key in stopped && !StopSucceeds(env, key);
      assert key in before.table && key !in ReusableKeys(before, plans, env);
    case Loading =>
    case Finished =>
      var kept := ReusableKeys(before, plans, env);
      forall key | key in before.table && key !in kept
        ensures env.routeRemoved(key) && env.rowDeleted(key)
      {
        assert key in before.table.Keys - kept;
      }
      forall p | p in plans
        ensures Succeeds(env, p.key, kept)
      {
      }
  }

  /** An unrecorded live instance that is not reused is alive afterwards without a row. */
  lemma OrphanStays(s: Runtime, plans: seq<Plan>, env: Env, key: Key)
    requires Paired(s) && HonestPids(env, s) && DistinctPlans(plans)
    requires AllStop(s, plans, env) && AllSucceed(env, plans, ReusableKeys(s, plans, env))
    requires Unrecorded(s, key) && key !in ReusableKeys(s, plans, env) && s.current[key].pid in s.processes
    ensures s.current[key].pid in Reconciled(s, plans, env).processes
    ensures !HasPid(Reconciled(s, plans, env).table, s.current[key].pid)
  {
    var after, lost := Reconciled(s, plans, env), s.current[key].pid;
    StoppedSpares(s, plans, env, key);
    LivesOrStarts(StoppedFor(s, plans, env), plans, ReusableKeys(s, plans, env), env);
    ReconciledServes(s, plans, env);
    assert All(s)[key].pid == lost;
    forall k | k in after.table
      ensures after.table[k].pid != lost
    {
      ServedPid(s, plans, env, k);
      if k in ReusableKeys(s, plans, env) {
        PidOf(s, k);
        assert k in All(s) && key in All(s) && k != key;
      }
    }
  }

  /** A process that survives belongs to a plan's row, if every unrecorded instance fits. */
  lemma SurvivorHasRow(s: Runtime, plans: seq<Plan>, env: Env, pid: Pid)
    requires Known(s) && HonestPids(env, s) && DistinctPlans(plans)
    requires AllStop(s, plans, env) && AllSucceed(env, plans, ReusableKeys(s, plans, env))
    requires UnrecordedFit(s, plans, env) && pid in Reconciled(s, plans, env).processes
    ensures HasPid(Reconciled(s, plans, env).table, pid)
  {
    var t, after, reusable := StoppedFor(s, plans, env), Reconciled(s, plans, env), ReusableKeys(s, plans, env);
    LivesOrStarts(t, plans, reusable, env);
    ReusablePlanned(s, plans, env);
    if pid in t.processes {
      var key :| key in All(s) && All(s)[key].pid == pid;
      PidOf(s, key);
      assert key in s.table.Keys - reusable ==> pid in PidsOf(s, s.table.Keys - reusable);
      assert !(Unrecorded(s, key) && key !in reusable);
      assert key in reusable;
      ServedPid(s, plans, env, key);
    } else {
      var p :| p in plans && p.key !in reusable && env.started(p.key) == Some(pid);
      ServedPid(s, plans, env, p.key);
    }
  }

  /** A process that belongs to nothing stays so. */
  lemma StrangerStays(s: Runtime, plans: seq<Plan>, env: Env, pid: Pid)
    requires Paired(s) && HonestPids(env, s) && DistinctPlans(plans)
    requires AllStop(s, plans, env) && AllSucceed(env, plans, ReusableKeys(s, plans, env))
    requires pid in s.processes && !HasPid(All(s), pid)
    ensures pid in Reconciled(s, plans, env).processes && !HasPid(Reconciled(s, plans, env).table, pid)
  {
    var after := Reconciled(s, plans, env);
    forall key | key in s.current || key in s.table
      ensures Holder(s, key).pid != pid
    {
      PidOf(s, key);
      assert key in All(s);
    }
    LivesOrStarts(StoppedFor(s, plans, env), plans, ReusableKeys(s, plans, env), env);
    ReconciledServes(s, plans, env);
    forall k | k in after.table
      ensures after.table[k].pid != pid
    {
      ServedPid(s, plans, env, k);
    }
  }

  /** A successful reconciliation leaves every process and instance with its row exactly if
      every live process was known, and every instance that was unrecorded is planned, and
      reusable or dead. */
  lemma ReconciledTrackedIff(s: Runtime, plans: seq<Plan>, env: Env)
    requires Paired(s) && HonestPids(env, s) && DistinctPlans(plans)
    requires AllStop(s, plans, env) && AllSucceed(env, plans, ReusableKeys(s, plans, env))
    ensures Tracked(Reconciled(s, plans, env)) <==> Known(s) && UnrecordedFit(s, plans, env)
  {
    hide Reconciled, HonestPids, AllStop, AllSucceed, DistinctPlans, Paired, Holder, ReusableKeys, Served;
    var after := Reconciled(s, plans, env);
    ReconciledServes(s, plans, env);
    if !Known(s) {
      var pid :| pid in s.processes && !HasPid(All(s), pid);
      StrangerStays(s, plans, env, pid);
    } else if UnrecordedFit(s, plans, env) {
      forall key | key in after.current
        ensures key in after.table && after.current[key] == after.table[key]
      {
        if key !in PlanKeys(plans) {
          LeftInMemory(s, plans, env, key);
        } else {
          ServedPid(s, plans, env, key);
        }
      }
      forall pid | pid in after.processes
        ensures HasPid(after.table, pid)
      {
        SurvivorHasRow(s, plans, env, pid);
      }
    } else {
      var key :| Unrecorded(s, key) && !(key in PlanKeys(plans)
        && (key in ReusableKeys(s, plans, env) || s.current[key].pid !in s.processes));
      if key !in PlanKeys(plans) {
        LeftInMemory(s, plans, env, key);
      } else {
        OrphanStays(s, plans, env, key);
      }
    }
  }

  // ----- tables and marks -----

  ghost predicate ApartFrom(a: Instance, b: Instance) {
    a.settings.table != b.settings.table && a.settings.mark != b.settings.mark
  }

  ghost predicate SettingsDistinct(instances: Instances) {
    forall k, l :: k in instances && l in instances && k != l ==> ApartFrom(instances[k], instances[l])
  }

  ghost predicate Planned(plans: seq<Plan>, key: Key, settings: Settings) {
    exists p :: p in plans && p.key == key && p.settings == settings
  }

  /** Every row has the settings of its plan. */
  ghost predicate AllPlanned(instances: Instances, plans: seq<Plan>) {
    forall key :: key in instances ==> Planned(plans, key, instances[key].settings)
  }

  lemma PlannedApart(plans: seq<Plan>, k: Key, a: Instance, l: Key, b: Instance)
    requires DistinctPlans(plans) && k != l && Planned(plans, k, a.settings) && Planned(plans, l, b.settings)
    ensures ApartFrom(a, b)
  {
    var p :| p in plans && p.key == k && p.settings == a.settings;
    var q :| q in plans && q.key == l && q.settings == b.settings;
    var i :| 0 <= i < |plans| && plans[i] == p;
    var j :| 0 <= j < |plans| && plans[j] == q;
    assert if i < j then Apart(plans[i], plans[j]) else Apart(plans[j], plans[i]);
  }

  /** Instances with their plans' settings never share a routing table or a mark. */
  lemma PlannedAreDistinct(instances: Instances, plans: seq<Plan>)
    requires AllPlanned(instances, plans) && DistinctPlans(plans)
    ensures SettingsDistinct(instances)
  {
    forall k, l | k in instances && l in instances && k != l
      ensures ApartFrom(instances[k], instances[l])
    {
      PlannedApart(plans, k, instances[k], l, instances[l]);
    }
  }

  /** At every moment after the others are stopped, each row has its plan's settings. */
  lemma {:induction false} RowsStayPlanned(s: Runtime, plans: seq<Plan>, reusable: set<Key>, env: Env, all: seq<Plan>)
    requires forall p :: p in plans ==> p in all
    ensures AllPlanned(s.table, all) ==> AllPlanned(AllRan(s, plans, reusable, env).table, all)
    ensures AllPlanned(s.current, all) ==> AllPlanned(AllRan(s, plans, reusable, env).current, all)
  {
    if plans != [] {
      var init, last := plans[..|plans| - 1], plans[|plans| - 1];
      assert plans == init + [last];
      RowsStayPlanned(s, init, reusable, env, all);
      assert last in all && Planned(all, last.key, last.settings);
    }
  }

  lemma ReusedArePlanned(s: Runtime, plans: seq<Plan>, env: Env)
    requires AllStop(s, plans, env) && Paired(s)
    ensures AllPlanned(StoppedFor(s, plans, env).table, plans)
    ensures AllRecorded(s) ==> AllPlanned(StoppedFor(s, plans, env).current, plans)
  {
    var t := StoppedFor(s, plans, env);
    forall key | key in t.table || (key in t.current && !Unrecorded(s, key))
      ensures key in t.table ==> Planned(plans, key, t.table[key].settings)
      ensures key in t.current ==> Planned(plans, key, t.current[key].settings)
    {
      StoppedAt(s, plans, env, key);
      var p :| p in plans && Reusable(s, p, env) && p.key == key;
      assert key in s.current && key in s.table ==> SameInstance(s.current[key], s.table[key]);
    }
  }

  lemma RunningPlanned(s: Runtime, plans: seq<Plan>, env: Env, i: nat)
    requires Paired(s) && AllStop(s, plans, env) && i <= |plans|
    ensures
      var now := AllRan(StoppedFor(s, plans, env), plans[..i], ReusableKeys(s, plans, env), env);
      AllPlanned(now.table, plans) && (AllRecorded(s) ==> AllPlanned(now.current, plans))
  {
    ReusedArePlanned(s, plans, env);
    RowsStayPlanned(StoppedFor(s, plans, env), plans[..i], ReusableKeys(s, plans, env), env, plans);
  }

  /** At every moment from the stop of the others to the end the rows share no table and no
      mark, nor do rows and memory together if everything was recorded. */
  lemma RunningDistinct(s: Runtime, plans: seq<Plan>, env: Env, i: nat)
    requires Paired(s) && AllStop(s, plans, env) && DistinctPlans(plans) && i <= |plans|
    ensures
      var now := AllRan(StoppedFor(s, plans, env), plans[..i], ReusableKeys(s, plans, env), env);
      SettingsDistinct(now.table) && (AllRecorded(s) ==> SettingsDistinct(All(now)))
  {
    hide DistinctPlans, Paired, AllStop;
    var now := AllRan(StoppedFor(s, plans, env), plans[..i], ReusableKeys(s, plans, env), env);
    RunningPlanned(s, plans, env, i);
    PlannedAreDistinct(now.table, plans);
    if AllRecorded(s) {
      PlannedAreDistinct(All(now), plans);
    }
  }

  lemma ReconciledPlanned(s: Runtime, plans: seq<Plan>, env: Env)
    requires Paired(s) && AllStop(s, plans, env)
    ensures AllPlanned(Reconciled(s, plans, env).table, plans)
    ensures AllRecorded(s) ==> AllPlanned(Reconciled(s, plans, env).current, plans)
  {
    RunningPlanned(s, plans, env, |plans|);
    assert plans[..|plans|] == plans;
  }

  /** The unplanned instances without a row share no table or mark with a plan or with each
      other. */
  ghost predicate LeftoversApart(s: Runtime, plans: seq<Plan>) {
    && (forall k, l :: Leftover(s, plans, k) && Leftover(s, plans, l) && k != l ==>
          ApartFrom(s.current[k], s.current[l]))
    && forall k, p :: Leftover(s, plans, k) && p in plans ==>
         s.current[k].settings.table != p.settings.table && s.current[k].settings.mark != p.settings.mark
  }

  ghost predicate Leftover(s: Runtime, plans: seq<Plan>, key: Key) {
    Unrecorded(s, key) && key !in PlanKeys(plans)
  }

  /** Who is there after a successful reconciliation: the plans and the leftovers. */
  ghost predicate IsAll(s: Runtime, plans: seq<Plan>, all: Instances, key: Key) {
    && (key in all <==> key in PlanKeys(plans) || Leftover(s, plans, key))
    && (Leftover(s, plans, key) ==> all[key] == s.current[key])
    && (key in PlanKeys(plans) ==> Planned(plans, key, all[key].settings))
  }

  lemma ReconciledAll(s: Runtime, plans: seq<Plan>, env: Env, key: Key)
    requires Paired(s) && HonestPids(env, s) && DistinctPlans(plans)
    requires AllStop(s, plans, env) && AllSucceed(env, plans, ReusableKeys(s, plans, env))
    ensures IsAll(s, plans, All(Reconciled(s, plans, env)), key)
  {
    ReconciledServes(s, plans, env);
    if key in PlanKeys(plans) {
      ServedPid(s, plans, env, key);
      ReconciledPlanned(s, plans, env);
    } else {
      LeftInMemory(s, plans, env, key);
    }
  }

  lemma DistinctIffLeftovers(s: Runtime, plans: seq<Plan>, all: Instances)
    requires DistinctPlans(plans) && forall key :: IsAll(s, plans, all, key)
    ensures SettingsDistinct(all) <==> LeftoversApart(s, plans)
  {
    if LeftoversApart(s, plans) {
      forall k, l | k in all && l in all && k != l
        ensures ApartFrom(all[k], all[l])
      {
        assert IsAll(s, plans, all, k) && IsAll(s, plans, all, l);
        if k in PlanKeys(plans) && l in PlanKeys(plans) {
          PlannedApart(plans, k, all[k], l, all[l]);
        }
      }
    }
    if SettingsDistinct(all) {
      forall k, p | Leftover(s, plans, k) && p in plans
        ensures s.current[k].settings.table != p.settings.table && s.current[k].settings.mark != p.settings.mark
      {
        assert IsAll(s, plans, all, k) && IsAll(s, plans, all, p.key);
        DistinctPlansKeys(plans);
        assert ApartFrom(all[k], all[p.key]);
      }
      assert forall k :: Leftover(s, plans, k) ==> IsAll(s, plans, all, k);
    }
  }

  /** After a successful reconciliation rows and memory together share no table and no mark
      exactly if the leftovers keep apart. */
  lemma ReconciledDistinctIff(s: Runtime, plans: seq<Plan>, env: Env)
    requires Paired(s) && HonestPids(env, s) && DistinctPlans(plans)
    requires AllStop(s, plans, env) && AllSucceed(env, plans, ReusableKeys(s, plans, env))
    ensures SettingsDistinct(All(Reconciled(s, plans, env))) <==> LeftoversApart(s, plans)
  {
    var all := All(Reconciled(s, plans, env));
    forall key
      ensures IsAll(s, plans, all, key)
    {
      ReconciledAll(s, plans, env, key);
    }
    DistinctIffLeftovers(s, plans, all);
  }

  // ----- every phase -----

  lemma FewerAreTracked(s: Runtime, keys: set<Key>, env: Env)
    requires Tracked(s)
    ensures Tracked(Stopped(s, keys, env))
  {
    var t := Stopped(s, keys, env);
    StoppedIsPaired(s, keys, env);
    forall pid | pid in t.processes
      ensures HasPid(t.table, pid)
    {
      var key :| key in s.table && s.table[key].pid == pid;
      PidOf(s, key);
      assert All(s)[key] == s.table[key];
      assert key !in keys;
      assert t.table[key].pid == pid;
    }
  }

  /** However a reconciliation ends, no two keys share a process. */
  lemma StaysPaired(phase: Phase, ok: bool, before: Runtime, after: Runtime, plans: seq<Plan>, env: Env)
    requires ReconciledIn(phase, ok, before, after, plans, env)
    requires Paired(before) && HonestPids(env, before) && DistinctPlans(plans)
    ensures Paired(after)
  {
    match phase
    case Loading =>
    case Stopping(stopped) => StoppedIsPaired(before, stopped, env);
    case _ =>
      ReadyAfterStop(before, plans, env);
      RunKeeps(StoppedFor(before, plans, env), plans, ReusableKeys(before, plans, env), env);
      CleanedIsPaired(Reconciled(before, plans, env), env);
  }

  /** If every process and instance had its row, it has so however a reconciliation ends,
      unless a failed start cannot load the rows to clean up. */
  lemma StaysTracked(phase: Phase, ok: bool, before: Runtime, after: Runtime, plans: seq<Plan>, env: Env)
    requires ReconciledIn(phase, ok, before, after, plans, env)
    requires Tracked(before) && HonestPids(env, before) && DistinctPlans(plans)
    requires phase.Starting? ==> env.cleanupLoads
    ensures Tracked(after)
  {
    match phase
    case Loading =>
    case Stopping(stopped) => FewerAreTracked(before, stopped, env);
    case Starting =>
      TrackedIsKnown(before);
      FailureKillsAllIff(before, plans, env);
      assert AllRecorded(before);
    case Finished =>
      TrackedIsKnown(before);
      ReconciledTrackedIff(before, plans, env);
  }

  lemma StoppedIsKnown(s: Runtime, plans: seq<Plan>, env: Env)
    requires Paired(s) && AllStop(s, plans, env)
    ensures Known(StoppedFor(s, plans, env)) <==> Known(s)
  {
    var t, gone := StoppedFor(s, plans, env), s.table.Keys - ReusableKeys(s, plans, env);
    StoppedIsPaired(s, gone, env);
    FewerArePaired(s, t);
    if Known(s) {
      forall pid | pid in t.processes
        ensures HasPid(All(t), pid)
      {
        var key :| key in All(s) && All(s)[key].pid == pid;
        PidOf(s, key);
        StoppedAt(s, plans, env, key);
        assert key !in gone;
        assert All(t)[key].pid == pid;
      }
    }
    if Known(t) {
      forall pid | pid in s.processes
        ensures HasPid(All(s), pid)
      {
        if pid !in t.processes {
          var key :| key in gone && Holder(s, key).pid == pid;
          PidOf(s, key);
          assert key in All(s);
        }
      }
    }
  }

  /** A failed start or sync leaves nothing alive exactly if the rows can be loaded, every
      live process was known, and none was orphaned before the failure. */
  lemma FailureKillsAllIff(s: Runtime, plans: seq<Plan>, env: Env)
    requires Paired(s) && HonestPids(env, s) && DistinctPlans(plans) && AllStop(s, plans, env) && env.cleanupLoads
    ensures
      var after := Cleaned(Reconciled(s, plans, env), env);
      && after.current == map[] && (env.cleared ==> after.table == map[])
      && (after.processes == {} <==>
           Known(s) && NothingOrphaned(StoppedFor(s, plans, env), plans, ReusableKeys(s, plans, env), env))
    ensures AllRecorded(s) && Known(s) ==> Tracked(Cleaned(Reconciled(s, plans, env), env))
  {
    var t, reusable, ran := StoppedFor(s, plans, env), ReusableKeys(s, plans, env), Reconciled(s, plans, env);
    ReadyAfterStop(s, plans, env);
    RunKeeps(t, plans, reusable, env);
    StoppedIsKnown(s, plans, env);
    CleanedEmptyIff(ran, env);
    if AllRecorded(s) {
      forall i | 0 <= i < |plans|
        ensures SparesAt(t, plans[i], reusable, env)
      {
        StoppedAt(s, plans, env, plans[i].key);
        assert !Unrecorded(s, plans[i].key);
      }
      if Known(s) {
        CleanedKillsKnown(ran, env);
      }
    }
  }

  lemma CleanedEmptyIff(s: Runtime, env: Env)
    requires Paired(s) && env.cleanupLoads
    ensures Cleaned(s, env).processes == {} <==> Known(s)
  {
    if Known(s) {
      CleanedKillsKnown(s, env);
    } else {
      var pid :| pid in s.processes && !HasPid(All(s), pid);
      forall key | key in s.table || key in s.current
        ensures Holder(s, key).pid != pid
      {
        PidOf(s, key);
        assert key in All(s);
      }
      assert pid in Cleaned(s, env).processes;
    }
  }

  lemma FewerAreDistinct(s: Runtime, keys: set<Key>, env: Env)
    requires Paired(s) && SettingsDistinct(All(s))
    ensures SettingsDistinct(All(Stopped(s, keys, env)))
  {
    var t := Stopped(s, keys, env);
    forall k | k in All(t)
      ensures k in All(s) && All(t)[k].settings == All(s)[k].settings
    {
    }
    forall k, l | k in All(t) && l in All(t) && k != l
      ensures ApartFrom(All(t)[k], All(t)[l])
    {
      assert ApartFrom(All(s)[k], All(s)[l]);
    }
  }

  lemma CleanedStaysDistinct(s: Runtime, env: Env)
    requires SettingsDistinct(All(s)) && Paired(s)
    ensures SettingsDistinct(All(Cleaned(s, env)))
  {
    hide PidsOf, OwnPids;
    forall key | key in All(Cleaned(s, env))
      ensures key in All(s) && All(Cleaned(s, env))[key].settings == All(s)[key].settings
    {
    }
  }

  lemma BothPlanned(s: Runtime, plans: seq<Plan>)
    requires AllPlanned(s.table, plans) && AllPlanned(s.current, plans) && DistinctPlans(plans)
    ensures SettingsDistinct(All(s))
  {
    PlannedAreDistinct(All(s), plans);
  }

  /** Without unrecorded instances no two ever come to share a table or a mark, however a
      reconciliation ends. */
  lemma StaysDistinct(phase: Phase, ok: bool, before: Runtime, after: Runtime, plans: seq<Plan>, env: Env)
    requires ReconciledIn(phase, ok, before, after, plans, env)
    requires Paired(before) && DistinctPlans(plans) && SettingsDistinct(All(before))
    requires AllRecorded(before)
    ensures SettingsDistinct(All(after))
  {
    match phase
    case Loading =>
    case Stopping(stopped) => FewerAreDistinct(before, stopped, env);
    case _ =>
      ReconciledPlanned(before, plans, env);
      BothPlanned(after, plans);
  }

  // ----- a process ends by itself -----

  /** Only the instance in memory that still owns the process is forgotten. */
  ghost function Ended(s: Runtime, key: Key, pid: Pid, rowDeleted: bool): Runtime {
    if key !in s.current || (s.current[key].pid != 0 && s.current[key].pid != pid) then
      s.(processes := s.processes - {pid})
    else Runtime(if rowDeleted then s.table - {key} else s.table, s.current - {key}, s.processes - {pid})
  }

  /** The end of a process loses no other one from memory and table. */
  lemma EndedKeepsPid(s: Runtime, key: Key, pid: Pid, rowDeleted: bool, other: Pid)
    requires Paired(s) && other in s.processes && other != pid
    ensures HasPid(All(s), other) ==> HasPid(All(Ended(s, key, pid, rowDeleted)), other)
    ensures HasPid(s.table, other) ==> HasPid(Ended(s, key, pid, rowDeleted).table, other)
  {
    hide OwnPids;
    var t := Ended(s, key, pid, rowDeleted);
    if k :| k in All(s) && All(s)[k].pid == other {
      PidOf(s, k);
      assert k in All(t) && All(t)[k].pid == other;
    }
    if k :| k in s.table && s.table[k].pid == other {
      PidOf(s, k);
      assert k in t.table && t.table[k].pid == other;
    }
  }

  lemma EndedIsPaired(s: Runtime, key: Key, pid: Pid, rowDeleted: bool)
    requires Paired(s)
    ensures Paired(Ended(s, key, pid, rowDeleted))
  {
    FewerArePaired(s, Ended(s, key, pid, rowDeleted));
  }

  /** The end of a process touches no instance with another one: it comes late if its instance
      has been replaced, and then spares the successor. */
  ghost predicate SparesOthers(s: Runtime, after: Runtime, pid: Pid) {
    && after.processes == s.processes - {pid}
    && (forall key :: key in s.current && s.current[key].pid !in {0, pid} ==>
          key in after.current && after.current[key] == s.current[key])
    && forall key :: key in s.table && s.table[key].pid !in {0, pid} ==>
         key in after.table && after.table[key] == s.table[key]
  }

  /** The end of a process keeps what every reconciliation keeps. */
  lemma EndedKeeps(s: Runtime, key: Key, pid: Pid, rowDeleted: bool)
    requires Paired(s)
    ensures Paired(Ended(s, key, pid, rowDeleted))
    ensures Known(s) ==> Known(Ended(s, key, pid, rowDeleted))
    ensures Tracked(s) ==> Tracked(Ended(s, key, pid, rowDeleted))
    ensures SparesOthers(s, Ended(s, key, pid, rowDeleted), pid)
  {
    assert SparesOthers(s, Ended(s, key, pid, rowDeleted), pid);
    hide Paired, All, HasPid;
    var t := Ended(s, key, pid, rowDeleted);
    assert t.processes == s.processes - {pid};
    EndedIsPaired(s, key, pid, rowDeleted);
    if Tracked(s) {
      forall k | k in t.current
        ensures k in t.table && t.current[k] == t.table[k]
      {
      }
    }
    hide Ended;
    forall other | other in t.processes
      ensures HasPid(All(s), other) ==> HasPid(All(t), other)
      ensures HasPid(s.table, other) ==> HasPid(t.table, other)
    {
      EndedKeepsPid(s, key, pid, rowDeleted, other);
    }
  }

  // ----- the program starts anew -----

  /** The rows stay, the memory is empty, and some of the processes live on. */
  ghost function Reopened(s: Runtime, live: set<Pid>): Runtime {
    Runtime(s.table, map[], live)
  }

  /** A new start forgets exactly the live processes that are recorded in memory only. */
  lemma ReopenedKnownIff(s: Runtime, live: set<Pid>)
    requires Known(s) && live <= s.processes
    ensures Known(Reopened(s, live)) <==> forall key :: Unrecorded(s, key) ==> s.current[key].pid !in live
  {
    var t := Reopened(s, live);
    FewerArePaired(s, t);
    forall key | Unrecorded(s, key)
      ensures !HasPid(All(t), s.current[key].pid) || s.current[key].pid !in live
    {
      assert All(s)[key] == s.current[key];
      forall other | other in s.table
        ensures s.table[other].pid != s.current[key].pid || s.table[other].pid == 0
      {
        PidOf(s, other);
        assert other in All(s) && other != key;
      }
    }
    if forall key :: Unrecorded(s, key) ==> s.current[key].pid !in live {
      forall pid | pid in live
        ensures HasPid(All(t), pid)
      {
        var key :| key in All(s) && All(s)[key].pid == pid;
        PidOf(s, key);
        assert !Unrecorded(s, key);
        assert t.table[key].pid == pid;
      }
    }
  }

  // ----- whole runs -----

  datatype Step =
    | Reconciles(phase: Phase, ok: bool, plans: seq<Plan>, env: Env)
    | Cleans(env: Env)
    | Ends(key: Key, pid: Pid, rowDeleted: bool)
    | Reopens(live: set<Pid>)

  ghost predicate StepIn(step: Step, before: Runtime, after: Runtime) {
    match step
    case Reconciles(phase, ok, plans, env) =>
      DistinctPlans(plans) && HonestPids(env, before) && ReconciledIn(phase, ok, before, after, plans, env)
    case Cleans(env) => after == Cleaned(before, env)
    case Ends(key, pid, rowDeleted) => after == Ended(before, key, pid, rowDeleted)
    case Reopens(live) => live <= before.processes && after == Reopened(before, live)
  }

  /** A failed start whose cleanup cannot load the rows. */
  ghost predicate LosesRows(step: Step) {
    step.Reconciles? && step.phase.Starting? && !step.env.cleanupLoads
  }

  ghost predicate RunIn(steps: seq<Step>, states: seq<Runtime>) {
    && |states| == |steps| + 1 && states[0] == EMPTY
    && forall i :: 0 <= i < |steps| ==> StepIn(steps[i], states[i], states[i + 1])
  }

  lemma StepKeepsPaired(step: Step, before: Runtime, after: Runtime)
    requires StepIn(step, before, after) && Paired(before)
    ensures Paired(after)
  {
    match step
    case Reconciles(phase, ok, plans, env) => StaysPaired(phase, ok, before, after, plans, env);
    case Cleans(env) => CleanedIsPaired(before, env);
    case Ends(key, pid, rowDeleted) => EndedKeeps(before, key, pid, rowDeleted);
    case Reopens(live) => FewerArePaired(before, after);
  }

  lemma StepKeepsTracked(step: Step, before: Runtime, after: Runtime)
    requires StepIn(step, before, after) && Tracked(before) && !LosesRows(step)
    ensures Tracked(after)
  {
    match step
    case Reconciles(phase, ok, plans, env) => StaysTracked(phase, ok, before, after, plans, env);
    case Cleans(env) =>
      TrackedIsKnown(before);
      if env.cleanupLoads {
        CleanedKillsKnown(before, env);
      }
    case Ends(key, pid, rowDeleted) => EndedKeeps(before, key, pid, rowDeleted);
    case Reopens(live) => FewerArePaired(before, after);
  }

  lemma StepKeepsDistinct(step: Step, before: Runtime, after: Runtime)
    requires StepIn(step, before, after) && Tracked(before) && SettingsDistinct(All(before))
    ensures SettingsDistinct(All(after))
  {
    hide SettingsDistinct;
    match step
    case Reconciles(phase, ok, plans, env) =>
      assert AllRecorded(before);
      StaysDistinct(phase, ok, before, after, plans, env);
    case Cleans(env) => CleanedStaysDistinct(before, env);
    case Ends(key, pid, rowDeleted) => EndedStaysDistinct(before, key, pid, rowDeleted);
    case Reopens(live) => ReopenedStaysDistinct(before, live);
  }

  lemma ReopenedStaysDistinct(s: Runtime, live: set<Pid>)
    requires Paired(s) && SettingsDistinct(All(s))
    ensures SettingsDistinct(All(Reopened(s, live)))
  {
    hide OwnPids;
    var t := Reopened(s, live);
    forall k | k in All(t)
      ensures k in All(s) && All(t)[k].settings == All(s)[k].settings
    {
    }
  }

  lemma EndedStaysDistinct(s: Runtime, key: Key, pid: Pid, rowDeleted: bool)
    requires Paired(s) && SettingsDistinct(All(s))
    ensures SettingsDistinct(All(Ended(s, key, pid, rowDeleted)))
  {
    hide OwnPids;
    var t := Ended(s, key, pid, rowDeleted);
    forall k | k in All(t)
      ensures k in All(s) && All(t)[k].settings == All(s)[k].settings
    {
    }
  }

  /** In every run no two keys have one process. Until a failed start first cannot load the
      rows to clean up, every live process and every instance has its row, and no two
      instances share a table or a mark. */
  lemma {:induction false} RunsStayTracked(steps: seq<Step>, states: seq<Runtime>)
    requires RunIn(steps, states)
    ensures Paired(states[|steps|])
    ensures (forall step :: step in steps ==> !LosesRows(step)) ==>
      Tracked(states[|steps|]) && SettingsDistinct(All(states[|steps|]))
  {
    if steps != [] {
      var n := |steps| - 1;
      var before, after := states[n], states[n + 1];
      hide StepIn, LosesRows, Paired, Tracked, SettingsDistinct, All;
      RunsStayTracked(steps[..n], states[..n + 1]);
      assert StepIn(steps[n], before, after);
      StepKeepsPaired(steps[n], before, after);
      if forall step :: step in steps ==> !LosesRows(step) {
        StepKeepsTracked(steps[n], before, after);
        StepKeepsDistinct(steps[n], before, after);
      }
    }
  }

  // ----- a run that goes wrong -----

  /** Only `key` can be started, at process `pid`; rows are saved, and loaded to clean up,
      exactly if `stores`. */
  ghost function Responses(live: set<Pid>, key: Key, pid: Pid, stores: bool): Env {
    Env(true, k => true, k => true, p => p in live, k => true, k => true,
        k => if k == key then Some(pid) else None, k => stores, k => true, k => true,
        k => true, k => true, k => true, stores, k => true, true, true, true)
  }

  /** k1 is started, its row cannot be saved, and the rows cannot be loaded to clean up: it
      lives on in memory only. Then k2 is asked for instead, and everything answers well.
      Both run at index 0, so they share table and mark. */
  lemma SharedTableRun(k1: Key, k2: Key, base: Settings, hash1: string, hash2: string)
    requires k1 != k2 && 10 <= |hash1| && 10 <= |hash2|
    ensures
      var env1, env2 := Responses({}, k1, 1, false), Responses({1}, k2, 2, true);
      var first := [Plan(k1, [Domain("a.com")], Derive(base, hash1, 0))];
      var second := [Plan(k2, [Domain("b.com")], Derive(base, hash2, 0))];
      var one, two := Instance(Derive(base, hash1, 0), 1, 1), Instance(Derive(base, hash2, 0), 1, 2);
      var middle := Runtime(map[], map[k1 := one], {1});
      var last := Runtime(map[k2 := two], map[k1 := one, k2 := two], {1, 2});
      && HonestPids(env1, EMPTY) && ReconciledIn(Starting, false, EMPTY, middle, first, env1)
      && HonestPids(env2, middle) && ReconciledIn(Finished, true, middle, last, second, env2)
      && one.settings.table == two.settings.table && one.settings.mark == two.settings.mark
      && !UnrecordedFit(middle, second, env2) && !Tracked(last)
  {
    hide ReconciledIn, Wrap, IncrementMark, TrimTo;
    var env1, env2 := Responses({}, k1, 1, false), Responses({1}, k2, 2, true);
    var p1 := Plan(k1, [Domain("a.com")], Derive(base, hash1, 0));
    var p2 := Plan(k2, [Domain("b.com")], Derive(base, hash2, 0));
    var one, two := Instance(p1.settings, 1, 1), Instance(p2.settings, 1, 2);
    var middle := Runtime(map[], map[k1 := one], {1});
    var last := Runtime(map[k2 := two], map[k1 := one, k2 := two], {1, 2});
    OnePlanEnds(EMPTY, p1, env1);
    OnePlanEnds(middle, p2, env2);
    assert Started(EMPTY, p1, env1) == middle;
    assert Started(middle, p2, env2) == last;
    assert Unrecorded(middle, k1) && k1 !in PlanKeys([p2]);
    assert !HasPid(last.table, 1);
  }

  lemma OnePlanEnds(s: Runtime, p: Plan, env: Env)
    requires s.table == map[] && p.key !in s.current && env.loads
    ensures StartSucceeds(env, p.key) ==> ReconciledIn(Finished, env.pruned, s, Started(s, p, env), [p], env)
    ensures !StartSucceeds(env, p.key) && !env.cleanupLoads ==>
      ReconciledIn(Starting, false, s, Started(s, p, env), [p], env)
  {
    hide AllSucceed, Started, StartSucceeds, Reconciled, ReusableKeys, StoppedFor;
    OnePlanRuns(s, p, env);
  }

  lemma OnePlanRuns(s: Runtime, p: Plan, env: Env)
    requires s.table == map[] && p.key !in s.current
    ensures ReusableKeys(s, [p], env) == {} && StoppedFor(s, [p], env) == s
    ensures Reconciled(s, [p], env) == Started(s, p, env)
    ensures AllSucceed(env, [p], {}) <==> StartSucceeds(env, p.key)
  {
    assert [p][..0] == [];
    assert StoppedFor(s, [p], env) == Stopped(s, {}, env);
    NothingStopped(s, env);
    NothingRan(s, {}, env);
    RunOneMore(s, [p], 0, {}, env);
    assert [p][..1] == [p];
  }
}
