# Routing control plane

A model of the router's control plane with proofs of what it keeps: which provider and
location each routing rule uses, how that choice follows probe results over time, how a
configuration is checked and applied, how subscription processes are reconciled with it,
and how the traffic they carry is accounted.

The hosts a rule names are covered by entries: dotted names, which also cover every name
below them, and IPv4 prefixes. Names are already normalised and locations are opaque.
Time is a natural number of seconds with days of 24 hours; 0 is the unset time. Answers of
probes, the clock, the store, processes and the routing script are parameters (records
such as `World`, `PriorityWorld`, `ApplyEnv` and `Env`), so each statement holds whatever
they answer.

## Modules

- `Entries`, `RouteMatcher`: coverage of hosts, normalisation of entry lists, and the
  suffix and prefix matcher against a linear scan.
- `Config`, `Schedule`: the stored configuration and its daily schedules.
- `ActiveEntries`, `RuleApply`: conflicts between active rules, and the apply itself.
- `PriorityMerge`, `PriorityRuns`: the configuration derived from priority decisions, and
  how those decisions are made and changed.
- `Health`, `Rotations`, `Failover`, `FailoverRuns`: probe records against full histories,
  override tables and the moves between them, and the failover step.
- `Supervision`: the tick that composes both layers, and whole runs of it.
- `Allocation`, `DesiredInstances`, `Reconciliation`, `SubscriptionRuntime`: tables, marks
  and tunnel networks; the instances a configuration asks for; what reconciling does to
  rows, memory and processes; the manager that does it.
- `Counters`, `Sums`, `Buckets`, `DomainTraffic`, `TrafficTables`, `DeviceHistory`,
  `TrafficHistory`: traffic accounts and their aggregation.

A class carries ghost fields where a property speaks of the past: all probes, the times of
applies, the live configuration, the processes alive, the bytes a counter ever counted.

## Where the code is weaker than its intent

- A decision whose policy was deleted or moved to another provider still suppresses the
  old provider's rules (`StaleDecisionReleases`); `CoverageKeptIff` is the exact condition.
  A moved policy's merged rule also conflicts with its new provider's own rules, so that
  the configuration is refused (`MovedPolicyConflicts`, `MergeDisjointIff`).
- A tick that cannot apply new decisions goes on with those of an earlier configuration. A
  recovery then releases what merging them into the configuration it loads releases
  (`MergeReleasesNothingIff`, `EditedRunsReleaseNothing`, `StaleRecoveryReleases`).
- A restore has no guard against a second OpenVPN provider (`RestoreCanJoinTwo`,
  `RestoreKeepsOneOpenVPNIff`). It relies on the apply to reject such a configuration, and
  is then rolled back.
- A priority apply ignores failover overrides (`PriorityApplyKeepsFailoverIff`,
  `PriorityApplyCanUndoFailover`, `Tick`) until the next recovery or failover apply.
- A manual choice, or a scheduled change, takes effect only once the location has been
  healthy for the restore time, and a manual choice is dropped by the first evaluation that
  selects another location (`PreferredTakenIff`, `ManualSurvivesIff`,
  `ManualChoiceIsDropped`).
- A cleanup that cannot load its rows leaves an instance in memory whose row was not saved.
  A later apply does not stop it: if its key is not planned it lives on and can share its
  table and mark with a new instance (`SharedTableRun`, `ReconciledDistinctIff`); if it is
  planned and not reusable its process is forgotten (`StartedKnownIff`,
  `ReconciledTrackedIff`).
- The matcher attributes names under .arpa and .localdomain to no route, also when a rule
  covers them (`ReservedNamesAreNotAttributed`).
- A counter name that occurs in two chains is overcounted (`TwoChainsOvercount`,
  `TwoChainsOvercountIff`). An accepted configuration serves a name by one instance, but
  while the name moves its old chain is still there, and it stays if its teardown fails.
- Counters are read and the readings stored without a common lock, and the sampler and a
  request can do both at once. A reading that is stored after a newer one counts the newer
  snapshot again (`LateStoreOvercounts`, `SteadyRunsIff`, `RunsOvercountIff`).
- Traffic between the last sample and a kernel restart is lost, and a restarted counter that
  grows past its old snapshot unseen hides that much (`NothingLostIff`).
- The statements of a purge fail one by one, which can separate tables that otherwise
  agree (`PurgeHistoryIff`, `PurgeBoundsIff`, `FailedDeleteSplitsHistory`,
  `FailedDeleteOrphansSite`); so can a clock that goes back (`BackwardClockOrphansSite`).

## Model

| member | source | states |
|---|---|---|
| Entries.CollapseCovered | internal/domains/manager.go:357-399 | the loop that walks up parent names keeps exactly the entries that no other listed name lies strictly above |
| Entries.CollapseKeepsCoverage | internal/domains/manager.go:357-399 | for every host, the collapsed list covers it if and only if the list did |
| Entries.NormalizeKeepsCoverage | internal/domains/manager.go:340-399 | removing repeated and covered entries changes the coverage of no host |
| Entries.NormalizedIsNormal | internal/domains/manager.go:340-399 | the result has no duplicate and no name under another, and normalising it again returns it |
| Entries.NormalIffFixedPoint | internal/domains/manager.go:311-326 | a list is left alone by normalisation if and only if it has no duplicate and no covered name, so replacing a stored list by itself restores it exactly |
| Entries.OverlapIffShareAddress | internal/api/handler.go:2439-2441 | comparing the two base addresses finds exactly the prefix pairs that share an address (section 3.1 of RFC 4632) |
| Entries.CoversIffReaches | internal/status/site_traffic.go:965-1011 | what an entry covers in plain terms: a name itself and the names that end in a dot and it; a single address only itself; a prefix the addresses with the same quotient by 2^(32 - bits) |
| RouteMatcher.BuildRouteMatcher | internal/status/site_traffic.go:896-963 | the name map and the prefix list represent the rules' entries in rule-then-entry order |
| RouteMatcher.Resolve | internal/status/site_traffic.go:965-1011 | the suffix walk and the prefix scan answer with the route of the first entry that reaches the host in these plain terms, and with none exactly if none does or the name is a reserved one |
| RouteMatcher.AttributedToFirstRule | internal/status/site_traffic.go:896-1011 | a host is attributed to the first active rule with an entry that reaches it: to its provider, and to its location or the OpenVPN interface if that is not blank |
| RouteMatcher.UnreachedHasNoRoute | internal/status/site_traffic.go:965-985 | a host that no entry of an active rule reaches has no route |
| RouteMatcher.NormalizingKeepsRoutes | internal/status/site_traffic.go:896-1011 | collapsing each rule's list first never changes the answer for any host |
| RouteMatcher.ReservedNamesAreNotAttributed | internal/status/site_traffic.go:516-528 | a name under .localdomain is covered by a rule for localdomain, yet resolves to no route |
| Schedule.NextBoundary | internal/automation/priority.go:506-531 | the result is the least start or end instant strictly after the given one over all days, within 24 hours, and unset exactly if no clock is readable |
| Schedule.ConstantUntilBoundary | internal/automation/priority.go:484-531 | the scheduled location is the same at every instant up to the next boundary, windows over midnight included |
| Schedule.ValidatePrioritySchedule | internal/api/handler.go:2115-2153 | accepts if and only if every window is readable and not empty and no minute of the day lies in two windows |
| Schedule.OrderIndependent | internal/automation/priority.go:484-504 | an accepted schedule selects the same location in any order of its windows |
| Schedule.PreferredFollows | internal/automation/priority.go:474-504 | the preferred location is that of the first window that is open at this minute, if it is not blank; without an open window, or with a blank one, it is the first target |
| ActiveEntries.ActiveRegistry.RegisterEntry | internal/api/handler.go:2413-2437 | refuses an entry exactly if it repeats or overlaps one of another rule; otherwise it joins the registered claims |
| ActiveEntries.ClashIffShared | internal/api/handler.go:2413-2437 | two entries clash if and only if they are the same or some address lies in both; two single addresses clash if and only if they are equal |
| ActiveEntries.ValidateActiveRuleEntries | internal/api/handler.go:2318-2343 | accepts if and only if no two active rules with different ids have an entry in common or two entries that reach one address |
| RuleApply.SplitEntries | internal/api/handler.go:1663-1705 | the loop builds the active rules, the distinct entries in order, and those first claimed by OpenVPN rules |
| RuleApply.AcceptedSplitLosesNothing | internal/api/handler.go:1673-1705 | for an accepted configuration the total list is every active rule's entries one after the other, and OpenVPN gets exactly those of its rules |
| RuleApply.DomainStore.ReplaceAll | internal/domains/manager.go:258-297 | the stored list becomes the normalised list or stays, and success means exactly that the list is stored, or was so already, and its file is written |
| RuleApply.DomainStore.Add | internal/domains/manager.go:84-109 | afterwards exactly the hosts of the old list and of the new entry are covered; success if and only if the entry was there or its list is stored and written |
| RuleApply.DomainStore.Delete | internal/domains/manager.go:122-149 | afterwards exactly the other entries are stored; success if and only if the file is written and the transaction commits or the entry was not there |
| RuleApply.ApplyStateRules | internal/api/handler.go:1632-1800 | succeeds if and only if the checks pass, the list is stored or was so already and is written, and every called runtime succeeds; a failure leaves the new list if it had been stored and the restoring write does not commit, and else the old one |
| PriorityMerge.BuildPriorityApplied | internal/automation/priority.go:224-272 | the loops build the merged configuration that the lemmas below speak about |
| PriorityMerge.CoverageKeptIff | internal/automation/priority.go:224-283 | the merge keeps a provider's coverage for every host if and only if it is not decided, or has nothing to cover, or its first decided policy is enabled |
| PriorityMerge.BackedKeepsCoverage | internal/automation/priority.go:224-283 | decisions backed by current enabled policies release no host of any provider |
| PriorityMerge.RulesAfterMerge | internal/automation/priority.go:224-272 | a decided provider is left with its one synthetic rule at the decided location; other providers keep their rules in order |
| PriorityMerge.MergedRulesStand | internal/automation/priority.go:248-271 | every merged rule stands at the active location of a decision of its policy, with the policy's provider, and is enabled as the policy is |
| PriorityMerge.MergeDisjointIff | internal/automation/priority.go:224-272 | for any decisions, a base without conflicts between active rules still has none after the merge if and only if no active merged rule joins rules that its provider keeps |
| PriorityMerge.MergeKeepsDisjoint | internal/automation/priority.go:224-272 | decisions backed by current policies keep a base free of conflicts |
| PriorityMerge.MovedPolicyConflicts | internal/automation/priority.go:248-271 | a policy that moved to another provider since its decision gets a merged rule beside that provider's own one, and the two conflict |
| PriorityMerge.ApplyPriorityDefaults | internal/automation/priority.go:193-222 | the loop applies the default decisions to the configuration |
| PriorityMerge.DefaultsDecideEligible | internal/automation/priority.go:193-222 | the default decisions are exactly those of the eligible policies; each stands at the location of the first open window, or at the first target |
| PriorityMerge.DefaultsAreSafe | internal/automation/priority.go:193-222 | applying the defaults releases nothing, creates no conflict, and applying priorities again changes nothing |
| Health.ObserveDescribes | internal/automation/failover.go:346-386 | the record stays equal to the fold of the full probe history: streaks are the longest final runs, since-times their first probes; it reads degraded exactly for a slow healthy probe |
| Health.OneSinceIsSet | internal/automation/failover.go:361-382 | after any probe exactly one of the two since-times is set |
| Health.ThresholdIffUninterrupted | internal/automation/failover.go:119-127 | the tests on the record hold if and only if the history ends in enough equal results over enough time |
| Health.RecordKeepsFaithful | internal/automation/failover.go:346-386 | one probe keeps every record of the table equal to its own history |
| Failover.BuildFailoverApplied | internal/automation/failover.go:162-190 | the loop builds the configuration that an override table derives from a base |
| Failover.FailoverReleasesNothing | internal/automation/failover.go:162-190 | the derived configuration differs from the base at most in provider and location of rules |
| Failover.EnabledProviderIds | internal/automation/failover.go:925-946 | lists, in configuration order, exactly the enabled providers of enabled rules with domains |
| Failover.InUseIff | internal/automation/failover.go:925-946 | a provider is in use if and only if it is enabled and an enabled rule of it names a host |
| Failover.AffectedIff | internal/automation/failover.go:574-592 | a rule is affected if and only if it is enabled, names a host, and stands at the failed provider in the live configuration |
| Failover.RotationIsPermutation | internal/automation/failover.go:675-692 | the rotation tries every provider once, the failed one last |
| Failover.FindFailoverCandidate | internal/automation/failover.go:638-673 | returns the first eligible provider of the rotation, and none if and only if none is eligible; every affected rule gets a location it offers: its own if listed, else the rule's if listed, else the first one; blank for OpenVPN |
| Failover.EligibleIff | internal/automation/failover.go:638-715 | a candidate is passed over if and only if it is off, or the failed one, or would join another OpenVPN provider in use, or is a subscription without locations, or does not answer |
| Failover.ProbesFirstNonBlank | internal/automation/failover.go:646-665 | a candidate is probed at the first location in rule order, of those it gives to the affected rules, that is not blank |
| Failover.SwitchMoves | internal/automation/failover.go:593-611 | a switch sends exactly the affected rules to the candidate and moves no other rule |
| Failover.SwitchRecords | internal/automation/failover.go:595-611 | each moved rule is recorded with the candidate, its new location and the time, and with its first original |
| Failover.SwitchKeepsCurrent | internal/automation/failover.go:595-611 | through any chain of switches the recorded originals stay the base rule's own provider and location |
| Failover.OriginalGroups | internal/automation/failover.go:296-316 | the groups hold the overrides by original provider; a group's preferred location is an original one of its rules, and blank only if all of them are |
| Failover.GroupsPartition | internal/automation/failover.go:296-316 | the returned groups are disjoint, not empty, and hold every override, each under its own original provider |
| Failover.RestoreMoves | internal/automation/failover.go:269-285 | restoring a provider returns each of its rules exactly to the base and moves no other rule |
| Failover.RestoreKeepsCurrent | internal/automation/failover.go:269-285 | a restore leaves no override of the provider behind and keeps the others' originals |
| Failover.SwitchKeepsOneOpenVPN | internal/automation/failover.go:985-1002 | a guarded switch keeps at most one OpenVPN provider in use by rules with domains |
| Failover.RestoreKeepsOneOpenVPNIff | internal/automation/failover.go:236-289 | a restore keeps at most one OpenVPN provider in use if and only if it does not bring OpenVPN back beside another OpenVPN provider |
| Failover.RestoreCanJoinTwo | internal/automation/failover.go:236-289 | a concrete table after which a restore puts two OpenVPN providers in use |
| FailoverRuns.FailoverRuntime.UpdateProviderHealth | internal/automation/failover.go:346-386 | replaces one record and keeps the table equal to the histories |
| FailoverRuns.FailoverRuntime.PruneOverrides | internal/automation/failover.go:209-234 | keeps exactly the overrides that still fit the base |
| Failover.PrunedTakesEffect | internal/automation/failover.go:209-234 | pruning keeps the override of an enabled rule that still stands where it came from and whose new provider is enabled; a kept one is in force, and restoring returns the rule to where the override says it came from |
| FailoverRuns.FailoverRuntime.ApplyOverrides | internal/automation/failover.go:269-285 | a successful apply makes the live configuration the derived one; a failed one puts the previous table back |
| FailoverRuns.FailoverRuntime.TryRestorePrimaries | internal/automation/failover.go:236-289 | restores a provider that was healthy without interruption for long enough, outside the cooldown; otherwise says why none was |
| FailoverRuns.HealthyIsRestored | internal/automation/failover.go:250-289 | when nothing is left to restore, no enabled original provider of a kept override has answered without interruption for the configured time, 60 seconds if unset |
| FailoverRuns.FailoverRuntime.SwitchProvider | internal/automation/failover.go:574-636 | switches to the first eligible candidate or reports all down, and rolls the table back if the apply fails |
| FailoverRuns.SwitchMovesRight | internal/automation/failover.go:593-715 | after a switch each moved rule of the live configuration stands at a location that its new provider offers, chosen as above, and every other rule is where it was |
| FailoverRuns.FailoverRuntime.CheckProviders | internal/automation/failover.go:90-136 | acts on the first provider in use that failed without interruption for long enough, and passes none over without a cause |
| FailoverRuns.FailoverRuntime.MaybeProviderFailover | internal/automation/failover.go:75-136 | one step: it acts only with failover enabled, the connection up and 60 seconds after the last apply; every action has its cause in the probe history; a switch moves rules to locations their provider offers; and the override table keeps describing the live configuration |
| FailoverRuns.FailedIsNotIgnored | internal/automation/failover.go:90-136 | a step that leaves everything alone outside the cooldown finds no provider in use that failed for long enough, unless no rule is affected or the switch was refused |
| FailoverRuns.SwitchActionKeepsOneOpenVPN | internal/automation/failover.go:574-692 | every switch a step makes keeps at most one OpenVPN provider in use |
| FailoverRuns.RunFailover | internal/automation/failover.go:75-136 | on every run over a base: the table describes the live configuration, which differs from the base only in provider and location, applies are at least 60 seconds apart, and at most one OpenVPN provider is in use if that was so at the start |
| PriorityRuns.CandidateLocations | internal/automation/priority.go:561-584 | the loops build the rotation of non-blank targets from the preferred one |
| PriorityRuns.CandidatesAreTargets | internal/automation/priority.go:561-584 | the rotation is a permutation of the non-blank targets, the preferred one first if it is a target |
| PriorityRuns.PriorityRuntime.Select | internal/automation/priority.go:349-383 | stops at the first location that the full probe histories allow, probing no further; without one it keeps the active location |
| PriorityRuns.Hysteresis | internal/automation/priority.go:349-383 | the active location is left only for a target that answers (stable, if preferred), and only if it failed for long enough or comes later in the rotation |
| PriorityRuns.LeavingNeedsTime | internal/automation/priority.go:349-383 | with the configured times (120 and 60 seconds if unset): a step leaves the active location only for one that answers, after uninterrupted failure or by rank, and takes the preferred one only after uninterrupted answers |
| PriorityRuns.AnswerCounts | internal/automation/priority.go:404-421 | a location answers a step exactly if its probe is healthy and, for the active one, its instance runs |
| PriorityRuns.FirstRunningIsActive | internal/automation/priority.go:330-336 | without an earlier decision the first target in order whose instance runs counts as active |
| PriorityRuns.SelectionIsNotBlank | internal/automation/priority.go:380-383 | whatever the probes say, some location is selected |
| PriorityRuns.PreferredTakenIff | internal/automation/priority.go:349-383 | the preferred location is selected if and only if, read off the earlier history and the probes of the step: it answers and has done so long enough; or it is in use already, or nothing is, and it answers, has not failed long enough, or no other answers |
| PriorityRuns.ManualSurvivesIff | internal/automation/priority.go:289-402 | a manual choice survives a step that evaluates its policy if and only if that condition holds of the histories before the step |
| PriorityRuns.ManualChoiceIsDropped | internal/automation/priority.go:361-398 | a concrete manual choice of an answering location that does not take effect and is dropped, because the location was never probed before |
| PriorityRuns.PriorityRuntime.Evaluate | internal/automation/priority.go:306-402 | decides exactly the eligible policies, by the selection above; prefers the manual choice, or else the location of the first open window or the first target; keeps the time of a decision that does not change; and drops a manual choice as soon as another location is selected |
| PriorityRuns.PriorityRuntime.PruneManuals | internal/automation/priority.go:289-304 | keeps exactly the manual choices whose policy and target exist and whose schedule segment has not ended |
| PriorityRuns.ManualWithinSegment | internal/automation/priority.go:289-304 | a kept manual choice never outlives the schedule segment it was made in |
| PriorityRuns.PriorityRuntime.SetManual | internal/automation/priority.go:97-112 | records the choice exactly if neither policy nor location is blank |
| PriorityRuns.SameDecisionsIff | internal/automation/priority.go:644-661 | the comparison by count and by key finds exactly the equal decision sets |
| PriorityRuns.SameDecisionsApplySame | internal/automation/priority.go:644-661 | decisions that compare equal derive the same configuration, so not applying them loses nothing |
| PriorityRuns.ConcludedWithCause | internal/automation/priority.go:142-185 | a step that has nothing to do although applies succeed leaves decisions that agree with the earlier ones and whose instances run; one that acts has a decision that differs or does not run |
| PriorityRuns.PriorityRuntime.MaybePriorityPolicies | internal/automation/priority.go:142-185 | new decisions take effect only with a successful apply, which is tried if and only if they differ or do not run; each is warranted by the probe history, and takes the preferred location exactly under the condition above |
| Supervision.PriorityKeeps | internal/automation/priority.go:224-272 | with backed decisions exactly the same hosts are named by enabled rules, and no tunneled host is released |
| Supervision.MergeReleasesNothingIff | internal/automation/priority.go:224-272 | for any decisions, stale ones included: the merged configuration names the same hosts and releases no tunneled one if and only if every host is left to a provider, and every tunneled one to an enabled provider, that is not decided or whose first decided policy is enabled |
| Supervision.FailoverKeeps | internal/automation/failover.go:162-190 | overrides keep the hosts named by enabled rules and release no tunneled host |
| Supervision.PriorityAppliedWellFormed | internal/automation/priority.go:256-269 | the merged configuration again has distinct rule ids |
| Supervision.Supervisor.Recover | internal/automation/failover.go:138-154 | applies what both layers derive, or the stored configuration with its defaults, and releases nothing if merging the decisions into that configuration does not |
| Supervision.Supervisor.ApplyStored | internal/api/handler.go:1619-1632 | an apply on request makes the stored configuration with its default decisions live, which releases nothing, or leaves the live one |
| Supervision.Supervisor.ApplyPriorityPolicies | internal/automation/priority.go:126-140 | a priority apply on request takes effect only with the connection up and a successful apply, and then releases nothing |
| Supervision.Supervisor.Tick | internal/automation/supervisor.go:110-172 | one tick over whatever configuration it loads takes the priority step, then the failover step on what it derives, then a recovery, only if one is due; says what is live afterwards, that it releases nothing if merging its decisions into that configuration does not, and why nothing else was done |
| Supervision.RecoveryDueIff | internal/automation/supervisor.go:126-171 | a recovery is due if and only if the connection has just returned, or it is up and the OpenVPN runtime or a wanted subscription instance does not run, with recovery enabled and something to route |
| Supervision.RunTurns | internal/automation/supervisor.go:110-172 | every run of ticks, steps of interrupted ticks and user requests (applies, priority applies, manual choices), with edits of the stored configuration in between, yields a trace: what it makes live releases nothing, where it applies the loaded configuration, its own decisions, or decisions whose merge releases nothing; other turns leave the live configuration alone |
| Supervision.EditedRunsReleaseNothing | internal/automation/supervisor.go:110-172 | in every such run in which no turn applies stale decisions whose merge releases a host, the live configuration names exactly the hosts of the one last applied and sends none of its tunneled traffic out directly |
| Supervision.RunsReleaseNothing | internal/automation/supervisor.go:110-172 | without edits this holds of every run, requests included |
| Supervision.StaleDecisionReleases | internal/automation/priority.go:230-244 | a decision whose policy was deleted takes a tunneled host of its provider out of the tunnel |
| Supervision.StaleRecoveryReleases | internal/automation/supervisor.go:136-154 | a concrete moment: the connection returns, the new decisions cannot be applied, and the recovery that is due applies the stale decision and releases the host |
| Supervision.PriorityApplyKeepsFailoverIff | internal/automation/priority.go:170-184 | the base that a priority apply makes live is what the failover overrides derive if and only if every override of one of its rules names a provider that is not enabled or the rule's own provider and location; a tick that ends with such an apply promises this of its result |
| Supervision.PriorityApplyCanUndoFailover | internal/automation/priority.go:170-184 | a provider has failed over when its policy's decision changes: the priority step applies it and takes the rule back to the failed provider against the override table |
| Allocation.ParseOfFormat | internal/subscription/runtime.go:745-764 | reading a printed number gives it back, in hexadecimal and decimal, negative ones included |
| Allocation.NumeralsRead | internal/subscription/runtime.go:745-764 | reading goes digit by digit, in decimal and in hexadecimal of either case, and fails at any other character |
| Allocation.SignsRead | internal/subscription/runtime.go:752-759 | one sign may stand before at least one digit; the number has to fit into 64 bits |
| Allocation.IncrementTwice | internal/api/handler.go:1953-1972 | incrementing twice through the text is incrementing by the sum, even where the 64-bit sum wraps |
| Allocation.PaddedMark | internal/subscription/runtime.go:745-764 | a mark is incremented in its own notation, whatever white space surrounds it |
| Allocation.BlankMark | internal/subscription/runtime.go:746-749 | a blank mark counts as 0x1 |
| Allocation.UnreadableMark | internal/subscription/runtime.go:751-763 | an unreadable mark counts as 1 in the notation it starts in |
| Allocation.MarksDistinct | internal/subscription/runtime.go:745-764 | different offsets give different marks |
| Allocation.DerivedDistinct | internal/subscription/runtime.go:733-743 | instances at different indices share neither table nor mark |
| Allocation.DerivedNames | internal/subscription/runtime.go:733-743 | derived settings route by device without a gateway, name the interface and the set by the digest, and cut the set name at 31 characters |
| Allocation.ShiftedNeverMeetsBase | internal/api/handler.go:1776-1779 | with the base shifted by one no instance meets the table or mark that is left to OpenVPN |
| Allocation.OctetsValidIff | internal/subscription/runtime.go:787-791 | the two octets of index i spell the number 4i + 1, and are valid if and only if i is below 16384 |
| Allocation.TunnelsDisjoint | internal/subscription/runtime.go:787-791 | tunnel networks of different indices share no address |
| DesiredInstances.BuildDesired | internal/subscription/runtime.go:578-671 | lists each provider and location with entries once; the listed instances serve every entry of every rule of an enabled subscription provider, at the rule's own provider and location, and nothing else; refuses exactly if such a rule has a blank location, or entries at one that is not available |
| DesiredInstances.ListingServes | internal/subscription/runtime.go:584-618 | any listing of the keys with entries serves exactly the rules of enabled providers of kind subscription |
| DesiredInstances.ServableIff | internal/subscription/runtime.go:587-658 | every key with entries can be served if and only if no such rule has a blank location or entries at one that is not available |
| DesiredInstances.ServedOnce | internal/subscription/runtime.go:587-636 | in a configuration without conflicts every entry of a rule of an enabled subscription provider is served by the instance of the rule's own provider and location and by no other |
| DesiredInstances.BuildPlans | internal/subscription/runtime.go:446-466 | plans get pairwise distinct tables and marks |
| SubscriptionRuntime.Manager.StopInstance | internal/subscription/runtime.go:540-576 | the instance is forgotten and its process killed even if its row cannot be deleted |
| SubscriptionRuntime.Manager.Cleanup | internal/subscription/runtime.go:372-444 | leaves no instance in memory and no process alive, and no row if the table could be cleared; without the rows it changes nothing |
| SubscriptionRuntime.Manager.StartPlan | internal/subscription/runtime.go:177-210 | from any state: the new process is in memory at every exit after the start, and in the table once its row is saved |
| SubscriptionRuntime.Manager.SyncPlan | internal/subscription/runtime.go:502-538 | from any state: a reused instance keeps its process and gets its plan's settings, in memory and, once saved, in the table, also if it had no row before |
| SubscriptionRuntime.Manager.Reconcile | internal/subscription/runtime.go:137-228 | from any state: in which phase it ends, by which answers, and the exact rows, instances and processes it leaves then |
| SubscriptionRuntime.Manager.Apply | internal/subscription/runtime.go:137-228 | from any state in which no two keys share a process: after a success every entry of every rule of an enabled subscription provider is planned at the rule's provider and location, whose row lives, nothing else is planned, and every row is of a plan; every process and instance has its row if and only if all were known and the unrecorded ones fit; tables and marks are distinct if and only if the leftovers keep apart |
| SubscriptionRuntime.Manager.Exited | internal/subscription/runtime.go:346-370 | only the instance that still owns the ended process is forgotten |
| Reconciliation.EndedKeeps | internal/subscription/runtime.go:346-370 | the end of a process keeps processes of different keys apart, known ones known, and rows complete, and touches no instance with another process, so that a late end spares the successor |
| Reconciliation.StartedKnownIff | internal/subscription/runtime.go:186-197 | a start keeps every live process known to memory or table if and only if its key has no live process that is recorded in memory only |
| Reconciliation.RunKeeps | internal/subscription/runtime.go:177-226 | while the plans run no two keys come to share a process, and every live process stays known if and only if it was and no reached plan is started over an unrecorded live instance |
| Reconciliation.ReconciledServes | internal/subscription/runtime.go:177-226 | after a success the rows are those of the plans, each live, with the plan's settings and entries, and with the old process if it was reused |
| Reconciliation.KeepsProcessIff | internal/subscription/runtime.go:468-500 | after a success a planned key keeps its process if its instance has the same configuration and settings, its interface is up and its process lives, and has the one just started if it has none like that |
| Reconciliation.SucceedsIff | internal/subscription/runtime.go:137-228 | a reconciliation succeeds if and only if the rows load, every instance that is not reused is torn down, every plan is started or updated with all its answers good, and the files are pruned |
| Reconciliation.ReconciledTrackedIff | internal/subscription/runtime.go:137-228 | after a success every live process and instance has its row if and only if every process was known before and each instance without a row is planned, and reusable or dead |
| Reconciliation.ReconciledDistinctIff | internal/subscription/runtime.go:446-466 | after a success rows and memory together share no table and no mark if and only if the unplanned instances without rows share none with each other and with the plans |
| Reconciliation.FailureKillsAllIff | internal/subscription/runtime.go:184-223 | a failed start or sync that can load the rows leaves nothing alive if and only if every process was known and none was orphaned before the failure |
| Reconciliation.StaysTracked | internal/subscription/runtime.go:137-228 | however a reconciliation ends, complete rows stay complete, unless a failed start cannot load them to clean up |
| Reconciliation.StaysDistinct | internal/subscription/runtime.go:137-228 | without unrecorded instances no two instances ever come to share a table or a mark |
| Reconciliation.RunningDistinct | internal/subscription/runtime.go:177-226 | at every moment between the stop of the others and the end of a reconciliation the rows share no table and no mark, nor do rows and memory together if everything was recorded |
| Reconciliation.ReopenedKnownIff | internal/subscription/runtime.go:122-135 | a new start of the program forgets exactly the live processes that are recorded in memory only |
| Reconciliation.RunsStayTracked | internal/subscription/runtime.go:137-228 | on every run of reconciliations, cleanups, ended processes and new starts no two keys share a process; and until a failed start cannot load the rows to clean up, every process and instance has its row and tables and marks are distinct |
| Reconciliation.SharedTableRun | internal/subscription/runtime.go:199-203 | a concrete run: an instance is left in memory without its row, and the next apply, which succeeds, starts another one on its table and mark |
| DomainTraffic.CountersOfDomain | internal/status/domain_traffic.go:114-122 | a domain's counters are its upload and download ones, and its own name if that carries no tag |
| DomainTraffic.TotalAddsUp | internal/status/domain_traffic.go:469-528 | a domain's total, what is pending and what was lost make up what its counters counted and what was credited once more |
| DomainTraffic.RunsOvercountIff | internal/status/domain_traffic.go:167-194 | on every run of traffic, restarts, readings, stores, purges and resets, in any interleaving, a domain's total exceeds the traffic that passed if and only if its stores credited more once more than is pending and lost, and is that traffic if and only if these are the same |
| DomainTraffic.RunsNeverOvercount | internal/status/domain_traffic.go:469-598 | if no store of a run credits anything once more, a domain's total is at most the traffic that passed, and all of it if and only if nothing is pending and no event since the last whole reset lost a byte |
| DomainTraffic.RunsCount | internal/status/domain_traffic.go:469-598 | what the counters ever counted is the traffic that passed, whatever else happens |
| DomainTraffic.NothingLostIff | internal/status/domain_traffic.go:469-598 | nothing is lost if and only if since the last whole reset no restart found bytes pending, no restarted counter outgrew its old snapshot unseen, and no credited total was deleted; nothing is credited once more if and only if no store since then does harm |
| DomainTraffic.HarmlessIff | internal/status/traffic_history.go:536-541 | storing a reading does no harm if and only if it lies between snapshot and counter, is the snapshot, or the counter has restarted and not reached the snapshot again; an older reading of a counter that did not restart credits the newer snapshot once more |
| DomainTraffic.SteadyRunsIff | internal/status/domain_traffic.go:167-194 | while a counter does not restart its bytes are counted once if and only if no store puts back a reading that is older than the snapshot |
| DomainTraffic.PromptlyNothingTwice | internal/status/domain_traffic.go:167-194 | a run that stores every reading before the counters change counts nothing twice |
| DomainTraffic.LateStoreOvercounts | internal/status/domain_traffic.go:167-194 | two samplers read a counter and store in the other order: the next sample makes the total twice what passed |
| DomainTraffic.CountedKeeps | internal/status/traffic_history.go:536-541 | traffic keeps the account balanced; a restarted counter that grows past its old snapshot hides exactly that snapshot |
| DomainTraffic.RestartedKeeps | internal/status/traffic_history.go:536-541 | a kernel restart loses exactly what was pending |
| DomainTraffic.StoreKeeps | internal/status/domain_traffic.go:469-528 | storing a sample keeps the account balanced, whenever it was read |
| DomainTraffic.PromptStore | internal/status/domain_traffic.go:469-528 | a sample stored before the counters change credits exactly what is pending for the counters it read |
| DomainTraffic.PurgeKeeps | internal/status/service.go:801-812 | a purge turns the credits of the deleted totals into losses |
| DomainTraffic.ResetKeeps | internal/status/domain_traffic.go:585-598 | after a reset everything a live counter holds is pending again |
| DomainTraffic.DomainMeter.Upsert | internal/status/domain_traffic.go:469-528 | stores a sample completely or not at all, whenever it was read; if the counters have not changed since, nothing is left pending and nothing is credited once more |
| DomainTraffic.StoredReading | internal/status/domain_traffic.go:469-528 | storing one reading replaces the snapshot and adds to the domain's total the growth since it, or the whole reading if that is smaller, with the time; no growth leaves the totals alone |
| DomainTraffic.DomainMeter.Purge | internal/status/service.go:801-812 | deletes old totals or nothing, books their credits as lost, and leaves the counters alone |
| DomainTraffic.DomainMeter.Reset | internal/status/domain_traffic.go:585-598 | also with only the first statement executed the account stays balanced, of the same traffic |
| DomainTraffic.TwoChainsOvercountIff | internal/status/domain_traffic.go:166-196 | for a name in two chains a second sample of unchanged counters adds nothing if and only if both hold as many bytes or one is blank, and else the larger one |
| DomainTraffic.OneTwoChainsSample | internal/status/domain_traffic.go:166-196 | what one sample of a name in two chains credits beyond their growth: for counters that grow apart the whole first counter |
| DomainTraffic.TwoChainsOvercount | internal/status/domain_traffic.go:166-196 | a concrete name in two chains of which two samples count more than passed |
| TrafficTables.TrafficStore.UpsertConnections | internal/status/site_traffic.go:1232-1386 | one sample is folded into the six tables, as the growth defined below says, then old rows are dropped; all of it or nothing |
| TrafficTables.RunsHoldGrowth | internal/status/site_traffic.go:1232-1386 | on every run without a purge the device, site and device-site rows and each minute of the histories hold exactly the bytes and packets by which their connections grew from reading to reading, and tunneled and direct bytes those of the connections by that kind; a connection is forgotten after a day, a minute after thirty |
| TrafficTables.TrafficStore.PurgeOlderThan | internal/status/service.go:814-834 | each statement deletes its table's old rows or fails alone |
| TrafficTables.PurgeKeepsNewer | internal/status/service.go:814-834 | each table whose statement succeeds keeps exactly the rows that are not older than the cutoff, by last sight, last update or minute |
| TrafficTables.PurgeHistoryIff | internal/status/service.go:826-827 | a purge keeps the two histories equal if and only if both deletes succeed, both fail, or nothing is old |
| TrafficTables.PurgeBoundsIff | internal/status/service.go:824-825 | a purge keeps every device above the sum of its sites if and only if it leaves no site with bytes of a device that it deletes |
| TrafficTables.FailedDeleteSplitsHistory | internal/status/service.go:826-827 | one sample and a purge with one failed delete, after which the histories differ |
| TrafficTables.FailedDeleteOrphansSite | internal/status/service.go:824-825 | one sample and a purge with one failed delete, after which a site has no device |
| TrafficTables.BackwardClockOrphansSite | internal/status/service.go:824-825 | a clock that goes back between two samples, after which a purge without any failure orphans a site |
| TrafficTables.RunsBalance | internal/status/site_traffic.go:1232-1386 | on every run tunneled and direct bytes make up every device and history row |
| TrafficTables.RunsKeepHistoryIff | internal/status/site_traffic.go:1340-1383 | throughout a run each history row is the sum of its sites' rows if and only if every purge deletes both histories or neither, or finds nothing to delete |
| TrafficTables.RunsConserve | internal/status/site_traffic.go:1282-1338 | on every run without a purge the site, device and device-site tables agree per site, per device and overall |
| TrafficTables.RunsStayAboveIff | internal/status/service.go:814-834 | throughout a run, in any order of time, no device's sites add up to more than the device if and only if no purge leaves a site with bytes of a device that it deletes |
| TrafficTables.RunsStayBounded | internal/status/service.go:814-834 | samples in order of time and purges that never delete the devices alone are enough for that |
| Buckets.BucketTimes | internal/status/device_traffic_history.go:184-189 | the loop lists exactly the bucket starts that cover the window, in order |
| Buckets.WindowIsCovered | internal/status/device_traffic_history.go:211-220 | every instant of the window falls into one of its buckets |
| DeviceHistory.Aggregate | internal/status/device_traffic_history.go:171-253 | each point is the sum of the samples of its bucket, the points add up to the total of the window, the peak is their maximum, and points keep the balance of tunneled and direct bytes |
| TrafficHistory.Aggregate | internal/status/traffic_history.go:377-534 | points, breakdown and series hold the sums of what the routes moved between samples, received and sent apart, per bucket, per route and both; all three add up to the total, each series to its breakdown, and the routes of each bucket to its point |
| TrafficHistory.FlowSums | internal/status/traffic_history.go:450-500 | what a route received, overall or in a bucket, is the sum of its received deltas, and what it sent that of its sent ones |
| TrafficHistory.ReportConserves | internal/status/traffic_history.go:450-500 | every report of the aggregation conserves: parts to total, series to breakdown, routes to points |

## Left out

- Probing, pinging, starting and killing processes, the routing script, interface waits and
  log streaming are answers of the environment; files are written or not.
- HTTP handlers, JSON, SQL text, schema migration and legacy import: tables are maps, and a
  transaction commits or does not.
- Parsing of entries, host and port, and clock texts; trimming and case folding of ids and
  locations. Two locations that differ in case only are one in the code and two here.
- Provider and rule ids are primary keys in the store. Where the code finds a provider by a
  map or by a scan, the model scans.
- Daylight-saving shifts and leap seconds; days have 24 hours.
- Distinctness of interface, ipset and file names derived from SHA-1 digests; the digest is
  a parameter, and the generated DNS file name is not modelled.
- Keys are pairs (provider and location, policy and location); in the code they are joined
  by "::" into one text.
- 64-bit overflow of byte and packet sums. Marks and tables do wrap; `int` is taken to be
  64 bits wide.
- Unicode white space around a mark; the ASCII white space is trimmed.
- Modulo on instants in `Buckets` is by repeated subtraction, for instants counted from a
  day boundary.
- The set of reported all-down failures and the event log: they only avoid repeated
  messages. The times of the last priority apply and the score of a probe are only shown.
- Manager.Apply: assumes that the system gives no new process the number of a live one, or
  of an instance that is in memory without a row (`HonestPids`): the program forgets such an
  instance when its process ends. Rows may record any number, as after a router restart.
- An apply is taken as atomic: `live` is the configuration of the last one that succeeded,
  while a failed one can leave runtimes torn down.
- The request that cleans up the OpenVPN runtime by hand, and the rollback of the stored
  configuration after a failed request: an edit followed by an apply, as any other.
- Endpoint lists of a provider are the same for all rules of one switch.
- The order of instances by provider name and location: `BuildDesired` may list them in any
  order, and every result holds for each.
- Device names, addresses and labels stored beside the byte counts, DNS observations, and
  the listing and paging of traffic tables.
- Sorting of history samples by time: `Aggregate` takes them in that order.
- Validation of policies against live endpoint lists, subscription links, update and
  archive installation, the DNS proxy, diagnostics, system resources and the frontend.
- DomainMeter.Pass, DomainMeter.Restart: only describe what the kernel counters do.
- RunsStayBounded: a condition on the events alone; `RunsStayAboveIff` is the exact one.
- EditedRunsReleaseNothing: enough, not exact, where overrides happen to cover what a stale
  decision releases; `MergeReleasesNothingIff` is exact for the merge itself.
