# Verification of the checker's scheduling, topology, concurrency and source-switch logic

This project models the hard parts of a monitor for rotating proxy subscriptions and proves what
they are for. `dafny verify dfyconfig.toml` checks all of it.

Each module stands for one component:

- `Scheduler` is the batch scheduler: lanes, subscriptions taking turns, reserved and lent places,
  and the bounded wait that follows from them. `Monitor` holds the record that the scheduler reads,
  assigned field by field as the source does, and `Repair` the same changes on values, with an
  event log. The log's reader knows nothing about counters; the lemmas say what the counters, the
  state, the deadline and the history mean in its terms, over every run. `Evidence` says what a
  record shows: the verdict of every measurement, its deadline, the measurement fields and what each
  other event leaves.
- `EndpointPools` is the accumulating endpoint pool, `LogicalIDs` the assignment of identities, and
  `UpdatePlan` the two-pass diff that carries them, with the comparison that precedes it.
- `SourceSwitch` is the file protocol between the dashboard, the host supervisor and the checkers.
  Every file operation is one step, steps interleave freely, and the supervisor may crash before any
  of them. `SourceOutcome` says what the protocol tells its users: the outcome published for every
  request, the session published, who is admitted and when the gate opens.
- `ProbeBudget`, `DiagnosisQueue` and `Locks` model the two nested semaphores, the diagnosis queue
  with its worker, and the lock protocol in the same way.
- `Packing`, `Results` and `Classifiers` are the packing of digests into messages, the writing,
  saving and restoring of results, and the two readings of one diagnosis.
- `Ordering` is text comparison and sorting, which the others use.

Loops over maps choose their next key with `:|`, so every result holds for every iteration order.
Methods that follow the source step by step are proved equal to functions on values, and the
properties are proved of those functions. Hashes are values: a revision is its connection
(`Repair`, `EndpointPools`) or its text (`UpdatePlan`), and an identity suffix is an arbitrary
function that must not repeat itself among as many candidates as there are entries. Times are
integers. What the environment decides, such as the outcome of a probe, a network that is not
ready, the clock, a cancelled context or an interrupted process, is a parameter of the step
concerned, so that the results hold for all of it. `LogicalIDs` and `UpdatePlan` assume, as all
callers ensure, that the entries of one list are distinct objects and that the two lists share none.

## Where the code does other than it says

- The endpoint pool speaks of a replacement "observed in every sample". Its counter counts
  occurrences, so a read that repeats an endpoint passes for two samples
  (`EndpointPools.RepeatedReadPassesForTwo`) and can retire another endpoint that should have stayed
  (`EndpointPools.RepeatedReadRetires`). A full count means "every sample" exactly when no read
  repeats the endpoint (`EndpointPools.InEverySample`).
- It speaks of a new revision seen "in two consecutive poll rounds". What counts is two consecutive
  sightings, with any number of rounds in between (`EndpointPools.AcceptedAcrossMiss`,
  `EndpointPools.RevisionChangesIff`); the rounds are consecutive exactly when the endpoint was not
  missing (`EndpointPools.ConsecutiveIffNotMissing`).
- Which of two tied revisions wins is left to map order. The outcome of a poll depends on that order
  exactly when a vote is tied, whatever the pool was before (`EndpointPools.OrderIndependentIff`);
  two samples with two revisions of an endpoint do it (`EndpointPools.TieIsOrderDependent`).
- A partial success restored from a snapshot counts as a first clean confirmation
  (`Repair.RestoredPartialOvercounts`), and this is the only way in which the success counter is not
  the trailing run of clean results (`Repair.SuccessesExact`).
- Detachment forgets the resolved addresses of a host name, so a binding that returns may end a
  replacement without a measurement (`Repair.ReturnWaivesConfirmation`). The exact condition is a
  guard on the record and the return, `Forgets` (`Repair.OriginStep`); as long as no such return
  happens, a replacement needs its two confirmations.
- `IsConfigsEqual` separates names by control characters. A name that contains one can hide a
  renaming (`UpdatePlan.SeparatorHidesRenaming`); otherwise equal sets give an empty plan.
- Entries from the pool come with an identity of their own, which may already have been carried over
  to a successor (`UpdatePlan.ReturnCollides`). `UpdatePlan.IdentitiesDistinctIff` gives the exact
  condition on the plan, `UpdatePlan.StablePresetsDontCollide` one on the two sets.
- A bridge may be up that nobody will commit: its supervisor crashed before the commit, or its
  starter brought it up and reported failure, for example at its time limit, where it may even come
  up later. The older session is then published again and its checker may be told that it is ready
  (`SourceSwitch.LostBridgeReady` after a crash, `SourceSwitch.LeftUpReady` without one). No other
  bridge allows it (`SourceSwitch.OldSessionNeverReady`), and each such bridge that is newer than
  what is published does, once no activation is pending (`SourceSwitch.OrphanLetsOldBeReady`).
- An empty block in the middle of a digest would add a gap (`Packing.EmptyBlockSwallowed`); digests
  have none.
- A binding without a result may be given the result of one that looks the same when a snapshot is
  loaded: exactly when the only saved one, or the first saved one at its address, has the same
  connection (`Results.UncheckedGetsIff`, with `Results.TwinGetsResult` as the least case).
- A node is called degraded when some binding works and not all are healthy, which includes the case
  that all of them work only partly (`Classifiers.DegradedWithoutFailure`).

## Model

| member | source | states |
|---|---|---|
| Scheduler.DueProxies | checker/monitor.go:611-693 | For every proxy set, table, time and limit the batch is a fair one: only due bindings, exactly min(limit, number due), every lane gets its reserved places as far as it can use them, the remaining places are lent in turns, within a lane one subscription's picks are the front of its (deadline, stable ID) order, and two subscriptions' picks differ by at most one unless the smaller is exhausted; and it is fair by what the records of its bindings say |
| Scheduler.BatchServesFairly | checker/monitor.go:619-693 | In terms of the records alone: half of the places go to bindings with a TCP doubt or unstable, suspected, needs_replacement, verifying_new_ip or new_ip_failed, three tenths to healthy or fixed ones, the others to unknown, ip_changed or config_changed ones, each as far as needed; the rest is lent in turns, confirmations first; within a kind, a subscription's oldest come first by deadline and stable ID, and a subscription is at most one ahead, and only if it goes first |
| Ordering.LessIff | checker/monitor.go:644-657 | Text comparison is dictionary order: the first character that differs decides, and a text that goes on comes after its beginning |
| Scheduler.Fill | checker/monitor.go:670-692 | Reserving and then lending ends with the limit reached or every lane drained, and the loans are fair to the lanes |
| Scheduler.OrderLane | checker/monitor.go:641-669 | Interleaving the subscriptions of a lane yields an order every front of which is a fair selection, starting with the oldest deadline |
| Scheduler.BatchIsDistinct | checker/monitor.go:611-693 | A batch over distinct bindings names each at most once, and only due ones |
| Scheduler.QuotasPositiveIff | checker/monitor.go:670-678 | Every lane has a reserved place exactly when the limit is at least four, and the reserved places add up to the limit |
| Scheduler.OldestOfLaneIsPicked | checker/monitor.go:611-693 | With a limit of at least four, every lane that has a due binding has one of its oldest in the batch |
| Scheduler.DueByShrinks | checker/monitor.go:593-606 | A batch that does not take a due binding removes another one that was due no later, and does not let it come back before the deadline |
| Scheduler.BoundedWait | checker/monitor.go:494-693 | A binding due at d is taken within as many batches as there were bindings due no later than d, whatever lanes they move through |
| Monitor.ResultPushesDeadline | checker/monitor.go:494-565 | Every counted measurement moves the deadline at least 45 seconds past its recording |
| Monitor.RecordAllFrame | checker/monitor.go:458-493 | Recording a set leaves the other records alone, and moves the deadline of every binding with a newer result at least 45 seconds on |
| Monitor.RecordAllTells | checker/monitor.go:458-493 | Recording a set of distinct bindings judges each newer stored result once and changes nothing else of each |
| Monitor.UpdatedIff | checker/monitor.go:478-493 | The bindings reported as updated are exactly those whose stored result is newer than the last counted one |
| Monitor.NodeMonitorState.ApplyMonitorResult | checker/monitor.go:494-565 | The field-by-field judgement of a measurement is the one the run properties are proved of; outside a replacement it leaves healthy exactly after a clean result, unstable after a partial one, suspected after the first two failures in a row and needs_replacement from the third on; in one fixed from the second clean result in a row, new_ip_failed from the second failure, verifying_new_ip otherwise; the deadline is 180-300 seconds on for healthy and fixed, 270-330 for unstable, 45 or 60 for verifying, 60, 120, 300 and 600 for failures |
| Monitor.NodeMonitorState.MarkNodeRevisionChanged | checker/monitor.go:343-380 | The same for an edited revision |
| Monitor.NodeMonitorState.RefreshResolved | checker/monitor.go:421-450 | The same for a DNS refresh; it asks for a check exactly when the refresh is a change |
| Monitor.NodeMonitorState.Handle | checker/monitor.go:458-565 | Whatever the record's callers do, the record stays what its log of events says and its state bounds its counters |
| Monitor.ProxyMonitor.RecordMonitorResults | checker/monitor.go:458-493 | Recording a set keeps every record faithful to its log and reports exactly the bindings whose stored result was newer |
| Repair.RunRefines | checker/monitor.go:255-565 | Over every run the counters are the trailing failed and clean runs of the event log, no measurement time counts twice, the episode number counts the failure runs, the history is the newest 40 entries of the full log, and needs_replacement, suspected and new_ip_failed bound the failures |
| Repair.SuccessesExact | checker/monitor.go:494-565 | The success counter is exactly the trailing clean run, unless the log is a restored partial success followed by clean ones only |
| Repair.RestoredPartialOvercounts | checker/monitor.go:141-229 | A partial success restored from a snapshot already counts as one clean confirmation |
| Repair.LeavesReplacementIff | checker/monitor.go:343-376 | One event takes a record out of a replacement exactly when it is a clean result after an unbroken clean one, or passes one of the guards on edits and DNS changes |
| Repair.OriginStep | checker/monitor.go:279-450 | An event makes the record forget where it was replaced from exactly when it is an unchanged return whose origin only the resolved addresses told, and they are lost or the former ones |
| Repair.ChangeOpensReplacement | checker/monitor.go:343-450 | Every address or DNS change opens a replacement with no confirmation counted |
| Repair.ReplacementHeldUntilConfirmed | checker/monitor.go:494-565 | Unless a return forgets its origin, a replacement is held through any events, returns included, until two clean results arrive with no failed, partial, edit or change event between them, and the second makes it fixed |
| Repair.ReturnWaivesConfirmation | checker/monitor.go:279-298 | A host name that is detached, returns and resolves to its former address ends the replacement without any measurement |
| Evidence.ResultTells | checker/monitor.go:494-573 | The same over every run, with the failures and clean results in a row counted from the log |
| Evidence.RunShowsLast | checker/monitor.go:494-548 | Over every run the record shows the time of the last counted measurement and of the last success, error and exit address of the last one since the binding was edited, the start of the current failures, and the last success that ended two or more of them |
| Evidence.OpenTells | checker/monitor.go:230-252 | A new binding is unknown and due at once; one with a restored result starts with the verdict on it |
| Evidence.EditTells | checker/monitor.go:343-380 | An edit asks for a check at once and voids the evidence; it is ip_changed exactly if the address changed or a replacement was under way, and config_changed otherwise, and a former address is remembered exactly if it changed |
| Evidence.LookupTells | checker/monitor.go:421-450 | A lookup is remembered, and is a change exactly if both it and the former one are known and differ |
| Evidence.ReturnTells | checker/monitor.go:284-306 | A return asks for a check at once; unchanged it keeps state and counters, changed it voids them |
| Evidence.RestartTells | checker/monitor.go:141-229 | After a restart another connection is an edit; with the same one a replacement goes on, counters stay, and a settled record without a result waits again |
| Evidence.EntriesDescribe | checker/monitor.go:343-565 | Every event adds the history entries that describe it, with its kind, time, state, addresses and result, as many as it should |
| EndpointPools.EndpointPool.Observe | checker/endpoint_pool.go:92-242 | A poll is the pointwise image of the step of one endpoint, for whatever order the maps are visited in; every endpoint afterwards carries what the reads say of it; the statistics count what they say, and bindings = before + added - detached |
| EndpointPools.PollTellsAt | checker/endpoint_pool.go:98-176 | After a poll an endpoint that was read carries what the first entry of the winning revision says: all of it if new, with its preset identity or the one of host, server and port; names, labels, host and node with the old identity and time if its revision is unchanged; all of it again when a new revision is accepted. One that was not read is as before |
| EndpointPools.PollKeepsOwn | checker/endpoint_pool.go:258-266 | As long as entries come without an identity, every endpoint has the one of its host, server and port |
| EndpointPools.OwnAreDistinct | models/proxy_config.go:136-144 | Then, if the hash does not collide, two endpoints of the pool have the same identity exactly if they are the same |
| EndpointPools.SameEndpointIff | checker/endpoint_pool.go:268-281 | Entries are the same endpoint exactly if host, canonical server and port agree |
| EndpointPools.ListedIff | checker/endpoint_pool.go:235-239 | The listing is sorted by subscription, group, name and address |
| EndpointPools.VotesCountOccurrences | checker/endpoint_pool.go:98-119 | A vote counts the occurrences of its revision in all reads of the poll |
| EndpointPools.InEverySample | checker/endpoint_pool.go:187-205 | For any reads, a revision with a full count is in every sample exactly when no read repeats it, and one that every sample names once has the full count |
| EndpointPools.RepeatedReadPassesForTwo | checker/endpoint_pool.go:98-119 | One read that repeats an endpoint gives it the full count of two samples, the second of which does not contain it |
| EndpointPools.RepeatedReadRetires | checker/endpoint_pool.go:187-217 | Two polls in which one read repeats an endpoint and the other is empty retire another endpoint of the same host and server |
| EndpointPools.StepIsSettled | checker/endpoint_pool.go:122-229 | Every step keeps the key consistent with the configuration, missingPolls = round - lastSeenRound < 30, and the pending and replacement rounds in {0, 1} |
| EndpointPools.UntiedPollIsDeterministic | checker/endpoint_pool.go:122-128 | Without tied votes the pool after a poll does not depend on the iteration order |
| EndpointPools.OrderIndependentIff | checker/endpoint_pool.go:122-176 | For every consistent pool and every tally, all outcomes that the iteration orders allow coincide exactly when no vote is tied |
| EndpointPools.TieIsOrderDependent | checker/endpoint_pool.go:122-128 | Whatever the pool was before, two samples that show an endpoint in two revisions have outcomes that differ |
| EndpointPools.RevisionChangesIff | checker/endpoint_pool.go:138-176 | Over every run, an endpoint changes its revision in a poll exactly when another one wins its vote and has two votes or also won the last sighting before, with the endpoint unseen in all polls in between; it then has that revision |
| EndpointPools.ConsecutiveIffNotMissing | checker/endpoint_pool.go:158-176 | The rounds since the last sighting are counted by missingPolls, so the two sightings are in consecutive rounds exactly when it is 0 |
| EndpointPools.AcceptedAcrossMiss | checker/endpoint_pool.go:158-176 | A run seen, unseen, seen in which the new revision is accepted |
| EndpointPools.PoolSize | checker/endpoint_pool.go:92-242 | The pool after a poll has the endpoints from before, plus the added, minus the detached ones, and consists of the seen and the missing ones |
| EndpointPools.WhyEndpointsLeave | checker/endpoint_pool.go:185-229 | Over every run an endpoint leaves only at 30 unseen rounds or after two consecutive ones with the same sole replacement, which is then in the pool under the same host and server |
| EndpointPools.IdentitiesShrinkByAge | checker/endpoint_pool.go:185-229 | A host and server leave the pool only when all their endpoints age out |
| LogicalIDs.AssignLogicalIDs | models/proxy_config.go:205-240 | Presets stay; every other entry gets an identity of its base such that all earlier ones of the base are taken, distinct from all others, after at most as many probes as there are entries, in the order of place within a base |
| LogicalIDs.NamedByBase | models/proxy_config.go:222-237 | The identity of an entry without a preset is its base, unless another entry has that |
| LogicalIDs.NextFree | models/proxy_config.go:222-237 | The probe for a free identity ends within |used| + 1 candidates when the candidates of a base do not repeat |
| LogicalIDs.TakenBound | models/proxy_config.go:222-237 | Pigeonhole: if the first n candidates are taken, at least n identities are in use |
| LogicalIDs.DistinctIffPresets | models/proxy_config.go:205-240 | All identities are distinct exactly when the preset ones are |
| UpdatePlan.PlanProxyUpdate | checker/proxy_update.go:98-166 | The plan is the two-pass matching of the sorted sets, reports every entry as what it is, carries the identity of every matched entry over, and gives every other new one a preset or a fresh identity |
| UpdatePlan.PlanReports | checker/proxy_update.go:128-165 | The plan holds changed(o, n) exactly for the pairs whose revisions differ, renamed(o, n) exactly for those with equal revisions and different displays, and added and removed exactly for the entries in no pair |
| UpdatePlan.ProxiesToCheck | checker/proxy_update.go:53-61 | The entries to check are those of the added and changed ones |
| UpdatePlan.CheckedIff | checker/proxy_update.go:53-61 | A new entry is to be checked unless it is paired with an entry of its own revision |
| UpdatePlan.FirstComeFirstServed | checker/proxy_update.go:110-135 | New entries are served in order, and each is paired with the first entry left that is shown alike, or else with the first one left |
| UpdatePlan.AlikeIff | checker/proxy_update.go:168-175 | Entries are shown alike exactly if protocol, subscription, group and name agree, but for space and the case of the protocol |
| UpdatePlan.EarlierIff | checker/proxy_update.go:177-183 | The sets are sorted by protocol, subscription, group, name and revision |
| UpdatePlan.Match | checker/proxy_update.go:110-149 | The loop over buckets is the greedy matching: it prefers the entry with the same display, takes the first one otherwise, and changes no identity but those of the pairs |
| UpdatePlan.PlanIsMatching | checker/proxy_update.go:98-166 | Every old proxy is matched or removed exactly once, and every new one matched or added exactly once |
| UpdatePlan.NothingLeftToPair | checker/proxy_update.go:151-165 | Pass one pairs equal revisions, pass two equal displays with different revisions, and no added and removed entry share either |
| UpdatePlan.PassOnePairsMin | checker/proxy_update.go:110-151 | Pass one makes exactly min(old, new) pairs of every revision |
| UpdatePlan.PlanEmptyIff | checker/proxy_update.go:98-166 | The plan is empty exactly when old and new hold the same multiset of revision and display |
| UpdatePlan.IsConfigsEqual | xray/utils.go:49-78 | The comparison of counts decides equality of the multisets of signatures |
| UpdatePlan.SignatureTells | xray/utils.go:24-48 | Equal signatures mean equal revisions and names, if the names do not contain the separators |
| UpdatePlan.SameSignatureIff | xray/utils.go:24-48 | Without separators in names and labels, signatures are equal exactly if revision, names and labels are |
| UpdatePlan.EqualConfigsGiveEmptyPlan | xray/utils.go:49-78 | When IsConfigsEqual finds no difference between sets with such names, the plan is empty |
| UpdatePlan.SeparatorHidesRenaming | xray/utils.go:24-35 | A separator inside a name can hide a renaming from IsConfigsEqual |
| UpdatePlan.IdentitiesDistinctIff | checker/proxy_update.go:98-166 | With distinct old identities the new ones are distinct exactly when no added entry came with an identity that a pair carries over or another added entry came with |
| UpdatePlan.NoPresetsNoCollision | checker/proxy_update.go:98-166 | New entries without preset identities end up pairwise distinct |
| UpdatePlan.StablePresetsDontCollide | checker/proxy_update.go:98-166 | If the new entries come with distinct identities, and one that is an old entry's only where their revision is an old one and no other new entry has it, all identities end up distinct |
| UpdatePlan.ReturnCollides | checker/proxy_update.go:98-166 | Two plans in a row: an endpoint's identity is carried over to a successor of the same display, the endpoint returns with its deterministic identity beside the successor, and both end up with it |
| SourceSwitch.ExecutionIsSafe | network-source-control.py:200-291 | Over all interleavings and crashes: never both request files, each request claimed at most once, the starter called at most twice per request and only while the expected epoch is the committed one, no reconnect admitted by the dashboard beside a source change |
| SourceOutcome.OutcomeTells | network-source-control.py:222-270 | Over every run, at the step that publishes the outcome of a request: succeeded exactly if it passed its checks and, for an activation, the first call of the starter, with the requested source and adapter, succeeded; then the committed configuration is the requested one with that call's epoch, otherwise the one found, with the epoch of a successful second call for the former source; the committed session is the one published |
| SourceOutcome.ConfigureChangesOne | network-source-control.py:229-237 | A succeeded configure changed the adapter of the requested, inactive source and nothing else; validate and everything that failed its checks changed nothing |
| SourceOutcome.ChecksPassIff | network-source-control.py:204-220 | A request passes exactly if it expects the committed epoch, does not change the active adapter in passing, and its other checks pass; it is compared with what was committed at its claim |
| SourceOutcome.SwitchSucceeds | network-source-control.py:238-270 | A run from the beginning to a succeeded switch |
| SourceOutcome.JobChanges | network-source-control.py:222-294 | The published job changes only when a request is announced, activated, rolled back or finished, and when an interrupted one is found |
| SourceOutcome.PublishedIsCommitted | network-source-control.py:271-294 | While no activation is claimed, the published session is the committed one |
| SourceOutcome.AdmissionFilesIff | web/network_sources.go:61-138 | An undisturbed admission files the request exactly if the status is fresh, no job or other request is pending, the user has seen the published epoch and does not configure the active source |
| SourceOutcome.ReconnectQueuedIff | web/network_recovery.go:56-98 | An undisturbed reconnect is queued exactly if nothing is pending and the phone is published |
| SourceOutcome.EvaluationIff | checker/network_status.go:37-86 | An undisturbed evaluation is positive exactly if the source works, nothing is activating, the status is fresh, and checker, heartbeat and published session agree |
| SourceSwitch.ClaimedNotServedAgain | network-source-control.py:271-291 | A claimed request that is finished or was interrupted is never served again |
| SourceSwitch.InterruptedIsAbandoned | network-source-control.py:277-281 | A crash while a request is served abandons it for good |
| SourceSwitch.OnlyStartedIsCommitted | network-source-control.py:222-270 | The committed source and epoch change only in a step of the supervisor, to a pair for which the starter reported success |
| SourceSwitch.FailedActivationRestores | network-source-control.py:250-262 | A failed activation leaves the committed configuration as it was, but for the epoch of a successful rollback |
| SourceSwitch.ReadyIsFenced | checker/network_status.go:37-86 | Ready means: when processing.json was read no activation was between claim and published outcome and every one admitted before request.json was read was finished; checker, heartbeat and published session agree; every newer bridge that was up at the start is an orphan, one that came up though its starter failed or was given up or whose commit a crash prevented |
| SourceSwitch.OldSessionNeverReady | checker/network_status.go:37-86 | Over all runs, with crashes and with starters that fail with their bridge up, a checker of an older session whose evaluation starts after a newer bridge came up is never told that it is ready, unless that bridge is an orphan |
| SourceSwitch.OrphanLetsOldBeReady | checker/network_status.go:37-86 | Conversely, in every state with no activation pending and a bridge up that is newer than the published session, steps of the gate alone lead to a Ready of the older session with that bridge up |
| SourceSwitch.QuietNewerIsOrphan | network-source-control.py:238-270 | In a reachable state of that kind the bridge is an orphan |
| SourceSwitch.OrderlyOldSessionNeverReady | network-source-control.py:238-270 | There are no orphans without crashes and with starters whose bridge is down when they fail |
| SourceSwitch.LostBridgeReady | network-source-control.py:238-247 | A crash between the start of a bridge and its commit lets the older session be ready while the newer bridge is up |
| SourceSwitch.LeftUpReady | network-source-control.py:196-262 | So does, without a crash, a starter that reports failure with its bridge up, when the rollback fails |
| SourceSwitch.RecoveryApartStep | web/network_recovery.go:65-98 | Admitted reconnects and source requests exclude each other in every step, since both admissions share one mutex and check each other's files |
| SourceSwitch.DeskKnowsStep | web/network_sources.go:61-138 | What an admission has seen of the two request files stays true until it links its own, because request.json is looked at before processing.json |
| ProbeBudget.NewProbeBudget | checker/probe_budget.go:18-33 | The diagnostic allowance is a tenth of the limit, between one and four |
| ProbeBudget.BudgetHolds | checker/probe_budget.go:35-69 | Over all interleavings with cancellation: slot holders stay within the limit, diagnostic holders within the allowance, active probes hold slots, and giving tokens back never blocks |
| ProbeBudget.AllReturned | checker/probe_budget.go:35-69 | When no probe holds or is acquiring tokens, every count is zero again |
| ProbeBudget.OrdinaryProbesFindRoom | checker/probe_budget.go:10-33 | As long as fewer ordinary probes than limit - allowance hold slots, one is free; that is at least one slot exactly when the limit is at least two |
| ProbeBudget.NotStuck | checker/probe_budget.go:35-69 | While a probe waits, some probe can take a step or holds tokens that it may release |
| ProbeBudget.ReleasedOnce | checker/probe_budget.go:57-68 | A second release changes nothing at any later time |
| ProbeBudget.ProbeTakes | checker/probe_budget.go:35-56 | A probe that finds room takes one slot, one of the allowance if it is a diagnostic one, and is counted |
| ProbeBudget.ProbeGivesBack | checker/probe_budget.go:57-68 | Its release gives exactly these back |
| DiagnosisQueue.QueuedOnce | checker/diagnosis.go:475-546 | Every entry in diagnosisQueued stands for exactly one token, at a goroutine, in the channel or with the worker; the channel holds a node at most once and at most 256 |
| DiagnosisQueue.SingleFlight | checker/diagnosis.go:224-269 | At most one diagnosis is not completed, it is the newest of its node, and it exists only while diagnosisRunning |
| DiagnosisQueue.HistoryIsNewest | checker/diagnosis.go:1087-1109 | The kept history of a node is its last ten diagnoses, each in its latest state |
| DiagnosisQueue.OwnContext | checker/diagnosis.go:553-572 | An execution reads the context made for it, and is cancelled while under way only if it is automatic |
| DiagnosisQueue.TakenInOrder | checker/diagnosis.go:475-516 | Over every run the nodes sent while the channel had room are those that the worker took, in the same order, followed by those in the channel |
| DiagnosisQueue.EntryLasts | checker/diagnosis.go:475-551 | A node enters the queue once, is dropped only if the channel is full, and leaves its entry only then or when the worker has begun or skipped it |
| DiagnosisQueue.SendEnds | checker/diagnosis.go:483-492 | A send puts the node at the end of the channel if there is room and takes the entry back if there is none |
| DiagnosisQueue.BeginTells | checker/diagnosis.go:249-265 | Beginning a diagnosis while none runs adds its queued report and takes the flight, with its trigger |
| DiagnosisQueue.WorkerTells | checker/diagnosis.go:516-546 | The worker keeps trying while a diagnosis runs or checks have priority, skips what needs no diagnosis, and otherwise begins one and removes the entry |
| DiagnosisQueue.ExecutionEnds | checker/diagnosis.go:553-572 | An undisturbed execution ends with its report completed, the other reports as they were, and the flight cleared |
| DiagnosisQueue.CancelTells | checker/probe_budget.go:71-79 | Cancelling what is automatic cancels the running diagnosis exactly if it is automatic |
| Locks.UseIsCurrent | checker/monitor.go:767-813 | Whoever dials a local port has looked its binding up in the proxy set that is still current, and nobody is about to restart Xray or replace the set |
| Locks.VersionCounts | checker/monitor.go:745-813 | Over every run the version of the proxy set counts its replacements, so that a replaced set never becomes current again |
| Locks.RestartExcludesChecks | checker/monitor.go:745-755 | While Xray is restarted or the set replaced, no check set, diagnosis or access check is between resolving its targets and finishing with them |
| Locks.NeverStuck | checker/monitor.go:722-813 | No reachable state is stuck, even with locks that let waiting writers go first |
| Locks.OperationsObey | subscription_update.go:29-132 | The checks, refreshes, replacement verification, diagnoses, access checks and TCP probe rounds acquire in rank order, resolve their targets under the runtime lock and restart only under its writer lock |
| Locks.DiagnoseLeads | checker/diagnosis.go:519-580 | A diagnosis is one of these programs: priority, runtime, proxy lock, diagnostics, slots |
| Locks.AccessCheckLeads | checker/access_check.go:385-406 | So is the VPN part of an access check |
| Locks.WaitEnds | checker/monitor.go:722-813 | Every waiting thread starts a chain in which each waits for the next, the ranks of what they wait for rise, and the last can go on |
| Packing.PackTelegramMessages | alerts/manager.go:1008-1027 | The messages are the joined groups of the greedy cut |
| Packing.JoinedMessagesIff | alerts/manager.go:1008-1027 | Joining the messages gives back the joined non-empty blocks exactly when no empty block arrived while the message being filled had room for it |
| Packing.EmptyBlockSwallowed | alerts/manager.go:1008-1027 | An empty block in the middle does add a gap |
| Packing.FewestMessages | alerts/manager.go:1008-1027 | When every block fits, the messages are a cut into fitting runs, with as few messages as any such cut |
| Packing.FormatDigestBlocks | alerts/manager.go:950-969 | The blocks are the lines of all items, in order, cut under one heading; a block of several lines is within 3200 and ends only where the next line would not fit |
| Packing.FormatNotifications | alerts/manager.go:832-873 | No items give nothing, one its own message, several the packed digests of the six sections |
| Packing.EveryItemOnce | alerts/manager.go:841-871 | Every notification is in exactly one section |
| Packing.SectionHolds | alerts/manager.go:841-871 | A section holds exactly the notifications of its kinds, in their order: critical, new_ip_failed and reminder; unstable; ip_changed; recovered and new_ip_verified; network_recovered; all others |
| Packing.DigestLines | alerts/manager.go:841-872 | The lines of all blocks are the lines of all notifications, each once, section by section |
| Packing.DigestHasNoEmptyBlock | alerts/manager.go:950-969 | A digest has no empty block, so packing it loses nothing |
| Packing.DigestFits | alerts/manager.go:1008-1027 | A digest whose blocks fit yields fitting messages, as few as possible |
| Results.StoredTimeGrows | checker/diagnosis.go:1036-1078 | In every step the stored time of a binding stays or grows, and evidence replaces a result only if it was measured no earlier, and keeps its exit address |
| Results.StoredTimeNeverDecreases | checker/checker.go:225-269 | The same over any interleaving of checks and evidence under the per-binding locks |
| Results.TableIsLastWritten | checker/checker.go:225-269 | Over every run the table holds the last result written for a binding: what a check measured while the network was ready, or a diagnosis' evidence with its own time |
| Results.CheckLeaves | checker/checker.go:225-269 | An undisturbed check stores its measurement exactly if the network is ready |
| Results.EvidenceLeaves | checker/diagnosis.go:1036-1078 | An undisturbed diagnosis stores its evidence exactly if nothing newer is stored, and keeps the exit address |
| Results.PersistResults | checker/results_store.go:199-242 | A snapshot holds the stored results of the current set, in order; they are under their bindings' own revisions exactly unless two bindings with a result share all labels but not the revision |
| Results.LoadResults | checker/results_store.go:54-129 | What is restored, and whether the sweep counts as complete or is to be resumed |
| Results.NeverAnotherRevision | checker/results_store.go:105-109 | A restored result was saved under the binding's own, non-empty revision, whatever the snapshot holds |
| Results.RoundTrip | checker/results_store.go:54-129 | Saving and loading an unchanged set restores every result with its time cut to seconds; a binding without one can only get that of a twin |
| Results.UncheckedGetsIff | checker/results_store.go:86-120 | After a round trip a binding without a result has one exactly when the sole saved binding shown alike, or the first one at its address, has its revision, and then it is that one's |
| Results.TwinGetsResult | checker/results_store.go:88-104 | An unchecked binding does get the result of its only twin |
| Results.CompleteAfterRoundTrip | checker/results_store.go:124-125 | A covered set is covered again after a round trip |
| Classifiers.RunDirectDiagnostics | checker/diagnosis.go:736-799 | The direct reports cover every port of the bindings and every server name behind a port that accepts connections, and nothing else, in whatever order the targets are probed |
| Classifiers.ClassifyNodeDiagnosis | checker/diagnosis.go:960-1006 | The counting loops decide the verdict on a node |
| Classifiers.GetBindingDiagnosis | checker/diagnosis.go:405-450 | The search through the report decides the verdict on a binding |
| Classifiers.Diagnose | checker/diagnosis.go:600-666 | A diagnosis, interrupted anywhere or not, yields a report of this shape; without a reachable TCP port and without UDP the tunnels are not tried |
| Classifiers.InconclusiveTells | checker/diagnosis.go:405-450 | An inconclusive diagnosis says of a binding what a probe that was made has shown, and otherwise that it is inconclusive |
| Classifiers.InconclusiveIff | checker/diagnosis.go:600-666 | A diagnosis is inconclusive exactly if it was interrupted before it had found an answer, and then blames no tunnel |
| Classifiers.VerdictsAgree | checker/diagnosis.go:374-451 | The verdict on the node is the one that the verdicts on its bindings call for: all healthy, some working, TCP unreachable, handshakes failing, or a failed tunnel |
| Classifiers.NodeVerdictBinds | checker/diagnosis.go:960-1006 | A healthy node has only healthy bindings, no failure verdict has a working binding, and a failure verdict holds for every binding it is about |
| Classifiers.DegradedIff | checker/diagnosis.go:975-977 | Degraded means that some binding works and not all are healthy |
| Classifiers.DegradedWithoutFailure | checker/diagnosis.go:975-977 | A degraded node may have no failed binding |

## Left out

- Network probes, the Telegram transport, subscription fetching, Xray and libXray: their outcomes are parameters.
- JSON, file permissions and the details of atomic writing: a write, a link and a rename are single steps, and a file that exists can be decoded.
- The snapshot migration of monitor records saved before revisions were versioned.
- The reconciliation of monitor records with a proxy set whose identities are not distinct: the table has one record per identity.
- EndpointPools.EndpointPool.Observe: the candidates are values in a map, so that clones and shared pointers between the pool and its callers are not modelled; `Observation` and the pool's own lock are not either.
- Monitor.ProxyMonitor.RecordMonitorResults: records are values in the table, which is the only place that refers to them; `NodeMonitorState` shows the update in place of one record.
- UpdatePlan.PlanProxyUpdate: `ChangedFields` of a change is not modelled.
- Confirmation of a large change by a second identical read before it is applied, and the stabilisation of a healthy server name.
- SourceSwitch.ReadyIsFenced: freshness of the published status and of the heartbeat is a free choice of every step, and the heartbeat is an arbitrary value, so nothing is said about how soon a new session becomes ready.
- SourceSwitch.ExecutionIsSafe: of the checks of a request, the supervisor's comparison of epochs, its refusal to configure the active source and the dashboard's order of looks are modelled; whether the others pass, such as age and inventory, is a free choice.
- SourceSwitch.OnlyStartedIsCommitted: the first creation of the configuration and the commands `startup` and `new-epoch`, which set an epoch without a starter call, are not covered.
- SourceSwitch.RecoveryApartStep: a reconnect that its supervisor starts without a request from the dashboard is not modelled, and a reconnect that is given up as stale counts as done.
- A second dashboard process: the admission mutex is within one server.
- Locks.OperationsObey: each operation is modelled with its longest sequence of acquisitions; a run that ends early releases what it holds in the same order. Locks that are taken and released with nothing taken inside are represented by one leaf lock per place.
- Fairness and time: the lock and queue results say that something can go on, not that the runtime schedules it.
- DiagnosisQueue.SingleFlight: the report of a diagnosis is its number and state, without its content.
- Results.RoundTrip: the stored labels are compared as values; pruning and the renaming of results by a subscription update are not modelled.
- Classifiers.VerdictsAgree: it is about diagnoses that are not interrupted, and about the bindings that were diagnosed; `Classifiers.InconclusiveTells` is about the others. Staleness and the queued state are not modelled.
- Packing.FormatNotifications: the texts of single notifications and lines are given; the queueing and repeating of notifications is not modelled.
- Assignment of stable IDs and generated tag routing: the former repeats the pattern of logical IDs without presets, the latter would add only easy members.
- Dashboard pages, metrics, logging and the remaining handlers.
