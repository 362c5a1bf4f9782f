# Node rotation, modelled and proved

A Kubernetes controller replaces nodes before Karpenter's forceful expiration does. It
keeps all of its state in annotations, works through a cache that may lag, may stop
between any two writes, and starts rotations only inside weekly maintenance windows. This
project models that controller and proves what its design promises.

Four parts, each against the code it models:

- **The rotation protocol** (`Protocol`, `Invariants`, `Runs`, `Signals`, and the code over
  them: `Server`, `Client`, `Rotation`, `Nodeops`, `Sweep`). `Protocol` says which writes
  are allowed in which state and what the rest of the cluster may do in between.
  `Server.ApiServer` is the API server as a class of versioned objects behind a cache;
  every write goes through one method, which only takes a step the protocol allows, and its
  validity says that its whole history is a run of the protocol. The handlers of
  `Rotation.Reconciler` are methods over it: that they verify means that no handler, on any
  path, under any failure and any interference, takes a step the protocol does not allow.
  `Runs` and `Signals` prove safety over all runs. Two environments are kept apart by the
  flag `current`: with it, reads return the current object (the crash environment, where
  the process may stop after any write); without it, a read may return any version the
  cache has not moved past (the stale environment).
- **The calendar** (`Calendar`, `Weekly`, `Periods`): the occurrence search, the in-place
  merge of the weekly projection, and the figures read off it.
- **The decisions** (`Derivation`, `Selection`, `Decide`, `Promise`, `Pods`, `Surge`): the
  age threshold and its chances, the candidate order, the backoff ladder, the lost-window
  verdict, the placeholder's size.
- **The simulator** (`Sim`, `SimRun`, `Simulator`, with the theorems of `Relay`, `Horizon`,
  `Breaches`, `Grid`, `Guarantee`): `SimRun.Run` is the clock loop as a class, proved to
  compute the function `Sim.Ran`; the theorems are about that function, for every
  configuration and every length of run.

`Clock`, `Notes` and `Sorting` hold the time base, the parsed annotations and a sort.

An instant is a whole number of seconds, the granularity of the timestamps the controller
persists (section 5.6 of RFC 3339, without a fraction).

## Model

| member | source | states |
|---|---|---|
| Runs.NothingOutlivesItsAnchor | internal/controller/rotation_controller.go:1242-1320 | crash environment, after every write of every run: no placeholder but a terminating one is left for a claim the pool is not anchored on, no node is marked for one, and no owned protection or controller cordon stands without a marker |
| Runs.MakeBeforeBreak | internal/controller/rotation_controller.go:1053-1150 | crash environment: the anchored claim is deleted only when pool and claim are durably draining, and either the rotation is the surge-less fallback or, in this attempt, its placeholder was seen running, then its host ready, and then the host frozen for it (or gone for good) |
| Runs.SerialGate | internal/controller/rotation_controller.go:2091-2099 | both environments: an anchor is never overwritten, so two anchor writes have a release between them |
| Runs.FieldsLiveWithTheAnchor | internal/controller/rotation_controller.go:2189-2204 | crash environment: the five fields of a rotation exist only while the anchor does |
| Runs.PrefixValid | internal/controller/rotation_controller.go:2235-2261 | a stop after any event leaves a run, so every statement about runs holds after every single write |
| Invariants.NextKeepsOk | internal/controller/rotation_controller.go:2235-2316 | both environments: every allowed step, and every step of others, keeps the objects well-formed |
| Invariants.NextKeepsInv | internal/controller/rotation_controller.go:1242-1320 | crash environment: every step keeps the invariant, whose core is that a claim recorded as failed has been cleaned up after |
| Invariants.OthersAreSteady | internal/controller/rotation_controller.go:2294-2316 | nothing the rest of the cluster does changes the controller's own annotations, markers or counts |
| Signals.ClaimLifecycle | internal/controller/rotation_controller.go:940-1000 | both environments: a claim's phase moves only along the lifecycle, and only by a write of the controller |
| Signals.TerminalPhases | internal/controller/rotation_controller.go:1326-1343 | draining lasts as long as the claim, expired is absorbing |
| Signals.StartedAtIsFixed | internal/controller/rotation_controller.go:985-996 | two different start instants of a claim have a recorded failure between them |
| Signals.FailuresAlternateWithReentries | internal/controller/rotation_controller.go:1259-1293 | two failures of a claim have a re-entry between them |
| Signals.RetryCountsFailures | internal/controller/rotation_controller.go:1276-1279 | the retry count is the number of failures written, counted over the run |
| Signals.ExpiredWasDeleting | internal/controller/rotation_controller.go:2343-2371 | a claim is written off as expired only once it is really being deleted, however stale the read |
| Signals.SignalsMapOneToOne | internal/controller/rotation_controller.go:1494-1538 | every signal stands for exactly one successful write that calls for it, and no write is announced twice |
| Signals.SignalsConserved | internal/controller/rotation_controller.go:1494-1538 | for every kind of signal: called for = emitted + owed + dropped by stops |
| Signals.SuccessCount | internal/controller/rotation_controller.go:1494-1538 | successes counted never exceed rotations completed, and equal them when nothing is owed and the process never stopped |
| Signals.CompletionIsReal | internal/controller/rotation_controller.go:1479-1538 | a rotation completes only for the anchored claim, once that claim is gone |
| Signals.LossesNeedStamps | internal/controller/rotation_controller.go:743-789 | every loss reported consumes an opening of its own |
| Signals.MissedCount | internal/controller/rotation_controller.go:743-789 | lost windows announced never exceed openings recorded |
| Signals.LossJustified | internal/controller/rotation_controller.go:750-789 | a reported loss is justified by the durable annotations at the instant of the clearing write |
| Signals.CompletedIsNeverMissed | internal/controller/rotation_controller.go:750-789 | an occurrence during whose stamp a rotation completed is never reported lost |
| Signals.StartsAreGated | internal/controller/rotation_controller.go:496-676 | both environments: every start passed every gate on exactly the annotations its anchor was written to, for a claim eligible on the listing it came from |
| Signals.CooldownKept | internal/controller/rotation_controller.go:1515-1525 | the start after a completion waits for the cooldown, in whichever process it is made |
| Signals.FailurePauseKept | internal/controller/rotation_controller.go:1296-1320 | the start after a rollback waits for the failure pause, and the torn-write repair never voids it |
| Signals.FallbackWasDecided | internal/controller/rotation_controller.go:1161-1190 | crash environment: a recorded fallback mode goes back to a decision, in this anchoring, that the deadline left no room for a surge |
| Server.ApiServer.UpdatePool | internal/controller/rotation_controller.go:2235-2261 | an update is applied only at the current version, whatever others did since the read; a refusal leaves the controller's own state as it was |
| Server.ApiServer.UpdateClaim | internal/controller/rotation_controller.go:2294-2316 | the same for a claim, which may also have gone |
| Client.PatchClient.PatchPoolIf | internal/controller/rotation_controller.go:2235-2261 | "written" exactly when the last attempt's update landed, and then by the edit of that attempt on the pool as it was at the write; a veto writes nothing; an error is reported exactly with an error met |
| Client.PatchClient.PatchClaimIf | internal/controller/rotation_controller.go:2294-2316 | the same for a claim, telling written, vetoed and gone apart |
| Client.PatchClient.PatchNode | internal/controller/rotation_controller.go:2379-2402 | afterwards the node is as the mutation asks, or gone; with nothing to change nothing is written |
| Client.PatchClient.UnfreezeNodes | internal/controller/rotation_controller.go:2422-2436 | crash environment: success means that no node is marked for the claim any more, in whatever order they are met |
| Client.PatchClient.AnchorRotation | internal/controller/rotation_controller.go:2093-2099 | the anchor is written only at the version the gates were evaluated on |
| Client.PatchClient.DeletePlaceholder | internal/controller/rotation_controller.go:2469-2474 | success means the placeholder is going or gone |
| Rotation.Reconciler.CleanUp | internal/controller/rotation_controller.go:1254-1259 | crash environment: success means that nothing of the rotation is left on nodes or among placeholders |
| Rotation.Reconciler.MarkExpired | internal/controller/rotation_controller.go:2343-2371 | the right to announce an expiry comes from the write that made it; an already expired, raced or vanished claim owes nothing |
| Rotation.Reconciler.AbortPendingExpiry | internal/controller/rotation_controller.go:1201-1236 | a candidate force-expired in pending ends with the anchor released as aborted, an error, or a phase only a later pass can handle |
| Rotation.Reconciler.RecordFailure | internal/controller/rotation_controller.go:1259-1293 | a failure is recorded exactly when the claim was rolled back once: failed, its retry count one higher, its attempt cleared; otherwise an error or a vanished claim |
| Rotation.Reconciler.FailPending | internal/controller/rotation_controller.go:1242-1320 | a release by rollback leaves the claim failed, retried exactly once more and with its attempt cleared, and the pool cleared and paused |
| Rotation.Reconciler.SurgeReady | internal/controller/rotation_controller.go:1679-1695 | a host is reported only when the placeholder runs on it, it is Ready, of the pool, and not the candidate's own |
| Rotation.Reconciler.BeginDrain | internal/controller/rotation_controller.go:1095-1150 | without an error the drain is under way: the pool records it, and the claim records it and is being deleted, or is gone |
| Rotation.Reconciler.AdvancePending | internal/controller/rotation_controller.go:965-1151 | every path of the pending handler takes allowed steps only, and an anchor it releases was aborted or rolled back |
| Rotation.Reconciler.StartForcefulFallback | internal/controller/rotation_controller.go:1161-1190 | taken only when the deadline leaves no room for a surge; without an error the drain is under way, as above |
| Rotation.Reconciler.AdvanceDraining | internal/controller/rotation_controller.go:1326-1343 | a pass over a draining claim leaves its drain under way, re-issuing what a stop left undone |
| Rotation.Reconciler.AdvanceFailed | internal/controller/rotation_controller.go:1350-1441 | re-enters only through every gate and past the backoff; otherwise releases with the pause, repaired; ends, since re-entry spends the durable failed phase |
| Rotation.Reconciler.CompleteOrAbort | internal/controller/rotation_controller.go:1479-1573 | the end of a rotation whose claim is gone: in the crash environment a drained one starts the cooldown with the write that releases the anchor |
| Rotation.Reconciler.ReapUngovernedRotation | internal/controller/rotation_controller.go:2130-2159 | a rotation the controller no longer governs is released once, by the pass whose write cleared that very anchor |
| Rotation.Reconciler.EvaluateWindowEdge | internal/controller/rotation_controller.go:710-792 | a settled or lost window is no longer on record after the pass, unless the action itself changed |
| Rotation.Reconciler.Reconcile | internal/controller/rotation_controller.go:120-187 | one whole pass, in either environment, takes allowed steps only and reports an error only when it met one |
| Nodeops.Node.ApplyFreeze | internal/controller/nodeops.go:28-36 | the method computes the freeze of the marker state and reports whether anything changed |
| Nodeops.Node.ApplyUnfreeze | internal/controller/nodeops.go:76-83 | the method computes the unfreeze and reports whether anything changed |
| Nodeops.OperatorProtectionKept | internal/controller/nodeops.go:28-98 | over any sequence of the four mutators an operator's protection stays the operator's |
| Nodeops.OperatorCordonKept | internal/controller/nodeops.go:54-98 | over any sequence of the four mutators an operator's cordon stays |
| Nodeops.OtherAnnotationsKept | internal/controller/nodeops.go:28-124 | no other annotation is ever touched |
| Nodeops.UnfreezeRestoresExactlyWhen | internal/controller/nodeops.go:76-83 | after any freezes and cordons of an unmarked node, unfreeze restores it exactly if and only if it was never frozen or its do-not-disrupt was absent or "true" |
| Sweep.Sweeper.Sweep | internal/controller/sweep.go:39-52 | the sweep as the code runs it computes, on each kind of object, what the specification functions say |
| Sweep.SweepIsIdempotent | internal/controller/sweep.go:39-52 | it never touches what an anchor references, and a second sweep changes nothing |
| Sweep.SweptClean | internal/controller/sweep.go:150-221 | of a node no anchor references nothing of the controller's is left if and only if it was marked for a claim or bore no owned protection |
| Sweep.SweepSparesTheOperator | internal/controller/sweep.go:150-221 | an operator's protection and cordon survive the sweep |
| Sweep.StrayFieldsGoneExactlyWhen | internal/controller/sweep.go:59-82 | exactly when an unanchored pool comes out of the sweep with no field of a rotation |
| Sweep.SweepFindsNothing | internal/controller/sweep.go:39-52 | crash environment: no stop leaves the sweep anything to do on the pool, on nodes, or among placeholders not already going |
| Calendar.MinuteAlignedZones | internal/window/window.go:125-145 | the zone audit accepts exactly when every offset and every shift in the span is a whole number of minutes |
| Calendar.Refine | internal/window/window.go:233-243 | the binary search returns an instant where membership turns |
| Calendar.FirstOutAfter | internal/window/window.go:202-212 | the walk and the search find the first instant out of the window, or there is none within the horizon |
| Calendar.FirstInAtOrBefore | internal/window/window.go:216-226 | the same backwards, to the first instant of the occurrence |
| Calendar.OccurrenceBounds | internal/window/window.go:179-195 | with zones that shift: the bounds returned are the maximal open stretch around the instant, and they are returned exactly when the audit passes and both edges lie within the horizon |
| Calendar.OccurrenceUnique | internal/window/window.go:179-195 | that stretch is unique, and every instant of it has it |
| Weekly.FixedBoundsConstant | internal/window/window.go:179-195 | on fixed zones the bounds are the same at every instant of the occurrence |
| Weekly.MergeInPlace | internal/window/window.go:290-302 | the compaction of a slice while reading it leaves, in its front, the merge of what it held |
| Weekly.MergedOccurrences | internal/window/window.go:260-319 | projection, sort, in-place merge and wrap join give the occurrences |
| Weekly.OccurrencesAreUnion | internal/window/window.go:260-319 | an instant is in the window if and only if it falls in a merged occurrence; those are pairwise disjoint, non-adjacent, maximal |
| Periods.WorstCasePeriod | internal/window/window.go:327-358 | the period is the least p such that every span (t, t + p] holds an opening; one tick for a window that never closes |
| Periods.ShortestWindow | internal/window/window.go:368-380 | the length of the shortest maximal open stretch of the timeline |
| Periods.ShortestIdleGap | internal/window/window.go:397-423 | the length of the shortest maximal closed stretch, positive, when the window opens and closes |
| Periods.WeekIsOpenPlusIdle | internal/window/window.go:327-423 | for a fixed schedule that opens and closes: its occurrences are its maximal open stretches and the gaps between them its maximal closed ones, together exactly one week, and any seven days hold exactly the open part in the window |
| Derivation.AcceptedExactlyWhen | internal/schedule/schedule.go:188-303 | a schedule has no fatal finding exactly when it has a period, asks for a chance, and the threshold is positive with that many periods and one rotation before the expiry |
| Derivation.GuaranteedChances | internal/schedule/schedule.go:210-222 | G is the number of whole periods between the threshold and the last instant a rotation can still complete |
| Derivation.DerivedAsOverride | internal/schedule/schedule.go:210-222 | the derived threshold, fed back as an override, guarantees the same k chances |
| Derivation.EstimatesAreForecastOnly | internal/schedule/schedule.go:150-183 | the estimates change neither t_rot, A, G nor acceptance |
| Derivation.ThroughputCountsStarts | internal/schedule/schedule.go:224-242 | C counts the multiples of the start spacing that fall strictly before the close |
| Promise.PeriodsHoldChances | internal/window/window.go:327-358 | any k reported periods hold k opportunities, each in another occurrence |
| Promise.KChances | internal/schedule/schedule.go:188-242 | between a claim's trigger and the last instant a rotation can complete lie at least k opportunities, each in the window, past the trigger, in time, and taking no fallback |
| Promise.OverrideChances | internal/schedule/schedule.go:210-222 | the same for an explicit threshold, with the G the derivation reports |
| Promise.AnnouncedRetryIsFirst | internal/controller/rotation_controller.go:464-474 | on a fixed schedule the retry instant announced is the first, from the announcement on, at which the backoff test holds |
| Promise.BothTestsArePastBackoff | internal/selection/selection.go:233-253 | selection's test of an unanchored claim and the anchored retry's are the same test |
| Promise.RetryActsWhenAnnounced | internal/controller/rotation_controller.go:1350-1441 | so either of them first passes, from the announcement on, exactly at the announced instant |
| Selection.PickEarliestDeadlineEligible | internal/selection/selection.go:111-123 | the loop returns an eligible claim no eligible one precedes, and none exactly when none is eligible |
| Selection.PickIsUnique | internal/selection/selection.go:111-123 | among distinct names the pick does not depend on the order of the list |
| Selection.EarlierIsStrictTotalOrder | internal/selection/selection.go:179-194 | the candidate order is a strict total order on distinctly named claims |
| Selection.WalkLadder | internal/selection/selection.go:306-334 | the walk down the ladder computes the effective backoff the lemmas below are about |
| Selection.EffectiveBackoffIsLargestFit | internal/selection/selection.go:306-334 | inside the occurrence the applied step is the largest, up to the ladder position, that lands before the close |
| Selection.EffectiveBackoffOtherwise | internal/selection/selection.go:306-334 | in every other case the escalated step is applied as it is |
| Selection.EffectiveBackoffMonotone | internal/selection/selection.go:306-334 | more failures never shorten the wait |
| Selection.TakeCensus | internal/selection/census.go:57-87 | the loop counts every claim under the first check it fails |
| Selection.CensusPartition | internal/selection/census.go:57-87 | the buckets partition the list, and the eligible one is what selection counts |
| Selection.OutstandingIgnoresBackoff | internal/decide/windowclose.go:66-131 | what a window leaves outstanding is what would be eligible if no backoff held |
| Selection.BoundsMatterOnlyForFailed | internal/sim/loop.go:220-258 | with no failed claim the occurrence bounds decide nothing, so skipping them changes neither pick nor census |
| Decide.MissedExactlyWhen | internal/decide/windowclose.go:105-131 | a window is lost if and only if it closed on record, with nothing in flight, no freeze, a claim due by age, and no completion since it opened |
| Pods.PinnedRunsNowhereElse | internal/surge/requests.go:105-137 | a Pod set aside as pinned can run on no other host |
| Pods.DrainPlusOverhead | internal/surge/requests.go:31-52 | the drain and the overhead are disjoint parts of what the scheduler admitted |
| Pods.CensusMatchesSizing | internal/surge/census.go:30-50 | the Pod buckets partition the node's Pods, and with none counted nothing is requested |
| Surge.Clamp | internal/surge/clamp.go:187-224 | the loop over sorted names lowers exactly the demands above a positive ceiling, and refuses with the first one under none |
| Surge.NothingIsLost | internal/surge/clamp.go:187-224 | what is still requested and what was given up make the drain |
| Surge.NoDemandVanishes | internal/surge/clamp.go:187-224 | no resource the drain needs ends at zero |
| Surge.ClampIdempotent | internal/surge/clamp.go:187-224 | clamping again changes nothing, and refuses again what it refused |
| Surge.ExceedsBand | internal/surge/clamp.go:85-94 | the first resource, by name, whose shortfall exceeds its band, or none does |
| Surge.ShortfallWithinBand | internal/surge/clamp.go:47-94 | if the scheduler admitted the Pods, the shortfall of the clamp never exceeds the band between the two allocatables |
| Surge.SizingWithinBand | internal/controller/rotation_controller.go:1655-1666 | the same for the size the placeholder is built from, in either mode |
| Surge.WholeNode | internal/surge/wholenode.go:86-101 | cpu, memory and the drain's own resources are raised to the ceiling, with the refusals the code makes |
| Surge.WholeNodeMeetsTheCeiling | internal/surge/wholenode.go:86-169 | the clamp of a whole-node request refuses or yields exactly the ceiling, giving up what the clamp of the drain alone gives up |
| Surge.NeverAnEmptyReservation | internal/surge/wholenode.go:118-146 | a whole-node reservation for a workload is never empty |
| SimRun.Run.Loop | internal/sim/loop.go:20-115 | the clock loop computes the function `Sim.Ran`, with the instant simulated through and whether the step budget ran out |
| SimRun.Run.Process | internal/sim/loop.go:62-83 | one processed instant: the window, the rotation in flight, the deadlines, a start, in that order |
| SimRun.Run.MaybeStart | internal/sim/loop.go:261-335 | the gates, the pick and the records of a start |
| Simulator.Resolve | internal/sim/resolve.go:41-121 | the resolution a run reads, with the period and the gap the calendar reports |
| Simulator.Simulate | internal/sim/sim.go:305-376 | refused exactly for the inputs it cannot run; otherwise the timeline shows the run of the resolved configuration, its events sorted, and a guaranteed fleet has no breach on it |
| Relay.TimelineStructure | internal/sim/loop.go:20-218 | every timeline: rotations start in the window and are serial with the cooldown between; each slot relays consecutive generations; nothing lies after the instant simulated through |
| Relay.NeverOverlap | internal/sim/loop.go:261-335 | any two rotations, not only neighbours, are apart |
| Relay.ThroughputBoundsStarts | internal/schedule/schedule.go:224-242 | with the fallback off and the world as estimated, no occurrence of the forecast's length holds more than C starts |
| Horizon.WindowsAreTheSchedule | internal/sim/sim.go:504-522 | the windows of a timeline are sorted and disjoint, their unclipped ends are real turns, and they show exactly when the schedule is open |
| Breaches.LastCheckIsLast | internal/sim/loop.go:117-131 | the computed last check of a finished rotation is the latest of the instants at which deadlines are checked during its flight |
| Breaches.BreachesReported | internal/sim/loop.go:207-218 | every configuration: a retired generation is reported if and only if its deadline is not after the last check before the completion; one still in its slot, if and only if its deadline was reached |
| Breaches.BreachMissedExactlyWhen | internal/sim/loop.go:73-85 | every configuration: what is reported is real, and a real breach goes unreported if and only if the deadline is past the rotation's start and neither a whole minute nor the surge's ready instant lies between it and the completion |
| Grid.OnTheGridAllReported | internal/sim/loop.go:117-218 | with the world, the fleet and the horizon in whole minutes, a breach is reported if and only if it is real |
| Grid.OffGridBreachMissed | internal/sim/loop.go:117-218 | an accepted call whose timeline misses a real breach |
| Grid.OffGridConfigExists | internal/sim/sim.go:305-376 | that call resolves: its calendar reports a period of one day |
| Guarantee.OneNodeNeverBreaches | internal/sim/loop.go:49-113 | end to end: a one-node fleet on template values with no fatal finding, whose horizon starts by its trigger and whose threshold leaves room for a rotation and its cooldown, never breaches, in any generation, over any horizon |

## Findings

What the code does not give, each with the input and the exact condition.

- **The simulator can miss a breach off the minute grid.** The clock jumps to a completion
  and processes it before it checks deadlines (internal/sim/loop.go:73-74), so a deadline
  between the last check and the completion is never seen, although the comments promise
  that breaches are not under-reported (internal/sim/loop.go:162-163, 204-206).
  `Grid.OffGridBreachMissed` gives an accepted call: a window open every day but for its
  last minute, the fallback enabled, one node that expires at second 30 with a drain of 45
  seconds. The rotation runs from 0 to 45, the node passes its deadline at 30, and no breach
  is on the timeline. `Breaches.BreachMissedExactlyWhen` is the condition, for every
  configuration.
- **The sweep leaves two of the five fields of a rotation, and the others without the
  state.** It repairs a pool that has the state but no anchor, and then removes three fields
  (internal/controller/sweep.go:70-75). `Sweep.StrayFieldsGoneExactlyWhen`: nothing is left
  exactly when there was no surge wait or path, and a drain start or mode only with the state.
- **The sweep leaves an owned protection that stands without a marker.** It selects nodes by
  the marker or the cordon (internal/controller/sweep.go:150-221). `Sweep.SweptClean` is the
  condition. `Runs.NothingOutlivesItsAnchor` shows that no stop of the controller produces
  such a node.
- **Unfreezing does not restore every do-not-disrupt value.** A freeze overwrites a value
  other than "true", and unfreezing removes it (internal/controller/nodeops.go:28-36, 76-83).
  `Nodeops.UnfreezeRestoresExactlyWhen` is the condition.

## Left out

- An update the server applied whose reply was lost: a failed request of the model never
  lands. It is the one case in which "written", as the retry loops report it, and the durable
  write can differ.
- Fractions of a second: the boundary search refines to whole seconds, the simulator's
  instants are whole seconds, and the instant just before a boundary is one second earlier.
- int64 durations and their overflow; duration arithmetic in the code is on integers too.
- The time-zone database and daylight saving in the weekly projection: offsets are given
  functions, piecewise constant for the occurrence search and fixed for the projection.
- Rotation.Reconciler.InducedClaim: which claim a placeholder induced is an arbitrary
  answer of the cluster, as are the surge path and the headroom; the proofs hold for any.
- Rotation.Reconciler.StartForcefulFallback: does not say that the fallback is counted once;
  the code counts it without a durable write of its own, also when the claim has vanished.
- At most one expiry announced per rotation: the code announces before a cleanup that may
  fail (internal/controller/rotation_controller.go:1222-1231) and again when the claim is
  found gone (internal/controller/rotation_controller.go:1533-1535); what is proved is that
  each announcement is of a write of its own.
- A fatal finding, a static pool and the outcome of the headroom check enter the handlers as
  inputs.
- Names of claims and nodes are never used twice, and a placeholder's name is its claim's.
- A placeholder that was deleted counts as going once it is terminating; its removal is the
  cluster's.
- One pool, one worker; two leaders at once, and operators editing the controller's own
  annotations, are not modelled.
- Sweep.Sweeper.Sweep: runs on one snapshot of the cluster, with no interference between its
  steps; it runs once, before the workers start.
- Phases other than the known ones: the branch that reports a stuck claim.
- Scheduling constraints of the placeholder: affinity, tolerations, excluded hosts; only its
  size is modelled.
- Effective Pod requests and quantities: a Pod comes with its request vector in whole units;
  that the scheduler admitted the Pods is a hypothesis where it is needed.
- Simulator.Simulate: on fixed zones; a fleet whose names repeat is accepted as the code
  accepts it, and the first slot of a name is the one rotated.
- Policy parsing, defaults and selection by specificity, status, metrics, event and log text,
  watches, and the browser: they decide nothing that is proved here.
