# Development Bridge: a verified model

A Dafny model of the stateful core of the Development Bridge, with proofs of what that core is for. Check it
with `dafny verify dfyconfig.toml`.

## What is modelled

**Wakes** (`Text`, `Wakes`, `CoordinatorSpec`, `Coordinator`, `CoordinatorGuards`, `Batches`, `CoordinatorRuns`,
`CoordinatorSafety`, `CoordinatorTheorems`, `Retries`, `RetryTiming`, `Escalations`, `Conservation`, `ConservationLimits`,
`ArmLaws`, `WakeEdits`). The coordinator keeps one pending wake per channel.
`CoordinatorSpec` gives every operation as a function of the whole state, disk included; `Coordinator` has the same
operations as methods of classes that update their fields, each proved equal to its function. `CoordinatorRuns` lets
any sequence of operations and restarts happen under a non-decreasing clock with fresh tokens; the theorems speak of
all such runs.

**Routes** (`ChannelNames`, `RouteSpec`, `Routes`, `RouteLocks`, `RouteSafety`, `RouteTargets`, `RouteEdits`,
`RouteFence`, `RouteControl`). The
route registry in the same two forms, its runs, and the fence: registry, coordinator and per-route locks as tasks that
interleave step by step and may crash between any two steps.

**Delivery** (`Bootstrap`, `WakeDelivery`). The crash-safe rollover bootstrap as a step machine with concurrent callers
under a re-entrant lock, and the delivery service's methods when nothing interrupts them.

**Desktop relay** (`JournalSpec`, `Journal`, `RelaySpec`, `Relay`, `RelaySafety`, `RelayTheorems`, `RelayOutcomes`, `Base64`,
`Upload`).
The operation journal over its rotated log, the command relay with restarts, and both ends of the chunked upload.

**Smaller algorithms** (`PathWalk`, `KernelPaths`, `Interpreters`, `ExternalTargets`; `ChangeSpec`, `ChangeLaws`, `ChangeRules`, `Changes`; `ReferenceTable`,
`ReferenceCycles`; `ExportRegistry`). Each has its loops or recursion as in the program and an independent definition it is proved against.

The methods of classes are proved equal to specification functions. What those functions have to do is stated apart from
them: over runs where time or order matters, and in plain terms in `ArmLaws`, `WakeEdits`, `RouteEdits`, `RelayOutcomes`,
`KernelPaths` and `ChangeRules`.

Conventions: times are real numbers of seconds, tokens are strings handed in and assumed fresh where the program draws
them at random, one method call is one critical section, saving is a copy to a disk field, JSON is lossless, digests are
functions (injective where a statement says so), and replacing a file is atomic.

## What the proofs show about the code

- A message that contains the batch separator, or ends in all of it but the newline, is not read back from a batch.
  Event conservation holds over every run exactly for the other messages
  (`ConservationLimits.ConservedExactlyForClean`). With "a", a newline and `--- bridge-batch ---` as the message: arm it,
  arm "b", and it waits under two other texts; arm it again, and it is accepted a second time
  (`ConservationLimits.UncleanMessageIsCountedTwice`).
- `unbind_and_cancel` cancels first and checks afterwards: with a delivery lease on record the wake and the durable
  waiters are gone and the route stays bound; `cancel_wakes` loses the wake when a waiter is firing
  (`RouteControl.RouteControlService.UnbindAndCancel`, `RouteControl.RouteControlService.CancelWakes`).
- The journal's windowed load can forget a row that memory had (`JournalSpec.LoadMayForgetARow`);
  `JournalSpec.LoadedIsWhole` says exactly when it does not.
- `begin_result_upload` accepts a journalled command that still waits in the queue, although its result would be refused
  (`RelayTheorems.UploadGate`, `RelayTheorems.UploadBeforeClaim`).
- `unbind` polls the coordinator without a delivery lease id, so it is refused for as long as the channel has any
  delivery lease on record, idle or not (`RouteControl.IdleIsQuiet`).
- In the symlink walk neither the seen-state check nor the authorisation check after `..` ever decides an outcome
  (`PathWalk.SeenAgainIsCyclic`, `Interpreters.ValidateChain`).

## Model

| member | source | states |
|---|---|---|
| `Text.JoinSplit` | app/coordinator/service.py:487-489 | joining what a split gave restores the text, for every text and separator |
| `Text.SplitPiecesAreFree` | app/coordinator/service.py:487-489 | no piece of a split contains the separator |
| `Text.FirstOccurrence` | app/coordinator/service.py:487-489 | the first separator of `part + sep + rest` is the one just written, exactly when `part` followed by the border of the separator is free of it |
| `Text.SplitJoin` | app/coordinator/service.py:487-489 | splitting undoes joining if and only if no part but the last creates an earlier occurrence with the separator behind it and the last contains none |
| `Text.CleanPartsRoundTrip` | app/coordinator/service.py:487-489 | a list of parts that join cleanly survives join and split |
| `Batches.SeparatorBorder` | app/coordinator/service.py:70 | the batch separator overlaps itself in exactly one character |
| `Batches.CleanBatchRoundTrip` | app/coordinator/service.py:487-489 | a batch of messages that are free of the separator even with a newline behind them splits into exactly those messages |
| `Batches.MergeRoundTrip` | app/coordinator/service.py:502-521 | merging one more message and splitting again gives the old parts and the message, exactly when all but the last are clean and the last is free of the separator |
| `Batches.PackPartitions` | app/coordinator/service.py:535-547 | promotion deals the queue into a batch and a rest, each in queue order, messages and escalations together |
| `Batches.PackConserves` | app/coordinator/service.py:535-547 | no queued message is lost or doubled by promotion |
| `Batches.PackBounded` | app/coordinator/service.py:535-551 | the promoted batch is non-empty and never longer than 32000 characters |
| `Batches.PackGreedy` | app/coordinator/service.py:535-547 | a message stays behind only if it would not have fitted the batch as it stood |
| `CoordinatorGuards.StatusAgreesWithClaim` | app/coordinator/service.py:701-773 | for every state, clock, lease, delivery mode and backoff: `status` says ready exactly when the guards of `claim` pass there and then, promotions by the poll included; where the wake's retry delay exists, exactly when `claim` hands it out |
| `CoordinatorGuards.ClaimedExactlyWhen` | app/coordinator/service.py:939-1021 | the claim operation hands out a wake exactly when its guards pass and the retry lookup finds its delay |
| `CoordinatorGuards.ClaimedWhen` | app/coordinator/service.py:939-990 | a claim is admitted exactly for a wake that is due, open and within its budget, on a lane nobody holds, by whoever may take it: the chat first for 20 seconds, the browser only within 15 seconds of its preflight and half an hour of arming |
| `CoordinatorGuards.PollingDoesNotChangeClaims` | app/coordinator/service.py:701-773 | the state a poll leaves admits a claim at that instant exactly when the state before did |
| `CoordinatorGuards.IdleMeansNoWake` | app/coordinator/service.py:701-724 | idle is answered exactly when the channel holds no wake afterwards and the lease fits |
| `Coordinator.PendingWake.Take` | app/coordinator/service.py:992-1001 | a claim on the wake object: lease, attempt count, next availability or escalation time |
| `Coordinator.PendingWake.Finish` | app/coordinator/service.py:1102-1149 | a direct delivery outcome on the wake object, claim given up |
| `Coordinator.PendingWake.Absorb` | app/coordinator/service.py:502-533 | one more message merged into the batch or queued with its escalation |
| `Coordinator.CoordinatorService.Arm` | app/coordinator/service.py:553-659 | the new state and answer are those of the specification, refusals and deduplication included |
| `Coordinator.CoordinatorService.Status` | app/coordinator/service.py:689-839 | state and answer of a poll; only new wake objects appear |
| `Coordinator.CoordinatorService.Claim` | app/coordinator/service.py:939-1021 | state and answer of a claim, through every guard in order |
| `Coordinator.CoordinatorService.PackQueue` | app/coordinator/service.py:535-547 | the promotion loop computes the two lists that `Batches` proves conserving, bounded and greedy |
| `Coordinator.CoordinatorService.Promote` | app/coordinator/service.py:535-551 | an acknowledged wake is dropped or replaced by the next one from its queue |
| `Coordinator.CoordinatorService.MarkPreclaim` | app/coordinator/service.py:1023-1044 | blocking a wake on owner sign-in before any claim |
| `Coordinator.CoordinatorService.ClearPreclaim` | app/coordinator/service.py:1046-1078 | releasing it again, the legacy attempt given back |
| `Coordinator.CoordinatorService.Finalize` | app/coordinator/service.py:1080-1164 | the outcome of a direct delivery, accepted only for the claim held |
| `Coordinator.CoordinatorService.AuthorizePreflight` | app/coordinator/service.py:1166-1197 | browser preflight stamped on a deliverable, unclaimed wake |
| `Coordinator.CoordinatorService.Ack` | app/coordinator/service.py:1199-1280 | the X iframe reports a submitted turn |
| `Coordinator.CoordinatorService.Observe` | app/coordinator/service.py:1282-1319 | observed model activity extends the cooldown only |
| `Coordinator.CoordinatorService.ModelAck` | app/coordinator/service.py:1321-1346 | the queue is handed out, the wake dropped or kept until its lease ends |
| `Coordinator.CoordinatorService.MarkEscalation` | app/coordinator/service.py:1417-1433 | an escalation is marked notified once |
| `Coordinator.CoordinatorService.Resolve` | app/coordinator/service.py:1435-1448 | the wake of a continuation is removed |
| `Coordinator.CoordinatorService.Cancel` | app/coordinator/service.py:1450-1485 | cancelling fails closed on anything claimed, delivered or uncertain |
| `Coordinator.CoordinatorService.Save` | app/coordinator/service.py:177-194 | saving drops expired cooldowns and copies the state to disk |
| `Coordinator.CoordinatorService.LoadWakes` | app/coordinator/service.py:149-162 | the loading loop keeps exactly the loadable wakes |
| `Coordinator.CoordinatorService.constructor` | app/coordinator/service.py:81-175 | a new service is what loading the stored file gives |
| `CoordinatorRuns.OneChannelStep` | app/coordinator/service.py:446-457 | a step that changes one channel with fresh or inherited ids keeps tokens distinct, one lane, settled wakes visible and the disk equal |
| `CoordinatorSafety.PromotedOk` | app/coordinator/service.py:535-551 | a promoted wake has a batch in bounds, matching queues and a full retry budget |
| `CoordinatorSafety.CoalesceStep` | app/coordinator/service.py:502-533 | coalescing keeps the run invariant |
| `CoordinatorSafety.ArmStep` | app/coordinator/service.py:553-659 | arming keeps the run invariant |
| `CoordinatorSafety.StatusStep` | app/coordinator/service.py:689-839 | polling keeps it |
| `CoordinatorSafety.ClaimStep` | app/coordinator/service.py:939-1021 | claiming keeps it: one lane, fresh claim id, attempts within budget |
| `CoordinatorSafety.FinalizeStep` | app/coordinator/service.py:1080-1164 | finalizing keeps it and spends the claim id |
| `CoordinatorSafety.AckStep` | app/coordinator/service.py:1199-1280 | acknowledging keeps it and spends the claim id |
| `CoordinatorSafety.ModelAckStep` | app/coordinator/service.py:1321-1346 | the model's acknowledgement keeps it |
| `CoordinatorSafety.RestartStep` | app/coordinator/service.py:128-175 | a restart at any point keeps it |
| `CoordinatorSafety.RestartLosesNoWake` | app/coordinator/service.py:128-194 | loading what was saved gives back the same wakes and the same lane |
| `CoordinatorSafety.StepKeepsGood` | app/coordinator/service.py:553-1485 | every public operation and every restart keeps the run invariant |
| `CoordinatorTheorems.SingleLaneAlways` | app/coordinator/service.py:452-457 | at every point of every run at most one channel holds an unexpired claim |
| `CoordinatorTheorems.ClaimIdAcceptedOnce` | app/coordinator/service.py:1097-1158 | over a run, one claim id is accepted by at most one finalize or ack |
| `CoordinatorTheorems.SettledIsNeverClaimedAgain` | app/coordinator/service.py:967-1001 | once an outcome marked a continuation delivered or uncertain, no later claim hands it out, restarts included |
| `CoordinatorTheorems.ClaimsWaitForTheLane` | app/coordinator/service.py:953-990 | a claim is admitted only 30 seconds after every earlier delivery and every observed model activity, on any channel and across restarts |
| `CoordinatorTheorems.WakesStayWellFormed` | app/coordinator/service.py:580-584 | in every reachable state: attempts within the budget, one retry delay per gap, no claim on a delivered or blocked wake, queues of equal length |
| `CoordinatorTheorems.RetryIndexInBounds` | app/coordinator/service.py:992-1001 | the retry delay a claim looks up always exists |
| `CoordinatorTheorems.ReadyIsClaimed` | app/coordinator/service.py:701-773 | in every reachable state a poll says ready exactly when the claim operation hands the wake out |
| `CoordinatorTheorems.RestartIsLossless` | app/coordinator/service.py:128-194 | after every step the file equals memory and loads back to it |
| `CoordinatorTheorems.ContinuationsAreUnique` | app/coordinator/service.py:1321-1330 | a continuation names one wake in every reachable state, so the scans for it are well defined |
| `Retries.AttemptsStep` | app/coordinator/service.py:992-1001 | only a claim of a continuation uses up an attempt of its wake, and only releasing an old sign-in block gives one back |
| `Retries.ClaimsAreAttempts` | app/coordinator/service.py:1046-1078 | over a run the claims of a continuation are exactly the attempts its wake used up plus those given back |
| `Retries.RetriesAreBounded` | app/coordinator/service.py:967-1001 | over a run, restarts included, a continuation is claimed at most five times, not counting attempts given back |
| `RetryTiming.RetriesWait` | app/coordinator/service.py:992-1001 | over every run, restarts included: of two claims of one continuation, no release in between, the second comes at least 20 seconds and the retry delay of that attempt after the first, and hands out the same message |
| `RetryTiming.RetriesWaitAsArmed` | app/coordinator/service.py:992-1001 | that delay is the one the arm listed for as many claims as there were, less those given back |
| `RetryTiming.ClaimsWaitForTheDelay` | app/coordinator/service.py:630-641 | no claim of a continuation comes before the delay its arm asked for |
| `RetryTiming.PromotionInherits` | app/coordinator/service.py:535-551 | a wake that starts without an arm has the budget of the wake before it and all its attempts |
| `RetryTiming.PromotionWaits` | app/coordinator/service.py:535-551 | it holds the front part of the queue, waits five seconds and for the lane |
| `Escalations.DeliveredFallsDue` | app/coordinator/service.py:1356-1415 | a delivered continuation the model does not acknowledge is due exactly from its escalation delay after the delivery on |
| `Escalations.ExhaustedFallsDue` | app/coordinator/service.py:1356-1415 | after its last attempt one without an outcome is due exactly when the lease and the escalation delay have passed, or at half an hour of age |
| `Escalations.BlockedIsDueAtOnce` | app/coordinator/service.py:1356-1415 | an uncertain delivery or a transport that needs its owner is reported at once |
| `Escalations.AnnouncedOnce` | app/coordinator/service.py:1417-1433 | once marked, a continuation is not reported again, unless it is released from a sign-in block |
| `Coordinator.CoordinatorService.EscalationsDue` | app/coordinator/service.py:1356-1415 | the listing holds exactly the channels whose wake is due, each with its reason |
| `ArmLaws.ArmAnswers` | app/coordinator/service.py:502-641 | every answer of a valid arm: known exactly while the message waits on the channel, full exactly at 128 waiting events, refused or a new wake otherwise |
| `ArmLaws.CoalescedJoinsLast` | app/coordinator/service.py:502-533 | an accepted message goes last into the batch, exactly if that was never claimed and stays within 500 characters, or last into the queue; a batch waits for it no longer than 15 seconds from its first message |
| `ArmLaws.StartsWaiting` | app/coordinator/service.py:625-641 | a new wake holds its message alone, with the budget asked for, and waits for the delay and the lane |
| `ArmLaws.ArmedMessageWaits` | app/coordinator/service.py:502-641 | over every run with clean messages, an arm that was answered leaves its message waiting |
| `ArmLaws.KnownExactlyWhileWaiting` | app/coordinator/service.py:502-508 | over every run with clean messages, a message is taken for a known one exactly while the ledger says that it waits |
| `WakeEdits.CancelWhen` | app/coordinator/service.py:1450-1485 | cancelling takes a wake away exactly unless it was handed out, delivered or may have been |
| `WakeEdits.MarkWhen` | app/coordinator/service.py:1023-1044 | a wake is blocked on its owner's sign-in exactly before anything was sent |
| `WakeEdits.ClearWhen` | app/coordinator/service.py:1046-1078 | a release needs the block of this transport and leaves a wake that can be claimed again |
| `WakeEdits.MarkThenClear` | app/coordinator/service.py:1023-1078 | releasing undoes blocking: the wake is as before, available at once |
| `WakeEdits.AuthorizeWhen` | app/coordinator/service.py:1166-1197 | a preflight is stamped exactly on a wake that can be delivered and is not handed out |
| `WakeEdits.FinalizeWhen` | app/coordinator/service.py:1080-1164 | an outcome is taken exactly for the claim held; what it leaves on the wake, and when a follow-up starts |
| `WakeEdits.AckWhen` | app/coordinator/service.py:1199-1280 | the same for the X iframe's report, under the lease of the channel |
| `WakeEdits.ModelAckWhen` | app/coordinator/service.py:1321-1346 | the queue is handed out; the wake stays exactly while a delivery is under way |
| `WakeEdits.PollIsHeartbeat` | app/coordinator/service.py:689-700 | a poll or claim of the chat that owns the channel renews its lease |
| `WakeEdits.StatusSays` | app/coordinator/service.py:701-839 | which state a poll reports, guard by guard: standby, claimed, uncertain, owner input, waiting for the model or escalation due |
| `WakeEdits.LoadFinds` | app/coordinator/service.py:81-175 | a new process finds exactly the stored wakes, leases and running cooldowns that pass the loader's checks, unchanged |
| `WakeEdits.SaveWrites` | app/coordinator/service.py:177-194 | saving drops exactly the cooldowns that have run out and leaves the file equal to memory |
| `WakeEdits.EscalationText` | app/coordinator/service.py:491-500 | an escalation text is the non-blank parts in order, cut to 3500 characters and saying so |
| `Conservation.CoalescedKeepsEvents` | app/coordinator/service.py:502-533 | coalescing adds exactly the new message to what the wake holds |
| `Conservation.PromoteRetires` | app/coordinator/service.py:535-551 | promotion retires the old batch and moves the queue, nothing else |
| `Conservation.ModelAckConserves` | app/coordinator/service.py:1321-1346 | what `model_ack` hands out and retires is exactly what left the channel |
| `Conservation.StepConserves` | app/coordinator/service.py:487-551 | every step balances: waiting before plus accepted equals waiting after plus retired, handed out and dropped |
| `Conservation.EventsAreConserved` | app/coordinator/service.py:487-659 | on a channel armed with clean messages, over every run, each accepted message is counted exactly once among batch, queue, retired batches, hand-outs and what was cancelled, resolved or replaced |
| `Conservation.OnlyPlainIsReplaced` | app/coordinator/service.py:606-659 | what an arm replaces is a wake that asks for no acknowledgement, and such a wake has no queue |
| `ConservationLimits.ConservedExactlyForClean` | app/coordinator/service.py:487-551 | for every valid message: the ledger balances at every step of every run whose arms carry clean messages or this one, if and only if this one is clean; the same with resilient arms only |
| `ConservationLimits.UncleanIsNotReadBack` | app/coordinator/service.py:487-489 | an unclean message is not among the parts of a batch that it opens |
| `ConservationLimits.LosingRunEnd` | app/coordinator/service.py:487-551 | for every unclean message, a run of six steps after which the ledger is off: queued behind a delivery in flight, promoted with the next message into one batch |
| `ConservationLimits.UncleanMessageIsCountedTwice` | app/coordinator/service.py:502-533 | every short message that ends in the separator up to its newline: arm it, arm another, and the ledger is off; arm it again, and it is accepted as new although it still waits |
| `ConservationLimits.UncleanExample` | app/coordinator/service.py:70 | such a message exists: one letter, a newline and the dashes |
| `ChannelNames.DecimalInjective` | app/coordinator/routes.py:662-676 | decimal numerals of different generations differ |
| `ChannelNames.DerivedNamesAreReserved` | app/coordinator/routes.py:204-220 | every derived channel name has the reserved shape |
| `ChannelNames.ChannelNameInjective` | app/coordinator/routes.py:662-676 | a derived channel name determines route and generation |
| `ChannelNames.NameExamples` | app/coordinator/routes.py:535-545 | the naming scheme on two routes |
| `Routes.RouteRegistry.Bootstrap` | app/coordinator/routes.py:302-323 | creates generation 0 once, on the derived channel |
| `Routes.RouteRegistry.PrepareBind` | app/coordinator/routes.py:401-464 | reuses a fresh identical bind, refuses a different one, replaces a stale one |
| `Routes.RouteRegistry.RecordBind` | app/coordinator/routes.py:483-527 | records a candidate once, against the generation it was prepared for |
| `Routes.RouteRegistry.CompleteBind` | app/coordinator/routes.py:529-660 | completes a bind: same target keeps the record, another starts the next generation |
| `Routes.RouteRegistry.DiscardBind` | app/coordinator/routes.py:338-348 | drops the named bind |
| `Routes.RouteRegistry.PendingBind` | app/coordinator/routes.py:325-336 | forgets a stale bind on the way |
| `Routes.RouteRegistry.Unbind` | app/coordinator/routes.py:662-704 | drops the target; a pending rollover is aborted and its generation skipped |
| `Routes.RouteRegistry.PrepareRollover` | app/coordinator/routes.py:712-741 | reserves the next generation once |
| `Routes.RouteRegistry.RecordRollover` | app/coordinator/routes.py:743-769 | records a candidate in the same project and another conversation |
| `Routes.RouteRegistry.CommitRollover` | app/coordinator/routes.py:771-801 | moves the route to the reserved generation |
| `Routes.RouteRegistry.RecordDelivery` | app/coordinator/routes.py:822-827 | persists a bootstrap delivery state for a committed rollover that is still active |
| `Routes.RouteRegistry.CompleteRollover` | app/coordinator/routes.py:829-839 | marks the bootstrap sent |
| `Routes.RouteRegistry.AbortRollover` | app/coordinator/routes.py:841-850 | drops the pending rollover |
| `Routes.RouteRegistry.Takeover` | app/coordinator/routes.py:852-891 | starts the next generation unless a rollover is pending or the project differs |
| `Routes.AsyncRLock.Acquire` | app/coordinator/routes.py:56-64 | the owner re-enters, anyone else only when it is free |
| `Routes.AsyncRLock.Release` | app/coordinator/routes.py:66-73 | only the owner releases, the last release frees it |
| `RouteSafety.StepEvolves` | app/coordinator/routes.py:302-891 | no operation lowers a generation or gives an unchanged generation another conversation, and names stay derived |
| `RouteSafety.GenerationNamesOneConversation` | app/coordinator/routes.py:529-704 | over a run a (route, generation) pair is bound to one conversation |
| `RouteSafety.UnboundGenerationIsNeverRebound` | app/coordinator/routes.py:662-704 | an unbound generation stays unbound |
| `RouteSafety.ChannelNamesOneConversation` | app/coordinator/routes.py:662-801 | a channel name belongs to one route, generation and conversation over a whole run |
| `RouteSafety.OneAdvancePerGeneration` | app/coordinator/routes.py:529-801 | of all binds and rollovers prepared at one generation at most one advances the route |
| `RouteTargets.CommitBindsTheCandidate` | app/coordinator/routes.py:743-820 | over every run: a rollover that commits binds its route to the conversation recorded last for it, another one than before in the same project, at the reserved generation, and its bootstrap can then be completed; there always is such a record |
| `RouteTargets.LastCandidateIsOne` | app/coordinator/routes.py:743-769 | that record is unique |
| `RouteTargets.BindBindsTheTarget` | app/coordinator/routes.py:483-660 | over every run: a completed bind leaves the route bound to the target of the call or, without one, to the target recorded last for it, at the next generation or unchanged |
| `RouteTargets.TakeoverBindsTheTarget` | app/coordinator/routes.py:852-891 | a takeover starts the next generation, bound to the given target |
| `RouteTargets.UnbindSkipsTheReserved` | app/coordinator/routes.py:662-704 | unbinding drops the target and skips the generation of a pending rollover, which is remembered as aborted |
| `RouteEdits.SameProjectWhen` | app/coordinator/routes.py:24-30 | two project ids name one project exactly if equal or equal up to case in their stable part |
| `RouteEdits.PrepareBindWhen` | app/coordinator/routes.py:401-464 | a fresh identical bind is given back, a fresh different one refuses, anything else is replaced |
| `RouteEdits.RecordBindWhen` | app/coordinator/routes.py:483-527 | a candidate is recorded exactly once, for a usable bind whose project may change to it |
| `RouteEdits.CompleteBindWhen` | app/coordinator/routes.py:529-660 | exactly when a bind completes |
| `RouteEdits.CompleteBindChanges` | app/coordinator/routes.py:590-660 | and when it leaves the record as it was |
| `RouteEdits.DiscardAndPending` | app/coordinator/routes.py:325-348 | discarding takes exactly the named bind; looking one up forgets it when stale |
| `RouteEdits.PrepareRolloverWhen` | app/coordinator/routes.py:712-741 | one rollover at a time, for the next generation of a bound route |
| `RouteEdits.RecordRolloverWhen` | app/coordinator/routes.py:743-769 | a candidate is another conversation of the same project, recorded while the route has not moved |
| `RouteEdits.CommitRolloverWhen` | app/coordinator/routes.py:771-801 | exactly when a rollover commits, and what else that touches |
| `RouteEdits.AbortRolloverWhen` | app/coordinator/routes.py:841-850 | an aborted rollover can neither commit nor be completed |
| `RouteEdits.DeliveryWhen` | app/coordinator/routes.py:822-839 | recording a delivery state or the completion changes that alone |
| `RouteEdits.TakeoverWhen` | app/coordinator/routes.py:852-891 | a takeover needs the project of the route and no rollover under way |
| `RouteEdits.WakeableWhen` | app/coordinator/routes.py:235-279 | exactly when a wake may be armed for a route |
| `RouteEdits.WakeRouteWhen` | app/coordinator/routes.py:185-220 | a channel is an active route's, reserved, or nobody's |
| `RouteFence.OnlyArmAddsWakes` | app/coordinator/service.py:553-659 | no coordinator operation but `arm` makes a channel pending |
| `RouteFence.OnlyUnbindUnbinds` | app/coordinator/routes.py:302-891 | no registry operation but `unbind` leaves a route unbound |
| `RouteFence.ArmPlainKeeps` | app/transport.py:498-508 | arming a channel that passed as plain cannot touch a route's channel, whatever happened in between |
| `RouteFence.ArmRoutedKeeps` | app/container.py:365-391 | arming under the route lock after the wakeable check keeps the fence |
| `RouteFence.CommitKeeps` | app/coordinator/route_control.py:524-610 | unbinding after an idle poll under the lock keeps the fence |
| `RouteFence.PlayKeepsFenced` | app/coordinator/route_control.py:524-733 | every move of every task keeps the fence, crashes included |
| `RouteFence.UnboundRoutesHoldNoWake` | app/coordinator/route_control.py:524-733 | in any interleaving of arming, unbinding, binding, rollover, takeover and crashes an unbound route's channel holds no wake |
| `RouteFence.WakesBelongToReachedGenerations` | app/coordinator/routes.py:235-279 | a wake on a derived channel belongs to a generation the route has reached, bound if current |
| `RouteControl.IdleIsQuiet` | app/coordinator/service.py:701-724 | the poll of `unbind`, made without a lease id, is idle exactly for a channel without a delivery lease and with at most a finished wake |
| `RouteControl.DurableWaiters.Cancel` | app/jobs/service.py:380-433 | takes away the stored waiters of one generation, unless one of them is firing |
| `RouteControl.RouteControlService.CancelWakes` | app/coordinator/route_control.py:457-522 | succeeds exactly for a known route whose wake, if any, can be cancelled and none of whose waiters is firing; a firing waiter makes it fail after the wake is gone |
| `RouteControl.RouteControlService.Unbind` | app/coordinator/route_control.py:524-610 | succeeds exactly for a known route at the expected generation with a quiet channel and no stored waiter, and leaves a channel without wakes; a refusal only polled the coordinator |
| `RouteControl.RouteControlService.UnbindAndCancel` | app/coordinator/route_control.py:612-733 | succeeds exactly when the wake, if any, is cancellable, no waiter is firing and nobody holds a delivery lease; says what each refusal leaves cancelled |
| `Bootstrap.AcquireKeepsMutex` | app/coordinator/routes.py:56-64 | taking the lock, first or again, keeps one owner, and the lock's count at the number of blocks the owner has entered |
| `Bootstrap.ReleaseKeepsMutex` | app/coordinator/routes.py:66-73 | so does releasing it |
| `Bootstrap.SettledStays` | app/coordinator/routes.py:302-891 | no other registry operation lets a settled bootstrap start again |
| `Bootstrap.PersistKeeps` | app/coordinator/wake_delivery.py:130-131 | recording "sending" settles the generation before the call |
| `Bootstrap.RecordKeeps` | app/coordinator/wake_delivery.py:139-143 | recording the answer unsettles only a generation whose one call was not submitted |
| `Bootstrap.BootstrapIsSentOnce` | app/coordinator/wake_delivery.py:103-143 | over any run with crashes, lost responses and concurrent callers, of all `deliver` calls for a (route, generation) at most one has an outcome other than not submitted |
| `Bootstrap.RouteLockExcludes` | app/coordinator/routes.py:47-80 | in every reachable state at most one task works under the lock of a route, and the lock's count is the depth that task counted for itself, one up on each entry and one down on each exit |
| `Bootstrap.UndisturbedIsSent` | app/coordinator/wake_delivery.py:103-143 | an undisturbed caller makes exactly one call for a rollover that is not settled, files the answer as given and leaves the lock as it was |
| `WakeDelivery.ClaimShape` | app/coordinator/service.py:939-1021 | an admitted claim leaves the wake undelivered and unacknowledged under the new claim id |
| `WakeDelivery.FinalizeShape` | app/coordinator/service.py:1080-1164 | finalizing that claim leaves the outcome on that wake and no claim |
| `WakeDelivery.PollThenClaim` | app/coordinator/wake_delivery.py:176-292 | a claim right after the poll is admitted exactly if it was before it, and a ready poll changes nothing |
| `WakeDelivery.DeliveryService.DeliverRoute` | app/coordinator/wake_delivery.py:145-355 | `deliver` is called exactly for an unchanged bound route with a ready probe and a wake with a continuation that a claim would be given there and then; the call leaves its outcome on that wake, only "not submitted" deliverable again; without a call the state is the polled one, a sign-in block released or recorded; other channels are untouched |
| `WakeDelivery.DeliveryService.DeliverClaimed` | app/coordinator/wake_delivery.py:291-355 | claim, deliver, finalize: delivered exactly when the claim is admitted, an exception counts as uncertain |
| `WakeDelivery.DeliveryService.CompleteRolloverBootstrap` | app/coordinator/wake_delivery.py:103-143 | `deliver` is called exactly for a completable, unblocked rollover with a ready transport; afterwards it is blocked exactly unless not submitted |
| `JournalSpec.TrimUpsert` | app/desktop_nodes/journal.py:125-130 | trimming before or after one more line makes no difference |
| `JournalSpec.RotationKeepsIndex` | app/desktop_nodes/journal.py:103-122 | a rotated log with the new line appended describes the same index |
| `JournalSpec.AppendRefines` | app/desktop_nodes/journal.py:50-71 | replaying the log and trimming gives the index in memory, after every append, rotated or not |
| `JournalSpec.ReplaySuffix` | app/desktop_nodes/journal.py:22-47 | the index of the end of a log is the end of the index of the log |
| `JournalSpec.WindowSplits` | app/desktop_nodes/journal.py:26 | the loader reads the end of the log: the last lines, four times the history limit or a hundred of them, whichever is more |
| `JournalSpec.LoadedIsSuffix` | app/desktop_nodes/journal.py:22-48 | the windowed load gives the recent end of the index, row for row |
| `JournalSpec.LoadedIsWhole` | app/desktop_nodes/journal.py:22-48 | it is the whole index exactly when every row has a line in the window |
| `JournalSpec.LoadMayForgetARow` | app/desktop_nodes/journal.py:26-32 | a row can be lost: one operation rewritten 100 times pushes another out of the window |
| `JournalSpec.RestartKeepsRecentRows` | app/desktop_nodes/journal.py:22-48 | after any sequence of loads and appends a restart brings back the recent end of memory and no forgotten row |
| `JournalSpec.IndexIsScan` | app/desktop_nodes/journal.py:73-78 | looking a command up through the index is the linear scan |
| `Journal.OperationJournal.constructor` | app/desktop_nodes/journal.py:13-20 | the state after loading, rows and command index |
| `Journal.OperationJournal.Load` | app/desktop_nodes/journal.py:22-48 | the loader's loops compute the windowed load and an index that agrees with it |
| `Journal.OperationJournal.TrimMemory` | app/desktop_nodes/journal.py:125-130 | keeps the last rows and the agreement of the command index |
| `Journal.OperationJournal.Append` | app/desktop_nodes/journal.py:103-122 | one line behind the log, rotated first when full |
| `Journal.OperationJournal.Create` | app/desktop_nodes/journal.py:50-57 | refuses a known operation id; otherwise row, index and log line are added, and the log still describes the index |
| `Journal.OperationJournal.Update` | app/desktop_nodes/journal.py:59-71 | replaces and reinserts the row, logs it, keeps the refinement and the index |
| `Journal.OperationJournal.ByCommand` | app/desktop_nodes/journal.py:73-78 | answers what a scan of memory would |
| `Relay.NodeState.Submit` | app/desktop_nodes/service.py:717-749 | the queue, the commands and the journal after a submission, or a refusal |
| `Relay.NodeState.Claim` | app/desktop_nodes/service.py:941-966 | the waiting-free part of a claim: the first entry still wanted is handed out and journalled |
| `Relay.NodeState.SubmitResult` | app/desktop_nodes/service.py:968-1072 | the live, late and refused paths of a result |
| `Relay.NodeState.RemoveCommand` | app/desktop_nodes/service.py:929-939 | a timed-out or cancelled caller takes its command out of queue and table |
| `Relay.RecoverIncomplete` | app/desktop_nodes/service.py:529-542 | the recovery loop of a new process |
| `RelaySpec.RestartRecovers` | app/desktop_nodes/service.py:529-542 | after a restart nothing is queued or claimed: queued became orphaned, a claimed mutation uncertain, a claimed read interrupted, all other rows unchanged |
| `RelaySafety.RowsAfterUpdate` | app/desktop_nodes/service.py:1022-1072 | updating the row of one command keeps all rows in agreement with the live commands |
| `RelaySafety.StepKeepsAgree` | app/desktop_nodes/service.py:717-1072 | every operation and every restart keeps queue, commands, journal and history in agreement |
| `RelayTheorems.RelayAgrees` | app/desktop_nodes/service.py:723-966 | in every reachable state a node's queue is its unclaimed commands, in submission order; the limit holds; a journalled operation is queued or claimed exactly as its live command is |
| `RelayTheorems.ClaimTakesOldest` | app/desktop_nodes/service.py:945-960 | a claim hands out the oldest command that waits |
| `RelayTheorems.ClaimedOnceInOrder` | app/desktop_nodes/service.py:945-960 | over a run a node claims its commands in submission order and none twice |
| `RelayTheorems.TerminalIsFinal` | app/desktop_nodes/service.py:1022-1072 | once an operation succeeded or failed, in time or late, its row never changes, not even by a restart |
| `RelayTheorems.OneTerminalResult` | app/desktop_nodes/service.py:1022-1072 | after a result that made an operation terminal no result for that command is accepted |
| `RelayOutcomes.ReportedIsRecorded` | app/desktop_nodes/service.py:1022-1072 | in every run: after an accepted result the command's row says failed, succeeded or uncertain exactly as the result did, late exactly if the command was already gone; no other row, command or queue entry changes |
| `RelayOutcomes.ResultTaken` | app/desktop_nodes/service.py:1022-1055 | a result is taken exactly for a claimed command, or for a gone one whose row is not terminal |
| `RelayOutcomes.ResultIsRecorded` | app/desktop_nodes/service.py:1022-1072 | the same for one step from any state the invariant allows |
| `RelayOutcomes.RemovalIsRecorded` | app/desktop_nodes/service.py:929-939 | a caller that gives up leaves a row that is uncertain exactly for a mutation already handed out, and otherwise its own reason |
| `RelayOutcomes.SubmitIsRecorded` | app/desktop_nodes/service.py:723-775 | a submission is taken exactly while the node has room; it goes behind the queue and its row is the newest |
| `RelayOutcomes.ClaimIsRecorded` | app/desktop_nodes/service.py:945-960 | a claim takes the head of the queue, marks that command and its row, and nothing else |
| `RelayOutcomes.RestartSays` | app/desktop_nodes/service.py:529-542 | the four cases of a restart: waiting, handed out to change, handed out to read, finished |
| `RelayTheorems.UploadGate` | app/desktop_nodes/service.py:1276-1286 | an upload may begin exactly when a result would be accepted or while a journalled command still waits; never after a terminal result |
| `RelayTheorems.UploadBeforeClaim` | app/desktop_nodes/service.py:1276-1286 | an upload can indeed begin for a command that was not handed out yet, while its result is refused |
| `Base64.DecodeEncode` | agents/windows_fusion_agent.py:256-265 | decoding what was encoded gives the bytes back (section 4 of RFC 4648) |
| `Base64.TestVectors` | agents/windows_fusion_agent.py:256-265 | the test vectors of section 10 of RFC 4648 |
| `Base64.DecodeNeedsGroups` | app/desktop_nodes/service.py:1304-1307 | only whole groups of the alphabet, padded at the end, decode |
| `Upload.Receiver.Begin` | app/desktop_nodes/service.py:1276-1296 | starts an empty upload exactly for a command whose result is awaited or that still waits in the queue, a size in range and a well-formed digest |
| `Upload.Receiver.Append` | app/desktop_nodes/service.py:1298-1314 | a chunk is taken exactly when it continues the upload, decodes, is not empty and fits; otherwise the file is unchanged |
| `Upload.Receiver.Finalize` | app/desktop_nodes/service.py:1316-1353 | stored exactly when complete, matching and an object; with an injective digest it is what was announced |
| `Upload.Receiver.SubmitResult` | app/desktop_nodes/service.py:968-1075 | a result is taken exactly while one is awaited; one that ends the operation is the last |
| `Upload.Agent.SendChunks` | agents/windows_fusion_agent.py:256-265 | sender offset, receiver offset and file length stay equal; unless an answer is missing the file is what was sent |
| `Upload.Agent.UploadOnce` | agents/windows_fusion_agent.py:253-266 | unless an answer is missing: stored with the exact bytes exactly when the endpoint takes an upload of this result, rejected otherwise |
| `Upload.Agent.DeliverOnce` | agents/windows_fusion_agent.py:250-297 | one attempt, upload and closing post: delivered exactly when the result is awaited and fits, unless an answer is missing; whatever is lost, the relay holds this result or what it held before |
| `Upload.Agent.SubmitResultSafely` | agents/windows_fusion_agent.py:226-300 | whatever requests or answers are lost, the closing post's included: the relay takes nothing but this result, a delivered one reads back byte for byte, and the outbox gives a result up only when it was taken or can no longer be |
| `PathWalk.WalkIsNested` | app/executors/openrouter_worker.py:435-490 | the spliced walk computes the nested recursive resolution, outcome and followed links alike, on every symlink map |
| `KernelPaths.WalkIsKernel` | app/executors/openrouter_worker.py:432-490 | the walk reaches a path exactly when the kernel does, component by component, an absolute target from the root and a relative one from the directory of its link, through permitted components and within the same number of links |
| `PathWalk.SpliceIsNesting` | app/executors/openrouter_worker.py:448-484 | walking a target spliced in front of the rest is resolving the target and then walking the rest |
| `PathWalk.ReachedIsGood` | app/executors/openrouter_worker.py:435-490 | a path the walk reaches has no link in it and is authorised, and so was every link followed |
| `PathWalk.PolicyOnlyStops` | app/executors/openrouter_worker.py:392-490 | the policy only stops walks: what it lets through is where the path leads without it |
| `PathWalk.LargerBudget` | app/executors/openrouter_worker.py:463-465 | a walk that ends within its budget does the same with a larger one |
| `PathWalk.SeenAgainIsCyclic` | app/executors/openrouter_worker.py:443-446 | rejecting a seen state changes no outcome: such a walk exhausts its budget |
| `Interpreters.ValidateChain` | app/executors/openrouter_worker.py:392-490 | the loop ends on every map and gives the outcome of the walk; the check after `..` never fires |
| `Interpreters.VerifiedAliasPrefix` | app/executors/openrouter_worker.py:492-569 | the second loop gives the outcome of its walk and the first alias followed |
| `Interpreters.AuthorisedClosed` | app/executors/openrouter_worker.py:407-411 | every ancestor of an authorised path is authorised |
| `Interpreters.AcceptedIsBelowPrefix` | app/executors/openrouter_worker.py:492-569 | an accepted interpreter resolves, without any policy, to `bin/python...` below the verified prefix; every alias below the managed root on the way was checked against the prefix and, when the check resolves paths along the same links, leads to it; the alias returned is the first of them |
| `Interpreters.ValidatedIsKernelPath` | app/executors/openrouter_worker.py:392-490 | accepted exactly for the path that the kernel reaches within 40 links through permitted components |
| `Interpreters.ExternalIsKernelPath` | app/executors/openrouter_worker.py:392-490 | accepted as external only if within 40 links the kernel ends at a plain path outside every root |
| `ExternalTargets.ExternalExactlyWhen` | app/executors/openrouter_worker.py:424-480 | accepted as external exactly when the interpreter is a plain path outside every root, or the last hop of the kernel, and no other, is a link to one |
| `ExternalTargets.HopWhen` | app/executors/openrouter_worker.py:466-480 | a link is followed unless its target is absolute and away from every root, and of those only a last one is tolerated |
| `Interpreters.VerifiedIsKernelPath` | app/executors/openrouter_worker.py:492-569 | the alias check accepts exactly when the kernel reaches an interpreter of the prefix through what it permits |
| `Interpreters.AliasStandsForPrefix` | app/executors/openrouter_worker.py:571-592 | what lies behind such an alias is exactly what lies behind the prefix, so mounting the prefix there changes no path |
| `Changes.ChangeService.NormalizeOperations` | app/changes/service.py:114-194 | the loop with its set of occupied paths computes the normalised plan |
| `Changes.ChangeService.ApplyOperations` | app/changes/service.py:83-87 | operations applied in order, up to the first that fails |
| `Changes.ChangeService.Plan` | app/changes/service.py:34-48 | a plan is returned exactly when base, operations and preconditions hold; it is applicable and normalises to itself |
| `Changes.ChangeService.Apply` | app/changes/service.py:50-112 | applied exactly once: afterwards the plan is accomplished, verified and receipted, every refusal leaves everything as it was, and no partial failure occurs |
| `Changes.ChangeService.ApplyAgain` | app/changes/service.py:68-76 | the same request right after it was applied changes nothing |
| `ChangeLaws.NormalPlan` | app/changes/service.py:114-194 | a normalised plan has separate paths, none through a link, each below a directory |
| `ChangeLaws.PlanApplies` | app/changes/service.py:268-281 | in the given order every operation succeeds and together they are one simultaneous update |
| `ChangeLaws.AnyOrder` | app/changes/service.py:268-281 | any order of the operations gives the same tree and none fails |
| `ChangeLaws.AccomplishedIsFinal` | app/changes/service.py:283-298 | the accomplished plan passes the final check |
| `ChangeLaws.PathAgain` | app/changes/service.py:196-221 | a normalised path normalises to itself |
| `ChangeLaws.HashAgain` | app/changes/service.py:223-234 | a normalised digest normalises to itself, underscores, signs and prefixes of Python's `int` included |
| `ChangeLaws.PlanIsStable` | app/changes/service.py:323-343 | feeding a plan's own operations back re-derives the same plan and the same plan id |
| `ChangeLaws.AppliedPlanIsFinal` | app/changes/service.py:68-112 | after a plan was applied the same request normalises to the same plan and finds everything done |
| `ChangeRules.NormalizedWhen` | app/changes/service.py:114-194 | a plan: between one and a hundred operations, each normal, no path in two of them, at most four megabytes of content, and then exactly these operations |
| `ChangeRules.OperationWhen` | app/changes/service.py:125-190 | a raw operation of each kind: exactly its own fields, every one normal |
| `ChangeRules.PathWhen` | app/changes/service.py:196-221 | exactly which paths are taken |
| `ChangeRules.HashWhen` | app/changes/service.py:223-234 | exactly which digests are taken; case is dropped |
| `ChangeRules.ContentWhen` | app/changes/service.py:160-185 | content without NUL of at most a megabyte of UTF-8 |
| `ChangeRules.ReadyWhen` | app/changes/service.py:236-266 | tracked files with the expected digest, and free destinations |
| `ChangeRules.FinalWhen` | app/changes/service.py:283-298 | what the final check establishes when digests tell contents apart |
| `ReferenceTable.Decoder.Hydrate` | app/chatgpt_share/parser.py:82-103 | terminates on every table, cyclic ones included; for an entry whose references can be ranked it gives the plain reading and keeps the memo consistent with it |
| `ReferenceTable.Decoder.HydrateFields` | app/chatgpt_share/parser.py:91-97 | the dictionary loop, keys that are references included |
| `ReferenceTable.Decoder.HydrateItems` | app/chatgpt_share/parser.py:98-102 | the list loop |
| `ReferenceTable.PlainAnyRank` | app/chatgpt_share/parser.py:82-108 | the plain reading does not depend on the ranking that justifies it |
| `ReferenceCycles.RankedExactlyWhenAcyclic` | app/chatgpt_share/parser.py:82-108 | what an entry refers to can be ranked if and only if no chain of references from it meets an entry twice |
| `ReferenceCycles.ListReading` | app/chatgpt_share/parser.py:98-102 | a list reads as what its items stand for, in order |
| `ReferenceCycles.DictReading` | app/chatgpt_share/parser.py:89-97 | a dictionary reads as its decoded keys and what its values stand for; of equal keys the last counts |
| `ReferenceCycles.ScalarReading` | app/chatgpt_share/parser.py:82-86 | a scalar is itself, an index outside the table is null |
| `ReferenceCycles.KeyOfNumber` | app/chatgpt_share/parser.py:94 | an underscore and a decimal number name the entry of that number |
| `ReferenceCycles.KeyWhen` | app/chatgpt_share/parser.py:94 | exactly an underscore with digits behind it names an entry |
| `ReferenceCycles.DecodeReferenceTable` | app/chatgpt_share/parser.py:76-113 | the decoded first entry is its plain reading whenever no chain of references from it meets an entry twice, whatever the rest of the table holds |
| `ExportRegistry.TableIsHistory` | app/api/capability_exports.py:42-76 | a cleaned-up table holds exactly the grants that are unexpired and among the last `capacity` issued |
| `ExportRegistry.AppendGrant` | app/api/capability_exports.py:42-61 | issuing with eviction of the oldest keeps that |
| `ExportRegistry.CapabilityExportRegistry.Cleanup` | app/api/capability_exports.py:69-76 | exactly the expired grants go |
| `ExportRegistry.CapabilityExportRegistry.Issue` | app/api/capability_exports.py:42-61 | the history grows by a grant whose token is not in the table, redrawn if need be, and the table stays its recent part |
| `ExportRegistry.CapabilityExportRegistry.Lookup` | app/api/capability_exports.py:63-67 | a token resolves exactly while its grant is unexpired and fewer than `capacity` were issued after it |

## Left out

Coordinator and routes:
- Session bindings, the operator snapshot, trace diagnostics, the texts of notices and the telemetry fields of `status` answers: they only report.
- The choice of a delivery lease in `issue_delivery_lease`: any lease may be installed at any time.
- Coordinator.PendingWake: its fields live in one mutable record field, so single-field frames are not stated.
- Coordinator.CoordinatorService.constructor: takes files with at most 64 stored entries per table; which entries a longer file keeps depends on its order and is left open in `CoordinatorSpec.Load`.
- Identifier and whitespace classes are ASCII; the web-backoff file and the clock are parameters of each call; the heartbeat a poll or claim makes before it takes the lock is not separate from the one under it.
- Route titles, default and requested route, discovered chats, URL parsing: targets arrive parsed, route ids stripped and lower-case.
- RouteSafety.ChannelNamesOneConversation: its runs bootstrap a route under the channel name derived for it, as do all runs of the registry; `Routes.RouteRegistry.Bootstrap` itself takes any channel.
- RouteControl.RouteControlService.Unbind: requires the agreement of registry and coordinator that `RouteFence` proves for every interleaving; the same holds for UnbindAndCancel.
- RouteControl.DurableWaiters.Cancel: registering, firing and restoring waiters belong to the job service, which is not part of this model; waiters carry their generation as a number.
- RouteFence.UnboundRoutesHoldNoWake: holds when wakes are armed through the guarded paths only; an unguarded `arm` on a derived name is outside it.
- The two-minute log throttle, the re-probe pause and timeouts of the delivery loop, and the transport itself: its probe and its answers are parameters.

Desktop relay:
- Tool discovery, session generations, online checks and argument sizes are one `admitted` flag; classifying a result as failed or uncertain is done outside the model.
- A caller's timeout and the removal of its command are one step; finer interleavings of `_remove_command` are not modelled.
- Waiting in `claim`, retained results and their files, sidecars, exports and image extraction.
- RelayTheorems.TerminalIsFinal: `finalize_operation_result`, which replaces the result reference of a terminal row without touching its status, is not one of the operations.
- Malformed journal lines, write errors and several processes on one journal; operation ids are not reused.
- Upload.Agent.SubmitResultSafely: back-off delays, the time limit, re-registration and flushing the outbox are not modelled; the endpoint's status codes are refused for good, too large, and no answer. Upload requests are taken to fit the request limit.

Smaller algorithms:
- Shebang parsing, mount computation and the reading of links from disk: the symlink map is given and does not change during a walk.
- Changes.ChangeService.Apply: normalising and applying happen in one step, so a change of the tree while waiting for the repository lock is not modelled, nor are write errors of the operating system.
- Error indices and messages of refused plans; fields that are not strings; renaming a directory, which no precondition admits; digits outside ASCII.
- Python's recursion limit and the printed form of a container used as a dictionary key in the reference table (a parameter); scanning the HTML and finding the conversation.
- ExportRegistry.CapabilityExportRegistry.Issue: some draw is taken to miss the table, so that redrawing ends; wall-clock expiry is not modelled.
- HTTP routing, settings, authentication, the OAuth store, GitHub, Telegram, OpenRouter and browser calls, jobs, tools and knowledge services.
