# Verified models of the terminal gateway, research workers and event scout

This project models the stateful cores of the repository in Dafny and proves what they promise over whole
runs: sequences of operations, crashes and restarts of any length, in any order the surroundings allow.

Each core appears twice. A module of functions on values says what every operation does, branch by branch;
the invariants and run-level theorems are about these functions. A class updates the same fields in place,
with the loops of the source, and every method is proved equal to its function, so that the theorems hold of
the object.

| part | modules | what it is |
|---|---|---|
| public seat admission | SessionModel, SessionInvariant, SessionRuns, SessionPromises, SessionBudget, SessionFences, SessionExposure, SessionIsolation, SessionCoordinator | visitors, tickets, seats, leases, probe epochs, process generations, quarantine, daily budget |
| drains | WarmPool, Gateway | the capacity plan, the two-half drain and activation, the order of the two writes, crashes between them, restart |
| research permits | Permits, PermitCoordinator | a global cap with a first-in-first-out queue |
| research workers | Workers, WorkerInvariant, WorkerRuns, WorkerPermits, WorkerCoordinator | slots, attempts, event fencing, ownership of permits |
| leased journal | Journal | several runners that copy, poll and commit one journal under a lease |
| event scout | Scanner, TriggerModel, TriggerReader, TriggerWriter, TriggerRuns, TriggerLimits, TriggerRecorder, Outbox, OutboxLimits | the XML scanner, trigger gates and counters with their strict reader, the write-ahead outbox |
| arithmetic | Limiters, Ledger | token bucket, fixed window, provider budget |
| shared | Common, Sorting, Sums | selections, stable sorting, sums |

`dafny verify dfyconfig.toml` checks everything.

## How the models read

- Identifiers, process generations, tokens and hashes are numbers of which only equality is used; where an
  order is needed it is stated. Fresh identifiers are parameters, with freshness as a condition on the run.
- Clock readings are parameters, one per operation, and may run backwards unless a lemma says otherwise.
- Everything the world decides (probe answers, handshakes, whether a child starts, what the adapter or the
  permit gate answers, where the process dies) is a parameter or an event that may come at any time.
- In SessionIsolation the world is explicit: processes are replaced by younger ones, probes and upstream
  connections are in flight while anything else happens, and the gateway restarts. The generations of a
  seat's processes are numbered in the order in which they start, so none recurs.
- A write that did not happen before a crash is an operation that did not happen: no caller has seen it.

## What the proofs found

- A fence may only go on a free seat. If it goes on a bound one, the end of that seat's ticket leaves the seat
  fenced and ready at once exactly when the worker was never exposed to the visitor and is not the reason for
  the end (FencedSeatIsReadyExactlyWhen); a fence on an exposed seat never leads there. Drain requests fence
  free seats only.
- The branch of `requestDrain` for a repeated request, and the roll-back when the fence cannot be set, are
  never taken: a drained seat reports itself as draining, and the seat exists (AcceptedDrain).
- A research permit can be lost when a job is cancelled and submitted again while its first acquire call is
  unanswered (PermitIsLostExactlyWhenForgotten gives the exact step, ImpatientRunLosesAPermit an example).
- The wait for a permit is described as bounded by a timeout, but the wait is restarted when no local slot is
  free, so no bound on it is claimed.
- Fresh lease tokens alone keep the journal's commits in one chain, and so do distinct stamps alone; the two
  checks in the commit are independent defences. Without either a poll could be lost
  (ReusedTokenAndStampLoseAPoll); this is no behaviour of the program, whose tokens are fresh.
- The outbox reader refuses some of what the scout writes: a record that ended without an attempt, which the
  drain writes when a candidate is no longer retained; an error text of blanks only; and a record stamped with
  a time before its creation, after a clock has been set back (WrittenOutboxIsReadExactlyWhen). With a clock
  that does not run backwards the first two are all (OutboxStaysReadableExactlyWhen).
- Evicting finished outbox records can forget attempts of the current day, and then the daily cap of four calls
  does not hold. Before a day's first drain, count the records up to the last live one: the cap holds for
  sure exactly as long as these and the candidates polled after that are at most 2,000, or none is polled
  (CapOfADayHoldsExactly). The run in which it fails has 2,001 candidates, at most 1,000 a day as the
  largest trigger policy allows (ForgottenAttemptsBreakTheCap); each candidate must still be stored as a
  trigger when its turn comes, as with the largest limit of 2,000 stored candidates. The cap is exceeded by
  no more than the attempts forgotten (CallsAreOnRecord).
- The cooldown table of 2,000 entries is large enough for the cooldowns exactly when the daily cap times the
  days that one cooldown can touch, (cooldown - 2) / 86,400,000 + 2, is at most 2,001. Beyond, a flood of
  triggers makes it forget a target that then triggers again too early (TriggersAreSpacedExactly). The default
  policy gives 16; policies that the validation admits go up to 31,000. The cap on a day's triggers needs no
  such condition (DayCapAlwaysHolds).
- The dry-run reader accepts states that hold candidates but count none; the writer never produces them, and
  could not extend them (UncountedCandidatesMixPolicies).
- A fixed-window limit below one still grants one take per window.
- A permit acquired at clock zero never times out.
- A ledger with a principal name outside the parser's pattern, with more than 100,000 principals, or of more
  than 8 MiB can be written but not read again (WrittenLedgerIsReadExactlyWhen). The first two last until the
  day is over; the third lasts for ever, because the size is tested before the day
  (OversizedIsRefusedForEver), and it strikes first unless names are shorter than twelve bytes
  (SizeStrikesFirst, LedgerOutgrowsItsFile).
- Principals are kept in a plain object. Twelve names that every object inherits, such as `constructor` and
  `toString`, pass the parser's pattern; the lookup then finds the inherited member, no quota binds, and no
  entry is written, so that the global counts exceed the sums (QuotaBindsExactly, CountsAreSumsExactly).
- The runs that show how a ledger outgrows its file and how an inherited name passes any quota use estimates of
  at most 0.0000004 USD, which round to nothing; every positive estimate is accepted. With estimates like the
  default of 0.05 USD for an import, the global budget ends such a run first.

## Model

| member | source | states |
|---|---|---|
| `SessionPromises.SeatsAndTicketsAgree` | server/public-session-coordinator.ts:222-441 | In every state reachable by any run with restarts, a seat names a ticket iff that ticket is admitted or active and names the seat; a ready seat is free, identified and neither fenced, quarantined nor awaiting a replacement; a visitor has one live ticket and the index agrees |
| `SessionPromises.NoOvertaking` | server/public-session-coordinator.ts:839-867 | Over whole runs, a ticket that holds a seat was issued before every ticket still queued |
| `SessionPromises.NoIdleSeatBesideAWaitingTicket` | server/public-session-coordinator.ts:839-867 | After every pump, if a ticket is still queued then no seat is ready, free and unfenced, or one more reservation would exceed the daily budget |
| `SessionPromises.SweepEnforcesLeases` | server/public-session-coordinator.ts:595-629 | After a sweep at `now` no ticket is past its queue, no-show, absolute, reconnect or idle limit, in whatever state of the invariant the sweep began |
| `SessionPromises.VersionsNeverReused` | server/public-session-coordinator.ts:444-460 | Over any run with restarts, the connection versions issued to one ticket are strictly increasing, greater than everything issued before, and at most what is left of 32 |
| `SessionPromises.SupersededVersionIsInert` | server/public-session-coordinator.ts:463-528 | A superseded reservation can be neither activated nor cancelled, now or after any run |
| `SessionPromises.StaleConnectionIsInert` | server/public-session-coordinator.ts:378-567 | Over whole runs with restarts: a connection version no later than the last one issued, which is neither current nor pending, and is not the target of a rollback, confirms, marks, rolls back and detaches nothing at the end, and can be neither activated nor cancelled |
| `SessionPromises.PruneKeepsTheLatest` | server/public-session-coordinator.ts:1000-1016 | Pruning keeps live tickets as they are, no ended ticket past its retention and at most 1,000, and gives up only tickets that ended no later than those it keeps |
| `SessionPromises.FenceIsSoundExactlyOnFreeSeats` | server/public-session-coordinator.ts:359-370 | Setting a fence keeps the coherence invariant, one clause of which says that a bound seat is not fenced, if and only if the seat is free; lifting one always does |
| `SessionPromises.FencedSeatIsReadyExactlyWhen` | server/public-session-coordinator.ts:359-370 | After a bound seat has been fenced, the end of its ticket, for whatever reason and at whatever time, leaves the seat fenced and ready at once if and only if the worker was never exposed to the visitor and the reason is not an unavailable worker |
| `SessionPromises.FencedNoShowIsReady` | server/public-session-coordinator.ts:610-613 | The commonest instance: a fence on a seat with an admitted ticket leaves that seat both fenced and ready after a no-show |
| `SessionRuns.StepInv` | server/public-session-coordinator.ts:222-836 | Every operation and every restart keeps the coherence invariant, for any arguments and clock readings |
| `SessionRuns.StepAdvances` | server/public-session-coordinator.ts:222-836 | Every operation moves tickets forward only: phases never go back, seat, assignment time and start time are written once, counters never shrink, and only an admission adds a ticket |
| `SessionInvariant.RestoreInv` | server/public-session-coordinator.ts:755-837 | Restoring what the coordinator itself exported succeeds and yields a coherent state, although queue and visitor index are rebuilt |
| `SessionBudget.StepBudget` | server/public-session-coordinator.ts:546-1016 | Every operation keeps the books: the one reserved counter is a full reservation for each ticket seated since the last reset, including pruned and carried-over ones |
| `SessionBudget.ResearchWithinBudget` | server/public-session-coordinator.ts:546-558 | At any point of any run, research runs authorized since the last budget reset times the per-run reservation <= reserved <= daily budget |
| `SessionIsolation.NoExposedProcessIsReassigned` | server/public-session-coordinator.ts:257-501 | Whatever visitors, workers, probes in flight and restarts do, a process recorded as reached by one ticket is never behind a ready seat, never bound to another ticket, and never actually running behind another active ticket's connection |
| `SessionIsolation.NextContained` | server/public-live-gateway.ts:780-1100 | Every move of the gateway and of the world (upgrade, dial, handshake with or without generation, probe, answer, delivery, process replacement, reboot) keeps exposed processes contained |
| `SessionIsolation.UpgradeGrantedExactly` | server/public-live-gateway.ts:815-836 | The activate-then-mark mutation succeeds exactly for the reserved version, and otherwise changes nothing |
| `SessionIsolation.HandshakeContained` | server/public-session-coordinator.ts:378-416 | A handshake fences the process actually reached, and without a generation header quarantines whatever answers next |
| `SessionIsolation.FreshAnswerIsCredible` | server/public-session-coordinator.ts:257-303 | A probe answer whose epoch is still current never re-admits an exposed process |
| `SessionExposure.ReportSeatContained` | server/public-session-coordinator.ts:265-341 | A credible health report, including a first and a later observation under quarantine, admits no exposed process |
| `SessionExposure.SweepContained` | server/public-session-coordinator.ts:595-629 | A sweep, including its pump, hands no exposed process to a ticket |
| `SessionFences.StepKeepsFences` | server/public-session-coordinator.ts:222-836 | No operation or restart other than setting a fence changes one, or forgets a known process |
| `SessionFences.SweepLeaves` | server/public-session-coordinator.ts:595-629 | A sweep leaves every free seat that is not ready exactly as it was |
| `SessionCoordinator.PublicSessionCoordinator.constructor` | server/public-session-coordinator.ts:190-219 | The empty coordinator is coherent |
| `SessionCoordinator.PublicSessionCoordinator.EndTicket` | server/public-session-coordinator.ts:869-906 | In place, ends a ticket and recycles, frees or holds its seat as the model says; `terminate` is this for a known ticket |
| `SessionCoordinator.PublicSessionCoordinator.RemoveEndedQueueEntries` | server/public-session-coordinator.ts:982-986 | Splicing from the back leaves exactly the waiting entries in order |
| `SessionCoordinator.PublicSessionCoordinator.PumpQueue` | server/public-session-coordinator.ts:839-867 | The assignment loop computes the model's pump, early exit and budget refusals included |
| `SessionCoordinator.PublicSessionCoordinator.SweepTicket` | server/public-session-coordinator.ts:597-625 | One expiry check matches the model's verdict, lapsed reservations included |
| `SessionCoordinator.PublicSessionCoordinator.ResetDailyBudget` | server/public-session-coordinator.ts:988-998 | A new day inherits the reservations outstanding |
| `SessionCoordinator.PublicSessionCoordinator.PruneEndedTickets` | server/public-session-coordinator.ts:1000-1016 | Deleting while iterating, then sorting and cutting, discards exactly the stale and the earliest-ended tickets |
| `SessionCoordinator.PublicSessionCoordinator.SweepAll` | server/public-session-coordinator.ts:595-629 | The whole sweep in place is the model's sweep |
| `SessionCoordinator.PublicSessionCoordinator.Admit` | server/public-session-coordinator.ts:222-254 | Returns the live ticket, refuses on a full queue or enlists and pumps; coherent afterwards |
| `SessionCoordinator.PublicSessionCoordinator.MarkIdleWorkerReady` | server/public-session-coordinator.ts:418-441 | A seat becomes ready only for a process it is not fenced against, and keeps its idle clock for the same process |
| `SessionCoordinator.PublicSessionCoordinator.SetWorkerReady` | server/public-session-coordinator.ts:257-342 | Applies or discards a health report as the model says; coherent afterwards |
| `SessionCoordinator.PublicSessionCoordinator.HoldInQuarantine` | server/public-session-coordinator.ts:279-302 | Holds the seat unless a different process is seen after an outage |
| `SessionCoordinator.PublicSessionCoordinator.SetWorkerDrainIneligible` | server/public-session-coordinator.ts:359-370 | Fences or unfences a seat, outdating probes in flight when fencing; coherent afterwards when the seat is free |
| `SessionCoordinator.PublicSessionCoordinator.ConfirmWorkerGeneration` | server/public-session-coordinator.ts:378-416 | Confirms the assigned process or ends the ticket, fencing what was reached |
| `SessionCoordinator.PublicSessionCoordinator.Reserve` | server/public-session-coordinator.ts:444-460 | Issues the next connection version, at most one pending, at most 32 in all |
| `SessionCoordinator.PublicSessionCoordinator.Activate` | server/public-session-coordinator.ts:463-485 | Activates exactly the pending version and starts the lease once |
| `SessionCoordinator.PublicSessionCoordinator.MarkStarted` | server/public-session-coordinator.ts:488-501 | Records the exposure of the current connection only |
| `SessionCoordinator.PublicSessionCoordinator.RollBack` | server/public-session-coordinator.ts:504-519 | Returns to the previous version of the current connection only |
| `SessionCoordinator.PublicSessionCoordinator.Cancel` | server/public-session-coordinator.ts:522-528 | Drops exactly the pending version |
| `SessionCoordinator.PublicSessionCoordinator.TouchTicket` | server/public-session-coordinator.ts:540-543 | Renews the idle lease of an active ticket only |
| `SessionCoordinator.PublicSessionCoordinator.DetachBrowser` | server/public-session-coordinator.ts:561-567 | Starts the grace period of the current connection only |
| `SessionCoordinator.PublicSessionCoordinator.AuthorizeResearch` | server/public-session-coordinator.ts:546-558 | Sweeps, then counts a run of an active ticket within its quota |
| `SessionCoordinator.PublicSessionCoordinator.LoadState` | server/public-session-coordinator.ts:755-837 | Loads a persisted state or changes nothing when it does not fit the configuration; coherent afterwards |
| `SessionCoordinator.PublicSessionCoordinator.ExportLoads` | server/public-session-coordinator.ts:723-753 | What is exported can always be loaded again, into a coherent state |
| `WarmPool.ScaleDownTakesTheLongestIdle` | server/capacity-warm-pool.ts:102-186 | A plan scales down exactly as many eligible seats as exceed the desired number, if there are that many: the longest idle, none draining or below the threshold, never below the desired number |
| `WarmPool.CapacityWarmPool.Plan` | server/capacity-warm-pool.ts:102-186 | The counting, sorting and list-building loops compute the plan about which this is proved |
| `WarmPool.CapacityWarmPool.Request` | server/capacity-warm-pool.ts:195-243 | Accepts exactly the requests the model accepts and records the drained process |
| `WarmPool.CapacityWarmPool.Release` | server/capacity-warm-pool.ts:250-267 | Releases a drain only at a process other than the drained one |
| `WarmPool.CapacityWarmPool.Restore` | server/capacity-warm-pool.ts:300-318 | Restores exactly the persisted drains |
| `Gateway.RecordedDrainsAreInForce` | server/public-live-gateway.ts:468-521 | In every state reachable through mutations, deaths before, between or after the capacity and the coordinator write, and restarts, the seat of every recorded drain is fenced, not ready and without a ticket |
| `Gateway.FencesAndDrainsGoOnlyByActivation` | server/private-management-api.ts:464-486 | One step lifts a fence only by an accepted activation that reached the coordinator's record, and drops a drain only by an accepted activation at a process other than the drained one |
| `Gateway.FencedUntilActivated` | server/private-management-api.ts:421-486 | A fenced seat stays fenced, not ready and unassigned, and its drain unchanged, through every run without an accepted activation of it |
| `Gateway.AcceptedDrain` | server/private-management-api.ts:421-443 | A drain is accepted if and only if the seat is ready, free, unfenced, undrained, its process is the expected one and it has been idle long enough; it is then fenced in the same mutation |
| `Gateway.AcceptedActivation` | server/private-management-api.ts:464-486 | An activation is accepted if and only if the seat exists and the drained process is no longer running; the seat stays out of service until a fresh probe |
| `Gateway.NextHolds` | server/public-live-gateway.ts:501-521 | Every step, with a death at any point around the two writes, keeps drains recoverable |
| `Gateway.BootHolds` | server/public-live-gateway.ts:453-479 | A restart puts every persisted drain back into force before any probe, whichever half was written |
| `Gateway.PlanAgreesWithActivation` | server/capacity-warm-pool.ts:167-184 | A drained seat is proposed for activation if and only if its activation would be accepted |
| `Gateway.ScaleDownCandidatesAreDrainable` | server/capacity-warm-pool.ts:142-165 | Every scale-down candidate would be accepted for draining at the process the plan saw |
| `Gateway.ManagementApi.DrainWorker` | server/private-management-api.ts:421-443 | The mutation on both objects is the model's; coherent afterwards |
| `Gateway.ManagementApi.ActivateWorker` | server/private-management-api.ts:464-486 | The mutation on both objects is the model's; coherent afterwards |
| `Permits.CapIsKeptAndNeverIdle` | server/research-permit-coordinator.ts:148-369 | In every reachable state at most `maxConcurrent` permits are acquired, a permit waits only while all slots are taken, and the queue is the waiting permits in the order in which they were asked for |
| `Permits.FirstComeFirstServed` | server/research-permit-coordinator.ts:148-459 | Over whole runs and restarts: if `a` was asked for before `b` and is not issued again after it has left, then whenever both are present and `b` has a slot, so has `a`; asking again for a permit that is present changes no order |
| `Permits.RestoreIsSweep` | server/research-permit-coordinator.ts:381-428 | The queue is not exported, yet restoring an export equals sweeping the exported state, apart from the memory of settled ids |
| `Permits.SweepEnforcesLimits` | server/research-permit-coordinator.ts:349-369 | After a sweep no permit is past its queue limit nor, unless acquired at clock zero, past its hard timeout |
| `Permits.ReleaseIsFinal` | server/research-permit-coordinator.ts:217-241 | A release happens once; again it changes nothing, and is answered as already released while the place of the id in the memory, counted from the end, and the length of the queue together are at most 128; the place is the first unless the same id had been settled before |
| `Permits.ReclaimIsExact` | server/research-permit-coordinator.ts:304-313 | A reclaim leaves no permit of a replaced worker process and drops no other except by expiry |
| `Permits.StepInv` | server/research-permit-coordinator.ts:148-428 | Every operation and restart keeps the alignment of slots, queue and insertion order |
| `PermitCoordinator.ResearchPermitCoordinator.AcquirePermit` | server/research-permit-coordinator.ts:148-212 | In place: idempotent on the request id, refuses collisions and a full queue, otherwise grants or queues |
| `PermitCoordinator.ResearchPermitCoordinator.ReleasePermit` | server/research-permit-coordinator.ts:217-241 | In place: frees the slot and serves the queue |
| `PermitCoordinator.ResearchPermitCoordinator.CancelPermit` | server/research-permit-coordinator.ts:246-275 | In place: removes a waiting permit or frees a slot |
| `PermitCoordinator.ResearchPermitCoordinator.HeartbeatPermit` | server/research-permit-coordinator.ts:280-299 | In place: renews a waiting, unexpired permit only |
| `PermitCoordinator.ResearchPermitCoordinator.ReclaimStaleGeneration` | server/research-permit-coordinator.ts:304-313 | In place: cancelling while iterating cancels what the model cancels, and counts it |
| `PermitCoordinator.ResearchPermitCoordinator.SweepAll` | server/research-permit-coordinator.ts:349-369 | In place: expiring and serving while iterating is the model's sweep |
| `PermitCoordinator.ResearchPermitCoordinator.PumpQueue` | server/research-permit-coordinator.ts:444-459 | In place: the loop fills free slots from the head of the queue |
| `PermitCoordinator.ResearchPermitCoordinator.RememberSettled` | server/research-permit-coordinator.ts:461-469 | Set and order of settled ids stay equal and bounded by 128 |
| `PermitCoordinator.ResearchPermitCoordinator.RestoreState` | server/research-permit-coordinator.ts:388-428 | In place: rebuilds permits and queue and sweeps |
| `PermitCoordinator.ResearchPermitCoordinator.Dispose` | server/research-permit-coordinator.ts:371-377 | Leaves nothing behind |
| `WorkerRuns.SlotsAreNeverIdleOrOverrun` | server/research-worker-coordinator.ts:288-343 | In every reachable state no more than `concurrency` children run, all places together stay within the queue bound, a job has one place, and a job waits in the slot queue only while every slot is taken |
| `WorkerRuns.AttemptsAreOrderly` | server/research-worker-coordinator.ts:522-595 | In every reachable state each attempt has forwarded strictly increasing sequence numbers and at most one of terminal event and reported error, and a slot given up had ended, been cancelled or been reported |
| `WorkerRuns.NothingFollowsTheEnd` | server/research-worker-coordinator.ts:522-555 | Once an attempt has ended, been cancelled or lost its slot, nothing more is ever forwarded from it, in any continuation |
| `WorkerRuns.ForwardedExactly` | server/research-worker-coordinator.ts:522-555 | A message is forwarded if and only if its attempt runs and has not ended or been cancelled, it names attempt and job, and its sequence number exceeds everything forwarded before |
| `WorkerRuns.StepInv` | server/research-worker-coordinator.ts:288-838 | Every call, child event, timer and gate answer, in any order, keeps slots, places and histories in order |
| `WorkerInvariant.PumpQueueCore` | server/research-worker-coordinator.ts:681-690 | Starting children from the queue, with failing starts nested in it, ends with all slots busy or nobody waiting |
| `WorkerPermits.PermitIsLostExactlyWhenForgotten` | server/research-worker-coordinator.ts:695-739 | One step leaves a handed-over permit without holder if and only if it is an acquire answer for a job that already knew of that permit; all others stay with exactly one holder, given back or ended |
| `WorkerPermits.NoPermitIsLost` | server/research-worker-coordinator.ts:695-838 | In every run that submits a job again only after its earlier acquire call was answered, each permit has exactly one holder, or has been given back at least once, or was ended by the gate |
| `WorkerPermits.ImpatientRunLosesAPermit` | server/research-worker-coordinator.ts:695-739 | The failing example: cancelled, submitted again, and both acquire calls answered as queued |
| `WorkerCoordinator.ResearchWorkerCoordinator.EnqueueJob` | server/research-worker-coordinator.ts:288-332 | In place: rejects duplicates and overload, otherwise waits for a permit, starts or queues |
| `WorkerCoordinator.ResearchWorkerCoordinator.CancelJob` | server/research-worker-coordinator.ts:347-404 | In place: finds the one attempt of the job and fences it, or removes the waiting job |
| `WorkerCoordinator.ResearchWorkerCoordinator.DispatchJob` | server/research-worker-coordinator.ts:474-597 | In place: a failed start or first message leaves no slot taken |
| `WorkerCoordinator.ResearchWorkerCoordinator.ReleaseSlotOf` | server/research-worker-coordinator.ts:600-625 | In place: frees the slot, gives the permit back and serves the queue |
| `WorkerCoordinator.ResearchWorkerCoordinator.PumpQueueUp` | server/research-worker-coordinator.ts:681-690 | In place: the loop starts waiting jobs while slots are free |
| `WorkerCoordinator.ResearchWorkerCoordinator.HandleMessage` | server/research-worker-coordinator.ts:522-555 | In place: forwards exactly what the model forwards |
| `WorkerCoordinator.ResearchWorkerCoordinator.HandleExit` | server/research-worker-coordinator.ts:557-572 | In place: reports an unexpected exit and frees the slot |
| `WorkerCoordinator.ResearchWorkerCoordinator.HandleError` | server/research-worker-coordinator.ts:574-581 | In place: reports and frees unless the attempt had ended |
| `WorkerCoordinator.ResearchWorkerCoordinator.ExpireAttempt` | server/research-worker-coordinator.ts:641-650 | In place: the deadline ends an attempt that has not ended by itself |
| `WorkerCoordinator.ResearchWorkerCoordinator.HandleOutcome` | server/research-worker-coordinator.ts:695-739 | In place: an acquire answer reaches the waiting job or is given back |
| `WorkerCoordinator.ResearchWorkerCoordinator.HandlePoll` | server/research-worker-coordinator.ts:742-773 | In place: a poll answer counts only for the permit it asked about |
| `WorkerCoordinator.ResearchWorkerCoordinator.HandleWaitTimeout` | server/research-worker-coordinator.ts:775-788 | In place: the permit goes back and the job fails |
| `WorkerCoordinator.ResearchWorkerCoordinator.DispatchGranted` | server/research-worker-coordinator.ts:793-818 | In place: a granted job starts, waits on, or gives its permit back |
| `WorkerCoordinator.ResearchWorkerCoordinator.DisposeAll` | server/research-worker-coordinator.ts:410-450 | In place: gives back every permit held |
| `Journal.CommitsFormOneChain` | server/global-cache-store.ts:127-387 | With fresh lease tokens, for any interleaving of runners, expiries, takeovers and clocks: commits form one chain, each replaces exactly the journal its private copy was taken from, and no committed poll is lost |
| `Journal.CommitsFormOneChainByStamps` | server/global-cache-store.ts:340-387 | The same chain without any assumption on tokens when no two journals carry the same stamp |
| `Journal.ReusedTokenAndStampLoseAPoll` | server/global-cache-store.ts:340-387 | Why the two theorems need a hypothesis each: if a token and a stamp were both reused, which fresh tokens exclude, a committed poll could be lost |
| `Journal.ReplacedTokenIsDead` | server/global-cache-store.ts:189-387 | Once a token is no longer in the lease, nothing is committed or published under it in any continuation |
| `Journal.EntriesNeverGoBack` | server/global-cache-store.ts:239-290 | No run replaces a published entry by one generated earlier |
| `Journal.StepFencing` | server/global-cache-runner.ts:73-122 | Every runner step in the order base read, copy, poll, commit, release keeps what a current token holder has seen true |
| `Journal.GlobalCacheStore.Acquire` | server/global-cache-store.ts:127-158 | Takes over anything but another owner's live lease |
| `Journal.GlobalCacheStore.Renew` | server/global-cache-store.ts:197-226 | Renews exactly the caller's own lease |
| `Journal.GlobalCacheStore.Release` | server/global-cache-store.ts:160-187 | Releases exactly the caller's own lease |
| `Journal.GlobalCacheStore.Put` | server/global-cache-store.ts:239-290 | Publishes under a live lease, never over a newer entry |
| `Journal.GlobalCacheStore.CommitOver` | server/global-cache-store.ts:340-387 | Replaces the journal only under a live lease and an unchanged base |
| `Scanner.AcceptsExactlyTheTrees` | shared/market-event-scout.ts:491-586 | A document is accepted if and only if its tags spell one balanced tree with open depth <= 64, no entry inside an entry and <= 200 entries, with nothing of substance around it; the result is the root name and the entries' source slices in document order |
| `Scanner.SpelledIsAccepted` | shared/market-event-scout.ts:491-586 | Every such document is accepted, with exactly the entries of its tree |
| `Scanner.AcceptedIsSpelled` | shared/market-event-scout.ts:491-586 | Every accepted document is such a tree, which is reconstructed |
| `Scanner.SlicesAreDisjointAndOrdered` | shared/market-event-scout.ts:491-586 | The returned slices are nonempty, disjoint and in document order |
| `Scanner.ParseFeedStructure` | shared/market-event-scout.ts:491-586 | The one-pass stack loop terminates and computes the scan about which this is proved |
| `TriggerReader.EvaluatedDecisionsAreValid` | shared/market-event-scout.ts:767-865 | Every decision the evaluator makes passes the reader's semantic checks, and every admitted one has a route that fits its association |
| `TriggerReader.CandidateAcceptedExactlyWithDistinctReasons` | shared/market-event-scout.ts:944-1004 | The reader accepts an evaluated candidate if and only if the decision's reason codes are distinct |
| `TriggerReader.IncrementValid` | shared/market-event-scout.ts:1006-1034 | One more candidate keeps the conservation sums and bounds of the counters |
| `TriggerWriter.WrittenStatesAreRead` | shared/market-event-scout.ts:1358-1407 | The strict reader accepts every dry-run state the writer produces from a written one, for decisions with distinct reason codes, while no counter overflows and days have four-digit years |
| `TriggerRuns.WrittenRunsAreRead` | shared/market-event-scout.ts:1036-1407 | Over any run of polls from the empty state, with whatever decisions the evaluator makes: the strict reader accepts the state, as long as days have four-digit years and no more decisions than a counter can count |
| `TriggerWriter.UncountedCandidatesMixPolicies` | shared/market-event-scout.ts:1036-1089 | Why a written state must not hold uncounted candidates: the reader accepts such a state, and recording nothing makes it unreadable |
| `TriggerRuns.DayCapAlwaysHolds` | shared/market-event-scout.ts:944-1089 | Over any polls with a clock that does not run backwards, and for any policy, no UTC day has more triggers than its cap, although the day table is truncated |
| `TriggerRuns.TriggersAreSpaced` | shared/market-event-scout.ts:944-1089 | Over any polls with a clock that does not run backwards, triggers of one target are at least the cooldown apart, although the cooldown table is truncated, if the cap times the days one cooldown can touch is at most 2,001 |
| `TriggerRuns.DefaultTriggersAreSpaced` | shared/market-event-scout.ts:305-311 | So they are under the default policy, without any condition |
| `TriggerLimits.TriggersAreSpacedExactly` | shared/market-event-scout.ts:944-1089 | That bound is exact: for every valid policy, triggers keep their distance over all such runs if and only if the cap times the days one cooldown can touch is at most 2,001 |
| `TriggerLimits.LiveTriggersAreKeptExactly` | shared/market-event-scout.ts:1080-1088 | For every valid policy, no run makes the truncated table lose a trigger that is still cooling down if and only if the cap times the days one cooldown can touch is at most 2,000 |
| `TriggerLimits.FloodLosesLive` | shared/market-event-scout.ts:1080-1088 | Beyond, the run that does: polls that trigger the cap on each day a cooldown touches |
| `TriggerLimits.FloodRepeats` | shared/market-event-scout.ts:1036-1089 | And one trigger further the run in which a target triggers twice within its cooldown |
| `TriggerRuns.SettledRecalls` | shared/market-event-scout.ts:1080-1088 | Truncating the cooldown table drops a live entry only when more than 2,000 triggers have happened since it, itself included; no condition on the policy |
| `TriggerRuns.TodayStays` | shared/market-event-scout.ts:1079-1080 | Truncating the day table never drops the current day |
| `TriggerRecorder.TriggerDryRunState.RecordTriggerCandidates` | shared/market-event-scout.ts:1036-1089 | In place, the recording loop yields exactly the recorded state and candidates |
| `TriggerRecorder.IncrementAggregate` | shared/market-event-scout.ts:1006-1034 | The counter updates, gate by gate, are the model's |
| `Outbox.CallsAreOnRecord` | shared/market-event-scout.ts:1734-1827 | Across deaths and restarts at any point, for every run and day: the adapter calls counted against the day are at most the attempts of that day on record plus those that retentions have dropped, and never more than the daily cap are on record |
| `OutboxLimits.CapOfADayHoldsExactly` | shared/market-event-scout.ts:1734-1827 | For all m and n: over all runs the scout can go through, with deaths and restarts at any point, that leave at most m records up to the last live one before the first drain of a day and poll at most n candidates after that, the day has at most four calls if and only if n = 0 or m + n <= 2,000 |
| `OutboxLimits.DailyCapHoldsExactlyUpTo` | shared/market-event-scout.ts:1734-1827 | From the empty outbox: all runs the scout can go through that poll at most n candidates keep the daily cap if and only if n <= 2,000 |
| `OutboxLimits.DailyCapHoldsWithRoom` | shared/market-event-scout.ts:1734-1827 | The half that holds needs no condition on what the scout can receive: records up to the last live one and candidates polled since, at most 2,000 together, for any events and clocks |
| `Outbox.DailyCapSurvivesDeaths` | shared/market-event-scout.ts:1734-1827 | The step between: the calls of a day stay within the cap in any run whose retentions have dropped no attempt of that day, which the two rows above turn into conditions on the outbox and the polls |
| `OutboxLimits.ForgottenAttemptsBreakTheCap` | shared/market-event-scout.ts:1455-1464 | The run in which it is exceeded: 2,000 candidates over up to four days, at most 1,000 a day, each once; four attempts that are turned down; one more candidate, whose retention drops one of the four; and a fifth call on the same day. The clock never runs backwards, drains only follow polls, and the reader accepts every state |
| `Outbox.NoCandidateAcceptedTwice` | shared/market-event-scout.ts:1734-1827 | Within one scout instance a candidate is not accepted twice, unless its record is dropped after the first time and it is polled again |
| `OutboxLimits.AcceptedOnceWithRoom` | shared/market-event-scout.ts:1734-1827 | So within one instance no candidate is accepted twice if all polls together bring at most 2,000 candidates, or bring each only once |
| `Outbox.RetentionForgetsExactlyTheDropped` | shared/market-event-scout.ts:1455-1464 | A retention keeps a day's attempts if and only if no dropped record carries one; within the bound nothing is dropped, and no live record while those fit |
| `Outbox.WrittenOutboxIsReadExactlyWhen` | shared/market-event-scout.ts:1409-1441 | The strict reader accepts the outbox after a step if and only if the step neither ends a record that was never attempted, nor stores an error that is blank, nor stamps a record with a time before its creation or out of range, nor counts an attempt for a day whose name is not of four-digit form |
| `Outbox.OutboxStaysReadableExactlyWhen` | shared/market-event-scout.ts:1409-1464 | Over any run with a clock that does not run backwards, the reader accepts every state if and only if no step ends a record that was never attempted or stores a blank error |
| `Outbox.StrandedRecordBreaksTheReader` | shared/market-event-scout.ts:1777-1786 | The shortest failing run: a candidate is recorded, a drain starts, the candidate is no longer retained; its record is failed without an attempt and the reader refuses the file |
| `Outbox.ScoutOutbox.DrainDispatches` | shared/market-event-scout.ts:1734-1827 | In place, an undisturbed drain is the sequence of model steps, writing each attempt before its call |
| `Outbox.ScoutOutbox.Recover` | shared/market-event-scout.ts:1745-1756 | In place, a fresh instance takes up what was in flight, once |
| `Limiters.BucketBound` | server/public-live-gateway.ts:139-161 | With a clock that does not run backwards, for every call sequence and interval [t1, t2], grants <= burst + rate x (t2 - t1) / 1000 |
| `Limiters.WindowBound` | server/public-live-gateway.ts:107-136 | Any interval of one window length holds at most twice the limit of grants per key, and at most two for a limit below one |
| `Limiters.TableStaysBounded` | server/public-live-gateway.ts:107-136 | The table never outgrows its bound, whatever the clock does |
| `Limiters.PruningIsInvisible` | server/public-live-gateway.ts:107-136 | While no take is turned away for room, every answer is that of a limiter that never prunes |
| `Limiters.TokenBucketRateLimiter.Take` | server/public-live-gateway.ts:150-160 | In place, a take is the model's |
| `Limiters.FixedWindowRateLimiter.Take` | server/public-live-gateway.ts:118-135 | In place, a take with its pruning loop is the model's |
| `Ledger.QuotasAndBudgetHold` | server/provider-budget.ts:250-296 | On each day every principal whose name no object inherits is admitted within its quota in each lane, and n admitted estimates total at most budget + (n - 1) x 0.5 micro-USD despite the rounding of each step |
| `Ledger.CountsAreSumsExactly` | server/provider-budget.ts:250-296 | The global counts are the calls the day has admitted; they are the sums over the principals in the file if and only if none of those calls was under an inherited name |
| `Ledger.QuotaBindsExactly` | server/provider-budget.ts:268-273 | A principal is held to its quota over all days and call sequences if and only if no object inherits a member of its name |
| `Ledger.InheritedNameHasNoQuota` | server/provider-budget.ts:268-286 | The failing family: under an inherited name any number of calls is admitted on one day |
| `Ledger.WrittenLedgerIsReadExactlyWhen` | server/provider-budget.ts:130-170 | A ledger found and written by an admitted call is found again as written if and only if the file, with the bytes this call adds, stays within 8 MiB, and either no entry was added or its name is acceptable and the principals were fewer than 100,000 |
| `Ledger.OversizedIsRefusedForEver` | server/provider-budget.ts:130-134 | A file beyond 8 MiB makes every call of every day throw, because its size is tested before its day, and so never changes again |
| `Ledger.LedgerOutgrowsItsFile` | server/provider-budget.ts:130-170 | The failing run: one request each of 72,944 principals with names of 43 bytes, and every later call of every day throws |
| `Ledger.SizeStrikesFirst` | server/provider-budget.ts:60-61 | With names of twelve bytes or more, a file within 8 MiB holds fewer than 100,000 principals |
| `Ledger.FileGrows` | server/provider-budget.ts:156-170 | The bytes by which an admitted call makes the indented file grow |
| `Ledger.AnotherDayForgets` | server/provider-budget.ts:130-134 | Why the calls of a day have to follow one another: an admitted call of another day makes the day start from nothing, or throw if the file is too large |
| `Ledger.RoundingIsClose` | server/provider-budget.ts:284 | Rounding to six decimals moves an amount by at most half a micro-USD |
| `Ledger.ProviderBudget.ByteLength` | server/provider-budget.ts:131 | The size of the file as it is written, over all its entries |
| `Ledger.ProviderBudget.ParseState` | server/provider-budget.ts:130-154 | In place, size, day, amounts and principals are tested in this order |
| `Ledger.ProviderBudget.ConsumeCall` | server/provider-budget.ts:250-296 | In place, one locked call is the model's |

## Left out

- HTTP, WebSocket, Express, Redis and SQLite plumbing: a serialized mutation or a transaction is one step.
- Tickets, seats, permits and attempts are values in maps, not shared objects: aliasing between a record and
  its table entry is not captured; the fields of the coordinators are updated in place.
- One clock reading per operation: the source may read the clock several times within one.
- The order in which a map is iterated is modelled where it matters (tickets, permits); the search for a
  job's attempt is over a set.
- Consumer callbacks (`onSessionEnded`, `onEvent`, `onError`) and re-entrant calls from them.
- Timers themselves: a timer firing is an event that may come at any time, also late or never, so no
  liveness is claimed.
- The shape checks of persisted JSON (types, missing fields, legacy versions) beyond those named in the table;
  restores are modelled for what the program itself exported.
- Model calls, feeds, quotes, the terminal interface, browser and IPC validators, logs and metrics.
- SessionIsolation.NoExposedProcessIsReassigned: an exposure is recorded when a connection is marked as started
  or when an active ticket's handshake arrives; a process reached by a connection whose ticket ends before its
  handshake arrives is not recorded unless it is the assigned one, as in the source.
- Gateway.RecordedDrainsAreInForce: a drain or activation is served only after the first maintenance mutation
  of the process has been persisted, as the source's start-up order has it; the third write, of the research
  permits, is not modelled, nor is a write that fails without the death of the process while mutations queued
  behind it still run.
- Permits.ReleaseIsFinal: the answer to a repeated release is given only while the queue fits into the memory of
  128 settled ids behind the id itself, because serving the queue can push the id out of that memory.
- WorkerPermits.NoPermitIsLost: given back means at least once; a permit whose first message fails to send is
  given back twice by the source.
- Scanner.AcceptsExactlyTheTrees: documents are sequences of tags with positions; recognizing tags, comments,
  CDATA and attributes in characters is not modelled, nor is the length limit of a feed.
- TriggerReader.EvaluatedDecisionsAreValid: the text patterns behind an event class are a boolean of the item.
- TriggerWriter.WrittenStatesAreRead: titles, links and labels are left out; candidate ids are the decision ids,
  the hash between them being taken as injective. The distinct reason codes it asks for are those of every
  decision the evaluator makes, for which TriggerRuns.WrittenRunsAreRead drops the condition.
- Outbox.WrittenOutboxIsReadExactlyWhen: the form of candidate ids and of the model id is left out, and of a text
  only the length is kept; a step whose state the reader has refused goes on in the model, where the source
  would throw at its next read.
- WarmPool: the release of a drain whatever process runs (`forceReleaseDrain`), which the source calls only to
  undo half a mutation, in branches that are never taken.
- OutboxLimits.CapOfADayHoldsExactly: which candidates are still stored when their turn comes is an event of the
  run and is not tied to the trigger state.
- Outbox.DailyCapSurvivesDeaths: records written by older versions without attempt days are left out.
- Ledger.QuotasAndBudgetHold: dollar amounts are real numbers; only the rounding to six decimals is modelled.
  The name `__proto__` is treated like the other inherited ones, whose members are functions.
- Ledger.WrittenLedgerIsReadExactlyWhen: the size is that of a file as the program writes it, indented and with
  amounts in plain decimals; a file laid out by hand may be larger.
- Ledger.QuotaBindsExactly: quotas below 2^53, up to which the source counts by one.
- Limiters.BucketBound: tokens are real numbers.
- Whether an entry of the store is still eligible for reading, and the checkpoint of a session's workspace.
