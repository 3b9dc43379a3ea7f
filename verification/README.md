# Silicon Browser: a verified model

This project models the stateful core of Silicon Browser in Dafny and proves what that core is for. Each module follows one
source file or one part of it.

**The session lifecycle** (`Rows`, `RowLaws`, `RowOutcomes`, `UsageRows`, `Slots`, `LookupClaims`, `Store`, `Lifecycle`, `LifecycleLaws`,
`LifecycleMoves`, `World`, `Guarantees`, `Stranding`, `Starvation`, `Handlers`, `SessionLocks`). A `Row` is a browser session
with its recording and outbox events, and each store transaction is a function on it. `RowLaws` says what no transaction may
break, `RowOutcomes` what each one leaves for later ones to read, undo or find due. `Store` is the database object: its methods
run the transactions statement by statement over separate tables and are proved equal to those functions. A `Cell` adds to one
session everything that acts on it at once: the request that creates it, any number of explicit ends and TTL reapers,
failed-start recovery, recording lookups, and the remote browser as the provider really has it. Its actions are single
transactions or provider exchanges, any of which may fail, lose its reply or be the last its worker ever does. `World` puts
all cells, the profiles and a shared clock together; a run is any sequence of possible moves. `Guarantees` holds the main
results, stated for every reachable world, every move or every run. `Handlers` writes the server's procedures as they stand,
calling the `Store` methods, proves each uninterrupted procedure to be a run of the cell machine, and says exactly when it
succeeds and what it leaves.

Assumptions the results rest on, all visible as guards of `Lifecycle.Enabled` or `Handlers.Honest`: the provider reports a
browser stopped only if it has stopped, and a stopped browser stays stopped; its search by session id finds no browser but
the one this reservation started; a start error outside `provider_mutation_may_have_committed` means that no browser was
created; one start request is made per reservation (its browser may appear at any time after the reply was lost); all
processes share one nondecreasing clock; a reaper's worker starts within 30 s of its claim. The unique index that allows one live session per profile is in migrations that are not part
of this model; it appears as the guard of a reservation. The results are not vacuous: `Stranding` and `Starvation` build
concrete runs through reservations, starts, crashes, claims, stops and recoveries.

**Self-contained parts.** `Decimal`/`DecimalLaws`: scientific notation to integer millionths. `UsageCost`: splitting and
summing costs. `Utf8`/`Utf8Laws`/`Redaction`/`RedactedOutput`/`RawOutput`/`Survivors`: streaming secret redaction and
incremental decoding (sections 3 and 4 of RFC 3629). `AuthCache`: the generation-fenced authorization cache.
`TabSession`/`TabRenewal`: sign-ins shared by browser tabs. `CliSession`: one saved login shared by CLI processes.
`TextPattern`: greedy wildcard matching.

Where code and intent part ways, the code is modelled and the exact condition is proved:

- A freed slot can have its remote browser up, at once or later, exactly when a reaper's claim expired a session still starting
  while its browser was up or its start still open (`Guarantees.FreedSlotMayHaveABrowserExactly`). Whatever keeps the
  activation from happening in time leads there: a creator that vanishes or still waits for the provider, an ambiguous start
  whose browser is not found or appears late, an unconfirmed recovery. Three such runs are given (`Stranding`); in each a
  second browser of the same profile can run beside the first. The start request carries the session's time limit, so the
  provider may end such a browser itself; the model allows that at any moment but does not rely on it.
- A due session can starve. A failed stop releases its lease at once and every claim starts from the soonest expiry, so eight
  sessions whose stops keep failing are claimed in every round (`Starvation`); the queue ahead of a session moves by exactly
  what a round serves (`Slots.RoundShortensTheQueueByWhatItServes`).
- A finished session's pending recording can be stuck, exactly when its source is stored and no delivery was queued
  (`Guarantees.PendingRecordingIsStuckExactly`); `Guarantees.RecordingGetsStuckExactly` says which moves make it so.
- The mark that replaces a secret can put the secret together again. Exactly the secrets that clash with `[REDACTED]` can
  survive (`Survivors.SurvivesExactlyIfItClashes`).
- A refresh reply can undo a logout when the saved login has neither a credential generation nor an identity. `login_status`
  reaches a refresh without the step that fills in a missing generation (`crates/cli/src/main.rs:462-468` against `:568-571`).
- `a*b` rejects `abb`, because the last part is placed at its earliest occurrence.
- Captured output past 65536 bytes is a prefix of the output exactly if, once a character did not fit, no later chunk starts
  with a narrower one that does (`RedactedOutput.FinalCaptureIsPrefixExactly`).
- A push that finds a bad byte decodes its whole buffer, even the half of a character at its end, which the next push could
  have completed. The emitted text is the lossily decoded stream exactly if no push does that
  (`RawOutput.EmittedIsLossyExactly`).
- A reaper whose claim was made before its session's source was stored cannot hand the recording over, releases its lease and
  leaves the session to the next claim (`Handlers.Saga.ReapClaimed`).
- Tabs save and forget sign-ins without the lock that renewals take. A token is submitted twice only if such a write loses the
  mark of a spent token, and any such write can lead there (`TabRenewal.EachTokenIsSentOnce`, `TabRenewal.LostMarkIsResent`).
  A write loses a mark if it read storage before the mark was made, or if it saves a sign-in that was renewed meanwhile; the
  exact conditions are `TabRenewal.SaveLosesExactly` and `TabRenewal.RemovalLosesExactly`.
- For the same reason a renewal can destroy a sign-in saved meanwhile under another token, even one of its own account: exactly
  if that was saved between the renewal's last read and its write, for a finished renewal (`RenewalSparesExactlyWhatItRead`) as
  for the removal after a failed one (`RemovalSparesExactlyWhatItRead`).

## Model

| member | source | states |
|---|---|---|
| Guarantees.OneLiveSessionPerProfile | crates/backend/src/store.rs:862-960 | In every state any run can reach, a profile has at most one starting, active or ending session, and only a ready profile has one |
| Guarantees.SlotIsFreedOnlySafely | crates/backend/src/server.rs:1635-1742 | In every interleaving a live session becomes terminal only by a finalization after the confirmed stop of its own browser, by a refused start that created no browser, or by a claim that finds it still starting past its expiry |
| Guarantees.FreedSlotMayHaveABrowserExactly | crates/backend/src/server.rs:1061-1137 | Exactly when a freed slot can have its remote browser up, at once or at any later point of some run: if and only if a claim expired a session still starting while its browser was up or its start still open |
| Guarantees.FreedSlotLeavesABrowserExactlyIfStartingHadOne | crates/backend/src/store.rs:1536-1606 | At the freeing move itself: the browser is up if and only if a claim expired a session still starting whose browser was up |
| Guarantees.OneRunningBrowserPerProfile | crates/backend/src/server.rs:1031-1193 | At most one recorded browser per profile is running, in every reachable state |
| Guarantees.ActivatedSessionEndsStopped | crates/backend/src/server.rs:1720-1742 | Over any run, a session that once had a runtime keeps that very browser and is terminal only if that browser has stopped |
| Guarantees.OutlivingBrowserWasNeverRecorded | crates/backend/src/server.rs:1031-1138 | A browser that outlives its session belongs to an expired session with no recorded provider id |
| Stranding.VanishedCreatorStrandsABrowser | crates/backend/src/server.rs:1061-1137 | A reachable state in which two browsers of one profile run: the request that started the first vanished before the activation |
| Stranding.UnfoundStartStrandsABrowser | crates/backend/src/server.rs:1074-1097 | The state before the second start is reached with nobody vanishing: the reply of an ambiguous start is lost and the provider does not find the browser |
| Stranding.LateBrowserJoinsItsSuccessor | crates/backend/src/server.rs:1083-1087 | A reachable state in which a lost start has created nothing when its slot is freed and taken again, and whose browser then appears beside its successor's |
| Guarantees.RetriedEndFindsTheSameBrowser | crates/backend/src/store.rs:1454-1491 | At any later point of any run a retried end of an ending session changes nothing and gets the same browser id and endpoints as the first |
| Guarantees.EndFindsTheGivenRuntime | crates/backend/src/store.rs:1018-1169 | Over any run an end finds the very runtime the session was given by its activation, its late activation or its retention, each endpoint in its own column |
| Guarantees.StatusFixesRuntime | crates/backend/src/store.rs:1018-1169 | In every reachable state a starting session has no runtime, an active or ending one has all of it, and exactly the terminal ones have an end time |
| Guarantees.StatusOnlyMovesForward | crates/backend/src/store.rs:1018-1685 | Over any run the status never moves back, terminal statuses and end times are final, and the provider id once set never changes |
| Guarantees.PendingRecordingsAreReachable | crates/backend/src/store.rs:2976-3080 | No pending recording is orphaned: its source is stored or its lookup is open, and when the lookup of a source-less one falls due on a finished session a claim of it is possible |
| Guarantees.PendingRecordingIsStuckExactly | crates/backend/src/store.rs:3025-3080 | In every reachable state a finished session's pending recording has an open delivery or a lookup that can be claimed at some time, exactly unless its source is stored and no delivery was queued |
| Guarantees.RecordingGetsStuckExactly | crates/backend/src/store.rs:1204-1304 | Exactly which moves make a recording stuck, told from the state before: a recovery that finalizes without knowing the stored source, an end or expiry that finalizes after another closer stored the source its lookup was for, and a source stored after the session was finished |
| Stranding.ForgottenSourceStrandsARecording | crates/backend/src/server.rs:1643-1718 | A reachable state with such a stuck recording and no worker left: the runtime's activation reply and its retention were both lost, so the recovery queued a lookup for a source already stored |
| RowLaws.PendingIsStuckExactly | crates/backend/src/store.rs:3034-3045 | The same as the stuck condition above for any consistent row |
| Guarantees.AtMostTenLookups | crates/backend/src/server.rs:284-380 | Over any run one resolve event causes at most ten provider lookups |
| Guarantees.AttemptsAreHandedOutOnce | crates/backend/src/store.rs:3025-3080 | A later claim of the same event always gets a larger attempt number, whatever happened in between |
| LifecycleMoves.StaleLookupChangesNothing | crates/backend/src/store.rs:3085-3222 | A lookup whose attempt is not the current one changes no stored row, whatever step it takes |
| Guarantees.StopAttemptsNeverOverlap | crates/backend/src/server.rs:403-492 | At no moment are two reaper attempts on one session running, in any number of processes, and a running one still holds the session's unexpired lease |
| Guarantees.OnlyTheLeaseHolderActsOnASession | crates/backend/src/store.rs:1608-1685 | In every reachable state a reaper's release or finalization changes the session only while it holds its lease, and then no other reaper does |
| Guarantees.UsageNeverRunsBackwards | crates/backend/src/store.rs:3542-3660 | Over any run browser time and each traffic counter never fall, the currency never changes, and a finished session's usage is final |
| Guarantees.CostsFallOnlyThroughTerminalSamples | crates/backend/src/store.rs:3533-3660 | No move of any run but a closer's terminal sample lowers a stored cost |
| World.MoveKeepsWorld | crates/backend/src/server.rs:382-552 | Every possible move keeps the invariant of every session and the slot invariant |
| World.RunKeepsWorld | crates/backend/src/server.rs:382-552 | Hence every run does, from the empty database on |
| World.RunAdvances | crates/backend/src/store.rs:1018-3660 | Over every run each session's rows, usage, leases, lookups and stopped browser only move forward |
| World.ClaimIsTheBulkClaim | crates/backend/src/store.rs:1536-1606 | A reaper batch over all sessions is exactly the store's bulk claim on its tables |
| World.MovesAreTransactions | crates/backend/src/store.rs:496-3660 | Every move of the world changes the tables exactly as the store transaction of that name, and a refused one not at all |
| LifecycleLaws.ActionKeeps | crates/backend/src/server.rs:1031-1193 | Every action of every worker (creator, ends, reapers, recovery, lookups, the browser itself) keeps a session's invariant |
| LifecycleLaws.ClaimStepKeeps | crates/backend/src/store.rs:1536-1606 | A claim keeps it too: it takes only a free or elapsed lease, never a running reaper's |
| LifecycleLaws.FinalizeStepKeeps | crates/backend/src/store.rs:1495-1647 | Finalizing an end or an expiry keeps it: the slot freed is really free |
| LifecycleLaws.RecoveryFinalizes | crates/backend/src/store.rs:1204-1304 | So does failing a session after a recovered start |
| LifecycleLaws.RetainStepKeeps | crates/backend/src/store.rs:1106-1169 | So does holding the slot with a runtime whose activation failed |
| LifecycleMoves.ActionAdvances | crates/backend/src/store.rs:1018-3660 | Every action moves rows, usage, leases and lookups forward only |
| LifecycleMoves.OnlyAConfirmedStopFrees | crates/backend/src/server.rs:1635-1742 | An action ends a live session only by finalizing after its own browser stopped or by failing a start that created none |
| LifecycleMoves.OnlyLateStartsExpireAtOnce | crates/backend/src/store.rs:1536-1606 | A claim ends only sessions that are still starting past their expiry |
| LifecycleMoves.OnlyTerminalSamplesRefund | crates/backend/src/store.rs:3542-3660 | An action lowers a cost only as a terminal sample of a live session that is not active |
| LifecycleMoves.AttemptHoldsLease | crates/backend/src/server.rs:403-457 | While an attempt is inside its 180 s budget its lease has not elapsed and is still the session's |
| LifecycleMoves.AttemptsNeverOverlap | crates/backend/src/server.rs:403-492 | Two attempts inside their budgets are the same attempt |
| Handlers.Confirmation | crates/backend/src/server.rs:1723-1767 | A stop counts as confirmed if and only if the reply, or the lookup after an ambiguous error, names this very browser as stopped |
| Handlers.Saga.EndSession | crates/backend/src/server.rs:1140-1193 | An uninterrupted explicit end succeeds if and only if the session is active or ending, its browser's stop is proved, the final sample is good and the recording is undelivered with a length that fits; then status, note, end time, source, recording, queued event and usage are told column by column, and so is what a failed end leaves |
| Handlers.Saga.ReapClaimed | crates/backend/src/server.rs:459-544 | An uninterrupted reap succeeds if and only if its claim is current, the session can be closed as above and no source was stored that the claim does not know of; its outcome is told column by column, a stale claim changes nothing, any later failure frees the lease |
| Handlers.Saga.StartBrowser | crates/backend/src/server.rs:1061-1138 | The session becomes active if and only if the reply, or after a failure of open outcome the search, shows a runtime and the reservation still starts in time, and then with that runtime; every other outcome is told exactly, and the slot is freed only if no browser was created or the one created has stopped |
| Handlers.Saga.ActivateOrRecover | crates/backend/src/server.rs:1113-1137 | A started browser becomes active exactly if it has a runtime and the time is not over; otherwise the session fails exactly if its stop is proved and the final sample is good, and keeps its slot and runtime if not |
| Handlers.Saga.AdoptIfFound | crates/backend/src/server.rs:1074-1104 | An ambiguous start adopts exactly a found browser that validates in time, keeps the runtime of one found too late, and otherwise leaves the reservation untouched |
| Handlers.Saga.RecoverStart | crates/backend/src/server.rs:1664-1718 | Recovery fails the session only after the confirmed stop of the browser it was given, and leaves exactly the rows its transactions leave |
| Handlers.UndoComposes | crates/backend/src/server.rs:1643-1718 | The transactions of a failed activation together leave exactly this: failed with runtime, reason, recording and usage, or the slot held, column by column |
| Handlers.EndComposes | crates/backend/src/server.rs:1140-1193 | The five transactions of an explicit end together succeed exactly under its conditions and leave exactly its outcome |
| Handlers.ReapComposes | crates/backend/src/server.rs:459-544 | So do those of a reap, from a current claim on |
| Handlers.OutcomeIsOpenExactly | crates/backend/src/server.rs:1723-1753 | A provider error leaves the outcome open unless nothing was sent or the status is outside 500 to 599, and for a stop also on 404 and 409 |
| Handlers.LookupComesToItsOutcome | crates/backend/src/server.rs:284-380 | A lookup's answer delivers a found source, loses the recording on a final no or at the tenth attempt, and otherwise makes the same attempt due exactly from the new time on |
| Handlers.Saga.Reconcile | crates/backend/src/server.rs:284-333 | A lookup asks the provider at most once and only within the cap, ends exactly as the provider's answer requires, and changes nothing once overtaken |
| Handlers.Saga.DeferOrExhaust | crates/backend/src/server.rs:335-380 | Attempts before the tenth are rescheduled, the tenth and later ones fail the event |
| Handlers.TenthAttemptSettles | crates/backend/src/server.rs:335-380 | Whatever the provider answers, the tenth attempt closes its event, and without a source an undelivered recording is lost |
| Slots.ReservationKeepsSlots | crates/backend/src/store.rs:862-960 | A reservation keeps one live session per ready profile |
| Slots.SlotIsGivenExactly | crates/backend/src/store.rs:862-960 | A slot is given if and only if the profile is ready, allowed and held by no live session; nothing else changes |
| Slots.SlotIsHeldUntilFreed | crates/backend/src/store.rs:862-960 | A taken slot refuses the next reservation and the profile's end exactly as long as its session is live, whatever happened to it meanwhile |
| Slots.ProfileIsSettledOnce | crates/backend/src/store.rs:496-781 | A profile can be used only once completed, is settled once, never after failing, and is ended by its owner only |
| Slots.ProfileStepsKeepSlots | crates/backend/src/store.rs:496-781 | So do provisioning, completing, failing and retiring a profile |
| Slots.ForwardKeepsSlots | crates/backend/src/store.rs:1018-1685 | A transaction that only moves one session forward can free a slot but never take one |
| Slots.ClaimKeepsSlots | crates/backend/src/store.rs:1536-1606 | So can a bulk claim |
| Slots.ClaimServesTheSoonest | crates/backend/src/store.rs:1536-1606 | A claim leases exactly the given number of due sessions or all of them, none later to expire than one left out; those are not due again before the lease ends and the others are due as before |
| Slots.RoundShortensTheQueueByWhatItServes | crates/backend/src/store.rs:1536-1685 | A reaper round shortens the queue ahead of a session it did not choose by exactly the sessions it served, so the queue stands still if and only if every stop of the round failed |
| Slots.FailedRoundRepeats | crates/backend/src/store.rs:1564-1685 | After a round whose stops all failed the next claim may choose the very same sessions |
| Starvation.NinthIsNeverServed | crates/backend/src/server.rs:403-492 | After any number of failing rounds a reachable state has a ninth session still due, and no claim there can choose it |
| Starvation.StuckRoundEnds | crates/backend/src/server.rs:459-552 | Those rounds are runs of claims, failed stops and releases, each leaving the queue as it was |
| LookupClaims.ClaimLeasesTheLongestDue | crates/backend/src/store.rs:3025-3080 | A batch of lookup claims gives each of the longest-due events its next attempt number, which its worker then owns together with the session's browser id, and leaves the others due, none of them due for longer |
| LookupClaims.ElapsedLookupIsDueAgain | crates/backend/src/store.rs:3022-3080 | A crashed worker's lookup is due again once its lease has elapsed |
| Store.SelectFirst | crates/backend/src/store.rs:1564-1580 | Returns the first rows in the sort order, exactly as many as the limit allows |
| Store.Store.constructor | crates/backend/src/store.rs:286-310 | A fresh database is empty |
| Store.Store.ReserveProfile | crates/backend/src/store.rs:496-534 | Adds one provisioning profile and nothing else |
| Store.Store.SettleProfile | crates/backend/src/store.rs:537-606 | Completes or fails exactly a provisioning profile, and otherwise changes nothing and says why |
| Store.Store.EndProfile | crates/backend/src/store.rs:734-781 | Retires a profile for its owner unless a live session holds it |
| Store.Store.HasLiveSession | crates/backend/src/store.rs:1687-1705 | True exactly when some live session is on the profile |
| Store.Store.ReserveSession | crates/backend/src/store.rs:862-960 | Inserts session, recording and usage rows exactly when the profile exists, is ready, allowed and free; every refusal leaves the tables as they were |
| Store.Store.ActivateSession | crates/backend/src/store.rs:1018-1100 | Activates a starting unexpired session; past its expiry keeps the runtime on an ending row; otherwise changes nothing and reports the status |
| Store.Store.RetainRuntime | crates/backend/src/store.rs:1106-1169 | Turns a live session with no other runtime into an ending one with this runtime, never replacing known values |
| Store.Store.FailSession | crates/backend/src/store.rs:1171-1198 | Fails a live session and loses its unfinished recording; a finished session is left alone |
| Store.Store.FinalizeFailedAfterStop | crates/backend/src/store.rs:1204-1304 | Fails the session for its own browser only and queues its recording; any error rolls everything back |
| Store.Store.BeginEndSession | crates/backend/src/store.rs:1454-1491 | Claims an active session for ending, keeps an ending one as it is, and returns its runtime |
| Store.Store.FinalizeEndSession | crates/backend/src/store.rs:1495-1531 | Ends an ending session, is idempotent on an ended one, and refuses every other status |
| Store.Store.ClaimExpiredSessions | crates/backend/src/store.rs:1536-1606 | Expires and leases exactly as the bulk claim does, choosing the soonest due sessions within the limit |
| Store.Store.ExpiredClaimIsCurrent | crates/backend/src/store.rs:1653-1672 | True exactly for an ending session whose unexpired lease is the given one |
| Store.Store.ReleaseExpiredClaim | crates/backend/src/store.rs:1674-1685 | Clears the lease for its holder and changes nothing for anyone else |
| Store.Store.FinalizeExpiredSession | crates/backend/src/store.rs:1608-1647 | Expires an ending session for its lease holder only; idempotent on an expired one |
| Store.Store.RememberRecordingUrl | crates/backend/src/store.rs:3308-3329 | Stores the recording source and nothing else |
| Store.Store.MarkRecordingPending | crates/backend/src/store.rs:3224-3266 | Hands over an undelivered recording of a winding-down session with a known source, or changes nothing |
| Store.Store.QueueSourceResolution | crates/backend/src/store.rs:2976-3020 | Queues a lookup for an undelivered recording with a known browser and no source, or changes nothing |
| Store.Store.ClaimResolutions | crates/backend/src/store.rs:3025-3080 | Leases exactly the first due lookups in order and returns their browsers and new attempt numbers |
| Store.Store.RescheduleResolution | crates/backend/src/store.rs:3085-3100 | Moves the due time for the current attempt only |
| Store.Store.CompleteResolution | crates/backend/src/store.rs:3104-3185 | Stores a found source for the current attempt only; a contradiction rolls back, a trashed recording just closes the event |
| Store.Store.FailResolution | crates/backend/src/store.rs:3189-3222 | Closes the event and loses the recording for the current attempt only |
| Store.Store.TrashRecording | crates/backend/src/store.rs:3360-3418 | Hides a finished recording for its owner and closes both its events |
| Store.Store.RecordUsage | crates/backend/src/store.rs:3542-3660 | Stores a sample exactly when the rules for active and terminal samples allow it, and otherwise leaves the usage row alone |
| RowLaws.EndRetryFindsSameRuntime | crates/backend/src/store.rs:1450-1491 | Any forward change between two ends of an ending session leaves its browser the same |
| RowLaws.ExpiredSessionsStayClaimable | crates/backend/src/store.rs:1536-1606 | An expired active session, or an ending one with a free or elapsed lease, is selected by a claim and gets its lease |
| RowLaws.PendingIsResolvable | crates/backend/src/store.rs:3034-3045 | A pending recording of a finished session without a source has an open lookup that is selected when due |
| RowLaws.FailedAfterStopKeeps | crates/backend/src/store.rs:1204-1304 | Failing after a stop keeps the row consistent and orphans no recording |
| RowOutcomes.ReservationLastsItsTime | crates/backend/src/store.rs:862-960 | A reservation can be activated exactly until its limit, and from then on expires |
| RowOutcomes.ActivationIsReadBack | crates/backend/src/store.rs:1018-1073 | An end reads back the very runtime the activation stored, and undoing the activation gives the row before |
| RowOutcomes.LateActivationIsReadBack | crates/backend/src/store.rs:1074-1100 | So for an activation that came too late, whose session the next claim then leases |
| RowOutcomes.RetentionIsReadBack | crates/backend/src/store.rs:1106-1169 | So for a retained runtime; one stored before stays, the first note stays, and retaining again changes nothing |
| RowOutcomes.FirstFailureStands | crates/backend/src/store.rs:1171-1198 | A refused start fails a live session once, and a second failure changes nothing |
| RowOutcomes.FailureAfterStopIsExact | crates/backend/src/store.rs:1204-1304 | Exactly when a session fails after its browser's stop, and its columns and queued event then |
| RowOutcomes.RetriedFailureChangesNothing | crates/backend/src/store.rs:1204-1304 | Retrying such a failure changes nothing |
| RowOutcomes.HandOverIsExact | crates/backend/src/store.rs:2976-3266 | Exactly when a recording is handed over: undelivered, a length that fits, and the closer's knowledge of the source agrees with the row; length and size land in their own columns and exactly one event is queued |
| RowOutcomes.HandedOverSessionCloses | crates/backend/src/store.rs:1495-1647 | After the hand-over an end never fails, nor does an expiry by the lease holder past the limit; both outcomes column by column |
| RowOutcomes.RetriedCloseChangesNothing | crates/backend/src/store.rs:1495-1647 | A finished end or expiry stays what it was however often retried, and leaves no recording running |
| RowOutcomes.ClaimBindsUntilItElapses | crates/backend/src/store.rs:1564-1685 | A lease is current exactly until it elapses, keeps others from claiming exactly as long, and its release makes the session claimable at once |
| RowOutcomes.ClaimableExactly | crates/backend/src/store.rs:1564-1606 | A claim may choose exactly the active or ending sessions past their limit that no unexpired lease holds |
| RowOutcomes.LimitIsKept | crates/backend/src/store.rs:1536-1563 | Nothing happens before the limit; at it a starting session expires without a recording and an active one starts to end with its runtime |
| RowOutcomes.FoundSourceIsDeliverable | crates/backend/src/store.rs:3104-3185 | A found source is stored unless one is known, queues the delivery and closes the lookup for good; exactly when it is refused |
| RowOutcomes.GivenUpLookupLosesTheRecording | crates/backend/src/store.rs:3189-3222 | A lookup given up is closed for good and loses an undelivered recording, keeping its length |
| RowOutcomes.LookupIsDueFrom | crates/backend/src/store.rs:3025-3100 | A claimed or deferred lookup is due again exactly from its new time on |
| RowOutcomes.OnlyMissingSourcesAreLookedUp | crates/backend/src/store.rs:3034-3045 | A lookup is claimable exactly while open and due, its session over, its source missing and its recording neither delivered nor trashed |
| RowOutcomes.TrashedIsSettled | crates/backend/src/store.rs:3360-3418 | A recording is trashed exactly after its session and its recording are over; no event of it is open afterwards |
| RowOutcomes.SampleKeepsStorable | crates/backend/src/store.rs:3542-3660 | No sample leaves counters, costs or a currency that the database cannot hold or a report cannot read; letters are stored as capitals |
| RowOutcomes.ObservedUsageIsReported | crates/backend/src/store.rs:1877-1907 | Over any mix of samples the usage can be reported if and only if its two costs together fit 64 bits |
| RowOutcomes.FreshUsageIsFree | crates/backend/src/store.rs:862-960 | A fresh session reports zero usage and counts traffic exactly if it has a profile |
| UsageRows.SampleKeeps | crates/backend/src/store.rs:3542-3660 | One sample never lowers time or traffic nor changes the currency; only a terminal one before the end may lower a cost; a finished session is untouched |
| UsageRows.TerminalSampleStoresRefund | crates/backend/src/store.rs:3528-3540 | A terminal sample with lower costs is accepted and stores them, while time keeps its maximum |
| UsageRows.ObservationsNeverRunBackwards | crates/backend/src/store.rs:3524-3660 | The same over any mix of active and terminal samples |
| UsageRows.SampleIsTakenExactly | crates/backend/src/store.rs:3542-3660 | Exactly when a sample is taken; then every counter becomes the larger of stored and reported, and costs, currency and time are the sample's |
| UsageRows.ObservationsAccumulate | crates/backend/src/store.rs:3524-3660 | Over any mix of samples each counter ends as the largest value taken and the costs are those of the last sample taken |
| SessionLocks.SessionLocks.ForSession | crates/backend/src/server.rs:627-637 | Returns the session's one live gate if it has one and a new one otherwise, forgets every gate nobody holds, and disturbs no other holder |
| SessionLocks.SessionLocks.OneGatePerSession | crates/backend/src/server.rs:618-637 | Two held gates are the same if and only if they were made for the same session |
| SessionLocks.KeyIsInjective | crates/backend/src/server.rs:628-628 | Distinct sessions never share a key |
| DecimalLaws.ConversionIsExact | crates/backend/src/decimal.rs:29-75 | Every nonnegative decimal or scientific literal under 2^63 bytes, in any white space, converts to the half-up rounding of its exact value in millionths if that fits 64 bits, and to overflow exactly if not |
| DecimalLaws.RejectionIsExact | crates/backend/src/decimal.rs:29-45 | Negative exactly for a leading minus sign; otherwise invalid exactly when the trimmed text is no literal |
| DecimalLaws.ExponentIsClamped | crates/backend/src/decimal.rs:77-88 | The exponent fold is the true exponent clamped to 64-bit magnitude |
| DecimalLaws.ClampingIsHarmless | crates/backend/src/decimal.rs:77-88 | Clamping never changes the result for a literal under 2^63 bytes |
| DecimalLaws.CutOffIsExact | crates/backend/src/decimal.rs:50-55 | The 20-digit cut-off rejects only values above the 64-bit range |
| DecimalLaws.PlaceIsExact | crates/backend/src/decimal.rs:50-75 | Placing digits at any shift is the half-up rounding of the rational value, or overflow exactly when that is too large |
| Decimal.DecimalToMillionths | crates/backend/src/decimal.rs:29-75 | The procedure with its two checked loops computes the specified conversion |
| Decimal.PlaceDigits | crates/backend/src/decimal.rs:50-75 | So does its placing of the digits |
| Decimal.FoldDigits | crates/backend/src/decimal.rs:64-70 | The checked digit loop gives the digits' value, or overflow exactly when that exceeds 64 bits |
| Decimal.AppendZeros | crates/backend/src/decimal.rs:71-73 | The checked scaling loop multiplies by the power of ten, or overflows exactly when the product does |
| UsageCost.SplitConserves | crates/backend/src/store.rs:1946-1954 | For all 64-bit inputs nothing overflows or underflows, the directional parts are the floors of their shares and the three parts add up to the bill |
| UsageCost.RemainderIsFair | crates/backend/src/store.rs:1946-1954 | The unclassified part is its fair share plus less than two rounding units |
| UsageCost.MappedRowBalances | crates/backend/src/store.rs:1877-1907 | Mapping succeeds exactly on readable nonnegative columns whose total fits, and then total = browser + in + out + unclassified |
| UsageCost.MappedRowReportsItsColumns | crates/backend/src/store.rs:1877-1907 | Each directional cost is the floor share of its own byte column, whole seconds are floored, absent counters are zero, and the parts of the proxy cost add up to its text's value |
| UsageCost.SumRows | crates/backend/src/store.rs:1909-1939 | The loop succeeds exactly when all rows share a currency and every sum fits, and then returns the exact sums |
| UsageCost.SumIsFieldByField | crates/backend/src/store.rs:1922-1939 | The specified sum holds in each field the total of that very field of the rows |
| UsageCost.CheckedAddRow | crates/backend/src/store.rs:1922-1944 | One row is added without wrap-around or not at all |
| UsageCost.AggregateConserves | crates/backend/src/store.rs:1877-1944 | The identity holds for the sum of any list of stored rows, and no part overflows unless the total does |
| RedactedOutput.ReleasedIsRedaction | crates/client/src/controller.rs:291-313 | For every secret and every chunking, the released bytes are the leftmost non-overlapping redaction of the whole stream |
| RedactedOutput.KeptIsLongestOverlap | crates/client/src/controller.rs:296-309 | Between pushes the withheld bytes are the longest suffix since the last redaction that is a proper prefix of the secret |
| RedactedOutput.EmittedIsRedactedText | crates/client/src/controller.rs:291-329 | For valid UTF-8 the emitted chunks concatenate to the redacted stream and nothing stays buffered |
| RedactedOutput.CaptureIsBounded | crates/client/src/controller.rs:319-328 | For any byte stream every chunk is valid text, and the capture is valid text of at most 65536 bytes equal to the emitted text while that fits |
| RedactedOutput.FinalCaptureIsPrefixExactly | crates/client/src/controller.rs:314-328 | For any bytes and any chunking the final capture is a prefix of the emitted text if and only if, once a character did not fit, no later chunk started with one that did |
| RedactedOutput.CaptureIsPrefixExactly | crates/client/src/controller.rs:322-328 | The same for any list of emitted chunks |
| RedactedOutput.ChunkKeepsPrefixExactly | crates/client/src/controller.rs:322-328 | One chunk keeps the capture a prefix if and only if it is empty, nothing was skipped yet, or its first character does not fit either |
| RedactedOutput.AsciiIsCapturedAsPrefix | crates/client/src/controller.rs:322-328 | ASCII output of any length is captured as a prefix |
| RedactedOutput.CaptureSkipsWhatDoesNotFit | crates/client/src/controller.rs:322-328 | A two-byte character met with one byte left and then a one-byte character make the capture depart from the output |
| Survivors.SurvivesExactlyIfItClashes | crates/client/src/controller.rs:291-298 | Some stream leaves the secret in its redaction if and only if the secret clashes with the mark, a condition on the secret alone |
| Survivors.EmittedIsCleanExactly | crates/client/src/controller.rs:291-329 | For a secret that does not clash no valid stream, however cut, leaves it in the emitted text; for one that does some valid stream does, however cut |
| Survivors.OrdinarySecretsDoNotClash | crates/client/src/controller.rs:100-101 | No secret without an opening bracket clashes that starts with a byte the mark has not, such as a bracket-free endpoint URL |
| Survivors.BracketedSecretSurvives | crates/client/src/controller.rs:291-298 | The concrete secret ]b survives in the stream ]bb |
| Survivors.PeriodicSecretDoesNotClash | crates/client/src/controller.rs:291-298 | Overlapping the mark alone is not enough: [a[ ends as the mark starts and never survives |
| RedactedOutput.RedactedOutput.Push | crates/client/src/controller.rs:291-329 | The in-place procedure on its four buffers computes the specified step |
| Redaction.RedactIsValid | crates/client/src/controller.rs:291-298 | Redacting valid text with a valid secret gives valid text: no character is split |
| Redaction.SettleIsRedaction | crates/client/src/controller.rs:291-313 | Settling a prefix and redacting the rest later is redacting at once |
| RawOutput.EmittedIsLossyExactly | crates/client/src/controller.rs:291-329 | For any bytes, valid or not, and any chunking the emitted text is the redacted stream lossily decoded at once, if and only if no push decoded the start of a character or of one bad sequence that the stream goes on with |
| RawOutput.DecodedIsLossyExactly | crates/client/src/controller.rs:314-321 | The same for any list of buffers decoded one after the other |
| RawOutput.BadByteCostsTheNextCharacter | crates/client/src/controller.rs:314-321 | A run that departs: a bad byte and half a character in one push, the other half in the next |
| RawOutput.OnlyBadBuffersSplit | crates/client/src/controller.rs:314-318 | A push whose buffer is valid so far never splits one |
| Utf8Laws.CharsAreScannedExactly | crates/client/src/controller.rs:314-321 | What decoding takes for a character is exactly the encoding of a Unicode scalar value |
| Utf8Laws.StartsAreCutShortExactly | crates/client/src/controller.rs:314-318 | What it keeps for the next push is exactly the proper start of such an encoding |
| Utf8Laws.BadIsMaximal | crates/client/src/controller.rs:314-321 | What it replaces is the longest start of a character that does not become one, or one byte |
| Utf8Laws.LossyShowsEachPiece | crates/client/src/controller.rs:321-321 | Lossy decoding shows each character as it is and each bad piece as one replacement character |
| AuthCache.NothingStaleIsReturned | crates/backend/src/auth_cache.rs:43-106 | In every interleaving a returned identity was fetched for the call's own key, begun no earlier than any invalidation completed before the call, and its token had not expired when the call was made |
| AuthCache.CallComesToItsOutcome | crates/backend/src/auth_cache.rs:61-106 | What a call comes to from any state in which nobody holds it up: a hit without a fetch, a current unexpired answer after one fetch or two, returned and cached, or exactly the failure the answers call for |
| AuthCache.CallsShareOneFetch | crates/backend/src/auth_cache.rs:61-106 | Any number of calls waiting for one key are all answered by a single fetch |
| AuthCache.GivingUpTakesTwoChanges | crates/backend/src/auth_cache.rs:76-105 | In every interleaving a call that asks to be retried made two fetches and saw at least two invalidations |
| AuthCache.AdmittedIsServedExactly | crates/backend/src/auth_cache.rs:49-59 | A stored answer is served exactly until fifteen seconds later or its token's expiry |
| AuthCache.AdmissionSparesTheFresh | crates/backend/src/auth_cache.rs:92-98 | Admission drops only stale entries, and only when full, unless all 4096 are fresh |
| AuthCache.CheckedAnswersAreCurrent | crates/backend/src/auth_cache.rs:49-99 | Whenever an answer passes its last check, its fetch began at the generation current right then |
| AuthCache.ResourcesAreBounded | crates/backend/src/auth_cache.rs:61-106 | At most two fetches per call, one flight per stripe, 4096 entries, and no entry served longer than fifteen seconds |
| AuthCache.AdmitIsBounded | crates/backend/src/auth_cache.rs:92-98 | Admission keeps the bound and stores the entry |
| AuthCache.ReachableKeepsInvariant | crates/backend/src/auth_cache.rs:43-106 | Every reachable state keeps the fencing invariant |
| AuthCache.AuthorizationCache.Store | crates/backend/src/auth_cache.rs:88-99 | The write-locked section stores exactly when the generation is unchanged, evicting stale entries first |
| AuthCache.AuthorizationCache.Cached | crates/backend/src/auth_cache.rs:49-59 | A hit is exactly an entry of the current generation within its and its token's time |
| AuthCache.AuthorizationCache.Invalidate | crates/backend/src/auth_cache.rs:44-47 | Starts a new generation with no entries |
| TabRenewal.EachTokenIsSentOnce | frontend/src/lib/session.ts:66-116 | Over any run of tabs whose saves and removals read and write storage at different moments, with failed writes and crashes, no refresh token is submitted twice as long as no write loses the mark of a spent token |
| TabRenewal.LostMarkIsResent | frontend/src/lib/session.ts:66-116 | And only as long: after any write that loses one, some continuation submits a token twice |
| TabRenewal.SaveLosesExactly | frontend/src/lib/session.ts:66-80 | A save loses a mark if and only if another account's token was marked after its read, or the token it saves is spent and its read did not show it marked |
| TabRenewal.RemovalLosesExactly | frontend/src/lib/session.ts:66-88 | A sign-out or forget that writes loses one if and only if an account it keeps was marked after its read |
| TabRenewal.CurrentWriteLosesExactly | frontend/src/lib/session.ts:66-88 | A write whose read is still current loses a mark if and only if it saves a spent token that storage does not hold |
| TabRenewal.StaleSaveResendsExactlyUnlessHeld | frontend/src/lib/session.ts:66-101 | A saved sign-in whose token was sent is sent again by the next renewal if and only if storage did not hold it just before |
| TabRenewal.RacingSaveResends | frontend/src/lib/session.ts:66-116 | A run in which every saved sign-in is fresh and a token is yet sent twice: another account's save read before the mark and wrote after it, and the renewing tab crashed |
| TabRenewal.RenewalSparesExactlyWhatItRead | frontend/src/lib/session.ts:102-110 | A sign-in saved meanwhile, of any account and under another token, survives a finished renewal's write if and only if the renewal's read already showed it |
| TabRenewal.RemovalSparesExactlyWhatItRead | frontend/src/lib/session.ts:66-80 | It survives the removal after a failed renewal if and only if it is another account's and the removal's read already showed it |
| TabRenewal.CurrentReadsSpareAll | frontend/src/lib/session.ts:102-114 | With nothing written between read and write, both spare every such sign-in |
| TabRenewal.FinishedRenewalDestroysNewerSignIn | frontend/src/lib/session.ts:102-110 | A run without any repeated token in which a finished renewal overwrites a newer sign-in of its own account |
| TabRenewal.FailedRenewalDestroysNewerSignIn | frontend/src/lib/session.ts:111-114 | A run in which the removal after a failed renewal takes a newer sign-in with it |
| TabRenewal.InterruptedRenewalIsNotResent | frontend/src/lib/session.ts:94-97 | After a crash in mid-renewal, no mark lost, the spent sign-in is reported as interrupted and removed, never sent again |
| TabRenewal.StaleSaveResends | frontend/src/lib/session.ts:66-116 | A run in which a tab saves a sign-in renewed meanwhile and the same token is submitted twice |
| TabRenewal.UndisturbedRenewalIsRefresh | frontend/src/lib/session.ts:89-116 | With nothing in between the five steps of a renewal are the two halves of refresh, and its token is sent once |
| TabRenewal.UndisturbedChangeIsAtomic | frontend/src/lib/session.ts:66-88 | With nothing in between a read and a write are save and forget |
| TabSession.FinishSparesOtherSignIns | frontend/src/lib/session.ts:102-114 | A finished or failed renewal leaves every sign-in its read shows under another token or account alone |
| TabSession.FinishStoresItsReply | frontend/src/lib/session.ts:103-110 | A renewal that reports success replaced exactly the sign-in it sent |
| TabSession.BeginsExactly | frontend/src/lib/session.ts:89-101 | A renewal may send its token if and only if the tab shows the active account, storage holds that very token unmarked and the mark can be written; what every other case leaves |
| TabSession.FinishSucceedsExactly | frontend/src/lib/session.ts:102-114 | A renewal succeeds if and only if the reply is for its account and the sign-in sent is still stored and marked; otherwise exactly that sign-in is signed out |
| TabSession.RenewalReachesEveryTab | frontend/src/lib/session.ts:89-116 | After an undisturbed renewal a tab with the old sign-in gets the new one without sending anything, and the new one can be renewed in turn |
| TabSession.SecondRenewalInterrupts | frontend/src/lib/session.ts:89-116 | A second renewal before the reply removes the sign-in, and the first one then fails |
| TabSession.SignOutRemovesExactly | frontend/src/lib/session.ts:66-80 | A sign-out removes the active account, or the given sign-in exactly if it is still stored under its token |
| TabSession.ForgottenIsGone | frontend/src/lib/session.ts:81-88 | A forgotten account is gone with its mark, the others and their marks stay |
| TabSession.SaveStores | frontend/src/lib/session.ts:66-80 | A save makes the sign-in active and leaves other accounts alone |
| TabSession.BrowserSession.Save | frontend/src/lib/session.ts:66-80 | The in-place save computes the specified storage |
| TabSession.BrowserSession.Forget | frontend/src/lib/session.ts:81-88 | So does forgetting a sign-in |
| TabSession.BrowserSession.RefreshBegin | frontend/src/lib/session.ts:89-101 | So does a renewal up to its request |
| TabSession.BrowserSession.RefreshFinish | frontend/src/lib/session.ts:102-114 | So does a renewal after its reply |
| CliSession.EachTokenIsSentOnce | crates/cli/src/main.rs:1087-1213 | Over any interleaving of processes each stored refresh token is sent at most once, and a token still stored was never sent |
| CliSession.ReplyJoinsItsOwnSignIn | crates/cli/src/main.rs:1135-1142 | A reply is stored only onto the sign-in its token came from, whenever the claim carried a generation or an identity |
| CliSession.LegacyLogoutIsUndone | crates/cli/src/main.rs:1193-1207 | With neither, a logout during the request is undone by the reply |
| CliSession.LogoutIsRespectedExactlyWhenBound | crates/cli/src/main.rs:1193-1207 | A logout during the request is undone exactly when the claim carried neither |
| CliSession.ReuseStaysInItsSignIn | crates/cli/src/main.rs:1087-1112 | Over any interleaving a command whose token is rejected goes on only with a different token of the same sign-in: no login or logout since it read the file, and both tokens descend from one login |
| CliSession.NextRefreshSendsTheReply | crates/cli/src/main.rs:1115-1213 | Over any run: after a stored reply the next refresh sends exactly that reply's token, and its own reply becomes the sign-in in turn |
| CliSession.StoredReplyIsTheSignIn | crates/cli/src/main.rs:1135-1207 | A stored reply is the sign-in in full: due from a minute before its expiry, refreshed and recovered with its own token, for the same account, backend and generation |
| CliSession.LoginIsTheSignIn | crates/cli/src/main.rs:817-844 | So is a login, under its own generation and backend |
| CliSession.ReplyIsRefusedExactly | crates/cli/src/main.rs:1121-1192 | A reply is refused exactly if it names another account than the stored account id, and in recovery also without one |
| CliSession.NothingLeftToSend | crates/cli/src/main.rs:1087-1179 | After a crash in mid-refresh, or a logout, there is no token left to send |
| CliSession.NamedSignInIsBound | crates/cli/src/main.rs:462-468 | Once its generation is named, no claim's reply is stored over a logout |
| CliSession.SetupNamesItsOwnSignIn | crates/cli/src/main.rs:699-724 | Setup names the account of exactly the sign-in it validated, and changes nothing after another login or a logout |
| CliSession.SavedLogin.Consume | crates/cli/src/main.rs:1169-1179 | The token is consumed exactly when the sign-in is still the claimed one |
| CliSession.SavedLogin.Apply | crates/cli/src/main.rs:1193-1207 | The reply is stored exactly when the sign-in is still the claimed one with its token consumed |
| CliSession.SavedLogin.ApplyAuthSession | crates/cli/src/main.rs:817-844 | A login replaces the whole sign-in |
| CliSession.SavedLogin.ClearLogin | crates/cli/src/state.rs:132-139 | A logout clears it |
| TextPattern.MatchesIsSoundAndMostlyComplete | crates/shared/src/filter.rs:51-88 | Matching is sound for every pattern and complete for anchored prefixes, patterns ending in a star and literal patterns |
| TextPattern.EndAnchoredIsExactUnlessRepeated | crates/shared/src/filter.rs:64-88 | A pattern anchored at its end departs from the wildcard meaning exactly when its last part repeats before the end |
| TextPattern.OpenEndedIsExact | crates/shared/src/filter.rs:64-88 | A pattern ending in a star means exactly what the greedy pass computes |
| TextPattern.RepeatedLastPartIsRejected | crates/shared/src/filter.rs:87-87 | The concrete pattern a*b rejects abb |
| TextPattern.PrefixOnlyIsOpenEnded | crates/shared/src/filter.rs:54-57 | Prefix-only matching is matching with a star appended |
| TextPattern.GlobMatches | crates/shared/src/filter.rs:64-88 | The loop computes leftmost placement of the parts |

## Left out

- HTTP routing, extractors, CORS, JSON and error rendering: plumbing around the modelled steps.
- AES-GCM, SHA-256, HMAC, PKCE and UUIDs: sealed URLs, digests and ids are opaque values; ids are drawn fresh.
- The SQL engine: each transaction is one atomic step, a bulk statement is one map comprehension, and a failed statement is a
  worker that breaks off. Columns that no modelled statement reads or guards on (names, descriptions, actors) are dropped.
- The organization column: the service has one workspace, so every query's organization test is always met.
- Access lists and visibility of profiles and recordings: one boolean per transaction that checks them.
- `create_profile`, `update_profile`, profile reconciliation and `associate_participant`: easy members beside the modelled steps.
- `mark_recording_failed` and the delivery worker of `recording.store` events: no caller among the modelled handlers; a
  recording becomes available only outside the model.
- The identity projection, account migration and the retired command history: retired or only partly present.
- The loops and cycle budgets around reaper and lookup batches: batches may come at any time, which allows more interleavings.
- The per-item timeout of a lookup is an action that may come at any time, not a clock comparison.
- The backoff of a rescheduled lookup is an arbitrary next due time; the 32-bit width of attempt numbers is not modelled.
- The atomic active-usage refresh: reading the runtime, asking the provider and writing the sample are one step.
- `Handlers.Saga.EndSession`: covers an uninterrupted run at one clock reading; interleavings are covered by the machine.
- `Handlers.Saga.ReapClaimed`: as above; the attempt's time budget is part of the machine, where time passes between steps.
- `Handlers.Saga.StartBrowser`: starts after the reservation; a reply lost by the database is an action of the machine only.
- `SessionLocks.SessionLocks.ForSession`: the mutex inside a gate is not modelled, only who shares a gate with whom.
- `AuthCache.AuthorizationCache.Store`: the 64-bit wrap-around of the generation counter is not modelled; a poisoned lock
  is used as the code uses it, like any other.
- `TabSession.BrowserSession.RefreshBegin`: the renewal is one method before and one after its awaited request, each taken
  without interruption; the steps between its reads and writes are actions of `TabRenewal`. Legacy storage shapes and the
  parsing of unreadable storage are reduced to an empty slot.
- `CliSession.SavedLogin.Apply`: the services list stored beside the tokens is dropped, and so are file permissions, symlink
  checks and the copying of a legacy credential between backends.
- `TextPattern.GlobMatches`: works on characters already lower-cased; lower-casing itself and the pattern's length limits are
  library behaviour.
- `RedactedOutput.RedactedOutput.Push`: the spawned process, its pipes and the argument scanning are operating-system work.
- React components, URL parsing, packaging and the documentation site: user interface and tooling.
