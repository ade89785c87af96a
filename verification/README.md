# Trading data and execution services: a verified model

This project models the parts of the trading services where an error costs most, and proves what they keep over every
run. It has six parts.

1. **Execution protocol.** Request threads, replays, operator kills, recovery lookups, account switches, crashes and the
   broker act on two durable tables (grants and request records). `Execution` is the machine: one event is one
   transaction, one locked terminal callback or one broker action. `ExecutionSafety` holds the inductive invariant,
   `ExecutionTheorems` what follows for whole runs, `ExecutionRecords` and `ExecutionTickets` what a failed record means,
   `ExecutionExposure` the position a grant can build up, and `ExecutionPermissions` what a close presupposes.
   `ExecutionScenes` builds runs for any account, volume and client order; `ExecutionShared` and `ExecutionMisbound` use
   it where a stronger promise fails. `ExecutionApi` is the order handler as a method that is proved to be the machine's
   run over its own schedule. `Authorization`, `Idempotency`, `Adapter` and `Orders` are the tables, the send and the
   exposure proof.
2. **Account sessions.** `Session` is the guard, `Client` the locked client around it that reconnects, reconciles and
   rebuilds the symbol resolver.
3. **History.** `Bars` and `Retention` are merging and cutting, `Validation` the checks on broker rows, `Gaps` the bounded
   verification of holes with `GapSoundness`, `GapTheorems`, `GapProgress` and `GapCounterexample` about it, `Paging` the
   positional read, `Publication` the worker's order of writes, `Reader` the service that serves what was published,
   `PublicationWitness` a published file it refuses, and `Text` the stripping of names.
4. **Ticks.** `TickPublisher`, `TickConsumer` and `TickEvents` are the two ends of the stream and the encoding between
   them; `TickReplication` says when they agree.
5. **Archive and symbols.** `Archive` stores bars with certificates of completeness; `SymbolResolver` maps logical names
   to the broker's catalog.
6. **Parameter sweep.** `Simulation` is one trade, `Sweep` the grid and the aggregation, `SweepTheorems` and `Zones` what
   they mean.

Source code that changes objects in place is modelled by classes whose methods are proved equal to functions of the old
state; the theorems are about those functions. Whatever the environment decides (clock readings, terminal answers,
timeouts, other threads) arrives as a parameter, so every theorem holds for all of it. Hashes are constructors, that is,
injective; prices and volumes are real numbers.

Where the code does not keep a stronger promise one might expect, the model says so, shows a case in which it fails and
proves exactly when it holds:

- A finished request record is not final (`Idempotency.FinishOverwrites`). In every run a record left failed by its own
  request means that nothing was accepted, or that the accepted number is negative or the grant is bound to another
  order (`ExecutionRecords.FailedMeansUnacceptedOrMisbound`); for any grant and any negative number there is a run in
  which an accepted order ends failed (`ExecutionMisbound.AcceptedOrderMayEndFailed`).
- Ready does not imply connected (`Client.ReadyWithoutConnection`): it fails exactly after a rebuild of the resolver
  failed on a new connection and no later operation got one (`Client.ReadyWithoutConnectionIff`). The bare guard can
  revive a generation that the client never revives (`Client.BareGuardRevivesGenerationIff`).
- A grant's exposure stays within the grant exactly when it sent its own entry or nothing was filled of its close
  (`ExecutionExposure.WithinGrantIff`); any two grants that share a client order and otherwise agree have a run that
  breaks the bound (`ExecutionShared.SharedClientBreaksBound`).
- A verified hole always lies between two neighbouring times of one broker answer, but the two sources that meet at a row
  may disagree on it. The hole is a pair of whole bars of its own answer exactly when that answer is not overruled at one
  of its rows (`GapTheorems.EveryHoleIsItsAnswerIff`, `GapTheorems.SharedRowsFollowAnswers`,
  `GapCounterexample.SharedRowIsNotBacked`).
- A published daily file is readable only if its times lie on the day grid, which the worker does not enforce
  (`Publication.TruthfulIsReadable`, `PublicationWitness.OffGridDayIsRefused`).
- Cutting after each merge loses nothing exactly when the clock never steps back
  (`Retention.LosslessIffClockNeverDecreases`).
- The sweep's map gives each combination its own results exactly when no two combinations share a rounded key
  (`SweepTheorems.SweepIsDirectIff`, `SweepTheorems.FineSweepIsNotDirect`).

## Model

| member | source | states |
|---|---|---|
| Session.TokenIdentifiesAccount | service/infrastructure/mt5/session.py:62-73 | accounts with equal tokens are the same account, whatever NULs the server name holds |
| Session.AccountSessionGuard.RecordObservation | service/infrastructure/mt5/session.py:151-154 | the generation rises exactly when the observation key changes |
| Session.AccountSessionGuard.ObserveAccountInfo | service/infrastructure/mt5/session.py:160-224 | every branch of an observation: unknown identity, first account, unknown mode, switch, same account |
| Session.AccountSessionGuard.MarkDisconnected | service/infrastructure/mt5/session.py:230-239 | readiness ends and the next observation starts a new generation |
| Session.AccountSessionGuard.MarkReconciliationFailed | service/infrastructure/mt5/session.py:241-253 | the session stays blocked and the more specific error is kept |
| Session.AccountSessionGuard.ReconcileObserved | service/infrastructure/mt5/session.py:255-265 | the observed account, if known, becomes the active one |
| Client.MT5Client.ObserveSessionUnsafe | service/infrastructure/mt5/client.py:290-315 | an observation drops the resolver as soon as the account is unknown or switched |
| Client.MT5Client.ReconcileSessionUnsafe | service/infrastructure/mt5/client.py:264-288 | only a connected client in the switch phase acknowledges, and only with a complete resolver |
| Client.MT5Client.EnsureConnectedUnsafe | service/infrastructure/mt5/client.py:110-158 | reconnect, observe, reconcile or rebuild: the new state and whether the client is established, closed or raised |
| Client.MT5Client.ResetUnsafe | service/infrastructure/mt5/client.py:317-322 | the connection is gone and the guard disconnected |
| Client.MT5Client.CallUnsafe | service/infrastructure/mt5/client.py:66-108 | a guarded call: ensure, run, observe again, and refuse a value read across a transition |
| Client.EnsureKeeps | service/infrastructure/mt5/client.py:110-158 | ensuring keeps the client sound and generations in order; established means ready and connected |
| Client.CallKeeps | service/infrastructure/mt5/client.py:66-108 | so does every guarded call |
| Client.RunKeeps | service/infrastructure/mt5/client.py:59-158 | over any run the client stays sound and its generation never decreases |
| Client.GenerationNamesOneAccount | service/infrastructure/mt5/session.py:151-265 | two ready moments of one run with equal generation have the same account, even from A to B and back |
| Client.RaiseRetiresGeneration | service/infrastructure/mt5/client.py:88-92 | once a guarded function raised, the next ready session has a strictly larger generation |
| Client.ValueIsBracketed | service/infrastructure/mt5/client.py:79-108 | a value returned by a call lies between two ready observations of one account and generation |
| Client.ResolverMatchesAccount | service/infrastructure/mt5/client.py:145-148 | while the session is ready, a live resolver was built under the active account |
| Client.BareGuardRevivesGenerationIff | service/infrastructure/mt5/session.py:255-265 | acknowledging after a disconnect revives the old generation exactly when a known account had been observed |
| Client.EnsureStrandsIff | service/infrastructure/mt5/client.py:110-158 | ensuring leaves a client ready without a connection exactly when it rebuilds a configured resolver on a new connection and fails, or it was so before and no connection came |
| Client.ReadyWithoutConnectionIff | service/infrastructure/mt5/client.py:59-158 | over any run: exactly when some operation failed to rebuild on a new connection and none after it got one or reset the client |
| Client.ReadyWithoutConnection | service/infrastructure/mt5/client.py:145-158 | such a run exists |
| Orders.RestoredIffAgrees | service/execution/contracts.py:147-162 | recovery restores an order exactly when it is well formed and has the symbol, direction, type, lifetime and volume of the durable request, and then hands back that request with the observed state |
| Authorization.AuthorizationStore.ProvisionGrant | service/execution/authorization.py:45-69 | a grant is added once, never overwritten, and only with a valid artifact |
| Authorization.AuthorizationStore.Verified | service/execution/authorization.py:71-87 | a grant is usable exactly for its own account, generation and epoch in Demo mode |
| Authorization.AuthorizationStore.Claim | service/execution/authorization.py:89-111 | the first payload in scope claims the grant, a replay of it is told so, another payload is refused |
| Authorization.AuthorizationStore.Bind | service/execution/authorization.py:113-125 | order and position are bound once and only to a claimed grant |
| Authorization.AuthorizationStore.Reserve | service/execution/authorization.py:151-159 | an exit is reserved once per operation and bound target |
| Authorization.AuthorizationStore.Disable | service/execution/authorization.py:176-185 | the grant is killed for good and an abort is recorded |
| Authorization.AuthorizationStore.Finish | service/execution/authorization.py:167-174 | a pending exit takes its final state once; anything but success kills the grant |
| Authorization.ClaimRises | service/execution/authorization.py:89-111 | a claim only moves rows upward |
| Authorization.ReserveExitRises | service/execution/authorization.py:151-159 | so does reserving an exit |
| Authorization.FinishExitRises | service/execution/authorization.py:167-174 | so does finishing one |
| Idempotency.IdempotencyStore.Reserve | service/execution/idempotency.py:95-124 | the first request for a client order creates its record, a replay finds it, another payload conflicts |
| Idempotency.IdempotencyStore.Finish | service/execution/idempotency.py:126-136 | an existing record takes the new state and result, whatever it held |
| Idempotency.FinishOverwrites | service/execution/idempotency.py:131-135 | a later finish replaces an earlier one; identity, payload and session of the record persist |
| Idempotency.ReplayFindsLatest | service/execution/idempotency.py:95-144 | after the first request and any finishes, a replay finds the latest state and outcome and is not new, and every other payload conflicts |
| Adapter.FreshIffExpected | service/execution/mt5_adapter.py:257-292 | the check inside the callback passes exactly on the expected Demo account with the guard ready under the expected generation |
| Adapter.ValidateExposure | service/execution/mt5_adapter.py:671-713 | both loops accept exactly when history, active orders, position and deals prove the authorized exposure |
| Adapter.SendGuarded | service/execution/mt5_adapter.py:758-818 | one attempt: the client's new state, whether order_send was invoked, on which account, and the outcome |
| Adapter.InvokedIffVerified | service/execution/mt5_adapter.py:761-783 | order_send is invoked exactly when the session is established and every check passes |
| Adapter.RefusedMeansNotAccepted | service/execution/mt5_adapter.py:784-818 | a refusal means nothing was sent or the broker rejected it with a code outside the success and ambiguous sets |
| Adapter.FramedCall | service/execution/mt5_adapter.py:83-111 | the calls of one framed read run under one identity or the read fails |
| Adapter.ConsistentRead | service/execution/mt5_adapter.py:33-45 | a result assembled from several calls comes from a single account and generation |
| ExecutionSafety.StepKeepsInv | service/execution/app.py:264-359 | every event keeps the protocol invariant and moves rows only upward |
| ExecutionSafety.RunKeepsInv | service/execution/app.py:264-418 | the invariant holds after every run from the empty tables |
| ExecutionSafety.EntryReportOnGrant | service/execution/mt5_adapter.py:761-783 | an entry is sent only with claim and record durable, the grant alive, on its account, mode, generation and epoch |
| ExecutionSafety.ExitReportOnGrant | service/execution/mt5_adapter.py:737-756 | a cancel or close is sent only on the grant's account, mode, generation and epoch, for its reserved target |
| ExecutionTheorems.EverySendIsVerified | service/execution/app.py:264-418 | a step adds at most one send, and only under those conditions in the state it starts from |
| ExecutionTheorems.RunIsMonotone | service/execution/authorization.py:89-187 | over any run claim, order and position are write-once, killed never clears, exit states are final, records persist |
| ExecutionTheorems.AtMostOneEntry | service/execution/app.py:287-300 | in every interleaving at most one entry is sent per grant and per client order |
| ExecutionTheorems.EverySentOrderIsRecoverable | service/execution/app.py:287-291 | every sent entry has a claim and a request record with the same payload fingerprint |
| ExecutionTheorems.AtMostThreeSends | service/execution/app.py:371-418 | per grant at most one entry, one cancel and one close, whatever targets are asked for |
| ExecutionTheorems.EverySendOnGrantedAccount | service/execution/app.py:235-262 | every send happened on the granted account in Demo mode at the grant's generation and epoch |
| ExecutionTheorems.NoEntryAfterKill | service/execution/authorization.py:176-185 | once a grant is killed no run sends an entry for it any more |
| ExecutionTheorems.RaiseRetires | service/infrastructure/mt5/client.py:88-92 | a terminal call that raised retires its generation |
| ExecutionTheorems.RefusedSendRetires | service/execution/mt5_adapter.py:784-800 | so does an entry refused inside its callback or one that raised |
| ExecutionTheorems.RefusedExitRetires | service/execution/mt5_adapter.py:737-800 | so does a cancel or close refused inside its callback or one that raised |
| ExecutionTheorems.RetiredStaysSilent | service/execution/authorization.py:71-87 | no thread ever sends again under a grant of a retired generation, not even one past its checks |
| ExecutionRecords.BindDeniedIff | service/execution/authorization.py:113-125 | binding an accepted order is denied exactly when its number is not positive or another is bound |
| ExecutionRecords.AcceptedEndsFailedIff | service/execution/app.py:334-359 | undisturbed, an accepted order leaves a failed record exactly when that binding is denied |
| ExecutionRecords.FailedMeansUnacceptedOrMisbound | service/execution/app.py:334-359 | in every run: a record a lookup left failed means a rejected order was seen; one its request left failed means nothing was sent, the broker refused it, its number is negative, or the grant is bound to another order |
| ExecutionTickets.FailedMeansNotAccepted | service/execution/app.py:334-359 | where the broker numbers accepted orders and looks them up faithfully, the last two cases do not arise |
| ExecutionMisbound.AcceptedOrderMayEndFailed | service/execution/authorization.py:113-125 | for any grant that may place and any negative number there is a run whose accepted order ends in a failed record |
| ExecutionExposure.CloseOnlyOfFilledEntry | service/execution/mt5_adapter.py:838-874 | a close is sent only for what was filled of the single entry of its client order, with its own grant's volume, in the opposite direction |
| ExecutionExposure.WithinGrantIff | service/execution/mt5_adapter.py:671-756 | in every run that reads the broker's history, a grant's exposure stays within it exactly when it sent its own entry or nothing was filled of its close |
| ExecutionExposure.NetExposureBounded | service/execution/mt5_adapter.py:671-756 | a grant alone in its client order keeps its net exposure between zero and its volume, and a filled close brings it to zero |
| ExecutionShared.SharedClientBreaksBound | service/execution/authorization.py:45-69 | any two valid grants that agree on account, generation, epoch, symbol, volume and client order, both allowed to place and the second to close, have a truthful run in which the second leaves its bound |
| ExecutionPermissions.CloseNeedsBothPermissions | service/execution/authorization.py:89-159 | in every run a grant under which a close was sent may both place and close |
| ExecutionApi.ExecutionServer.ClaimGrant | service/execution/app.py:287 | the claim transaction is the machine's claiming step |
| ExecutionApi.ExecutionServer.ReserveRequest | service/execution/app.py:288-293 | the reservation is the machine's reserving step, and only a fresh record with a fresh claim goes on |
| ExecutionApi.ExecutionServer.PlaceOrder | service/execution/app.py:308-333 | the guarded send is the machine's sending step and logs at most one send |
| ExecutionApi.ExecutionServer.CreateOrder | service/execution/app.py:264-359 | whatever runs between its transactions, the handler's effect is the machine's run over its schedule |
| Bars.MergeMeaning | service/history/worker.py:375-386 | merging yields strictly increasing times, closed bars only, and for each time the newest row given |
| Bars.FrameIsUnique | service/history/worker.py:375-386 | an ordered frame is determined by the bar it has at each time |
| Bars.KeepClosedMeaning | service/history/worker.py:347-373 | dropping forming rows and taking the newest per time commute |
| Validation.ValidatedMeaning | service/history/worker.py:322-345 | accepted rows come out ordered, closed, on the grid, with agreeing prices and their source |
| Validation.NothingDropped | service/history/worker.py:286-289 | an answer that loses no row in validation comes out with every row in it |
| Retention.TailMerge | service/history/worker.py:552-557 | cutting before a merge does not change the newest rows after it |
| Retention.CuttingLosesNothing | service/history/worker.py:552-557 | folding merge-then-cut over any rounds equals merging all rows at once and cutting once |
| Retention.LosslessIffClockNeverDecreases | service/history/worker.py:372-373 | for any list of clock readings, cutting after every merge is lossless for all rows and sizes exactly when the readings never decrease |
| Gaps.GapVerifier.CurrentHoles | service/history/worker.py:227-232 | the loop collects exactly the signatures of the frame's holes |
| Gaps.GapVerifier.ReadRange | service/history/worker.py:261-287 | one range answer is authoritative exactly when identity, rows and both boundaries agree |
| Gaps.GapVerifier.AcceptRange | service/history/worker.py:288-317 | what is staged, remembered and added for an accepted answer, and the row budget |
| Gaps.GapVerifier.VisitHole | service/history/worker.py:250-317 | one hole: staged rows, remembered signature, budget, span, read |
| Gaps.GapVerifier.VerifyGaps | service/history/worker.py:216-320 | the whole refresh: result or error, staged rows and certificates kept, other keys untouched |
| GapSoundness.CheckedIsGrounded | service/history/worker.py:284-290 | an accepted answer is a faithful, closed, ordered copy of a logged broker response |
| GapSoundness.WalkKeeps | service/history/worker.py:247-317 | while holes are visited, each is answered by a block or backed by a remembered pair of neighbours |
| GapTheorems.RefreshKeepsStore | service/history/worker.py:216-320 | however refreshes end, what is staged stays a faithful copy of answers |
| GapTheorems.RefreshKeepsRows | service/history/worker.py:318-320 | the returned frame is ordered, closed and made of sound rows of the one source |
| GapTheorems.ValueFromBlock | service/history/worker.py:253-255 | the rows of an answer are in the returned frame, its last one unless the next hole's answer revises it |
| GapTheorems.EveryHoleIsTheBrokers | service/history/worker.py:216-320 | every hole of the returned frame is a pair of neighbouring times of one answer for the same symbol and generation, and of whole bars unless the two sources that meet at one of its rows disagree |
| GapTheorems.EveryHoleIsItsAnswerIff | service/history/worker.py:247-320 | every such hole has an answer of its own with two neighbouring bars at its times, and consists of exactly these bars if and only if the answer is not overruled at one of them |
| GapTheorems.SharedRowsFollowAnswers | service/history/worker.py:252-256 | at a row between two holes the returned frame keeps both sources exactly when they agree, and otherwise one of them |
| GapCounterexample.SharedRowIsNotBacked | service/history/worker.py:288-290 | two answers that differ in a shared row leave a hole whose bars no answer has side by side |
| GapProgress.ExhaustionSettlesEight | service/history/worker.py:257-258 | a refresh that runs out of calls leaves exactly eight holes fewer |
| GapProgress.HolesRunOut | service/history/worker.py:240-317 | after j exhausted refreshes more than 8j holes were pending, so k holes need at most ceil(k/8) refreshes |
| GapProgress.StagedRowsBounded | service/history/worker.py:294-297 | staged rows never exceed 32 times the retention count |
| Paging.PagesAreCoherent | service/history/worker.py:152-214 | pages of a finished read adjoin without gap or overlap, within page size and target, under one identity |
| Paging.ExhaustedMeaning | service/history/worker.py:199-205 | the source counts as exhausted exactly when the last page was empty and the target was not reached |
| Paging.PagesHoldTheNewest | service/history/worker.py:144-214 | from an unchanged history the pages hold its newest bars, each once |
| Publication.HistoryFile.Revoke | service/history/worker.py:417-421 | removing the marker keeps every disk state truthful |
| Publication.HistoryFile.WriteRows | service/history/worker.py:388-411 | so does replacing the rows, if a marker still there names their source |
| Publication.HistoryFile.Publish | service/history/worker.py:423-444 | so does writing the marker after the rows |
| Publication.HistoryWorker.constructor | service/history/worker.py:518-524 | a worker starts from any truthful disk, so also from whatever a crash of an earlier one left |
| Publication.HistoryWorker.FetchPages | service/history/worker.py:144-214 | the page loop, which takes the marker away before a page of another source is read |
| Publication.HistoryWorker.Store | service/history/worker.py:564-576 | rows before marker, and no marker unless ready and still the same generation |
| Publication.HistoryWorker.RefreshFile | service/history/worker.py:520-600 | one refresh: status and disk for every way its calls can go, and every disk state on the way truthful |
| Publication.TruthfulIsReadable | service/history/query_service.py:87-127 | a truthful file with a marker is accepted at any later time exactly when its rows are on the grid and stripping keeps its marker |
| PublicationWitness.OffGridDayIsRefused | service/history/worker.py:520-600 | any usable daily row off the day grid is published as ready by a first refresh and refused by the reader ever after |
| Reader.AcceptedIff | service/history/query_service.py:87-127 | sound rows of one source are accepted exactly under those conditions; off the daily timeframe the grid always holds |
| Reader.AcceptedIsSound | service/history/query_service.py:87-127 | an accepted read is ordered, closed, aligned and of the source the marker named, whatever the writer does meanwhile |
| Reader.ServedSourceIsStripped | service/history/query_service.py:87-127 | what is served has one source, the stripped marker, whose name stripping leaves as it is |
| TickEvents.ApplyAllIsLatest | service/realtime/consumer.py:124-161 | taking over acceptable events one by one leaves the newest of each symbol |
| TickEvents.LinesAppend | service/realtime/consumer.py:110-122 | splitting into lines may be interrupted anywhere |
| TickEvents.StreamRoundTrip | service/infrastructure/ipc/tick_protocol.py:165-175 | events written as lines are read back one by one and complete |
| TickConsumer.TickConsumer.AcceptLine | service/realtime/consumer.py:124-165 | a line changes the map exactly when it decodes to an acceptable event |
| TickConsumer.TickConsumer.TakeLines | service/realtime/consumer.py:119-122 | the inner loop takes over the whole lines and leaves the rest |
| TickConsumer.TickConsumer.ReadStream | service/realtime/consumer.py:110-122 | however bytes are cut, the map ends as if the whole lines had arrived one by one |
| TickPublisher.TickPublisher.Publish | service/infrastructure/ipc/tick_protocol.py:113-123 | each registered client is queued the event or dropped because its queue is full; its stream stays snapshot plus later events |
| TickPublisher.TickPublisher.AcceptClient | service/infrastructure/ipc/tick_protocol.py:148-162 | a client is registered exactly when the whole snapshot fits its queue |
| TickPublisher.TickPublisher.DropClient | service/infrastructure/ipc/tick_protocol.py:192-195 | dropping a client leaves every other stream as it was |
| TickPublisher.ClientChannel.WriteNext | service/infrastructure/ipc/tick_protocol.py:52-63 | the writer moves the oldest payload from the queue to the stream |
| TickReplication.DrainedConsumerAgrees | service/infrastructure/ipc/tick_protocol.py:113-162 | a consumer that read all it was sent holds the publisher's newest event of every symbol, and nothing else changed |
| TickReplication.PartialStreamIsAPrefix | service/realtime/consumer.py:110-122 | after any part of the bytes the map is the one after some first part of the events |
| Archive.CanonicalMeaning | service/history/archive.py:33-48 | an accepted frame becomes the same rows in ascending time |
| Archive.OhlcArchive.CanonicalRows | service/history/archive.py:33-48 | the loop over records stops at the first fault and otherwise yields the canonical rows |
| Archive.OhlcArchive.UpsertBars | service/history/archive.py:87-94 | rows are replaced by time and every certificate they meet is removed |
| Archive.OhlcArchive.Complete | service/history/archive.py:107-120 | a certificate is given exactly when the stored rows of the range equal the source |
| Archive.UpsertKeeps | service/history/archive.py:87-94 | an upsert leaves only certificates that are still true |
| Archive.RunKeepsTruth | service/history/archive.py:87-120 | after any upserts and completions every certificate describes the stored rows of its range exactly |
| Archive.CertifiedIff | service/history/archive.py:107-120 | certifying a range right after storing its source succeeds exactly when nothing else lay in it before |
| Archive.CoveredReadIsTheSource | service/history/archive.py:96-105 | reading a covered range within the limit gives back the source rows it was certified for |
| SymbolResolver.SymbolResolver.Initialize | service/infrastructure/mt5/symbol_resolver.py:55-98 | afterwards the three tables hold exactly what each name resolves to on its own, contested names failed; without a catalog nothing is left |
| SymbolResolver.SymbolResolver.MapEach | service/infrastructure/mt5/symbol_resolver.py:77-82 | each name is resolved on its own into mapping or failures |
| SymbolResolver.SymbolResolver.Separate | service/infrastructure/mt5/symbol_resolver.py:84-95 | symbols reached by one name keep it, the others fail all their names |
| SymbolResolver.BookIsConsistent | service/infrastructure/mt5/symbol_resolver.py:55-98 | mapping and reverse are inverse and go to the catalog; each configured name is in exactly one of mapping and failures |
| SymbolResolver.ResolveAndBack | service/infrastructure/mt5/symbol_resolver.py:100-117 | a name resolves to a symbol exactly when the symbol is normalized back to it, and no other name does |
| SymbolResolver.MoreNamesNeverRedirect | service/infrastructure/mt5/symbol_resolver.py:84-95 | further configured names may fail a resolved one but never change its symbol |
| SymbolResolver.ResolvedIsOffered | service/infrastructure/mt5/symbol_resolver.py:119-153 | a resolved name is offered by the catalog, and an inferred one is its only match |
| Simulation.WiderStopIsHitLess | apps/trade-review-web/lib/simulation/engine.ts:108-168 | a wider stop is hit only where a narrower one is, whatever ratio and rules |
| Simulation.FartherTargetIsHitLess | apps/trade-review-web/lib/simulation/engine.ts:108-168 | a farther target is hit only where a nearer one is |
| Simulation.MirrorImage | apps/trade-review-web/lib/simulation/engine.ts:93-168 | buying and selling are treated alike |
| Simulation.ConservativeIsLower | apps/trade-review-web/lib/simulation/engine.ts:112-121 | the conservative rule never reports more and differs only when both prices were hit |
| Simulation.SlCountFalls | apps/trade-review-web/lib/simulation/engine.ts:57-174 | stop-loss counts never rise with the distance and ignore ratio and rules |
| Simulation.TpCountFalls | apps/trade-review-web/lib/simulation/engine.ts:57-174 | take-profit counts never rise with the ratio |
| Sweep.BuildValues | apps/trade-review-web/lib/simulation/runner.ts:37-51 | the loop yields every step between the bounds, rounded |
| Sweep.CoarseGridsDoNotRepeat | apps/trade-review-web/lib/simulation/runner.ts:37-51 | steps of a ten-thousandth or more never round two values together |
| Sweep.AggregateOne | apps/trade-review-web/lib/simulation/runner.ts:166-206 | one pass counts wins, losses and triggers and sums the profit |
| Sweep.RunParameterSweep | apps/trade-review-web/lib/simulation/runner.ts:64-143 | the nested loops over trades and grid, the map by key, and the first bad parameter that ends them |
| SweepTheorems.SweepIsDirectIff | apps/trade-review-web/lib/simulation/runner.ts:94-118 | every combination reports its direct simulation exactly when no two combinations share a key |
| SweepTheorems.FineSweepIsNotDirect | apps/trade-review-web/lib/simulation/runner.ts:29-51 | with a distance step of a hundred-thousandth the sweep over any trade is not direct |
| SweepTheorems.CoarseSweepIsDirect | apps/trade-review-web/lib/simulation/runner.ts:64-143 | with steps of a ten-thousandth or more it always does |
| SweepTheorems.ReportedCountsFall | apps/trade-review-web/lib/simulation/runner.ts:153-214 | reported stop-loss counts never rise with the distance and ignore the ratio; take-profit counts never rise with the ratio |
| Zones.GroupByDistance | apps/trade-review-web/lib/simulation/runner.ts:232-241 | grouping into the map, in order of first appearance |
| Zones.GroupsMeaning | apps/trade-review-web/lib/simulation/runner.ts:232-241 | each distance's group holds exactly its combinations in their order |
| Zones.FindZones | apps/trade-review-web/lib/simulation/runner.ts:270-321 | the accumulator loop yields one zone per segment, with its ends and averages |
| Zones.SegmentsJoin | apps/trade-review-web/lib/simulation/runner.ts:279-310 | the segments, put together again, are the sorted list |
| Zones.SegmentsSeparate | apps/trade-review-web/lib/simulation/runner.ts:288-309 | within a segment neighbours are at most one point apart, between segments they are not |
| Zones.FindStabilityZones | apps/trade-review-web/lib/simulation/runner.ts:229-324 | group, sort, cut, and the first five zones |
| Zones.ReportedZonesAreOrdered | apps/trade-review-web/lib/simulation/runner.ts:266-324 | at most five zones, in non-decreasing volatility |

## Left out

- HTTP and socket plumbing: routing, headers, API keys, JSON envelopes, metrics, health payloads and status files.
- MT5, RPyC, SQLite and pandas themselves: the terminal and the broker answer through parameters, tables are maps changed
  in atomic steps, frames are sequences of rows.
- SHA-256, JSON text and ISO dates: hashes are injective constructors, the tick encoding is any invertible newline-free
  function, times are integers; Unicode case folding in symbol names is ASCII folding.
- Floating point: prices, volumes and rates are exact reals, so rounding in the last place is not modelled.
- Clients without account_info, which only test doubles lack.
- The health snapshot copied beside the client lock, and the monitor thread, which is one more user of the same operations.
- The handlers for cancel, close and recovery lookups are steps of the machine only; the order handler is also a method.
- Stored exit results and response bodies, which a later lookup may overwrite.
- The fresh check, final authorization and order_send inside one locked callback are a single event, so a kill that
  commits between final authorization and order_send is ordered after the send.
- ExecutionExposure.WithinGrantIff: assumes that reads of deals and positions are the broker's own history.
- ExecutionExposure.NetExposureBounded: asks that no other grant shares the client order, because the bound is false there;
  `ExecutionExposure.WithinGrantIff` is the exact condition.
- ExecutionTickets.FailedMeansNotAccepted: assumes that accepted orders carry non-negative numbers and that a lookup by
  client order finds the order that was sent, because the broker decides both;
  `ExecutionRecords.FailedMeansUnacceptedOrMisbound` does without.
- ExecutionRecords.AcceptedEndsFailedIff: speaks of four writes that nothing interrupts; over whole runs
  `ExecutionRecords.FailedMeansUnacceptedOrMisbound` holds instead, since a crash may leave the record pending.
- GapTheorems.EveryHoleIsTheBrokers: assumes on entry that each remembered signature of the frame not shadowed by staged
  rows is backed, because certificates of holes that were since filled are kept.
- Row columns beyond price and tick volume in the history worker, and configuration of symbols and timeframes: a refresh
  is one symbol and timeframe, with the one writer lock held.
- TickPublisher.TickPublisher.Publish: asks for a textual symbol, because other values would not sort in a snapshot.
- Socket set-up, reconnect delays and freshness of ticks.
- Sweep.RunParameterSweep: asks for positive steps where a range is not empty, because with others its loop does not end.
- Warnings and heat maps of the sweep, and the square root, which is a parameter.
- Configuration, supervision, ETL, deal mapping, presenters, charts and exports.
