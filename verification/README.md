# Verified model of the go-ledger protocols

go-ledger is a Telegram bot with a durable update inbox, a ledger kept in PostgreSQL, and a
TRON chain watcher. This project models its protocols, schedulers and calculations in Dafny and
proves what the code promises about them. Everything is stated about the code as it is; where
the code does less than its comments suggest, the exact condition under which it does deliver is
proved instead, together with a case in which it does not.

How the models are built: code that changes tables, queues or counters in place is a `class`
with those fields, and each method's contract ties the new state to a pure function of the old
one. The protocol modules put those functions into a state machine whose steps are the code's
critical sections, SQL statements or transactions, let any number of workers interleave them,
and prove invariants over every run. Beside them, the modules named `…Leases`, `…Meaning`,
`…Choice`, `…Progress` and the like say what the functions do on the columns, fields and logs
themselves, without those functions.

| files | part of the system |
|---|---|
| `InboxTables`, `TelegramStore`, `InboxProtocol`, `InboxRoutes`, `InboxHistory`, `InboxRevocation`, `InboxReplies`, `InboxLeases` | update inbox, private states, quick-reply outbox |
| `LedgerTables`, `LedgerRuns`, `LedgerHealth`, `LedgerReplay`, `LedgerStore`, `LedgerMeaning` | ledger records and period summaries |
| `RateLimiter`, `RateFairness`, `RateChoice`, `RateLog` | the Telegram rate limiter |
| `GapWorker`, `GapCoverage`, `GapExact`, `GapTermination`, `FallbackGap`, `GapLosses`, `GapProgress`, `GapSchedule`, `CatchupScan` | gap workers and catch-up scan of the chain watcher |
| `Dispatcher`, `DispatcherRuns`, `DispatcherProgress` | the keyed job dispatcher |
| `FallbackController`, `FallbackHistory`, `FallbackReturn` | the watcher fallback controller |
| `Calculator`, `CalculatorNumbers`, `CalculatorTrees`, `CalculatorText` | the calculator |
| `Base58` | Base58 and TRON addresses |
| `LineDrawing` | the integer line rasterizer |
| `BillAccumulator`, `BillTotals`, `BillMeaning` | the bill accumulator |
| `PermissionCache`, `PermissionCacheHistory` | the epoch-aware permission cache |
| `Options`, `Numbers`, `Sets`, `MapSums` | shared helpers |

What the proofs found about the code:

- The gap worker compares the number of *different* transfers on a page with the page size
  (server.go:753), so a full page with a repeated identity is taken for the last one and
  everything behind it is dropped. `GapExact.LosslessIffNothingHidden` gives the exact condition,
  and `GapExact.RepeatedTransferHidesTheLast` a chain of 51 transfers that violates it.
- Both gap workers complete an exhausted expand task before they enqueue its window
  (server.go:760-766, chain_watcher.go:489-497). If the enqueue does not happen, because the worker
  crashes or the call returns a storage error, the later release of the task has no effect on a
  completed row and the window is lost. `GapLosses.KeptIffNeverLost` says exactly when a run with
  failing storage calls keeps a transfer, and `GapLosses.LostEnqueueLosesTheLast` is a run that
  loses one.
- A window one timestamp wide that fills every page up to the limit is given back again and again
  (server.go:776-782, chain_watcher.go:504-510).
  `GapSchedule.CompletesIff` says exactly when a window can be completed at all; then
  `GapSchedule.EveryScheduleCompletes` says that nothing can keep it from it.
- A revocation clears a private state without moving its version, so a worker that read the state
  before the clear can still commit over it. `InboxHistory.ClearIsHonouredIff` says exactly when a
  commit honours the clears since its read, and `InboxRevocation.ErasedDraftComesBack` is a run of
  ten events in which an erased draft comes back.
- A ledger record without a period of its own is counted by every period of its day but
  charged back to one only (`LedgerTables.LegacyUndoLeavesSiblingStale`); the two if-and-only-if
  lemmas beside it say exactly when an insert or an undo keeps the summaries right.
- A `Submit` whose start is refused drops jobs that `TrySubmit` had already accepted
  (`DispatcherRuns.RefusedStartDropsOthers`). `DispatcherRuns.NothingDroppedIff` says exactly when
  a run drops nothing.
- A deposit in a currency other than CNY and USDT makes gross differ from net plus commission,
  unless it is zero or at rate one (`BillTotals.OtherCurrencyBalancesIff`).

## Model

| member | source | states |
|---|---|---|
| `TelegramStore.Store.PersistBatch` | go-ledger/internal/storage/telegram_inbox.go:35-98 | A batch is stored whole or not at all: every update not yet there becomes one row (done if it was processed before the inbox existed), and the offset only moves past what was stored |
| `TelegramStore.Store.Claim` | go-ledger/internal/storage/telegram_inbox.go:100-162 | The sweep kills exhausted rows, then the claimed rows are the smallest due ids the lane admits, each with one more attempt and a new lease; nothing else changes |
| `TelegramStore.Store.MarkUpdateHandled` | go-ledger/internal/storage/telegram_inbox.go:164-170 | Only the holder of an unexpired lease marks an update handled |
| `TelegramStore.Store.RenewLease` | go-ledger/internal/storage/telegram_inbox.go:172-181 | Only the holder of an unexpired lease extends it |
| `TelegramStore.Store.CompleteUpdate` | go-ledger/internal/storage/telegram_inbox.go:183-190 | Only a handled row under a held lease becomes done |
| `TelegramStore.Store.RetryUpdate` | go-ledger/internal/storage/telegram_inbox.go:192-210 | A failed row goes back with a due time, or dies when its attempts are used up |
| `TelegramStore.Store.CommitPrivateStateHandled` | go-ledger/internal/storage/telegram_inbox.go:228-298 | One transaction writes the state, the handled mark and the reply, or none of them; a version that moved is a conflict |
| `TelegramStore.Store.InsertQuickReply` | go-ledger/internal/storage/quick_reply_outbox.go:15-52 | One reply per update and dedupe key; the same delivery again is accepted, anything else under its keys is refused |
| `TelegramStore.Store.ClaimQuickReplies` | go-ledger/internal/storage/quick_reply_outbox.go:54-109 | After the sweep the smallest due heads of their actors are taken, each with one more attempt and a lease |
| `TelegramStore.Store.EndQuickReply` | go-ledger/internal/storage/quick_reply_outbox.go:122-167 | Sent and dead are reached only from a held lease |
| `TelegramStore.Store.RetryQuickReply` | go-ledger/internal/storage/quick_reply_outbox.go:129-152 | A failed send waits for its next attempt or dies after the last one |
| `TelegramStore.Store.CancelRevoked` | go-ledger/internal/storage/quick_reply_outbox.go:169-211 | The reply is cancelled and the state is cleared exactly if it is still the one the reply's update wrote |
| `InboxRoutes.InsertAllAdds` | go-ledger/internal/storage/telegram_inbox.go:46-79 | Every row a batch adds comes from the first update of the batch with that id |
| `InboxRoutes.OneRunnerPerRoute` | go-ledger/internal/storage/telegram_inbox.go:116-147 | While a row of a ledger route is processed, every earlier row is done or dead, no later one was ever claimed, and no other one is being processed, in every run |
| `InboxRoutes.ClaimsBounded` | go-ledger/internal/storage/telegram_inbox.go:104-147 | No update is ever claimed more often than the maximum, whatever workers crash or come back late |
| `InboxRoutes.HeadNeverBlocked` | go-ledger/internal/storage/telegram_inbox.go:104-147 | A due head of a ledger route is either killed or claimed by the next sweep and claim that does not have it locked and does not spend its limit on smaller ids |
| `InboxRoutes.TerminalIsFinal` | go-ledger/internal/storage/telegram_inbox.go:35-98 | Done and dead rows keep their status and attempts over any continuation of any run, and a cleaned-up update never returns |
| `InboxHistory.VersionIsLastId` | go-ledger/internal/storage/telegram_inbox.go:271-279 | The stored version is the id of the last update folded into the state |
| `InboxHistory.OnlyClearsSince` | go-ledger/internal/storage/telegram_inbox.go:260-270 | If the version has not moved since a read, nothing but revoke clears happened since |
| `InboxHistory.IdsIncrease` | go-ledger/internal/storage/telegram_inbox.go:228-298 | The updates of a history strictly increase |
| `InboxHistory.VersionCheckIsEnough` | go-ledger/internal/storage/telegram_inbox.go:228-298 | A commit that the version check lets through was computed from the latest state, apart from clears, whoever owns the lease |
| `InboxHistory.StateIsReplayOfHistory` | go-ledger/internal/bot/update_admission.go:392-429 | For any workers, crashes, lease expiries and late commits, a user's stored state is the replay of the user's handled updates and clears, and its version the last update |
| `InboxHistory.StateIsFoldOfHandledUpdates` | go-ledger/internal/bot/update_admission.go:392-429 | Without revocations the stored state is the handler folded once over the user's handled updates in strictly increasing order |
| `InboxHistory.HandledIffFolded` | go-ledger/internal/storage/telegram_inbox.go:228-298 | A private update is marked handled if and only if it was folded into its user's state; a done row was folded in or never claimed |
| `InboxHistory.ClearIsHonouredIff` | go-ledger/internal/storage/quick_reply_outbox.go:191-193 | In every run, a read whose version still matches equals the stored row if and only if no clear came after it, given that it held a state; and its handler gets what it would get from the stored row if and only if no clear came after it, it held no state or one too old to be restored, or the pending broadcast is that state |
| `InboxHistory.ClearIsLostToEarlierReader` | go-ledger/internal/storage/quick_reply_outbox.go:191-193 | A worker that read before a clear and still holds its lease writes exactly what it would have written without the clear: the clear does not move the version |
| `InboxRevocation.ErasedDraftComesBack` | go-ledger/internal/storage/quick_reply_outbox.go:169-211 | A run of ten events: a draft is stored with a reply, read for the next update, erased when the reply is revoked, and back after that update's commit |
| `InboxReplies.NoReplyYet` | go-ledger/internal/storage/quick_reply_outbox.go:27-51 | A commit never meets its own reply in the outbox, so every conflict it meets is a real one |
| `InboxReplies.CommitQueuesReply` | go-ledger/internal/storage/telegram_inbox.go:280-292 | A commit that goes through queues exactly the reply its update staged, as a new row |
| `InboxReplies.ReplyOnlyWithItsCommit` | go-ledger/internal/storage/quick_reply_outbox.go:15-52 | A reply exists only for an update that was folded in and staged exactly this reply, at most one per update |
| `InboxReplies.RepliesInActorOrder` | go-ledger/internal/storage/quick_reply_outbox.go:68-95 | Behind a claimed reply every earlier reply of its actor is closed, and no reply is sent more often than the maximum |
| `InboxReplies.ClosedIsFinal` | go-ledger/internal/storage/quick_reply_outbox.go:111-211 | Sent, cancelled and dead are absorbing over any continuation of any run |
| `InboxReplies.CancelSparesLaterStates` | go-ledger/internal/storage/quick_reply_outbox.go:169-211 | A cancellation changes at most the state its own update left, never one written by a later update |
| `InboxLeases.DeliveredMeans` | go-ledger/internal/storage/telegram_inbox.go:35-98 | A batch with an incomplete update is refused; else every id keeps its row or gets that of its first update, done if it was imported and due at once if not, and the offset is the greatest id plus one or stays |
| `InboxLeases.ClaimTakesExactly` | go-ledger/internal/storage/telegram_inbox.go:100-162 | On the columns: a claim takes exactly the due rows of the lane with attempts left that nobody has locked, in the ledger lane only behind finished rows of their route, with fewer than the limit smaller ones, and what it writes to them |
| `InboxLeases.SweepKillsExactly` | go-ledger/internal/storage/telegram_inbox.go:114-120 | On the columns: the sweep kills exactly the rows of the lane whose lease ran out on the last attempt |
| `InboxLeases.MarkHandledIff` | go-ledger/internal/storage/telegram_inbox.go:164-170 | On the columns: the mark is set exactly for the owner of an unexpired lease on a processing row; for anybody else the rows stay as they are |
| `InboxLeases.RenewIff` | go-ledger/internal/storage/telegram_inbox.go:172-181 | The same for a renewal, which sets the lease to now plus the span given, or plus a minute |
| `InboxLeases.FinishIff` | go-ledger/internal/storage/telegram_inbox.go:183-190 | The same for completion, which needs the handled mark as well |
| `InboxLeases.RetryLaterIff` | go-ledger/internal/storage/telegram_inbox.go:192-210 | The same for a retry, which makes the row dead exactly if its attempts are used up |
| `InboxLeases.CommitIff` | go-ledger/internal/storage/telegram_inbox.go:228-298 | On the columns: a commit goes through exactly for the owner of an unexpired lease on an unhandled update whose user's state is still at the expected version and whose reply can be queued; what it writes then, and that it changes nothing otherwise |
| `InboxLeases.RestoredMeans` | go-ledger/internal/bot/update_admission.go:634-677 | The handler is given the stored state if it is less than 30 minutes old; without any row the state an old payload carries; else the pending broadcast |
| `InboxLeases.CleanupTakesExactly` | go-ledger/internal/storage/telegram_inbox.go:336-347 | Cleaning up deletes only rows done before the cutoff, and only replies closed before it |
| `InboxLeases.OnlyTheOwnerChangesIt` | go-ledger/internal/storage/telegram_inbox.go:100-298 | Over any continuation of any run: while a lease lasts, no statement of anybody but its owner, no claim and no sweep changes the row at all |
| `InboxLeases.InsertReplyIff` | go-ledger/internal/storage/quick_reply_outbox.go:15-52 | On the columns: a reply is refused exactly if it is incomplete or another one stands under one of its keys; a new one waits under the next id, the same one again changes nothing |
| `InboxLeases.ClaimSendsTakesExactly` | go-ledger/internal/storage/quick_reply_outbox.go:68-109 | On the columns: which replies a claim takes, and what it writes to them |
| `InboxLeases.SendSweepDropsExactly` | go-ledger/internal/storage/quick_reply_outbox.go:54-67 | On the columns: the sweep drops exactly the replies whose lease ran out on the last attempt |
| `InboxLeases.RenewReplyIff` | go-ledger/internal/storage/quick_reply_outbox.go:111-120 | On the columns: only the owner of an unexpired lease on a reply being sent renews it |
| `InboxLeases.EndReplyIff` | go-ledger/internal/storage/quick_reply_outbox.go:122-167 | The same for the end of a reply as sent or dead |
| `InboxLeases.RetryReplyIff` | go-ledger/internal/storage/quick_reply_outbox.go:129-152 | The same for a retry, which drops the reply exactly if its attempts are used up |
| `InboxLeases.CancelReplyIff` | go-ledger/internal/storage/quick_reply_outbox.go:169-211 | The same for a cancellation, which erases the actor's state exactly if its version is that of the reply |
| `InboxLeases.OnlyTheSenderChangesIt` | go-ledger/internal/storage/quick_reply_outbox.go:54-211 | Over any continuation of any run: while a lease on a reply lasts, nobody but its owner changes the reply |
| `LedgerTables.AggregateWrite` | go-ledger/internal/storage/ledger_summary.go:341-360 | Writing one record moves a period's recomputed aggregate by exactly the change of that record's share |
| `LedgerTables.InsertKeepsHealthIff` | go-ledger/internal/storage/ledger_summary.go:117-147 | The incremental insert keeps every trusted summary right if and only if the trusted periods that count the record are exactly its own |
| `LedgerTables.UndoKeepsHealthIff` | go-ledger/internal/storage/ledger_summary.go:205-266 | The incremental undo keeps every trusted summary right if and only if the trusted periods that counted the record are exactly the one charged |
| `LedgerTables.ModernRecordKeepsHealth` | go-ledger/internal/storage/ledger_summary.go:103-147 | A record with a period of its own always keeps the summaries right, inserted or undone |
| `LedgerTables.LegacyUndoLeavesSiblingStale` | go-ledger/internal/storage/ledger_summary.go:205-266 | Undoing a legacy record in one of two sibling periods leaves the other one stale and trusted |
| `LedgerHealth.RunKeeps` | go-ledger/internal/storage/ledger_summary.go:29-33 | Under every interleaving of inserts, undos that delete before they lock, repairs and discovery, open transactions hold what their statements rely on and committed summaries are right |
| `LedgerHealth.ServedSummaryIsAggregate` | go-ledger/internal/storage/ledger_summary.go:318-335 | In every reachable committed state a reconciled, clean summary equals the aggregate over the period's undeleted records |
| `LedgerReplay.ReplaysReturnTheFirstRun` | go-ledger/internal/storage/ledger_summary.go:57-114 | Of all runs under one dedupe key exactly one had an effect, and every run returned its record and receipt ids |
| `LedgerReplay.OneEffectPerRecord` | go-ledger/internal/storage/ledger_summary.go:164-239 | A record exists exactly if one effective run inserted it, and is deleted exactly if one effective undo removed it, never two |
| `LedgerStore.InsertAlone` | go-ledger/internal/storage/ledger_summary.go:37-115 | The statements of an insert, run by themselves, have one closed-form effect: replay, mismatch or a new record with its summary and receipt |
| `LedgerStore.UndoAlone` | go-ledger/internal/storage/ledger_summary.go:158-240 | The same for an undo, with and without a receipt, for a missing, foreign or legacy record |
| `LedgerStore.Ledger.InsertRecord` | go-ledger/internal/storage/ledger_summary.go:37-115 | The insert written as one method does what its statements do in the transaction model |
| `LedgerStore.Ledger.SoftDelete` | go-ledger/internal/storage/ledger_summary.go:158-266 | The undo written as one method does what its statements do in the transaction model |
| `LedgerStore.Ledger.Recompute` | go-ledger/internal/storage/ledger_summary.go:341-360 | Summing the rows one by one gives the aggregate and the highest record id of the period |
| `LedgerStore.Ledger.RepairSummary` | go-ledger/internal/storage/ledger_summary.go:395-439 | After a repair the row is the aggregate, clean and reconciled; it reports whether it already was |
| `LedgerMeaning.AggregateMeans` | go-ledger/internal/storage/ledger_summary.go:341-360 | For every table and period the aggregate is, on the columns, the numbers of counted deposits and payouts, the amounts of the CNY deposits, and the USDT results of the deposits and of the payouts |
| `LedgerMeaning.ServedSummaryMeans` | go-ledger/internal/storage/ledger_summary.go:318-335 | In every reachable committed state a reconciled, clean summary is those numbers and sums |
| `LedgerMeaning.InsertMoves` | go-ledger/internal/storage/ledger_summary.go:117-147 | An insert adds the record's count, amount and result to the row of its period, trusted or not; a row it has to make is dirty |
| `LedgerMeaning.UndoMoves` | go-ledger/internal/storage/ledger_summary.go:242-266 | An undo takes the same off its own period's row and leaves the other rows alone |
| `LedgerMeaning.InsertMeans` | go-ledger/internal/storage/ledger_summary.go:37-115 | A known dedupe key gives the first ids back exactly if chat, kind and reference kind agree, without effect; a new one stores the record and its receipt under new ids |
| `LedgerMeaning.UndoMeans` | go-ledger/internal/storage/ledger_summary.go:158-240 | An undo deletes exactly a record that is there, of the chat and kind asked for and not deleted yet, and moves one without a period to the one named |
| `LedgerMeaning.UndoAgainMeans` | go-ledger/internal/storage/ledger_summary.go:158-204 | An undo under a known key has no effect and gives the first ids back exactly if it is the same one |
| `LedgerMeaning.DiscoveryFlags` | go-ledger/internal/storage/ledger_summary.go:500-550 | Discovery touches exactly the periods of the next records behind its cursor, and leaves their rows dirty if they were missing, were dirty, or do not know such a record |
| `RateLimiter.Limiter.Enqueue` | go-ledger/internal/bot/telegram_rate.go:55-61 | A waiter joins at the end with a new sequence number |
| `RateLimiter.Limiter.EligibleWaiters` | go-ledger/internal/bot/telegram_rate.go:122-132 | The loop over the queue collects exactly the waiters that are ready, in order |
| `RateLimiter.Limiter.SoonestWaiter` | go-ledger/internal/bot/telegram_rate.go:138-147 | With nobody ready, the loop finds the waiter that is ready first, ties going to the better one |
| `RateLimiter.Limiter.SelectEligible` | go-ledger/internal/bot/telegram_rate.go:150-169 | The loop's choice among ready waiters is the fair one |
| `RateLimiter.Limiter.SelectNonCritical` | go-ledger/internal/bot/telegram_rate.go:171-181 | The choice when critical waiters must stand back |
| `RateLimiter.Limiter.PruneCanceled` | go-ledger/internal/bot/telegram_rate.go:221-235 | Exactly the cancelled waiters leave the queue, order kept |
| `RateLimiter.Limiter.TryGrant` | go-ledger/internal/bot/telegram_rate.go:63-113 | One round of waiting grants exactly if it is this waiter's turn, with all limits and bursts moved on; otherwise it says how long to sleep |
| `RateFairness.EligibleMeans` | go-ledger/internal/bot/telegram_rate.go:117-134 | A waiter is eligible exactly if it is queued and ready under all limits |
| `RateFairness.OldestMeans` | go-ledger/internal/bot/telegram_rate.go:183-194 | The oldest waiter of a priority, or none if there is none |
| `RateFairness.FirstMeans` | go-ledger/internal/bot/telegram_rate.go:150-169 | No waiter precedes the first one by priority and age |
| `RateFairness.SoonestMeans` | go-ledger/internal/bot/telegram_rate.go:135-148 | No waiter is ready sooner than the one picked |
| `RateFairness.GrantMeans` | go-ledger/internal/bot/telegram_rate.go:63-87 | A granted waiter was queued, ready under every limit and the fair choice among the ready ones |
| `RateFairness.FairToOthers` | go-ledger/internal/bot/telegram_rate.go:150-181 | After 16 critical grants a ready waiter of another priority goes first, and after 4 normal ones a ready bulk waiter |
| `RateFairness.GrantsAreSpaced` | go-ledger/internal/bot/telegram_rate.go:68-87 | In every run any two grants are spaced by the global interval times their distance, grants to one chat by the chat interval, bulk grants by the bulk interval |
| `RateFairness.BudgetRanks` | go-ledger/internal/bot/telegram_rate.go:68-85 | 17 * (4 - normal burst) - critical burst is a ranking function: no grant but a bulk one raises it, and one that passes over a ready bulk waiter lowers it |
| `RateFairness.BulkWaitsAtMost68Grants` | go-ledger/internal/bot/telegram_rate.go:117-181 | Whatever traffic arrives, at most 68 grants between two bulk ones pass over a ready bulk waiter |
| `RateFairness.CriticalBurstIsBounded` | go-ledger/internal/bot/telegram_rate.go:150-169 | At most 16 critical grants in a row pass over another ready waiter |
| `RateChoice.GrantIsExactly` | go-ledger/internal/bot/telegram_rate.go:63-200 | In every run a try is granted exactly to the waiter with the smallest sequence number among the ready ones of the priority whose turn it is: critical before normal before bulk, except that after 16 critical grants in a row the others go first and after 4 normal ones a ready bulk waiter does |
| `RateChoice.WokenMeans` | go-ledger/internal/bot/telegram_rate.go:88-148 | The time slept for is the first one from now on at which any queued waiter is ready, and the waiter picked is ready then |
| `RateChoice.NormalWaitsAtMost33Grants` | go-ledger/internal/bot/telegram_rate.go:150-181 | Whatever traffic arrives, at most 33 grants in a row pass over ready normal waiters |
| `RateLog.ReadyIffClear` | go-ledger/internal/bot/telegram_rate.go:203-212 | In every run a waiter is ready exactly if every earlier grant is at least the global interval back, every one to its chat the chat interval, and for a bulk waiter every bulk one the bulk interval |
| `RateLog.BurstsAreCounted` | go-ledger/internal/bot/telegram_rate.go:75-85 | The bursts are the critical grants in a row at the end of the log and the normal grants since the last bulk one |
| `GapWorker.Server.FetchPage` | go-ledger/internal/tron/client.go:369-460 | A page of a window with repeated identities dropped as they arrive |
| `GapWorker.Server.YieldGap` | go-ledger/internal/storage/storage.go:6891-6897 | Only the current claim moves the cursor, and never back |
| `GapWorker.Server.EnqueueGap` | go-ledger/internal/storage/storage.go:6424-6446 | An open task with the same key absorbs a new one |
| `GapWorker.Server.SplitGap` | go-ledger/internal/storage/storage.go:6899-6946 | The current claim's window becomes its two halves with the cursor reset; an open left half makes it fail without effect |
| `GapWorker.Server.ProcessGapTask` | go-ledger/internal/chainwatcher/server.go:711-798 | The whole worker step: fetch, record until a failure, then complete, yield, split, turn into a window task or release; also when the storage calls behind the recordings fail, or only the enqueue does |
| `GapCoverage.StepKeepsInv` | go-ledger/internal/chainwatcher/server.go:711-798 | Every claim, release and step, of late workers too, keeps the cursor behind what was recorded |
| `GapCoverage.CoverageIsKept` | go-ledger/internal/chainwatcher/server.go:719-797 | A transfer that some open task answers for stays answered for until it is recorded, over any run |
| `GapCoverage.CompletedWindowIsRecorded` | go-ledger/internal/chainwatcher/server.go:719-797 | Once a window task and all its descendants are completed, every transfer in the window was recorded, in any order of yields, splits, failures and late workers |
| `GapCoverage.DistinctHidesNothing` | go-ledger/internal/chainwatcher/server.go:753 | If no two transfers share an identity, no page is mistaken for the last one |
| `GapExact.LosslessIffNothingHidden` | go-ledger/internal/chainwatcher/server.go:753-780 | The worker loses nothing in any run if and only if no window has, behind a page with fewer than 50 different transfers, a transfer not seen before |
| `GapExact.RepeatedTransferHidesTheLast` | go-ledger/internal/chainwatcher/server.go:753 | A chain that violates the condition: 51 transfers of one window, the first two the same, of which the last is never read |
| `GapLosses.KeptIffNeverLost` | go-ledger/internal/chainwatcher/server.go:759-768 | In every run of either gap worker in which any storage call may fail, a transfer stays recorded or answered for throughout if and only if no step completed an expand task without enqueuing its window while nothing else recorded or answered for the transfer |
| `GapLosses.CompletedIsRecordedUnlessLost` | go-ledger/internal/chainwatcher/server.go:759-768 | With failing storage calls too, once all tasks are completed a transfer that no such step lost was recorded |
| `GapLosses.LostEnqueueLosesTheLast` | go-ledger/internal/chainwatcher/server.go:760-766 | When the enqueue does not happen (crash or storage error), a window of 51 transfers ends with every task completed and the last transfer never read, for either worker |
| `GapTermination.FinishLowers` | go-ledger/internal/chainwatcher/server.go:735-797 | Every success of a worker that holds its claim lowers a measure on window widths and remaining pages |
| `GapTermination.WindowTakesBoundedSteps` | go-ledger/internal/chainwatcher/server.go:753-797 | One window and all its halves take at most pages * (2 * width - 1) successful steps, in any run with any failures and late workers |
| `GapProgress.StepOnWindow` | go-ledger/internal/chainwatcher/server.go:753-797 | What a step of either worker does to a window it holds, field by field: completed behind a short page, the next page below the limit, two pending halves read from the start at the limit, given back only at width one |
| `GapProgress.StepOnExpand` | go-ledger/internal/chainwatcher/server.go:749-769 | The same for an expand task: completed at its anchor, the next page below its end, else completed with its window enqueued |
| `GapProgress.StepOnPage` | go-ledger/internal/chainwatcher/server.go:745-748 | A page task is completed by its one page |
| `GapProgress.FailedStep` | go-ledger/internal/chainwatcher/server.go:724-743 | A failed fetch or recording keeps what was recorded before it; the fallback gives the task back, the watcher leaves it leased |
| `GapProgress.ClaimIs` | go-ledger/internal/storage/storage.go:6830-6881 | A claim leases an open task under a new generation, after which no earlier claim on it counts |
| `GapSchedule.CompletesIff` | go-ledger/internal/chainwatcher/server.go:753-797 | For either worker a window and all its pieces can be completed at all if and only if every piece has a short page below the limit or halves that do; then a run without failures of at most twice the step bound does it |
| `GapSchedule.EveryScheduleCompletes` | go-ledger/internal/chainwatcher/server.go:711-797 | Then every schedule has completed everything after as many rounds as the step bound, whatever claims, failures and late workers come between the rounds |
| `GapSchedule.EffortsNeverFail` | go-ledger/internal/chainwatcher/server.go:711-797 | And in every run at all, every worked current claim whose calls go through gets something done, so there are no more of them than the bound |
| `GapSchedule.NarrowWindowsFit` | go-ledger/internal/chainwatcher/server.go:771-780 | It is enough that the windows of width one have a short page below the limit |
| `FallbackGap.ProcessOneFallbackGap` | go-ledger/internal/bot/chain_watcher.go:444-512 | The fallback's step on a claimed task, in place: release on any failure, else complete, yield, turn into a window only if the completion went through, split or release; also when the storage calls fail, or only the enqueue does |
| `FallbackGap.PageLimit` | go-ledger/internal/bot/chain_watcher.go:514-523 | At least one page can always be read; a window uses the safety limit, another task its own end |
| `FallbackGap.CoverageIsKept` | go-ledger/internal/bot/chain_watcher.go:444-512 | Over any run of fallback workers a transfer that was recorded or answered for stays so |
| `FallbackGap.CompletedExpandIsRecorded` | go-ledger/internal/bot/chain_watcher.go:444-512 | Once an expand task without its anchor in the window, its window and all its halves are completed, every transfer of the window was recorded |
| `CatchupScan.Server.FetchWindow` | go-ledger/internal/tron/client.go:369-460 | All pages asked for, repeated identities dropped, and how full the last page was |
| `CatchupScan.Server.ScanCatchupWindow` | go-ledger/internal/chainwatcher/server.go:821-866 | The recursive scan with its shared budget computes the frontier, the budget left, what was recorded and whether it failed; it terminates |
| `CatchupScan.FrontierIsCovered` | go-ledger/internal/chainwatcher/server.go:821-866 | For any budget, any page limit of at least one and any failures the result lies in the window and nothing recorded is forgotten; if the result is beyond the start, every transfer from the start up to and including the result is recorded (if it is the start, nothing is claimed about transfers there) |
| `CatchupScan.ReachesTheEndIff` | go-ledger/internal/chainwatcher/server.go:821-866 | With fetches that do not fail and room for the calls of one per 250 ms of window, the scan reaches the end if and only if every window it cannot split any more fits into the page limit |
| `CatchupScan.BudgetIsSpentOnWindows` | go-ledger/internal/chainwatcher/server.go:821-866 | The budget goes down by exactly the API calls of the windows asked for |
| `CatchupScan.WindowsAreAfforded` | go-ledger/internal/chainwatcher/server.go:821-866 | Every window asked for is part of the whole, and none is asked for once the calls of those before it have used the budget up |
| `Dispatcher.Dispatcher.Append` | go-ledger/internal/worker/dispatcher.go:67-74 | Submit's critical section: the job goes to the end of its key's queue, and a runner is wanted exactly if the key had none |
| `Dispatcher.Dispatcher.TryAppend` | go-ledger/internal/worker/dispatcher.go:103-126 | TrySubmit's critical section; a refused caller leaves all tables as they were |
| `Dispatcher.Dispatcher.Discard` | go-ledger/internal/worker/dispatcher.go:168-182 | The key's whole queue and its mark go, with one token per job received |
| `Dispatcher.Dispatcher.Pop` | go-ledger/internal/worker/dispatcher.go:184-202 | The first job of the key with one token received, or the end of the runner |
| `Dispatcher.Dispatcher.Acquire` | go-ledger/internal/worker/dispatcher.go:53-66 | A slot is taken exactly if there is room |
| `Dispatcher.Dispatcher.Stats` | go-ledger/internal/worker/dispatcher.go:134-148 | The number of waiting jobs, which with the holders makes up the tokens and never exceeds the bound |
| `DispatcherRuns.RollbackTakesOnlyItsOwnJob` | go-ledger/internal/worker/dispatcher.go:109-122 | A key without a runner has no queue, so deleting it takes back only the refused job |
| `DispatcherRuns.OneRunnerPerKey` | go-ledger/internal/worker/dispatcher.go:67-126 | In every interleaving no key has two threads at work, and a key is marked active exactly if it has one |
| `DispatcherRuns.AcceptedInOrder` | go-ledger/internal/worker/dispatcher.go:49-166 | For each key the accepted jobs are, in order, the ones that ran or were dropped, the one running, and the queue; with no thread left nothing is left over |
| `DispatcherRuns.ReceivesNeverBlock` | go-ledger/internal/worker/dispatcher.go:168-209 | Tokens always equal waiting jobs plus holders and never exceed the bound, so every receive under the mutex finds one |
| `DispatcherRuns.NothingDroppedIff` | go-ledger/internal/worker/dispatcher.go:154-182 | In every run, all jobs of a key that left its queue ran if and only if no refused start or cancelled runner of the key ever met a queue that was not empty |
| `DispatcherRuns.WithoutCancellationNothingIsDropped` | go-ledger/internal/worker/dispatcher.go:154-182 | A consequence: without any refused start or cancelled runner the jobs that ran are the first of those accepted, in order |
| `DispatcherRuns.RefusedStartDropsOthers` | go-ledger/internal/worker/dispatcher.go:75-84 | A refused start drops a job that another caller was told is accepted |
| `DispatcherProgress.AcquiresIff` | go-ledger/internal/worker/dispatcher.go:53-66 | In every run a slot is given out exactly while waiting jobs and slots in hand are fewer than the bound; a caller that gives up is counted exactly otherwise |
| `DispatcherProgress.AcceptsIff` | go-ledger/internal/worker/dispatcher.go:67-126 | Submit accepts every job with a slot, TrySubmit exactly if the key has a runner or the executor takes one, and the job comes last |
| `DispatcherProgress.SectionsAreSteps` | go-ledger/internal/worker/dispatcher.go:67-126 | The critical sections of the class are the steps of the runs |
| `DispatcherProgress.RunnerDrains` | go-ledger/internal/worker/dispatcher.go:154-202 | Left alone, a runner runs all jobs waiting for its key in order and retires |
| `DispatcherProgress.AcceptedGetsRun` | go-ledger/internal/worker/dispatcher.go:154-202 | In every run, after that nothing accepted for the key is left over, and all of it ran if nothing was dropped before |
| `FallbackController.WatcherFallback.RecordFailure` | go-ledger/internal/bot/chain_watcher.go:730-796 | Counts the failure, changes the mode and reports it |
| `FallbackController.WatcherFallback.RecordSuccess` | go-ledger/internal/bot/chain_watcher.go:808-848 | Counts the success and says whether the primary is back |
| `FallbackController.WatcherFallback.ActivateLease` | go-ledger/internal/bot/chain_watcher.go:798-806 | Only a pending controller that asked for the lease becomes active |
| `FallbackController.Clamped` | go-ledger/internal/bot/chain_watcher.go:709-720 | The constructor keeps every usable threshold as given and replaces the others by usable ones |
| `FallbackHistory.LeaseFollowsMode` | go-ledger/internal/bot/chain_watcher.go:759-782 | PENDING has asked for the lease, PRIMARY has not, and the lease is asked for exactly when the primary is left, so the second request in the code is never made |
| `FallbackHistory.LeavesPrimaryIff` | go-ledger/internal/bot/chain_watcher.go:738-771 | PRIMARY becomes PENDING exactly at a failure after which one probe has, in the whole history, enough failures since its last success, the first at least 3 s ago |
| `FallbackHistory.LeavesPendingIff` | go-ledger/internal/bot/chain_watcher.go:798-824 | PENDING stands down exactly when neither probe has an unanswered failure, and becomes active exactly when given the lease |
| `FallbackReturn.BackExactlyWhenEnough` | go-ledger/internal/bot/chain_watcher.go:808-848 | While the fallback serves or is given up, the primary is back exactly at the success by which the events since the last failure, degradation or effective lease contain the required successes of both probes with the last lag small enough |
| `FallbackReturn.RecoveringIff` | go-ledger/internal/bot/chain_watcher.go:825-836 | RECOVERING is exactly the mode in which there was a success since; the first one always leads there, and a failure leads back to ACTIVE |
| `FallbackReturn.EnoughBringsBack` | go-ledger/internal/bot/chain_watcher.go:808-848 | Any stretch of successes that is enough in itself brings the primary back by its end |
| `FallbackReturn.NoticesAreTrue` | go-ledger/internal/bot/chain_watcher.go:730-796 | A notice tells the mode before and after, whether it changed and whether the lease was asked for |
| `FallbackReturn.ReturnIsTold` | go-ledger/internal/bot/chain_watcher.go:808-848 | A success reports a change exactly if the primary came back by it |
| `FallbackReturn.SummedUpIff` | go-ledger/internal/bot/chain_watcher.go:785-796 | A summed-up failure is told exactly if the last notice is a minute old, with all that were kept back |
| `FallbackReturn.StartedIs` | go-ledger/internal/bot/chain_watcher.go:798-848 | The start is noted with the lease and forgotten with the return |
| `FallbackHistory.ReturnsClean` | go-ledger/internal/bot/chain_watcher.go:808-848 | Whenever the primary comes back no failure of either probe is outstanding |
| `FallbackHistory.FailuresAreTold` | go-ledger/internal/bot/chain_watcher.go:785-796 | While failures are only summed up, each is told in exactly one notice or still waiting to be |
| `Calculator.TokenizeExpression` | go-ledger/internal/bot/calculator.go:70-105 | The loop over the text yields the token list, or none at the first character or number that is not allowed |
| `Calculator.ScanNumber` | go-ledger/internal/bot/calculator.go:83-101 | The end of the longest run of digits and dots, if it has at most one dot and is not a dot alone |
| `Calculator.ParseExpr` | go-ledger/internal/bot/calculator.go:107-125 | Leaves the value and the position the grammar gives, in a number nobody else holds, although numbers are updated in place |
| `Calculator.ParseTerm` | go-ledger/internal/bot/calculator.go:127-148 | The same for products and quotients, with no quotient by zero |
| `Calculator.ParseFactor` | go-ledger/internal/bot/calculator.go:150-181 | The same for signs, parentheses and numbers |
| `Calculator.CalculateExpression` | go-ledger/internal/bot/calculator.go:54-68 | The value of the whole text, or nothing |
| `CalculatorNumbers.IsNumberIff` | go-ledger/internal/bot/calculator.go:83-101 | A number is a row of digits, or two with a dot between them of which one is not empty |
| `CalculatorNumbers.WholeNumbers` | go-ledger/internal/bot/calculator.go:150-181 | One digit is worth itself, and one more digit makes ten times as much plus the digit |
| `CalculatorNumbers.WholeWithDot` | go-ledger/internal/bot/calculator.go:150-181 | A dot behind a whole number changes nothing |
| `CalculatorNumbers.FirstDecimal` | go-ledger/internal/bot/calculator.go:150-181 | The first digit behind the dot is worth a tenth of itself |
| `CalculatorNumbers.LaterDecimal` | go-ledger/internal/bot/calculator.go:150-181 | Every further digit is worth a tenth of what it would be one place before |
| `CalculatorTrees.PrintedTreeEvaluates` | go-ledger/internal/bot/calculator.go:107-181 | Any arithmetic tree printed with the fewest parentheses is read back as its exact value |
| `CalculatorTrees.FailsIffZeroDivisor` | go-ledger/internal/bot/calculator.go:142-144 | A tree has no value exactly if some divisor in it is zero |
| `CalculatorTrees.EvaluatesIffPrinted` | go-ledger/internal/bot/calculator.go:107-181 | A token list has a value exactly if it is the printing of a tree with that value |
| `CalculatorText.SpelledIsTokenized` | go-ledger/internal/bot/calculator.go:70-105 | Tokens spelled with any white space between them (some between two numbers) are tokenized back |
| `CalculatorText.SpelledTreeCalculates` | go-ledger/internal/bot/calculator.go:54-181 | A tree spelled with any white space calculates to its exact value and fails exactly if some divisor is zero |
| `CalculatorText.CalculatesExactlyTrees` | go-ledger/internal/bot/calculator.go:54-181 | A text has a value exactly if it spells a tree with that value |
| `Base58.Encode` | go-ledger/internal/chainwatcher/kafka_pending.go:236-256 | The division loop, the leading zeros and the in-place reversal give the positional base-58 text of the bytes |
| `Base58.ReverseInPlace` | go-ledger/internal/chainwatcher/kafka_pending.go:252-254 | The buffer holds its former contents back to front |
| `Base58.EncodingDecodes` | go-ledger/internal/chainwatcher/kafka_pending.go:236-256 | Positional decoding gives the bytes back, leading zero bytes included, for every byte string |
| `Base58.AddressMatches` | go-ledger/internal/bot/parser.go:51 | For any 20-byte hash and any 4 checksum bytes the 0x41 address has exactly 34 characters, starts with T and matches the bot's pattern |
| `Base58.AddressRange` | go-ledger/internal/chainwatcher/kafka_pending.go:224-234 | The numeric bound behind it: 26 * 58^33 <= 65 * 256^24 and 66 * 256^24 <= 27 * 58^33 |
| `LineDrawing.StepStaysNear` | go-ledger/internal/bot/address_validation.go:263-271 | One step moves the longer axis and stays within half a step of the ideal line, without overshooting either axis |
| `LineDrawing.DrawLine` | go-ledger/internal/bot/address_validation.go:245-273 | The centres start at one end, reach the other after exactly max(dx, dy) steps, each within half a pixel of the ideal line and next to the one before; the pixels set are exactly the squares around them |
| `BillAccumulator.Accumulator.Add` | go-ledger/internal/adminweb/server.go:2650-2692 | One record moves the totals, the three breakdowns and the rate table, and is kept if asked for |
| `BillAccumulator.SummarizeBill` | go-ledger/internal/adminweb/server.go:2608-2614 | Adding the records one by one gives the total of the list |
| `BillTotals.BreakdownsAddUp` | go-ledger/internal/adminweb/server.go:2650-2692 | For every record list the sums over subjects, actors and remarks equal the totals, and the sums over rates the gross deposits |
| `BillTotals.EntryIsOwnTotal` | go-ledger/internal/adminweb/server.go:2798-2833 | What stands under a name is the total of that name's own records |
| `BillTotals.ListedIffUsed` | go-ledger/internal/adminweb/server.go:2798-2817 | A name is listed exactly if a deposit or payout stands under it |
| `BillTotals.GrossIsNetPlusCommission` | go-ledger/internal/adminweb/server.go:2657-2671 | Gross CNY exceeds net CNY plus commission by exactly the excess of deposits in other currencies |
| `BillTotals.CnyAndUsdtBalance` | go-ledger/internal/adminweb/server.go:2752-2782 | For CNY and USDT deposits gross CNY is net CNY plus commission |
| `BillTotals.OtherCurrencyBalancesIff` | go-ledger/internal/adminweb/server.go:2752-2782 | A deposit in another currency balances exactly if it is zero or at rate one |
| `BillTotals.DepositsAndPayoutsMakeTheWhole` | go-ledger/internal/adminweb/server.go:2332-2348 | The deposit-only and payout-only accumulators add up to the whole one, in total and under every name; commission and rates are those of the deposit-only one, and the payout-only one has none |
| `BillMeaning.TotalMeans` | go-ledger/internal/adminweb/server.go:2650-2692 | For every list of records: counts, gross, net and CNY totals of deposits and payouts and the commission, each as a sum over the noted amounts, rates, currencies and results |
| `BillMeaning.RateMeans` | go-ledger/internal/adminweb/server.go:2671-2679 | What stands under a rate is the sum of the deposits noted at that rate |
| `BillMeaning.NamesMean` | go-ledger/internal/adminweb/server.go:2784-2796 | A record stands under its subject, else its actor, else the unnamed one |
| `PermissionCache.Cache.Get` | go-ledger/internal/bot/permission_capability_cache.go:44-63 | A usable entry is returned and moves to the front; one of another epoch or past its time is dropped |
| `PermissionCache.Cache.Set` | go-ledger/internal/bot/permission_capability_cache.go:65-85 | The entry comes to the front, and the least recently used ones go while there are too many |
| `PermissionCache.Cache.Evict` | go-ledger/internal/bot/permission_capability_cache.go:79-84 | The loop leaves exactly the most recently used entries the capacity allows |
| `PermissionCacheHistory.HitIsLastPut` | go-ledger/internal/bot/permission_capability_cache.go:44-95 | Over any sequence of reads, writes and clears a hit is the value last put for the user since the last clear, of the epoch asked for and not expired |
| `PermissionCacheHistory.RecentlyUsedIsKept` | go-ledger/internal/bot/permission_capability_cache.go:44-95 | Never more entries than the capacity, and a user since whose last use fewer other users were used than the capacity is still there: a read hits exactly if the value is of its epoch and not expired |

## Left out

- PostgreSQL itself: row locks, advisory locks, unique keys and one-statement atomicity are taken as given; SQL text, planning and deadlocks are not modelled.
- HTTP, Kafka and Telegram transport, JSON, rendering and drawing other than the line, and the HMAC, SHA and AES code; a checksum is any four bytes.
- Goroutine and channel wake-ups: every model is about steps, and nothing is claimed about when a step happens. In particular no liveness of rate-limiter waiters is claimed.
- Inbox: one stream; trimming of names and lanes, JSON validity, error texts, created and updated times; the upgrade of legacy broadcast states is part of the handler; update ids are taken to be at or above the stored offset unless already present, and outbox ids to grow in commit order.
- Inbox: the shared in-memory cache of private states, the lease guard's renewal timing and the overflow queue of update_admission.go; a worker's state is local to it and its lease may end at any moment.
- InboxHistory.StateIsFoldOfHandledUpdates: histories with a revoke clear in them are covered by the replay lemma, because a clear is not linearized against a handler that read before it.
- Ledger: runs in which the summary is always written and every record has a period after the epoch; what happens without them is in the if-and-only-if lemmas. Outbox cleanup is not part of the replay runs. Times of summary rows are not modelled.
- Ledger key discovery is set-based SQL over one batch; it is a transaction of the run model (LedgerRuns) and has no class method. Its completion mark is not modelled.
- RateLimiter: times start at the limiter's creation; the notify channel is not modelled.
- GapCoverage.CoverageIsKept: in these runs, as in those of `GapExact`, `GapTermination` and `FallbackGap`, completing an expand task and enqueuing its window is one step and the storage calls of the gap workers do not fail; runs in which they do are in `GapLosses`.
- GapLosses: a storage call that returns an error is taken to have had no effect, and of the two calls of an exhausted expand task only the second one can fail alone.
- Gap worker: merging and coalescing of pending tasks, retry delays, lease clocks, the watermark and the fallback head are not modelled, and the watermark is not claimed to be a contiguous frontier; the bounds of a window are taken as inclusive, and page p of a window as rows 50p to 50p+49 of a fixed list.
- GapTermination.WindowTakesBoundedSteps: starts from one window task. An expand task has its own pages and then one window, which FinishLowers covers step by step; over whole runs a late worker on an expand task enqueues its window once more (server.go:760-766), so no bound holds there without counting such workers.
- CatchupScan: the fetched transfers are recorded in page order; the sort of client.go:452-457 is not modelled. Timings, counters and the merge of scan statistics are left out.
- Dispatcher: jobs do not panic, executors accept a runner at most once, and the ready signal carries no job.
- FallbackController: times are milliseconds on one clock; leases, polling and back-off around it are not modelled.
- Calculator: only the text-to-value part; formatting the result and deciding whether a message is an expression are not modelled. Rationals are reals, and Rat.SetString is taken as decimal notation, which is what it does on the tokens that reach it.
- Base58: there is no decoder in the program; the one here follows section 4 of draft-msporny-base58. decodeUSDTCall is not modelled.
- BillAccumulator: number texts enter as parsed values and names already trimmed; the text of a rate is any function of the rate. Sorting and formatting of the statistics are not modelled.
- The permission memo of one update, the in-memory TTL cache, the worker pool's sizing, cleanup loops, metrics, permissions, configuration and the period arithmetic of ledgerperiod/period.go.
