# Lightning gateway: outgoing payments, hold invoices, outbox delivery

This project models the money-moving core of the gateway and proves what its comments promise over
whole runs: one terminal event per payment, no send without a covering hold, a stored invoice that
never contradicts LND, pending funds that always net to zero, and event streams that agree with a
plain scan of the outbox.

How it is laid out:

- `Amounts` is the millisatoshi arithmetic on `u64` and `i64`, with the two places that can wrap
  written as wrapping.
- `Payments` and `Invoices` are the event-sourced aggregates: pure commands and hydration, and the
  mutable entity classes proved against them.
- `Commits` is what each terminal writer puts into its transaction.
- `Protocol` is a step system for one payment hash. One step is one await of one actor; any number
  of send requests, LND reports, sweep ticks and settle calls run interleaved with stale copies;
  LND and Symphony answer as they like; a crash forgets all actors. A transaction draws its outbox
  sequence in one step and commits in a later one, which succeeds only if the stored log still has
  the loaded length (`PRIMARY KEY (id, sequence)`).
- `Invariant`, `Steps` and `Theorems` prove the inductive invariant (rely/guarantee style: `Core`,
  `ActorOk`, `Evolves`) and the results about every reachable state.
- `World` puts all hashes on one outbox table and one BIGSERIAL and shows that every hash of any
  run is reachable in the per-hash system; `Tickets` shows that sequences are distinct over the whole
  gateway, so that every run has its sorted table.
- `Refusals` and `SendRuns` are the two rails of a send: refused transfers leave no trace in any run,
  and what a request leaves when nobody interferes, for every answer.
- `Stores` and `App` are the handlers and sweeps as imperative code over many hashes; `RunStores`
  ties them to runs of the step system.
- `Delivery`, `Fanout`, `StatusStream` and `Subscribers` are the gRPC stream, the broadcast fanout
  and the GraphQL status stream, run against a scripted environment (what each read sees, which
  signals arrive), and the theorem that ties the status stream to runs of the gateway.

Clocks, LND's and Symphony's answers, database read results and notification signals are
parameters. Timeouts and backoff are failures that may happen at any step.

## Where code and documentation disagree

The model follows the code.

- `src/payment/repo.rs:42-48` says that a row still `initiated` past the threshold has no live HTLC
  and its hold is safe to void. The sweep does not rely on it, and it is not so: a payment can be in
  flight at LND with its row still `initiated` (`Theorems.InFlightWhileInitiated` is such a run).
  Exactly when such a row is live is `Theorems.InitiatedIsLiveIff`.
- `src/app/handle_invoice_update.rs:165-168` says that the handler is safe only because updates are
  processed serially. The proofs do not assume that: any number of handlers may run at once, and the
  length check at commit is enough.
- `src/outbox/fanout.rs:126-129` says that sequences missed while the LISTEN session was down are
  recovered by a subscriber's re-backfill. A disconnect puts nothing on the broadcast
  (`Fanout.DisconnectIsSilent`), so no subscriber is made to re-read, and the next broadcast row moves
  its cursor past what it missed: `Fanout.GapLosesStatus` is a status lost for good that way. Exactly
  when an outcome is heard is `Subscribers.OutcomeHeardIff`.
- `src/outbox/listen_connection.rs:64-66` says that LISTEN is registered before the backfill begins.
  The connection loop is spawned and not awaited; `Delivery.ListenGapLosesRow` is a row lost that way.
- `src/api/grpc/service.rs:109-111` says that comparing with the last sent sequence drops what was
  already covered. It also drops what was not: sequences are drawn before commits, so a lower one can
  become visible later and is then skipped for good (`Subscribers.OvertakingRunLosesRow`). Exactly
  when nothing is lost is `Delivery.StreamCompleteIff`.
- `src/app/send_payment.rs:150-170` fails a payment when LND's answer is lost, to release the hold.
  `Theorems.LostAnswerRun` ends with the hold released and the payment live at LND; exactly when
  that happens is `Theorems.TerminalStatesFollowLnd` and `Theorems.BadAnswerReleasesHoldIffLndTookIt`.

## Model

| member | source | states |
|---|---|---|
| Amounts.RoundUpIsCeilingExactlyWhenRoundable | src/primitives/milli_satoshi.rs:44-57 | `round_up_to_sat` is the least whole-satoshi amount not below the input if and only if the input is at most 18446744073709551000; above that it wraps below one satoshi |
| Amounts.BigintRoundTrip | src/primitives/milli_satoshi.rs:123-144 | BIGINT encode and decode are inverse, and encode refuses exactly what no BIGINT decodes to |
| Amounts.OutboxAmountReachesTheWire | src/outbox/entity.rs:205-214 | every `whole_sat() as i64` is lossless and non-negative, so the clamp never fires and the wire amount is the whole satoshis of the input |
| Amounts.FeeCapIsNearestHalfPercent | src/fees/policy.rs:27-38 | on every `u64` the cap is the larger of 10 sat and half a percent rounded to nearest with ties down; the product never saturates; it is the floor exactly up to 2100 sat |
| Amounts.FeeCapMonotone | src/fees/policy.rs:27-38 | a larger amount never has a smaller cap |
| Amounts.ReportedFeeIsCeiling | src/lnd/client.rs:359-369 | a raw fee is reported as the least whole satoshis not below it, a negative one as zero |
| Amounts.FeeWithinCap | src/lnd/client.rs:359-369 | a raw LND fee within a whole-satoshi cap is reported as its satoshi ceiling, or zero when negative, and still within the cap |
| Amounts.HoldCoversWorstCase | src/app/send_payment.rs:96-98 | for every amount the database accepts the hold is amount plus cap to the millisatoshi without overflow, and the refund for any fee within the cap is exactly what the hold has left after amount and raw fee, rounded down to a satoshi, between zero and the cap |
| Payments.DecodedAmountIsCeiling | src/app/decode.rs:45-48 | the decoded amount is the least whole satoshis not below the invoice's, exactly up to the rounding limit |
| Payments.TryNew | src/payment/entity.rs:102-134 | accepts exactly one amount source, non-zero amount and cap, non-empty invoice; which amount errors are given when; the intent carries hash, wallet, amount, cap and time unchanged |
| Payments.TryNewIntraledger | src/payment/entity.rs:146-188 | accepts if and only if some amount is given, two given amounts agree, none is zero and the invoice is not empty; the committed amount wins; the fee cap is zero; hash, wallet and time are carried unchanged |
| Payments.StateOfGrammar | src/payment/entity.rs:376-426 | on a log in the grammar hydration succeeds, keeps the log, reads header and state off the first and last event, and fee, preimage and settlement time off the Completed event, also under a later Reversed, or leaves them unset |
| Payments.ExecuteHydrates | src/payment/entity.rs:246-354 | a command's field updates are those that hydrating its one new event would make |
| Payments.CommandTable | src/payment/entity.rs:246-354 | which of the four commands run, are duplicates or are refused, from the last event of the log, and the exact event a command that runs appends |
| Payments.CommandsAgreeWithHydration | src/payment/entity.rs:246-426 | after any commands in any order, hydrating the log rebuilds every field and the log is Initiated, optional Pending, then nothing, Failed, or Completed with optional Reversed |
| Payments.PendingPushedOnce | src/payment/entity.rs:246-271 | the push in the already-pending branch is unreachable |
| Payments.Payment.TryFromEvents | src/payment/entity.rs:376-426 | the builder loop yields exactly the hydrated entity, or nothing when no Initiated event set the header |
| Payments.Payment.DoMarkPending | src/payment/entity.rs:246-271 | the mutated entity is that of the pure command, and stays what its log hydrates to |
| Payments.Payment.DoSettle | src/payment/entity.rs:279-304 | as above for settle, including duplicate and refused calls leaving it unchanged |
| Payments.Payment.DoFail | src/payment/entity.rs:311-329 | as above for fail |
| Payments.Payment.DoReverse | src/payment/entity.rs:336-354 | as above for reverse |
| Invoices.StateOfGrammar | src/invoice/entity.rs:296-347 | hydration of a log in the grammar, with state from the last event, the parked amount from the Held event and the cancel reason from the Canceled event |
| Invoices.CommandTable | src/invoice/entity.rs:187-270 | which of the four commands run, are duplicates or are refused, from the log, and the exact event a command that runs appends |
| Invoices.CommandsAgreeWithHydration | src/invoice/entity.rs:187-347 | after any commands, hydrating rebuilds every field and the log is Created followed by one of six continuations |
| Invoices.SettleFindsParkedAmount | src/app/commit_invoice.rs:38-43 | a settle runs if and only if the invoice is Held, and then the parked amount is there, so the `expect` never fails |
| Invoices.Invoice.TryFromEvents | src/invoice/entity.rs:296-347 | the builder loop yields exactly the hydrated entity |
| Invoices.Invoice.DoMarkHeld | src/invoice/entity.rs:187-206 | the mutated entity is that of the pure command and stays what its log hydrates to |
| Invoices.Invoice.DoSettle | src/invoice/entity.rs:212-223 | as above for settle |
| Invoices.Invoice.DoSettleIntraledger | src/invoice/entity.rs:232-247 | as above for the intraledger settle |
| Invoices.Invoice.DoCancel | src/invoice/entity.rs:251-270 | as above for cancel |
| Commits.SatsReachTheWire | src/outbox/entity.rs:205-214 | the satoshis a row carries are the whole satoshis of its amount, and reach the wire as such |
| Commits.PaymentWriters | src/app/commit_payment.rs:22-115 | on any stored log the two terminal writers add exactly one event and the row of the same kind and amount if the log is unfinished, and nothing otherwise |
| Commits.InlineWriters | src/app/send_payment.rs:227-326 | on a fresh payment the send path's writers add Pending, or Pending and the terminal event with one row |
| Commits.InvoiceWriters | src/app/commit_invoice.rs:18-123 | when each of held, settle and cancel writes, and which amounts its row carries, in terms of the stored log |
| Invariant.OthersStayOk | migrations/20260514000000_payments.sql:20-29 | what one in-memory actor relies on survives any step of any other actor |
| Steps.StepKeepsInv | src/app/send_payment.rs:28-221 | every step of every actor and of the surroundings keeps the invariant of stored logs, rows, LND and actors |
| Steps.RunKeepsInv | src/app/send_payment.rs:28-221 | so does every run |
| Theorems.PaymentRowsFollowTheLog | src/app/commit_payment.rs:22-115 | in every reachable state an LN payment has one Initiated row, and one terminal row exactly when its log is terminal, of the same kind and amount and with a later sequence |
| Theorems.SpendOnceAndCovered | src/app/send_payment.rs:71-171 | authorize and LND send happen at most once per hash; a send has an approved hold of exactly amount plus cap; every authorize call has a durable row that is open or has its one terminal row |
| Theorems.TerminalStatesFollowLnd | src/app/sweep_orphan_holds.rs:76-151 | Completed only with LND's preimage and fee; with a good answer and no foreign send, Failed only if LND was never called or itself failed; and without a foreign send, in every run, a failed payment is live at LND if and only if LND took the call, the answer errored or named another hash, and LND has not failed it |
| Theorems.SendReachesHolding | src/app/send_payment.rs:71-113 | a run from the empty state to an approved hold |
| Theorems.InFlightWhileInitiated | src/app/send_payment.rs:150-158 | a run to a payment in flight at LND whose stored log is still Initiated |
| Theorems.InitiatedIsLiveIff | src/payment/repo.rs:42-48 | in every run without a foreign send, a payment stored as Initiated is live at LND if and only if LND took the call and has not failed it; if it was never sent it is not |
| Theorems.BadAnswerReleasesHoldIffLndTookIt | src/app/send_payment.rs:150-190 | from any approved hold, when LND's answer is an error or names another hash the payment is failed with one row, and the hold is released under a live payment if and only if the call was taken and the payment was not failed at LND before the answer was heard |
| Theorems.LostAnswerRun | src/app/send_payment.rs:158-170 | a run from the empty state that ends that way |
| Theorems.OrphanSweepRecovers | src/app/sweep_orphan_holds.rs:60-152 | from any reachable crash state with the payment Initiated and LND finished, one failure-free pass writes LND's outcome and the second and last row |
| Theorems.ReceiveRowsHaveSixForms | src/app/handle_invoice_update.rs:169-281 | receive-side rows are, in sequence order, nothing, Held, Held Settled, Held Canceled, Canceled, or Intraledger |
| Theorems.PendingFundsConserved | src/app/commit_invoice.rs:39-118 | folding Held as plus and Settled and Canceled as minus the parked amount is never negative at any prefix, is the parked amount while Held and zero otherwise |
| Theorems.InvoiceNeverContradictsLnd | src/app/settle_hold_invoice.rs:28-71 | Settled, Canceled and SettledIntraledger logs imply LND Settled, Canceled, Canceled; Held implies LND past Open; SettleInvoice is called only after the Held event and row are committed |
| Theorems.IntraledgerIsAtomic | src/app/send_intraledger_payment.rs:92-207 | completed payment, invoice event and reporting row exist together or not at all, only after AuthorizeSpend approved exactly that amount, and authorized, reported and paid amounts agree with the invoice's committed amount rounded up |
| Refusals.TransfersWereApproved | src/app/send_intraledger_payment.rs:114-159 | in every run a transfer past AuthorizeSpend, and one that is stored, was approved for exactly its amount |
| Refusals.RefusedTransfersLeaveNoTrace | src/app/send_intraledger_payment.rs:129-153 | every run whose transfers were all declined or not answered stores, publishes and does to LND exactly what some run without any transfer does |
| SendRuns.RequestStoresIntent | src/app/send_payment.rs:52-90 | on the LN rail, alone: the intent of the invoice's amount rounded up is stored with its Initiated row exactly when the hash is new and the request valid; otherwise nothing is stored or published |
| SendRuns.AuthorizeAnswered | src/app/send_payment.rs:92-147 | a hold of exactly amount plus cap is asked for; approved, the request goes on; declined or unanswered, the payment is Failed for exactly that reason with its row and LND is never called |
| SendRuns.GoodAnswerIsStored | src/app/send_payment.rs:191-220 | from any approved hold, LND's good answer is stored as it is: Completed with LND's preimage and fee, Failed with LND's reason, each with one row, Pending without one, and nothing for a success without its preimage |
| SendRuns.SendRunsToTheEnd | src/app/send_payment.rs:28-221 | from any reachable state with a new hash to LND's outcome: the exact log, rows and hold, the hold being the requested amount rounded up plus its cap |
| SendRuns.TransferRuns | src/app/send_intraledger_payment.rs:31-217 | a transfer alone, for every guard, answer and failure: the exact calls, log, invoice event, row and LND state |
| SendRuns.TransferCompletesRun | src/app/send_intraledger_payment.rs:31-217 | a run from the empty state to a completed transfer |
| SendRuns.CrashThenSweepsRecover | src/app/sweep_orphan_holds.rs:60-152 | after a crash at the end of any run, one pass of either sweep finishes what LND has finished |
| Theorems.StatusAgreesWithOutbox | src/api/graphql/subscription.rs:384-423 | the status from the aggregate is that of the last receive-side row; an open invoice has none; only the last is terminal |
| Statuses.InitialStatusReadsTheLog | src/api/graphql/subscription.rs:384-402 | the first answer from the stored log and the clock: EXPIRED for an unknown hash or an open invoice at or past its expiry, PENDING before it or while Held, then the outcome |
| Theorems.ReconcileRecovers | src/app/reconcile_held_invoice.rs:15-66 | from any reachable crash state with the invoice Held, one failure-free reconcile makes it terminal with LND's outcome and exactly one terminal row |
| World.EveryHashIsReachable | migrations/20260507100100_outbox_events.sql:19-29 | in every run of all hashes on one table and one sequence, each hash's part is reachable alone and its rows are what the table holds for it |
| World.ProcessCrashKeepsStored | src/app/sweep_orphan_holds.rs:1-17 | a crash of the process leaves no actor of any hash and everything stored as it was |
| World.CommitsOvertake | src/outbox/publisher.rs:29-61 | a run whose outbox commits a higher sequence before a lower one |
| Tickets.OutboxSequencesDistinct | migrations/20260507100100_outbox_events.sql:19-20 | in every run of all hashes, committed sequences are distinct and none is held by an open transaction, because one counter hands them out before the commits |
| Tickets.RunHasTable | src/outbox/publisher.rs:107-147 | every run has its sorted table: strictly ascending and exactly the committed rows |
| Stores.UpdateIsStored | src/app/handle_payment_update.rs:43-107 | one update of an unfinished payment: a success with its preimage and a failure are stored literally with their row, anything else stores nothing |
| Stores.ReplayIsItsFirstVerdict | src/app/handle_payment_update.rs:23-109 | any list of updates of a hash, with any repetition, in-flight ones anywhere and contradictions later, leaves the log and outbox of its first terminal update alone |
| Stores.AgreeingUpdatesNeverContradict | src/app/handle_payment_update.rs:72-107 | if the terminal updates agree, none of them is ever refused as a contradiction |
| Stores.OrphanOutcome | src/app/sweep_orphan_holds.rs:60-152 | one reconcile gives a stranded payment exactly the event and row of LND's terminal outcome when there is one and the commit goes through, and changes no other payment and no invoice |
| Stores.OrphanSweepIsPointwise | src/app/sweep_orphan_holds.rs:37-54 | a sweep over any list with any repetition does to each listed payment what a lone reconcile does, event and row, and nothing to the others |
| Stores.ReconcileOutcome | src/app/reconcile_held_invoice.rs:15-66 | with any fault, a held invoice ends terminal with LND's outcome, one row and the parked amount released exactly when nothing fails before the commit; otherwise log and rows are unchanged |
| Stores.ReconcileIsLocal | src/app/reconcile_held_invoice.rs:15-66 | what a reconcile does to a hash depends only on that hash's log, rows and LND state |
| Stores.SweepIsPointwise | src/job/invoice_reconciliation_sweep.rs:60-79 | a sweep over distinct hashes does to each what a lone reconcile would and leaves all others alone, whatever fails in between |
| Stores.SweepHeld | src/job/invoice_reconciliation_sweep.rs:60-79 | exactly which invoices are still held after a sweep |
| Stores.CleanSweepCounts | src/job/invoice_reconciliation_sweep.rs:60-79 | without faults a sweep over k held invoices leaves k fewer held |
| Stores.HandleInvoiceExtends | src/app/handle_invoice_update.rs:169-236 | one update of any kind with any fault only moves the invoice forward, each new event with its own row |
| Stores.HandleInvoiceLeavesOthers | src/app/handle_invoice_update.rs:169-236 | no other hash is touched |
| Stores.InvoiceReplayAddsOneHeldOneClosing | src/app/handle_invoice_update.rs:198-235 | for any list of updates of one hash, with any repetition, order, faults and LND states in between, at most one HtlcHeld and one closing row are added, which releases exactly what was parked; a finished invoice gets none |
| Stores.AcceptedSettlesAtOnce | src/app/handle_invoice_update.rs:198-216 | an Accepted report on an open invoice that meets no fault leaves the Held and Settled rows of that amount and the invoice settled at LND |
| Stores.CanceledReportCloses | src/app/handle_invoice_update.rs:227-235 | a Canceled report closes an open invoice releasing nothing or a held one releasing what was parked |
| RunStores.RunStoreIsOk | src/app/handle_payment_update.rs:23-38 | the handlers' precondition holds after every run of the gateway |
| RunStores.HeldResolves | src/app/reconcile_held_invoice.rs:38-66 | after every run an invoice stored as Held is past Open at LND, so a reconcile without faults resolves it |
| RunStores.CleanSweepAfterRun | src/job/invoice_reconciliation_sweep.rs:60-79 | after every run a failure-free sweep takes every listed held invoice out of Held |
| RunStores.ReconcileIsSoloRun | src/app/reconcile_held_invoice.rs:15-66 | after every run, for every fault and at any time, the reconcile on stores and the solo run of its actor in the step system end with the same log, LND state and rows |
| RunStores.ReconcileOrphanIsSoloRun | src/app/sweep_orphan_holds.rs:60-152 | the same for the orphan reconcile, whatever the lookup gives and whether or not the transaction is served |
| RunStores.HandleInvoiceIsSoloRun | src/app/handle_invoice_update.rs:169-281 | the same for an invoice update with LND's present report, for every fault |
| RunStores.HandleUpdateIsSoloRun | src/app/handle_payment_update.rs:23-109 | the same for a payment update with LND's present report, with or without its preimage |
| App.App.CommitCompleted | src/app/commit_payment.rs:22-68 | from a possibly stale copy: finishes the stored log and publishes its row if the copy is current, else nothing; the reply tells committed, duplicate, contradiction and lost race apart |
| App.App.CommitFailed | src/app/commit_payment.rs:73-115 | as above for failure |
| App.App.HandlePaymentUpdate | src/app/handle_payment_update.rs:23-109 | the store becomes that of the update's verdict; an error is surfaced exactly for contradictions |
| App.App.ReconcileOrphanHold | src/app/sweep_orphan_holds.rs:60-152 | finishes a stranded payment with LND's verdict and leaves anything else alone |
| App.App.SweepOrphanHolds | src/app/sweep_orphan_holds.rs:37-54 | the store is that of reconciling each listed payment; exactly the listed ones with a terminal verdict leave Initiated, and the returned count is their number |
| App.App.CommitSettle | src/app/commit_invoice.rs:18-70 | closes a Held invoice releasing the parked amount, from a current copy, else nothing; the reply tells committed, duplicate, contradiction and lost transaction apart |
| App.App.CommitCancel | src/app/commit_invoice.rs:72-123 | cancels an Open invoice releasing nothing or a Held one releasing the parked amount, else nothing; the same four replies |
| App.App.ReconcileHeldInvoice | src/app/reconcile_held_invoice.rs:15-66 | the store is that of one reconcile under the given fault; committed exactly when the invoice was resolved, with RPC failures, lost transactions and skipped calls told apart |
| App.App.ListHeld | src/invoice/repo.rs:90-101 | min(limit, n) distinct held hashes |
| App.App.ReconciliationSweep | src/job/invoice_reconciliation_sweep.rs:60-79 | each listed hash is reconciled; without faults n held become n - min(n, limit) |
| App.App.TransitionToHeld | src/app/handle_invoice_update.rs:238-281 | the first Accepted parks its amount with one row; a later one is a duplicate and changes nothing; a contradiction and a lost transaction are told apart |
| App.App.HandleInvoiceUpdate | src/app/handle_invoice_update.rs:169-236 | what each LND invoice state does to the store, with the settle after an Accepted; an error is surfaced exactly for contradictions and lost transactions, never for the settle |
| Delivery.DeliveredRises | src/api/grpc/service.rs:102-295 | always, whatever reads see and the channel signals, the stream is strictly ascending and above the start |
| Delivery.SentIffOfferedFirst | src/api/grpc/service.rs:168-215 | a row above the start is sent if and only if the first read that offers anything at or above it offers it |
| Delivery.StreamCompleteIff | src/api/grpc/service.rs:102-295 | if reads return only rows of the table, the stream is the whole table above the start if and only if that holds for every such row |
| Delivery.CapEndsTheStream | src/api/grpc/service.rs:216-246 | a re-backfill of more than 100000 rows or whose count fails ends the stream; one within the cap is paged |
| Delivery.LateRowNeverDelivered | src/api/grpc/service.rs:171-173 | once a read has offered something above a row, and none up to then offered it, the loop never sends it, however often it is notified |
| Delivery.OvertakenRowIsLost | src/api/grpc/service.rs:171-173 | a script with rows visible out of order on which the loop loses a row that is notified and readable |
| Delivery.ListenGapLosesRow | src/outbox/listen_connection.rs:69-82 | a script whose LISTEN session comes up after the last page on which the loop loses a row |
| Delivery.ResumedStreamsJoin | src/api/grpc/service.rs:102-107 | cutting a stream after any number of rows and subscribing again from the last sequence: together always ascending without repetition, and the table above the first start if both channels lose nothing |
| Delivery.Backfill | src/api/grpc/service.rs:114-153 | sends exactly the rows of its pages as far as the subscriber takes them, and goes on exactly when it reached an empty page |
| Delivery.Notify | src/api/grpc/service.rs:168-215 | sends the notified row exactly when it is above the cursor, readable and still taken |
| Delivery.FollowSignals | src/api/grpc/service.rs:160-293 | sends exactly the live rows of the signals, as far as the subscriber takes them |
| Delivery.SubscriptionLoop | src/api/grpc/service.rs:102-295 | sends exactly the first rows of `Delivered` that the subscriber takes; always ascending and above the start; a prefix of the scan when the channel loses nothing, and equal to it once everything was notified |
| Delivery.Subscribe | src/api/grpc/service.rs:70-95 | fails exactly when the count fails, is refused exactly when the backlog is above the cap, and otherwise gives the loop's stream from the requested sequence |
| Delivery.StartIsHonouredExactlyBelowI64 | src/api/grpc/service.rs:78-91 | the `as i64` cast of the start is right if and only if it is below 2^63; from there on the whole table is replayed |
| StatusStream.EmitForEvent | src/api/graphql/subscription.rs:306-338 | one row tells its status unless it repeats the last one, and stops exactly when the story is finished or the subscriber is gone |
| StatusStream.DrainBackfill | src/api/graphql/subscription.rs:245-301 | on any reads: tells exactly the rows of its pages, or exactly one error when more than 100000 rows are above the cursor, and goes on exactly when it reached an empty page with the story unfinished |
| StatusStream.Follow | src/api/graphql/subscription.rs:176-231 | on any feed: tells exactly the rows that pass its cursor, and the error if a recovery meets the cap |
| StatusStream.RunStatusStream | src/api/graphql/subscription.rs:111-232 | on any reads and any feed, fresh or resumed, the payloads are exactly those of `StreamStory` as far as the subscriber takes them; the first is read off the stored log and the clock, and an open invoice past its expiry ends a resumed stream with EXPIRED; at most PENDING and then one of PAID, EXPIRED or an error |
| StatusStream.FedPassTells | src/api/graphql/subscription.rs:176-231 | for every lag pattern of a feed that loses nothing, the live loop tells what a plain pass over the rows above its start tells, and meets no cap |
| StatusStream.FreshStoryIsPlainPass | src/api/graphql/subscription.rs:126-147 | then a fresh subscriber of a waiting invoice hears PENDING and a plain pass over the whole table, also when a lag rescans from cursor 0 |
| StatusStream.ResumedStoryIsPlainPass | src/api/graphql/subscription.rs:148-188 | then a resumed one hears a plain pass above its resume point, completed by the aggregate's status if that is terminal after the gap-fill |
| StatusStream.StatusHeardIffOfferedFirst | src/api/graphql/subscription.rs:190-231 | on any feed, the status of the row that ends an invoice is heard if and only if the first receive or page that offers anything at or above that row offers it |
| Fanout.IngestLoop | src/outbox/fanout.rs:84-144 | broadcasts exactly the rows that are notified and read, in that order |
| Fanout.BroadcastCompleteIff | src/outbox/fanout.rs:84-144 | the broadcast is the whole table above its start if and only if each such row was both notified and read |
| Fanout.DisconnectIsSilent | src/outbox/fanout.rs:126-132 | a lost LISTEN session changes nothing on the broadcast |
| Fanout.ReceivesInOrder | src/outbox/fanout.rs:75-82 | a receiver the buffer never overruns hears every row it has not heard, in order, and nothing else |
| Fanout.OverrunMovesToOldestKept | src/outbox/fanout.rs:75-82 | one it overruns gets a lag mark and is moved to the oldest row kept |
| Fanout.BufferedBroadcastFeeds | src/outbox/fanout.rs:75-82 | any receiver schedule on a buffer of any capacity over a complete broadcast is a feed that loses nothing, if recovery succeeds where the receiver lags, from the cursor it has then |
| Fanout.IngestedBroadcastFeeds | src/outbox/fanout.rs:84-144 | the same from the signals of the ingest loop |
| Fanout.GapLosesStatus | src/outbox/fanout.rs:126-132 | a terminal row committed while the LISTEN session is down: the subscriber hears PENDING only, also after a later lag; a lag before the next row would have recovered it |
| Subscribers.ReplayAgreesWithAggregate | src/api/graphql/subscription.rs:384-423 | in every run a pass over the run's sorted table ends on the aggregate's status and says nothing of an open invoice |
| Subscribers.WaitingInvoiceIsSilent | src/api/graphql/subscription.rs:119-147 | in every run, rows committed before an aggregate read of PENDING tell a client that heard PENDING nothing new, also when a lag makes it rescan from cursor 0 |
| Subscribers.CursorZeroIsTheStart | src/api/graphql/subscription.rs:124 | every committed row has a positive sequence, so cursor 0 skips none |
| Subscribers.PassTellsTheStory | src/api/graphql/subscription.rs:384-423 | told to someone who heard PENDING, a pass from cursor 0 over the run's table adds exactly the terminal status the aggregate has reached |
| Subscribers.ServeFresh | src/api/graphql/subscription.rs:111-232 | end to end, from commits through ingest, bounded buffer and stream: exactly the stream's story, its first payload read off the stored log; the terminal status at once, or PENDING and then exactly the terminal status the aggregate reaches, for any capacity, schedule and lag whose recovery the cap does not refuse |
| Subscribers.OutcomeHeardIff | src/api/graphql/subscription.rs:176-231 | in every run that has ended an invoice, a client that heard PENDING hears the outcome if and only if the first receive or page offering anything at or above the ending row offers it, and then, unless the cap refuses a recovery, has heard the whole story |
| Subscribers.ServeResumed | src/api/graphql/subscription.rs:148-231 | end to end for a resumed subscriber: exactly the stream's story; it ends on the aggregate's status if that is terminal after the gap-fill, and otherwise, joined with what was told up to the resume point, ends on the aggregate's status once caught up |
| Subscribers.OvertakingRunLosesRow | src/api/grpc/service.rs:171-173 | a run of the gateway with its table and a subscription on it that never gets the overtaken row |

## Left out

- Symphony's journal: the intraledger journal is posted before the local transaction, so results are stated over the gateway's log, its outbox and LND only.
- BOLT11 parsing, signatures, SHA-256, hex, UUID, JSON: the decoded hash and amount are inputs, with amounts whose rounding fits `u64`.
- Route hops, destinations, timestamps of rows, external ids, cancel-reason strings and trace contexts in `gateway_metadata`: a row keeps the fields that carry money or identity.
- The preimage and payment request inside a PAID status payload: only the status is modelled.
- Wallet ownership, invoice creation beyond its log entry, expiry coercion, the listener dispatcher and its active set: they would only add easy members.
- Backoff, send timeouts and the 45-second lookup timeout: each is a failure that may happen at the step concerned.
- connection_loop: sessions, notifications and disconnect marks are inputs of the delivery methods; reconnect timing is not modelled.
- Foreign sends: when another client of the same LND node pays the hash, LND's state says nothing about this gateway's call, and the clauses on Failed do not apply.
- Event-name tables, gRPC and GraphQL error mapping, scalars: finite tables.
- Liveness when LND reports NotFound or InFlight for ever: the code leaves such rows alone on purpose.
- Concurrency in `App`: its methods run one after another; interleaving, stale copies and crashes are the subject of `Protocol`, whose actors are values and not objects.
- Delivery.SubscriptionLoop: gap-freedom is not promised outright, because it does not hold of the code; Delivery.StreamCompleteIff is the exact condition, and in-order visibility with a timely LISTEN session is shown sufficient.
- StatusStream.RunStatusStream: agreement with a plain pass over the table is not promised outright, because it does not hold of the code; StatusStream.StatusHeardIffOfferedFirst is the exact condition for an outcome, and a feed that loses nothing is shown sufficient.
- settle_hold_invoice: it branches as reconcile_held_invoice does, so one method stands for both.
