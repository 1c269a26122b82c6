# A verified model of the payment processor's ledger

The service accepts deposits and pays withdrawals on TON. This project models its core and proves what the
core is for: no request is paid twice, every emitted message is accounted for once, deposits are emptied one withdrawal
at a time, and recorded amounts agree with the chain. Where that fails, it says exactly when.

| file | subject |
|---|---|
| `Base.dfy`, `Uuids.dfy`, `Runs.dfy` | shared values; the spellings of a UUID; finite runs |
| `Ledger.dfy` | the tables and what each repository call does to them, as functions |
| `LedgerLaws.dfy` | laws of the tables over any history of calls: rows only move forward, confirmations are invisible |
| `Repository.dfy` | the repository as a mutable object, each call proved equal to its function |
| `Payments.dfy`, `PaymentSafety.dfy`, `PaymentWide.dfy`, `PaymentRuns.dfy` | the external-withdrawal protocol as a state machine, its invariant, whole runs |
| `PaymentGaps.dfy` | the price of passing a block over |
| `Cells.dfy`, `Codec.dfy` | cells, comments, jetton transfers and proxy messages, printed and read back |
| `Batch.dfy`, `Reconciliation.dfy`, `BatchPayments.dfy` | building a batch, recovering its outcome, and how that feeds the payment runs |
| `BlockApplication.dfy`, `BlockEffects.dfy` | applying a block: order independence, at most once, what is accepted and its exact effect |
| `TaskQueries.dfy`, `BatchQueries.dfy` | the queries that pick internal withdrawals, as relational algebra, against a per-deposit rule; what the builder relies on follows from the query |
| `InternalRuns.dfy`, `InternalSafety.dfy`, `InternalScan.dfy`, `InternalTheorems.dfy` | internal withdrawals over whole runs |
| `InternalThreshold.dfy`, `InternalForgeries.dfy` | how much time may be lost on the internal side; what strangers' requests do |
| `WalletScan.dfy`, `BlockScan.dfy` | reading the TON wallets' transactions, and how all that is read in a block feeds the internal runs |
| `WholeBlocks.dfy` | when the tables accept a whole scanned block |
| `JettonIncome.dfy` | jetton deposits: announced and inferred income |
| `Shards.dfy`, `ShardWalk.dfy`, `SavedBlocks.dfy` | shard prefixes, splitting, the backwards walk of the shard tracker, the greatest saved number |
| `Service.dfy` | service withdrawals over whole runs |

`dafny verify dfyconfig.toml` checks all of it.

## How the system is modelled

The tables are state; every repository call, processor tick and scanned block is a step; the chain is an environment that
chooses its steps freely within these rules, which the theorems assume:

- An external message to the highload wallet runs at most once and in no block generated after its TTL. Blocks have whole
  seconds as generation times, at least `spacing` seconds apart; `spacing` is a parameter and may be zero.
- A TON deposit's message may run again and again until its TTL, whenever the deposit has TON, because the destroyed wallet
  forgets its seqno. This holds for internal TON withdrawals and for the jettons of service withdrawals alike.
- Under one memo, what leaves a deposit leaves at a logical time no earlier than that of the income the row was created
  for, and later departures have later times.
- Anyone may send a transfer request to a deposit's jetton wallet. TEP-74 makes it fail unless it comes from the owner.
- The scanner may pass any block over (see below) and save later ones. In the payment runs it saves blocks in any order, so
  that a gap may also be closed again, as it is within a walk of the tracker; in the internal runs it saves them in
  ascending order. The theorems on internal runs are stated for runs whose gaps hold nothing of ours.
- Deposits have distinct subwallets, hence distinct proxies. The service's counter provides this; the schema makes
  `subwallet_id` unique for TON wallets only (`deploy/db/01_init.up.sql:7-25`).
- A block's transactions are sorted by logical time; two transactions are two records of the chain.
- A comment names a row by the UUID it spells. `uuid.FromString` of gofrs/uuid v4.0.0 (`go.mod:7`, not part of this
  repository) reads 32 digits of either case, plain or with dashes, each also in braces or as a URN.
- The address book is a fixed finite map; derived addresses and message hashes are injective; UUIDs are fresh.
- Whether a transaction succeeded is given with the transaction. In the source the test is a stub that always says yes
  (`core/block_scanner.go:254-288`); the model takes it as its callers intend it.
- A failing lite-server call, SQL statement or commit ends the tick of a processor or the process; both are crash steps. In
  the scanner it ends the processing of the block, which is passed over.
- The `processing` and `processed` flags are the ones the statements update, not the `status` column of the schema.
- Words of the shard arithmetic are lists of bits, most significant first.

Where code and documentation or comments differ, the model follows the code:

- `technical_notes.md:154` has expired withdrawals fail that are not found in the blockchain, and `technical_notes.md:166-172`
  saves every block before the next. But a block that cannot be read, announced or saved is only logged
  (`core/block_scanner.go:85-96`), later blocks are saved, and a restart goes on from the greatest saved number, so it is
  never scanned again. A payment in it stays unknown to the service, and its request is paid again with no delay needed.
  From every reachable state, as long as updates are harmless and no further payment is hidden, no request is paid twice
  if and only if no block that was passed over holds a payment of ours (`PaymentGaps.SkipExact`, with the run
  `PaymentGaps.SkippedBlockPaysTwice`). All other theorems on payments are therefore stated for runs that give up no such
  payment.
- Expiry reads the clock again after the sync check. With the cutoff as written, every such run is free of double payments
  if and only if no more time passes between the two than lies between two blocks, or blocks are more than 65 seconds apart
  (`PaymentRuns.SafeIff`). What a single update may do is exact, too: it keeps the protocol's invariant if and only if no
  row it fails is of a message that is out and that the next block can still run (`PaymentSafety.ExpireExact`).
- A TON withdrawal's real TTL may lie a little after the recorded one (`core/withdrawal_processor.go:530-531`). The scanner
  always accepts its next block if and only if both delays together do not exceed the spacing
  (`InternalThreshold.AcceptingIffWithinSpacing`).
- `threat_model.md:39-43` promises a check of the sender. `core/block_scanner.go:1017-1038` does not look at it: a
  stranger's failed request is read as a failed withdrawal of ours. One with a comment that is no UUID makes the scanner
  pass its block over, with all that is in it (`InternalForgeries.OneRequestHidesBlock`); one that repeats a finished memo,
  however spelled, fails a finished row, and can lead to two withdrawals of a deposit at once
  (`InternalForgeries.TwoInFlight`). The theorems on internal runs are therefore stated for runs whose saved blocks hold no
  such request, and `InternalTheorems.InvariantIffUnforged` proves that to be exact.
- The tracker pushes the blocks of one walk newest first, while `technical_notes.md:156-172` speaks of the following block
  (`ShardWalk.NewestFirst`), so the greatest saved number runs ahead of the saved blocks during a walk
  (`SavedBlocks.GapDuringWalk`).
- The comment at `core/shard_tracker.go:43` allows up to 40 seconds between blocks; nothing enforces a bound from below.
- A comment at `core/block_scanner.go:956` wants transfers from our own wallets not to count as unknown. They do:
  the incoming message of a receipt is never a transfer request, so each receipt is unknown and is recorded in full
  (`JettonIncome.RecordMissesExactly`).
- The innermost task query skips failed rows, the comparison around it does not (`TaskQueries.JettonQueryExact`).
- A service withdrawal of jettons is not sent once but at most as often as its deposit is funded until the TTL
  (`Service.RunsUntilTtl`, `Service.RunsNeedFunding`).

## Model

| member | source | states |
|---|---|---|
| PaymentRuns.NoDoublePayment | core/withdrawal_processor.go:75-127 | in every run of creating, selecting, persisting, sending, crashing, mining, scanning in any order and harmless expiring, each request has at most one payment on chain, unless expiry gave up a payment that lies in a gap |
| PaymentRuns.NoDoublePaymentWhenInSync | core/withdrawal_processor.go:451-467 | the cutoff as written makes every update harmless in every run in which the sync test still holds at the update |
| PaymentRuns.SafeIff | db/repository.go:477-530 | over all realistic runs with a given least block spacing that give up no payment in a gap, allowing a delay up to delta between check and update, none pays twice if and only if delta is at most the spacing, or the spacing exceeds lifetime plus allowed lag |
| PaymentRuns.SafeWithinSpacing | core/withdrawal_processor.go:451-467 | a delay of at most the spacing makes every update harmless in every run, realistic or not |
| PaymentRuns.SafeWhenWide | core/withdrawal_processor.go:581-599 | with such a spacing no run that gives up no payment in a gap pays twice, whatever else expiry does: a round that starts in sync starts when every earlier message is dead or executed |
| PaymentRuns.DoublePaymentRun | core/withdrawal_processor.go:451-467 | for every other spacing a complete run without gaps, started from a saved block and with TTLs built from the clock, that loses one nanosecond more and pays a request twice |
| PaymentGaps.SkipExact | core/block_scanner.go:85-96 | from every reachable state, over all continuations with harmless updates that hide no further payment: no request is paid twice if and only if no block passed over so far holds a payment of ours |
| PaymentGaps.PayAgain | db/repository.go:447-474 | a payment in a gap can always be followed, with no other fault and no delay, by a second one: everything open expires, and rounds over the oldest open requests reach the request again |
| PaymentGaps.SkippedBlockPaysTwice | core/block_scanner.go:85-96 | for every spacing a complete realistic run without any delay that passes one block over and pays twice |
| PaymentSafety.ExpireExact | db/repository.go:488-529 | in a reachable state an update keeps the protocol's invariant if and only if no stale row is of a message that is out and can still run, and gives up no payment if and only if no stale row's payment lies in a gap |
| PaymentRuns.StaleRowNeverRan | models/models.go:294-296 | in sync, a stale row's message is past its TTL and ran in no block or in a gap |
| PaymentRuns.NeverRunsForever | db/repository.go:477-530 | such a message runs in no continuation of the run |
| PaymentRuns.TablesMatchChain | db/repository.go:353-408 | in every reachable state: processing iff exactly one non-failed row, processed iff that row is processed and then paid, exactly once if no payment was given up, no row failed and processed, the external events of every block after the saved ones accepted |
| PaymentSafety.KeepsPersist | db/withdrawal-repository.go:65-101 | persisting a batch before it is sent keeps the invariant |
| PaymentSafety.KeepsScan | db/repository.go:353-408 | payments and failures of a block bring rows and requests in line with what the chain paid, and keep the invariant |
| PaymentSafety.KeepsExpire | db/repository.go:488-529 | failing stale rows and re-opening their requests keeps the invariant when nothing is exposed |
| PaymentSafety.ScanAccepted | db/repository.go:353-408 | the reconciled external events of a block not reached before are accepted; those of a gap if and only if none of its rows has failed in the meantime |
| BatchPayments.BlockIsReconciled | core/block_scanner.go:664-743 | the events of all batches executed in a block are exactly what the payment protocol expects of its scan |
| Batch.Balances.Decrease | core/withdrawal_processor.go:239-254 | jetton and gas are taken together or nothing is; true exactly when not covered |
| Batch.AddService | core/withdrawal_processor.go:140-168 | every service task gets a message, a rejection or found no gas, each built for its own task, in order; the loop keeps budget, identity keys and meaning |
| Batch.AddInternal | core/withdrawal_processor.go:170-195 | every internal task gets a message, is below its cutoff, found no gas, or the batch is full; each message and plan is built for its own task with a memo and query id of its own draw, so that with fresh UUIDs no memo occurs twice; budget and keys are kept |
| Batch.AddExternal | core/withdrawal_processor.go:197-217 | every external task gets a message, goes to an address of ours, is not affordable, or the batch is full; each message is its own task's, in order; budget and keys are kept |
| Batch.BuildWithdrawalMessages | core/withdrawal_processor.go:129-219 | at most 251 messages with pairwise distinct keys; what is left is the snapshot minus all reservations and not negative; no currency is spent beyond the snapshot; rejected tasks stay unfilled; no service, internal or external task is passed over while there is gas, balance and room; the three lists name, in order, which task got which message; no two internal tasks share a memo if UUIDs are fresh; who is served and what is left are exactly those of serving the three lists in turn, gas included for tasks with nothing to send |
| Batch.ServedExact | core/withdrawal_processor.go:143-217 | turn by turn: a message goes to a claim for one exactly when the balances left by all earlier claims cover it and the batch has room |
| Batch.QueryIdsAreOwn | core/withdrawal.go:111-142 | the request inside each internal message carries the query id drawn for its task |
| BatchQueries.OfferedIs | db/withdrawal-repository.go:341-359 | an offered task is of a jetton deposit of the tables; if addresses are excluded, its owner is known and none of them; a deposit is offered once |
| BatchQueries.BuilderMayAsk | core/withdrawal_processor.go:170-195 | for a world that agrees with the wallets, whatever the query answers meets what the builder requires: known deposits, distinct proxies, none of an address already used |
| Batch.ServiceMeaning | core/withdrawal_processor.go:291-441 | each service message is one the scanner yields nothing for, keyed by the deposit; a rejection leaves the task unfilled |
| Batch.InternalMeaning | core/withdrawal_processor.go:256-289 | an internal message exists exactly above the cutoff, and its inner transfer carries the balance to the hot wallet under the memo |
| Batch.ExternalMeaning | core/withdrawal.go:73-109 | an external message reads back as the task's destination, amount and comment |
| Batch.ServiceContents | core/withdrawal_processor.go:314-441 | a service message exists exactly when the balance in question is positive and no jetton wallet of ours would be emptied; it carries that balance and the memo to the hot wallet, or fills the deposit, and exactly that is recorded |
| Batch.InternalContents | core/withdrawal.go:111-142 | the wrapped message and request, field by field: to the deposit in workchain 0 with bounce, whole balance, hot wallet in workchain 0 as destination and response, forward amount, memo |
| Batch.ExternalContents | core/withdrawal.go:86-109 | the jetton request, field by field: query id as 64 bits, amount, destination and hot wallet as response in workchain 0, forward amount, comment |
| Codec.CommentRoundTrip | core/helper.go:8-22 | a comment of any length reads back as written |
| Codec.TransferRoundTrip | core/withdrawal.go:167-195 | every field of a built transfer is parsed back, both addresses in workchain 0, with the comment inline or referenced, and every cell fits; the scanner keeps amount, destination and comment |
| Codec.TransferRead | core/block_scanner.go:530-557 | any request laid out as in TEP-74 is parsed field by field: absent addresses or any workchain, with or without a custom payload, comment inline or referenced |
| Codec.MessageRead | core/block_scanner.go:723-777 | any wrapped message without a state init is parsed as laid out, whatever fees, times and other currencies |
| Cells.LoadStdExact | core/block_scanner.go:530-557 | an address is read exactly from its standard form without anycast or from the absent form |
| Codec.CommentRead | core/helper.go:8-20 | a comment cut into cells anyhow is read; a body that does not begin with 32 zero bits has none |
| Cells.AddrLayout | core/withdrawal.go:167-183 | a printed address is the standard tag without anycast, eight zero bits of workchain, then the address |
| Codec.NotificationRoundTrip | core/block_scanner.go:504-528 | amount, sender and comment of a notification laid out as in TEP-74 are read, whatever the query id |
| Codec.CommentIsNotTransfer | core/withdrawal_processor.go:684-707 | no comment body, hence no TON payment or filling, decodes as a transfer |
| Codec.ProxyRoundTrip | core/withdrawal.go:144-165 | a message for a proxy contains the wrapped message, its destination in workchain 0, and never decodes as a transfer itself |
| Codec.ProxiedTransferRoundTrip | core/withdrawal.go:111-142 | a transfer wrapped for a proxy survives both layers |
| Reconciliation.ParseExternalMessage | core/block_scanner.go:578-626 | valid exactly when all messages have standard keys and no two agree; then the set of keys |
| Reconciliation.FailedWithdrawals | core/block_scanner.go:628-637 | one failure per unknown address that went in and did not come out, in any map order |
| Reconciliation.ProcessHotExternalIn | core/block_scanner.go:664-743 | succeeds exactly on a valid batch whose emitted messages can all be read; then their events and the failures |
| Reconciliation.BatchReconciliation | core/block_scanner.go:664-777 | for any emitted subset of a built batch: one non-failed event per emitted external task, one failed per other, one confirmation per emitted internal task, nothing for service messages; each event bears the times of its message |
| Reconciliation.BuiltBatchReconciliation | core/withdrawal_processor.go:256-289 | for a batch the builder returned, with fresh UUIDs, no two confirmations share a memo |
| Reconciliation.OutReadExact | core/block_scanner.go:682-777 | exactly which messages of the hot wallet can be read, by destination kind and payload |
| Reconciliation.PaymentsDistinct | technical_notes.md:237-244 | no two payments of a batch share a destination |
| WalletScan.ProcessWithdrawal | core/block_scanner.go:840-880 | each message of a deposit to the hot wallet, in order, as a confirmation and a withdrawal; all others skipped; fails exactly on an external out message |
| WalletScan.ProcessTonDeposit | core/block_scanner.go:356-402 | succeeds exactly if every transaction is readable; then all withdrawals in order, and the payments of strangers |
| WalletScan.PaymentsExact | core/block_scanner.go:882-919 | the incomes recorded of a TON deposit are, in order, one for each successful message whose sender the book does not know, with its times, sender, amount and comment, and none else |
| WalletScan.PaymentsAmount | core/block_scanner.go:896-917 | together they are what such senders sent |
| WalletScan.DeparturesExact | core/block_scanner.go:840-880 | the departures are, in order, exactly the messages to a hot wallet of the book in successful transactions that an external message started |
| WalletScan.DeparturesRead | core/block_scanner.go:864-878 | each is a confirmation and a withdrawal with its own times, amount and comment |
| WalletScan.HotExact | core/block_scanner.go:779-838 | a message from a TON deposit, or a notification of a deposit owner's jettons, is read as one income with its times, sender, amount and comment; other known senders yield nothing; a stranger's excess confirms its query |
| WalletScan.ExcessExact | core/block_scanner.go:559-576 | a body is an excess of a query exactly when it begins with the opcode and the query id |
| BlockScan.JettonCovers | core/block_scanner.go:1000-1055 | what is read in a jetton deposit's transactions is exactly the owner's departures and the strangers' requests on record, each once |
| BlockScan.BatchCovers | core/block_scanner.go:745-777 | the confirmations of a batch are exactly the memos whose messages went out |
| BlockScan.TonCovers | core/block_scanner.go:840-880 | what is read in a TON deposit's transactions is exactly its departures on record, in order |
| BlockScan.HotCovers | core/block_scanner.go:779-838 | every message from a deposit is an arrival on record and is read, as one income with the amount that left; no other message is |
| BlockScan.BlockIsReconciled | core/block_scanner.go:290-322 | account by account, what is read in a block is exactly what the internal runs expect of its scan |
| WholeBlocks.WholeBlockAccepted | core/block_scanner.go:124-165 | in every guarded pair of runs over one database a whole unsaved block, with external events, confirmations and its own row, is accepted if and only if the strangers' requests in it are bearable and its row is new |
| WholeBlocks.ScannedWholeBlockAccepted | core/block_scanner.go:103-165 | the same from transactions to tables, for whatever is read in the accounts of a block and in the batches executed in it |
| BlockApplication.OrderIndependence | core/block_scanner.go:246-251 | every order of the account map gives the same tables or a rejection, when no memo or batch row is shared |
| BlockApplication.AppliedAtMostOnce | db/repository.go:271-288 | however often a block is emitted again, only its first applied attempt changes the tables |
| BlockEffects.InnerExact | core/block_scanner.go:124-165 | a block's internal events are accepted if and only if they fit the tables, and then every row and income is as stated |
| BlockEffects.WithdrawalsExact | db/repository.go:290-337 | accepted if and only if each event is of a known, sent row that has not failed and no failure has a successor; amounts add up, replays included, and finish_lt is the time of the last success |
| BlockEffects.SendingsExact | db/repository.go:410-432 | accepted if and only if each confirmation is of a known row that has not failed; the last one of a memo counts |
| BlockEffects.IncomesExact | db/repository.go:231-269 | accepted if and only if every memo and logical time is new; then all are recorded and none overwritten |
| BlockEffects.LastGainIsGreatest | core/blockchain.go:133-136 | for sorted events the last success of a memo has its greatest logical time |
| Uuids.ParseUuidExact | db/repository.go:290-294 | a comment is read as a UUID if and only if it spells it in digits of either case, plain or dashed, bare, in braces or as a URN |
| Uuids.DigitExact | db/repository.go:290-294 | a character is a hexadecimal digit in either case |
| Uuids.PrintsApart | core/withdrawal_processor.go:684-707 | different UUIDs are printed differently, so confirmations of different tasks are told apart |
| LedgerLaws.ChangesAdvance | db/repository.go:231-432 | whatever events are accepted: no row is lost, none forgets what it reached, a failed one never changes again, no income is overwritten |
| LedgerLaws.HistoryAdvances | db/repository.go:231-530 | the same over any history of blocks, batches, saved tasks and expiries, accepted or rejected |
| LedgerLaws.ConfirmExact | db/repository.go:339-351 | an excess confirms exactly the processed rows of its query |
| LedgerLaws.ConfirmationsInvisible | db/repository.go:339-351 | with or without excess confirmations, the same events are accepted and the tables agree in all but what is confirmed |
| LedgerLaws.HistoryIsBlind | db/repository.go:339-351 | over any such history, tables that differ in what is confirmed only are accepted and changed alike |
| Repository.Repository.CreateExternalWithdrawals | db/withdrawal-repository.go:65-101 | the loop inserts all rows and marks all requests, or on a duplicate nothing |
| Repository.Repository.ApplySendingConfirmations | db/repository.go:410-432 | the confirmed row, or the rejection of a failed or missing one |
| Repository.Repository.GetLastSavedBlock | db/repository.go:447-474 | the saved block with the greatest number, none exactly on an empty table |
| Repository.Repository.SaveParsedBlockData | db/tx.go:22-38 | all events kind by kind and the block row, or on any rejection the tables as they were |
| Repository.Repository.SetExpired | db/repository.go:477-530 | all stale rows failed, and the requests of the returned external ones open again |
| TaskQueries.JettonQueryRefines | db/withdrawal-repository.go:341-359 | the nested join query returns exactly one task, with its latest income, per due jetton deposit whose owner, if any address is excluded, is known and not among them |
| TaskQueries.TonQueryRefines | db/withdrawal-repository.go:291-327 | the same for the TON query and its own notion of due |
| TaskQueries.JettonQueryExact | db/withdrawal-repository.go:344-356 | for any ordered rows the query meets the rule on a deposit if and only if no finished failure shadows its withdrawal |
| TaskQueries.PendingCoveredOrDue | db/withdrawal-repository.go:341-359 | a jetton deposit with income is pending, covered or offered, and only one of these |
| InternalSafety.KeepsSave | db/withdrawal-repository.go:103-123 | saving a picked task, or failing to on a used memo, keeps the invariant: single in flight, rows in line with the chain |
| InternalTheorems.SingleInFlight | db/withdrawal-repository.go:103-123 | a deposit has at most one withdrawal under way, and it is newer than all other live ones, in every reachable state without strangers' requests |
| InternalTheorems.QueriesReturnTheDue | db/withdrawal-repository.go:291-373 | in every such state both queries return exactly the due deposits |
| InternalTheorems.ReachableTrichotomy | db/withdrawal-repository.go:341-359 | the three cases in every such state |
| InternalTheorems.LifeCycle | db/repository.go:290-337 | finished implies sent; sent iff a saved block shows it; finish_lt is the greatest time of the departures; a failed withdrawal moved nothing |
| InternalTheorems.ExpiryHitsOnlyTheDead | db/repository.go:478-486 | what guarded expiry fails has never acted and is past its TTL |
| InternalTheorems.DeadForever | db/repository.go:478-486 | and never acts in any continuation |
| InternalTheorems.ScanAccepted | core/block_scanner.go:840-880 | the internal events of an unsaved block, when nothing of ours is left behind, are accepted if and only if each stranger's request spells the memo of a known, sent row that has not failed and is the last event of that memo |
| InternalTheorems.SurvivesIff | core/block_scanner.go:1017-1038 | an accepted block keeps the invariant if and only if no stranger's request is in it |
| InternalTheorems.InvariantIffUnforged | threat_model.md:39-43 | over whole runs that leave nothing of ours behind, the invariant holds if and only if no saved block holds such a request |
| InternalTheorems.TwoSidedLedger | db/repository.go:231-269 | per memo, replays included, the hot side never exceeds what left the deposit, and equals it once all has arrived |
| InternalThreshold.AcceptingIffWithinSpacing | core/withdrawal_processor.go:524-538 | over all realistic runs the scanner never meets a block of ours that the tables reject if and only if the delay before the update and that before the message is built together do not exceed the spacing |
| InternalThreshold.AcceptedWhenInSync | core/withdrawal_processor.go:451-467 | no bound on the delay before the update is needed when the sync test still holds at the update |
| InternalThreshold.LateMessage | core/withdrawal_processor.go:514-540 | otherwise there is a complete run in which a row fails while its message still runs in the next block |
| InternalForgeries.UnreadableIsPassedOver | db/repository.go:290-300 | in no run is the block of a stranger's request saved whose comment spells no UUID |
| InternalForgeries.OneRequestHidesBlock | core/block_scanner.go:85-96 | from every reachable state, one such request in the next block keeps that block unsaved in every continuation, while some continuation saves the block after it |
| InternalForgeries.ShadowReached | db/withdrawal-repository.go:344-356 | a run, with jettons on the deposit at each save, to a state in which a failed row that carries a finish_lt hides the deposit's withdrawal under way |
| InternalForgeries.TwoInFlight | db/withdrawal-repository.go:341-359 | and on to two withdrawals of one deposit under way at once, after a single strange request |
| JettonIncome.ProcessOutMessages | core/block_scanner.go:921-998 | the announced incomes, their sum, and whether anything was unknown |
| JettonIncome.AnnouncementsExact | core/block_scanner.go:921-998 | the incomes of a transaction are, in order, one for each notification to the deposit's owner from a sender the book does not know, with its times, sender, amount and comment |
| JettonIncome.SignExact | core/block_scanner.go:931-977 | exactly which message cannot be read, which announces an income, and which is unknown |
| JettonIncome.ConvertUnknown | core/block_scanner.go:482-502 | one zero row per unknown transaction and the amount on the first |
| JettonIncome.ProcessJettonDeposit | core/block_scanner.go:404-480 | recorded incomes sum to max(announced, balance change plus withdrawals) if anything is unknown, else to the announced; they are the announced ones in order, then the rows of the unknown transactions; the withdrawals in order |
| JettonIncome.RequestsExact | core/block_scanner.go:1000-1055 | the withdrawals of a block are, in order, one for each request that failed or sends jettons to a hot wallet, with its times, amount and comment |
| JettonIncome.RecordMissesExactly | core/block_scanner.go:440-480 | for a TEP-74 wallet, burns included, the record falls short of what was received by exactly the smaller of what came unannounced and what was burnt |
| JettonIncome.RecordedIsReceivedIff | core/block_scanner.go:453-480 | so it is what was received if and only if nothing was burnt or everything was announced |
| JettonIncome.IncomesTelescope | core/block_scanner.go:453-480 | over consecutive blocks, burns included, recorded and missed incomes minus withdrawals and burns are the change of the balance; what is missed is, block by block, the smaller of unannounced and burnt |
| Shards.IsInShardMeaning | core/shard_tracker.go:139-150 | the shard test is the bitwise comparison of the significant bits, and fails exactly on zero or more than eight of them |
| Shards.ShardPartition | core/shard_tracker.go:139-160 | however the workchain is split, to depth eight, each byte lies in exactly one shard |
| Shards.FilterSucceeds | core/shard_tracker.go:152-160 | the filter answers for every order of the headers, uniquely, with the shard of every accepted address |
| Shards.FilterByShard | core/shard_tracker.go:152-160 | the first suitable header, or the fatal error met before it |
| Shards.GenerateSubWallet | core/wallet/wallet.go:114-137 | the least fitting id from the start on; none only if a derivation failed or no id fits |
| ShardWalk.ShardTracker.GetShardBlocks | core/shard_tracker.go:109-137 | pushes exactly the path from the tip up to the last known block, or a prefix of it on failure, when the last known block stays; terminates; reaches the last known block if it is on the path and all requests are answered |
| ShardWalk.ShardTracker.Track | core/shard_tracker.go:43-61 | over any sequence of walks, failed ones included, no block between the start and the last known one was never pushed |
| ShardWalk.AncestorsDescend | core/shard_tracker.go:162-176 | numbers strictly decrease along the filtered path, through splits and merges |
| ShardWalk.WalkJoins | core/shard_tracker.go:118-123 | the new part of a path and the path known before make one gap-free path |
| ShardWalk.NewestFirst | core/shard_tracker.go:117-132 | within a walk blocks are pushed newest first and once |
| SavedBlocks.GreatestCoversIffGapFree | db/repository.go:447-474 | everything below the greatest saved number is saved if and only if the saved blocks of the path have no gap |
| SavedBlocks.LastSavedIsGreatest | models/models.go:294-296 | in every reachable state, whatever the gaps, the greatest number in the table is that of the run's last saved block, and the sync tests read its time |
| SavedBlocks.GapFreeIff | db/repository.go:447-474 | the table has no gap if and only if the run has none |
| Service.FilledExcludesProcessed | db/withdrawal-repository.go:183-201 | a request is never filled and processed, and takes at most two updates |
| Service.StepsMoveOn | core/withdrawal_processor.go:111-116 | every step leaves a request alone or brings it strictly nearer to processed |
| Service.ProcessedForever | db/withdrawal-repository.go:233-289 | a processed request never changes and is never selected again |
| Service.TtlIsLifetime | core/withdrawal_processor.go:542-579 | the TTL of a message is a whole second, at most the lifetime after it was built and less than a second short of it |
| Service.OneMessage | core/withdrawal_processor.go:542-579 | a request gets one message, which no continuation replaces |
| Service.SentWhatWasFilled | core/withdrawal_processor.go:542-579 | every execution of that message, and there may be several, sends the amount recorded at filling from the request's deposit |

## Left out

- Payments.Next: the sync checks, the tick of a processor and the scan are single steps; how long each takes is not modelled, except that any time may pass between a check and what it guards.
- InternalRuns.Next: a message may act from the moment its row is saved, which is earlier than its sending; a block below the greatest saved one is never saved later, as within a walk of the tracker it is.
- InternalRuns.Mined: strangers' transfer notifications and excesses create no internal events and are left out of the chain's record.
- Service.ChainNext: other messages of a deposit's wallet are not modelled, and whether the jetton wallet obeys an execution is not.
- Base.Events.Append: works on values, not in place; no aliasing of the receiver is modelled.
- Cells.LoadAddr: external and variable addresses are not decoded, so a notification from one counts as not decodable.
- Codec.LoadMessage: messages with a state init are not decoded; the service wraps none.
- Batch.BuildService: a request for a TON deposit without a jetton master stops the source with a nil dereference and is excluded; message modes, the bounce flags of the batch's own messages and state inits are not modelled.
- Batch.BuildWithdrawalMessages: errors of balance requests end the tick and are not modelled; random query ids and memos are parameters.
- TaskQueries.JettonQuery: LIMIT is any subset of the result; the row order of equal tasks is not modelled.
- ShardWalk.ShardTracker.GetShardBlocks: a walk repeated after a failure pushes blocks again; nothing is claimed across walks but that none is missing.
- Repository.Repository.SaveEvents: the six loops share one loop over tagged changes.
- JettonIncome.RecordMissesExactly: wallets that credit jettons without a transaction of their own are outside the theorem.
- WalletScan.HotIncoming: one message at a time; the loop over the hot wallet's transactions only appends.
- Filtering a block's transactions by known addresses, notifications and webhooks: no exactly-once claim is made for them.
- Cold-wallet withdrawals: simple subtractions from a balance, and the uniqueness of their requests is not claimed.
- Generation of jetton deposit wallets for a proxy: the same counter loop as for subwallets, over another address function.
- HTTP API, configuration, cryptography, contract code, key handling, connection pools: not part of this model.
