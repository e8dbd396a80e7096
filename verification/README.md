# Wagering service: a verified model

The service moves players' money: BET, WIN, LOSS, REFUND and ROLLBACK submissions arrive over HTTP and over an
at-least-once queue, change one wallet each, write an append-only ledger entry and announce the outcome through a
transactional outbox. Reversals whose reference has not arrived yet wait and are resumed by a worker. This project
models the five tables, the units of work that change them, their interleaving, the queue consumer and the outbox
publishers, and proves what the books and the deliveries keep over whole runs.

How the model is laid out:

- `Money.dfy`, `MoneyText.dfy`: int64 minor units with checked arithmetic, the strict amount parser (its loops as
  methods) and the printer.
- `Wagering.dfy`, `Wallets.dfy`: the transaction and the wallet, as classes with the transitions and movements that
  change them, each method tied to a function of the old state.
- `Store.dfy`: the tables as one value, the schema's CHECKs, unique indexes and foreign keys, the statements the
  repositories issue, and an open SQL transaction (`Session`), which a refused statement aborts.
- `Process.dfy`, `Resolve.dfy`, `Backoff.dfy`: what a submission and a resumption decide from what they read (a
  `Plan`), and the use cases as methods that follow the plan statement by statement.
- `Units.dfy`: one unit of work per use case, with commit or rollback, on the class `Database`; the worker's tick.
- `Invariant.dfy`, `Legality.dfy`, `Steps.dfy`: the invariant of every committed state and why every unit keeps it.
- `Conservation.dfy`, `Reports.dfy`: what the invariant says about money: standing operations, reconciliation, entry
  ownership, the event stream.
- `Messages.dfy`: exactly when a delivery is all or nothing.
- `Admission.dfy`, `Outcomes.dfy`: when the schema admits a decision's row and when a failing generator stops its
  statements; what each decision means for balance and caller, by kind of submission.
- `Texts.dfy`, `Effects.dfy`, `Swings.dfy`, `Openings.dfy`: what the text of a command denotes, and from it and the
  stored rows the reply and every table after a submission, a delivery or an opening; what any of them can do to
  balances in whatever state.
- `Interleaving.dfy`, `Isolation.dfy`, `Serial.dfy`, `StaleFate.dfy`, `StaleRun.dfy`, `Once.dfy`, `Announcements.dfy`, `Guarantees.dfy`:
  units of HTTP, queue and worker running at the same time, statement by statement, with row locks and crashes between
  any two statements.
- `Worker.dfy`, `Endings.dfy`: which row the worker takes, when, and what becomes of it; how a concurrent unit ends on
  tables and log, and that it does alone what the same call does alone.
- `Replay.dfy`, `ReuseRun.dfy`, `OutOfOrder.dfy`: resubmissions, and reversals that arrive before their reference.
- `Consumer.dfy`: what happens to a queue message after its handler ran.
- `Outbox.dfy`, `Publishing.dfy`, `Leases.dfy`, `Delivery.dfy`: the outbox table, one publisher's tick, and several
  publishers at once.
- `Composition.dfy`: units of work and publishers over one outbox.
- `Paging.dfy`: keyset pages of the ledger.

Clock readings and fresh identifiers are inputs of every step; identifier zero stands for a generator that failed.
UUID parsing and the payload digest are parameters (`Codec`); only `Texts.HashesAgreeExactly` needs the digest to be
injective.

Five statements one might expect are false of the code. Each has an input or a run that shows it, and the exact
condition under which it holds:

- A delivery is not always all or nothing. An identifier generator that fails is reported as a validation error
  (`internal/domain/shared/id.go:17-22`), which the message handler swallows so that its inbox row survives, together
  with whatever was written before (`Messages.CutShortHappens`). It is all or nothing exactly when it is not cut short
  (`Messages.AllOrNothingExactly`): the schema admits the transaction row, and the first identifier that does not serve
  is one that failed to arrive (`Messages.CutShort`, `Admission.GeneratorFails`). It keeps the books exactly when it is
  not cut short while it moves money (`Messages.HandleInvExactly`).
- A unit that commits does not always decide as it would have alone: a reference in another wallet is read without a
  lock and may become terminal afterwards (`StaleRun.StaleHappens`). It does exactly when that did not happen
  (`Serial.CommitsAsIfAlone`). Otherwise the row ends with the code it would have got alone exactly when the unit was
  not the last attempt of a resumption; that one is rejected with REFERENCE_NOT_FOUND although its reference exists
  (`StaleFate.StaleEnds`; `StaleRun.StaleHappens` reaches both cases).
- A rejection for a foreign currency is decided but never stored: the composite foreign key refuses the row
  (`Outcomes.ForeignCurrencyIsRefused`). The rejection of a foreign submission is stored exactly when its currency is
  the wallet's (`Outcomes.ForeignRejectionStored`).
- A run does not equal the run without resubmissions if a delivery id is reused for other content
  (`ReuseRun.ReusedDeliveryHappens`). It does, at every point, exactly when no delivery under the id of a dropped
  resubmission carries a new operation that the other run would apply (`Replay.RunWithoutRepeatsExactly`,
  `Replay.MaskedIsApplied`).
- Leases alone do not make an event's holder unique, because marking and releasing match on the id only
  (`Leases.StalledPublisher`). A run keeps holders unique exactly when no claim takes a record that is still in hand
  (`Leases.ExclusiveExactly`), which it can only do past the holder's lease (`Leases.TakesOverdue`).

## Model

| member | source | states |
|---|---|---|
| MoneyModel.TruncDiv | internal/domain/money/money.go:323-331 | Go's division, which truncates toward zero, bounded on both sides for either sign |
| MoneyModel.Add | internal/domain/money/money.go:309-314 | the sum, and it fails exactly when the mathematical sum leaves int64 |
| MoneyModel.Subtract | internal/domain/money/money.go:316-321 | the difference, and it fails exactly when the mathematical difference leaves int64 |
| MoneyModel.Multiply | internal/domain/money/money.go:323-331 | the product, and it fails exactly when the mathematical product leaves int64 |
| MoneyModel.MultiplyGuard | internal/domain/money/money.go:323-331 | the two quotient comparisons decide exactly whether the product fits, for either sign |
| MoneyModel.Money.Plus | internal/domain/money/money.go:192-201 | succeeds exactly for initialised amounts of one currency whose sum fits |
| MoneyModel.Money.Minus | internal/domain/money/money.go:205-214 | succeeds exactly for initialised amounts of one currency whose difference fits |
| MoneyModel.Money.Negate | internal/domain/money/money.go:217-225 | succeeds exactly when initialised and not the minimum |
| MoneyModel.MinusUndoesPlus | internal/domain/money/money.go:192-214 | subtracting what was added gives the amount back |
| MoneyText.DigitsToMinorUnits | internal/domain/money/money.go:141-166 | the digit loop computes the denoted number of cents, and overflows exactly when that exceeds MaxInt64 |
| MoneyText.ParseMinorUnits | internal/domain/money/money.go:81-128 | answers what the denotation of the text demands: value, overflow, or invalid (negative zero included) |
| MoneyText.ParseAfterFormat | internal/domain/money/money.go:249-265 | parsing a printed amount gives it back for every int64 except the minimum |
| MoneyText.FormatAfterParse | internal/domain/money/money.go:81-128 | printing a parsed text gives the text back, so no two texts denote one amount |
| MoneyText.AcceptedExactly | internal/domain/money/money.go:81-128 | the accepted texts are exactly the printed forms of the amounts above the minimum |
| Wagering.ValidateAmount | internal/domain/wagering/kind.go:76-92 | accepts exactly zero for LOSS and a positive initialised amount otherwise |
| Wagering.ValidateReference | internal/domain/wagering/kind.go:98-107 | a reference is required for reversals, optional for WIN, refused otherwise |
| Wagering.TerminalForever | internal/domain/wagering/transaction.go:215-320 | over any sequence of transitions a terminal transaction keeps every field, and fields always match the status |
| Wagering.Transaction.Process | internal/domain/wagering/transaction.go:215-228 | the transition on the fields, or an error and no change |
| Wagering.Transaction.Wait | internal/domain/wagering/transaction.go:231-242 | the transition on the fields, or an error and no change |
| Wagering.Transaction.ScheduleRetry | internal/domain/wagering/transaction.go:245-260 | the transition on the fields, or an error and no change |
| Wagering.Transaction.Refuse | internal/domain/wagering/transaction.go:263-273 | the transition on the fields, or an error and no change |
| Wagering.Transaction.Resolve | internal/domain/wagering/transaction.go:290-308 | the reference is set on a non-terminal reversal only |
| Texts.KindParsesItsName | internal/domain/wagering/kind.go:36-50 | each of the five external kinds is written by its own name and by no other text, and no text opens a wallet |
| Texts.EligibleExactly | internal/application/usecase/process_transaction.go:354-359 | a refund may undo a bet, a rollback a bet, a win or a refund, and nothing else is undone |
| Texts.ParsesExactly | internal/application/usecase/process_transaction.go:120-162 | a command parses to a request exactly when its text denotes it: kind name, identifiers, printed amount, currency, reference, hash of the ten fields |
| Texts.HashesAgreeExactly | internal/application/usecase/idempotency.go:25-43 | two commands hash alike exactly when each of the ten business fields agrees, for a digest that tells fields apart |
| Texts.AcceptedExactly | internal/domain/wagering/transaction.go:94-148 | a denoted request becomes a transaction exactly when its identifier, clock, hash, round and game are there |
| Wallets.Credited | internal/domain/wallet/wallet.go:166-177 | succeeds exactly for a valid movement whose sum fits, and adds the amount |
| Wallets.Debited | internal/domain/wallet/wallet.go:180-195 | succeeds exactly for a valid movement covered by the balance, and subtracts the amount |
| Wallets.Wallet.Credit | internal/domain/wallet/wallet.go:166-177 | balance, version and instant change together, or nothing does |
| Wallets.Wallet.Debit | internal/domain/wallet/wallet.go:180-195 | balance, version and instant change together, or nothing does |
| Store.NewEntry | internal/domain/ledger/entry.go:66-127 | an entry exists only if its balances satisfy the equation of its direction |
| Store.StatementsKeepSound | migrations/000001_initial_schema.up.sql:18-262 | no statement, whatever its row, leaves wallets, transactions, ledger or outbox outside their primary keys, unique indexes, foreign keys and CHECKs |
| Store.SchemaSays | migrations/000001_initial_schema.up.sql:18-262 | what the constraints mean on the rows: one wallet per player and currency, one row per provider with key or external id, one opening per wallet, one successful reversal of a kind per reference, entries that add up |
| Store.FoundIsTheOne | internal/platform/postgres/repository/transaction.go:79-99 | the unique indexes make both lookups functions of the table |
| Store.Session.LockWallet | internal/platform/postgres/repository/wallet.go:40-46 | the rehydrated wallet is the stored row |
| Process.ReversalRejection | internal/application/usecase/process_transaction.go:334-350 | no rejection exactly when the reference is processed, a bet under a refund or a bet, win or refund under a rollback, and agrees on wallet, player, round and amount |
| Process.ExecuteIn | internal/application/usecase/process_transaction.go:94-118 | follows, statement by statement and error by error, the plan for the tables it reads, whose outcome from the command's text is Effects.ExecuteEnds |
| Process.FindReplay | internal/application/usecase/process_transaction.go:165-197 | replay, conflict, reapplied, or nothing known |
| Process.Apply | internal/application/usecase/process_transaction.go:218-280 | follows the decision for a new submission on the locked wallet |
| Process.ApplyReversal | internal/application/usecase/process_transaction.go:284-331 | follows the decision for a reversal, which Outcomes.ReversalOutcome tells kind by kind: wait, reject, or move and settle |
| Process.MoveBalance | internal/application/usecase/process_transaction.go:362-391 | moves the wallet and settles, or rejects for lack of funds |
| Process.PersistSettled | internal/application/usecase/process_transaction.go:432-476 | transaction row, ledger entry, wallet row and events, in that order, stopping at the first error |
| Process.PersistRejected | internal/application/usecase/process_transaction.go:502-529 | the rejected row and its event |
| Process.MarkPending | internal/application/usecase/process_transaction.go:532-552 | the waiting row and its event |
| Process.AppendEntry | internal/application/usecase/ledger_entry.go:18-39 | the entry is built and inserted, or the error says which failed |
| Process.AppendEvents | internal/application/usecase/outbox_events.go:171-207 | the events are inserted in order up to the first failure |
| Backoff.ReferenceBackoff | internal/application/usecase/resolve_pending.go:241-253 | the loop computes the capped doubling |
| Backoff.BackoffDuration | internal/platform/awssqs/publisher.go:287-302 | the loop computes the capped doubling with its final cap |
| Backoff.BackoffsAgree | internal/platform/awssqs/publisher.go:287-302 | for a base up to the ceiling both agree, never shrink, stay below it, and miss the capped exponential by at most one, by the ceiling's parity |
| Backoff.BackoffsDiffer | internal/application/usecase/resolve_pending.go:241-253 | for a base above the ceiling they differ exactly at the first attempt |
| Resolve.Resume | internal/application/usecase/resolve_pending.go:109-221 | follows the decision for a claimed row: wait, expire, reject, or move and settle |
| Resolve.WaitOrExpire | internal/application/usecase/resolve_pending.go:161-190 | one more attempt with its backoff, or rejection when exhausted |
| Resolve.ClaimPending | internal/platform/postgres/repository/transaction.go:126-159 | the row claimed, which Worker.ClaimsTheFirst tells to be the first due one in (next_retry_at, id) order |
| Resolve.ClaimFindsWork | internal/platform/postgres/repository/transaction.go:126-159 | the claim comes back empty exactly when no row waits with a retry time that has come |
| Resolve.Normalized | internal/application/usecase/resolve_pending.go:34-63 | unusable settings become positive defaults, and valid ones are kept as given |
| Backoff.RampClosedForm | internal/application/usecase/resolve_pending.go:241-253 | the ramp is the base doubled, and the ceiling from the first doubling that reaches its largest even part |
| Outcomes.DirectOutcome | internal/application/usecase/process_transaction.go:263-280 | a bet is rejected exactly when it exceeds the balance, a win fails exactly on overflow, a loss moves nothing |
| Outcomes.ForeignSubmission | internal/application/usecase/process_transaction.go:249-254 | the decision on another player's or another currency's submission is a rejection with its own code |
| Outcomes.ForeignCurrencyIsRefused | migrations/000001_initial_schema.up.sql:69-70 | whatever was decided, a submission in another currency ends in a conflict and stores nothing |
| Outcomes.ForeignCurrencyOverHttp | internal/application/usecase/process_transaction.go:74-88 | the caller gets the conflict and the tables stay |
| Outcomes.ForeignCurrencyByQueue | internal/application/usecase/handle_message.go:130-146 | the delivery's commit fails and its inbox row is lost with it |
| Outcomes.ForeignRejectionStored | internal/application/usecase/process_transaction.go:249-254 | the rejection is stored exactly when the currency is the wallet's, under identifiers that arrived and are new |
| Outcomes.ReversalOutcome | internal/application/usecase/process_transaction.go:284-331 | waits, due at once, until the reference ended; then is rejected with the code of the first reason, fails on overflow, or undoes exactly the referenced amount |
| Outcomes.ResumptionOutcome | internal/application/usecase/resolve_pending.go:109-221 | a waiting row whose reference ended is rejected with the code of the first reason, fails on overflow, or undoes exactly the referenced amount |
| Outcomes.WaitOutcome | internal/application/usecase/resolve_pending.go:161-190 | a row waits on exactly while attempts and age leave room, and retries after the backoff of its raised attempt count |
| Outcomes.OpeningOutcome | internal/application/usecase/open_wallet.go:50-96 | a refused opening leaves nothing, a duplicate is refused, a zero one adds the wallet row alone |
| Openings.RowExactly | internal/application/usecase/open_wallet.go:50-74 | the row to open is the one the request denotes, and there is none otherwise |
| Openings.OpensExactly | internal/application/usecase/open_wallet.go:50-133 | a wallet opens exactly when its player has none in that currency and the identifiers a credit needs are fresh: wallet row and, for a positive balance, processed credit, entry and two events; otherwise nothing is stored |
| Units.Database.Execute | internal/application/usecase/process_transaction.go:74-88 | the committed tables after an HTTP submission, and its reply, as Effects.ExecuteEnds and Effects.RecordAnswers tell them from the text |
| Units.Database.Handle | internal/application/usecase/handle_message.go:83-146 | the committed tables after a delivery: inbox row and effect, permanent errors swallowed, aborted commits failing; told from the message by Effects.HandleEnds and Effects.MessageAnswers |
| Units.Database.WorkOnce | internal/application/usecase/resolve_pending.go:66-159 | the committed tables after one worker round, told from the rows by Worker.WorkerEnds and Worker.NothingDue |
| Units.Database.OpenWallet | internal/application/usecase/open_wallet.go:50-133 | the committed tables after an opening |
| Units.Database.Commit | internal/platform/postgres/repository/unit_of_work.go:32-53 | all statements become visible, or none if one was refused |
| Units.RunTick | internal/application/usecase/resolve_pending.go:66-96 | the tick is the run of its rounds, stops at an error or an empty claim, and makes at most BatchSize of them |
| Units.PlanKeepsSound | internal/platform/postgres/repository/unit_of_work.go:32-53 | whatever a unit decided, the statements it got through leave tables within those constraints |
| Effects.ExecuteEnds | internal/application/usecase/process_transaction.go:74-331 | a new command over HTTP, told from its text and the stored reference: reply, balance, rows, entry, outbox; a bet takes its amount or is rejected, a win gives it, a loss moves nothing, a reversal waits, is rejected, or undoes |
| Effects.HandleEnds | internal/application/usecase/handle_message.go:83-146 | the same by a delivery, whose inbox row is committed with the effect, or alone if there is none |
| Effects.ForeignPlayerEnds | internal/application/usecase/process_transaction.go:249-251 | a command for somebody else's wallet is rejected with that code, and the rejection is stored |
| Effects.RecordAnswers | internal/application/usecase/process_transaction.go:165-216 | an operation on record is answered with its stored outcome, a conflict or a reapplication, an unknown wallet with not found, and the tables stay |
| Effects.RecordAnswersDelivery | internal/application/usecase/handle_message.go:130-146 | the same by a delivery adds the inbox row and nothing else, and succeeds |
| Effects.DeliveredBefore | internal/application/usecase/handle_message.go:91-98 | a delivery whose id is on record changes nothing, and succeeds exactly for the same content |
| Effects.MessageAnswers | internal/application/usecase/handle_message.go:148-164 | exactly the messages that are malformed or lack id, type or command are answered as invalid envelopes, exactly those of a provider off the list as unauthorised, and they leave the tables as they are |
| Effects.RefusedDeliveryIsNoted | internal/application/usecase/handle_message.go:130-146 | a delivery refused for good, or answered from the record, commits exactly its inbox row |
| Effects.KeysTellApart | internal/platform/postgres/repository/inbox.go:18-68 | two deliveries have one inbox key exactly when consumer and message id agree |
| Swings.ExecuteSwings | internal/application/usecase/process_transaction.go:263-331 | in whatever state and with whatever identifiers: a bet never raises a balance, a win or refund never lowers one, a loss moves none, each by its amount or not at all, and only in its wallet |
| Swings.HandleSwings | internal/application/usecase/handle_message.go:83-146 | the same for a delivery, even one cut short |
| Swings.MeaninglessIsIdle | internal/application/usecase/process_transaction.go:99-102 | a command whose text denotes no request changes no table but the inbox |
| Worker.ClaimsTheFirst | internal/platform/postgres/repository/transaction.go:126-159 | a claim takes the waiting row whose retry time has come and that precedes every other such row in (next_retry_at, id), and is empty exactly if there is none |
| Worker.NothingDue | internal/application/usecase/resolve_pending.go:66-96 | a round that finds no such row changes nothing |
| Worker.RoundTouches | internal/application/usecase/resolve_pending.go:109-221 | a round touches no transaction but that row, and no wallet but its own, by what its kind and amount allow |
| Worker.NotBeforeItsTime | internal/platform/postgres/repository/transaction.go:126-159 | a row scheduled for an instant is the same after any run whose worker rounds come before it |
| Worker.WorkerEnds | internal/application/usecase/resolve_pending.go:109-221 | what becomes of the row, told from the stored reference: put off by the backoff of its attempts, rejected when attempts or time run out, or ended as a new reversal would be, with reply and tables |
| Worker.ShortTick | internal/application/usecase/resolve_pending.go:66-96 | a tick short of its rounds met an error that left no trace, or tables with nothing due |
| Admission.RowAdmitted | migrations/000001_initial_schema.up.sql:69-156 | the row of a new submission is admitted exactly when its identifier is new and the wallet is kept in its currency |
| Admission.StopsExactly | internal/application/usecase/process_transaction.go:432-476 | its statements stop halfway exactly when the row is admitted and the first identifier that does not serve failed to arrive |
| Admission.FreshRun | internal/application/usecase/process_transaction.go:432-552 | under fresh identifiers it is stored exactly when the currency is the wallet's, and refused otherwise |
| Admission.FreshResumption | internal/application/usecase/resolve_pending.go:109-221 | under fresh identifiers whatever a resumption decides to write is stored |
| Invariant.LegalKeepsInv | internal/application/usecase/process_transaction.go:432-476 | legal writes that the schema admits keep the whole invariant: rows, references, ledger, balances and events |
| Legality.ApplyLegal | internal/application/usecase/process_transaction.go:218-331 | what a submission decides is legal when what it read about wallet and reference still holds |
| Legality.ResumeLegal | internal/application/usecase/resolve_pending.go:109-221 | what a resumption decides is legal when what it read about wallet and reference still holds |
| Steps.ExecuteKeepsInv | internal/application/usecase/process_transaction.go:74-118 | an HTTP submission commits a state that satisfies the invariant |
| Steps.WorkerKeepsInv | internal/application/usecase/resolve_pending.go:109-159 | a worker round commits a state that satisfies the invariant |
| Steps.OpenKeepsInv | internal/application/usecase/open_wallet.go:50-133 | an opening commits a state that satisfies the invariant |
| Messages.HandleKeepsInv | internal/application/usecase/handle_message.go:83-146 | a delivery commits a state that satisfies the invariant unless it was cut short |
| Messages.NotCutShort | internal/application/usecase/handle_message.go:130-146 | a delivery whose identifiers all arrive is never cut short |
| Messages.CutShortStops | internal/application/usecase/handle_message.go:130-146 | cut short, stated on decision, tables and identifiers before the call, is exactly when the run stops although no statement was refused |
| Messages.AllOrNothingExactly | internal/application/usecase/handle_message.go:130-146 | a delivery leaves nothing, its inbox row, or row and whole effect, exactly when it is not cut short |
| Messages.HandleInvExactly | internal/application/usecase/handle_message.go:181-190 | a delivery keeps the invariant exactly when it is not cut short while it moves money |
| Messages.HandleToldExactly | internal/application/usecase/handle_message.go:181-190 | it leaves an outcome unannounced exactly when it is cut short before its outcome event |
| Messages.CutShortHappens | internal/application/usecase/handle_message.go:181-190 | a win of 1.00 whose entry identifier fails commits as processed and moves nothing |
| Conservation.Conserved | internal/application/usecase/process_transaction.go:284-391 | balance equals opening plus standing wins minus standing bets, where a reversal counts unless itself undone |
| Conservation.ReversalChains | internal/application/usecase/process_transaction.go:354-359 | chains of reversals are at most two long and end in a bet or a win |
| Conservation.ReversedOnceAndLater | internal/platform/postgres/repository/transaction.go:107-123 | at most one successful reversal of any kind per operation, with its entry after the operation's |
| Reports.ReconciliationIsClean | internal/application/usecase/reconcile_wallet.go:40-78 | reconciliation succeeds with zero difference and counts every entry |
| Reports.ReconcileExactly | internal/application/usecase/reconcile_wallet.go:40-78 | of any tables the schema admits it reports balance, ledger sum, their difference and the number of entries, is consistent exactly if they agree, and fails exactly for lack of range |
| Reports.EntryOwnership | internal/application/usecase/process_transaction.go:432-476 | exactly one entry for a processed non-LOSS, none for others, with direction, amount, frozen balance and version |
| Reports.EventStreamRebuildsWallet | internal/application/usecase/outbox_events.go:150-169 | balance events match entries one for one, chain, carry consecutive versions up to the wallet's, and fold to its balance |
| Isolation.RunOk | internal/platform/postgres/repository/unit_of_work.go:32-53 | under every interleaving with crashes: invariant kept, locked reads still true, locks exclusive, committed history only grows |
| Isolation.EndShape | internal/application/usecase/handle_message.go:83-146 | a concurrent unit ends with nothing, its inbox row, or row and all writes, applied to the tables at its commit; which of them, Endings.RefusedDeliveryCommits and Endings.WritesCommitWhole say |
| Endings.RefusedDeliveryCommits | internal/application/usecase/handle_message.go:130-146 | a concurrent delivery refused for good, or answered from the record, commits exactly its inbox row |
| Endings.RefusalLeavesNoTrace | internal/platform/postgres/repository/unit_of_work.go:32-53 | over HTTP and in the worker a refusal leaves no trace |
| Endings.CrashLeavesNoTrace | internal/platform/postgres/repository/unit_of_work.go:32-53 | a crash leaves no trace either |
| Endings.WritesCommitWhole | internal/platform/postgres/repository/unit_of_work.go:32-53 | writes whose statements are all admitted are committed whole, with a delivery's inbox row, and otherwise nothing is |
| Endings.HttpAlone | internal/application/usecase/process_transaction.go:74-118 | an HTTP call whose wallet nobody else holds, taken statement by statement, commits the tables of the call run alone |
| Endings.ReceiveAlone | internal/application/usecase/handle_message.go:83-146 | and so does a delivery |
| Endings.ClaimAlone | internal/application/usecase/resolve_pending.go:66-159 | and so does a worker round |
| Endings.NeverDeadlocked | internal/platform/postgres/repository/wallet.go:40-46 | in every reachable state each open unit can take its next step or waits for a wallet whose holder can |
| Endings.QueueRowsAreAllowed | internal/application/usecase/handle_message.go:160-164 | over any run whatever a delivery committed besides its inbox row is stored, under a provider on the list |
| Worker.NotClaimedBeforeItsTime | internal/platform/postgres/repository/transaction.go:126-159 | a row nobody has claimed and that is scheduled for an instant stays through every interleaving whose claims come before it |
| Serial.LockedRowIsCommittedRow | internal/platform/postgres/repository/wallet.go:35-75 | while the lock is held the committed row is the one read, and nobody else holds it |
| Serial.NoLostUpdate | internal/platform/postgres/repository/wallet.go:61-75 | a committed movement starts from the balance and version committed at that moment and leaves what it computed |
| Serial.EntriesChain | internal/platform/postgres/repository/ledger.go:23-38 | successive movements of a wallet each start from the balance the previous left, in append order |
| Serial.CommitsAsIfAlone | internal/application/usecase/process_transaction.go:94-118 | a committing unit decides as if run alone at its commit, exactly unless a reference in another wallet settled after it was read |
| Serial.StaleSettlesTheSame | internal/application/usecase/resolve_pending.go:109-159 | a row waiting although its foreign reference settled is rejected with the reference's code whenever it is resumed alone |
| StaleFate.AloneWasRejected | internal/application/usecase/process_transaction.go:284-309 | a unit that commits on a stale reference would alone have been rejected with the code of that reference |
| StaleFate.StaleEnds | internal/application/usecase/resolve_pending.go:109-190 | in every later state its row waits or was rejected with that code, exactly unless it was the last attempt of a resumption, which is rejected as reference not found |
| StaleRun.StaleHappens | internal/application/usecase/process_transaction.go:284-309 | runs of parsed commands reach such a commit, by a new rollback and by the last attempt of a resumption |
| Once.ExactlyOnce | internal/application/usecase/handle_message.go:89-128 | commits per (consumer, message id), per idempotency key and per external id number one if recorded and none otherwise |
| Once.ResumesAreBounded | internal/application/usecase/resolve_pending.go:161-190 | a row is resumed by at most MaxAttempts commits, and while it waits its attempts are exactly their number |
| Once.ResumeProgress | internal/application/usecase/resolve_pending.go:137-190 | a committed resumption makes the row terminal or raises its attempts by one, below the limit |
| Announcements.EveryOutcomeIsAnnounced | internal/application/usecase/outbox_events.go:68-148 | in every reachable state the outcome events of a row are exactly its waiting, if it waited, and its terminal status, if it settled |
| Guarantees.BooksBalance | internal/application/usecase/reconcile_wallet.go:40-78 | in every reachable state balance, ledger sum, standing operations, event stream and reconciliation agree |
| Guarantees.UndoneOnce | internal/application/usecase/process_transaction.go:311-359 | in every reachable state no operation is undone twice, and a reversal agrees with what it undid |
| Guarantees.PagesOfARun | internal/platform/postgres/repository/ledger.go:40-99 | pages read while the system runs never repeat an entry, and at the end hold every entry there at the start |
| Replay.ResubmissionChangesNothing | internal/application/usecase/process_transaction.go:165-197 | a recorded operation submitted again, by either channel with any payload, changes no business table |
| Replay.FrozenReplay | internal/application/usecase/process_transaction.go:199-216 | at any later state of the concurrent system the identical resubmission gets the same outcome, a ledger prefix sum |
| Replay.ResubmissionAnswers | internal/application/usecase/process_transaction.go:165-197 | replay for the same hash, conflict for another, reapplied for another key |
| Replay.StoredRows | internal/domain/wagering/transaction.go:215-320 | PENDING is never stored, optional columns match the status, terminal rows never change over any run |
| Replay.RunWithoutRepeats | internal/application/usecase/process_transaction.go:94-197 | a run equals the run without resubmissions when delivery ids keep their content |
| Replay.RunWithoutRepeatsExactly | internal/application/usecase/handle_message.go:91-98 | the two runs agree at every point exactly when no reused delivery id carries a new operation the pruned run would apply |
| Replay.MaskedIsApplied | internal/application/usecase/handle_message.go:91-146 | under fresh identifiers it would apply it exactly when the command decides to write, in its wallet's currency |
| Replay.ReusedDeliveryId | internal/application/usecase/handle_message.go:91-98 | a delivery id reused for an operation that would have had an effect makes the two runs differ |
| ReuseRun.ReusedDeliveryHappens | internal/application/usecase/handle_message.go:91-98 | a run of four operations from empty tables shows it |
| OutOfOrder.ResumptionIsLateSubmission | internal/application/usecase/resolve_pending.go:109-239 | resuming against a terminal reference decides what the original command decides without the pending row |
| OutOfOrder.OutOfOrderAgrees | internal/application/usecase/resolve_pending.go:109-239 | and commits the same reply, wallets, ledger, outbox and row, up to creation time and attempts |
| Consumer.HandleOne | internal/platform/awssqs/consumer.go:165-227 | delete after success, copy and delete when poisonous, leave otherwise |
| Consumer.WhatBecomesOfIt | internal/platform/awssqs/consumer.go:165-227 | after a success whose delete works the message is gone; a hopeless one is copied if the copy works, and then gone if the delete works; any other stays |
| Consumer.HandledIsRecorded | internal/application/usecase/handle_message.go:90-128 | success means the inbox holds the id of this well-formed, allowed message with the hash of its command |
| Consumer.RedeliveryIsIdle | internal/application/usecase/handle_message.go:91-98 | after a success every redelivery succeeds and changes nothing |
| Consumer.NoMessageIsLost | internal/platform/awssqs/consumer.go:165-227 | over any run with failing calls and crashes, a message is queued, or recorded with its payload, or dead-lettered |
| Consumer.PoisonIsHopeless | internal/platform/awssqs/consumer.go:299-303 | a message is answered as poison exactly when it is malformed, has no id, the wrong type or no command, its provider is not on the list, or its id is on record for other content; and then the tables stay |
| Consumer.OnlyHopelessAreDead | internal/platform/awssqs/consumer.go:207-220 | over any run the dead-letter queue holds only messages that could never be applied |
| Outbox.BatchIsTheFirst | internal/platform/postgres/repository/outbox.go:47-90 | a claim takes distinct claimable rows in order and leaves one behind only when full of earlier ones |
| Outbox.BatchExactly | internal/platform/postgres/repository/outbox.go:47-90 | the same on the columns: unpublished, due, unleased or past the lease, ordered by next_attempt_at and id |
| Outbox.WhenClaimable | internal/platform/postgres/repository/outbox.go:22-90 | a new event is due when it occurred, a leased one after its lease, a published one never |
| Outbox.Table.Append | internal/platform/postgres/repository/outbox.go:22-44 | a new row, unleased and due at once, or a conflict |
| Outbox.Table.Claim | internal/platform/postgres/repository/outbox.go:47-90 | the batch is leased and returned as leased, in an order of the database's choosing; nothing else changes |
| Outbox.Table.MarkPublished | internal/platform/postgres/repository/outbox.go:93-104 | publishes an unpublished row by id, and fails otherwise |
| Outbox.Table.ReleaseWithBackoff | internal/platform/postgres/repository/outbox.go:107-124 | reschedules an unpublished row by id, and fails otherwise |
| Outbox.Publisher.PublishOne | internal/platform/awssqs/publisher.go:238-285 | send, then mark or release; success only when marked |
| Outbox.AttemptEnds | internal/platform/awssqs/publisher.go:238-285 | sent and marked, or not sent and released with one more attempt and its backoff, told on the row; the row stays if the update is lost |
| Outbox.Publisher.Tick | internal/platform/awssqs/publisher.go:204-236 | one attempt per claimed record, counting the marked ones |
| Publishing.RunSafe | internal/platform/awssqs/publisher.go:204-285 | with no timing assumption: only committed events sent, unchanged, published implies sent, never undone |
| Leases.StepExclusive | internal/platform/postgres/repository/outbox.go:55-116 | from an exclusive state a step leads to another exactly when it is no claim of a record in hand |
| Leases.TakesOverdue | internal/platform/postgres/repository/outbox.go:55-64 | such a claim is exactly one that takes a record in hand of a publisher past its lease |
| Leases.ExclusiveExactly | internal/platform/postgres/repository/outbox.go:55-116 | a run stays exclusive throughout exactly when no claim takes a record in hand, and then attempts never fall |
| Leases.RunExclusive | internal/platform/postgres/repository/outbox.go:55-116 | over timely runs every held record is unpublished, leased to its holder and current, and attempts never fall |
| Leases.OneHolder | internal/platform/postgres/repository/outbox.go:55-71 | hence two publishers never hold one event |
| Leases.GiveBackLowersExactly | internal/platform/postgres/repository/outbox.go:107-124 | a release lowers the stored count exactly when others raised it by two or more since the record was read |
| Leases.StalledPublisher | internal/platform/postgres/repository/outbox.go:93-124 | under every configuration and for every event a publisher stalled past its lease can lead to two holders and a falling count |
| Delivery.WorkIsARun | internal/platform/awssqs/publisher.go:220-236 | a publisher's loop is a run of the concurrent steps |
| Delivery.EventuallyClaimable | internal/platform/postgres/repository/outbox.go:55-64 | every unpublished row is claimable from some instant on |
| Delivery.NeverStuck | internal/platform/awssqs/publisher.go:204-285 | from every safe state any idle publisher, ticking with its configured batch size and no earlier than the clock, can still send and mark an unpublished event |
| Delivery.ReleaseBacksOff | internal/platform/awssqs/publisher.go:269-285 | a released event counts one attempt and stays unclaimable for the base delay doubled once per earlier attempt, up to the ceiling |
| Composition.OnlyCommittedEventsAreSent | internal/platform/awssqs/publisher.go:204-285 | in every reachable state of units and publishers together, what was sent is a committed event, every committed event has its row, and published implies sent |
| Composition.EveryCommittedEventCanBeSent | internal/platform/awssqs/publisher.go:204-285 | and every committed event was sent or can still be, by any idle publisher |
| Paging.ListByWallet | internal/platform/postgres/repository/ledger.go:44-99 | the page is the first rows past the cursor and says whether more follow |
| Paging.PageInOrder | internal/platform/postgres/repository/ledger.go:56-98 | a page is in order past its cursor, and everything else past it lies past the next cursor |
| Paging.PageExactly | internal/platform/postgres/repository/ledger.go:44-99 | a page holds at most limit entries, exactly limit if there is a next one, ordered by created_at and id, past the cursor; what it leaves out comes after its last |
| Paging.WalkWithAppends | internal/platform/postgres/repository/ledger.go:40-99 | with appends between pages nothing repeats, and a finished walk has every initial entry |
| Paging.WalkIsExact | internal/platform/postgres/repository/ledger.go:40-99 | over a fixed ledger the walk ends with every entry of the wallet exactly once, in order |

## Left out

- HTTP handlers, JWT validation, configuration, logging, metrics, correlation ids, shutdown and wiring: no part of the state machine.
- SHA-256, JSON, base64 cursors and UUID generation: parameters or fresh inputs.
- Infrastructure failures of single statements: in the concurrent system they are crashes of the unit; a generator that fails at the inbox row's own id rolls back and is one of them.
- Isolation.RunOk: deliveries whose identifiers fail after the first write are excluded, because they break the invariant (Messages.HandleInvExactly).
- Interleaving: the writes of a unit are taken together at its commit. Statements that wait for a lock are enabled when it is free; wallet locks alone never deadlock (Endings.NeverDeadlocked), and a deadlock through anything else, which aborts a unit, appears as a crash. The handler's first inbox lookup and its insert are one step: the race branch of the handler gives the same answer as the lookup.
- The wallet version and the attempt count are unbounded integers: the int64 and int columns would need that many movements of one wallet.
- Rehydration validates rows again and would fail on rows the schema admits but the domain does not; the model rehydrates what its own statements stored.
- CURRENCY_MISMATCH: the code and the unit test of the use case, which runs against fakes without the composite foreign key, expect this rejection to be stored. The model follows the schema (Outcomes.ForeignCurrencyIsRefused).
- Wagering.Transaction: `Fail` is modelled as a function only, since no use case calls it.
- Ledger mutation: the append-only trigger is the absence of any statement that changes the ledger.
- Leases.RunExclusive: publishers are assumed to have distinct names, and to finish or die before their lease ends.
- Broker-side redrive of messages received too often is configuration of the queue, not of the consumer.
- Liveness under persistent infrastructure failure, or when a worker credit overflows int64 and rolls back every time: termination is stated over committed resumptions.
