// What one unit does to the tables and answers its caller, told from the text of the command and
// the rows it finds, for submissions over HTTP, deliveries and resumptions.
module Effects {
  import opened Base
  import opened MoneyModel
  import opened Wagering
  import opened Wallets
  import opened Store
  import opened Process
  import opened Resolve
  import opened Units
  import opened Invariant
  import opened Legality
  import opened Admission
  import opened Outcomes
  import opened Steps
  import opened Texts

  // ----- effects on the tables

  // One transaction row was added or replaced, and no other touched.
  predicate OneRow(db: Db, after: Db, id: Id) {
    id in after.txs && after.txs.Keys == db.txs.Keys + {id} && forall o | o in db.txs && o != id :: after.txs[o] == db.txs[o]
  }

  // The entry a movement leaves at the end of the ledger.
  predicate OneEntry(db: Db, after: Db, w: WalletRow, id: Id, entryId: Id, change: int, now: Instant) {
    && |after.ledger| == |db.ledger| + 1 && after.ledger[..|db.ledger|] == db.ledger
    && var e := after.ledger[|db.ledger|];
       && e.id == entryId && e.walletId == w.id && e.txId == id && e.createdAt == now && e.currency == w.currency
       && e.direction == (if change > 0 then Credit else Debit)
       && e.amount as int == (if change > 0 then change else -change)
       && e.before == w.balance && e.after as int == w.balance as int + change
  }

  // The transaction was processed and changed the balance of its wallet, and of no other, by this.
  predicate Took(db: Db, after: Db, w: WalletRow, id: Id, entryId: Id, change: int, now: Instant) {
    && OneRow(db, after, id) && after.txs[id].status == Processed && after.inbox == db.inbox
    && after.txs[id].result.Some? && after.txs[id].result.value.balance.currency == w.currency
    && after.txs[id].result.value.balance.minor as int == w.balance as int + change
    && db.outbox <= after.outbox && |after.outbox| == |db.outbox| + (if change == 0 then 1 else 2)
    && if change == 0 then after.wallets == db.wallets && after.ledger == db.ledger
       else
         && w.id in after.wallets && after.wallets[w.id].balance as int == w.balance as int + change
         && after.wallets ==
            db.wallets[w.id := w.(balance := after.wallets[w.id].balance, version := w.version + 1, updatedAt := now)]
         && OneEntry(db, after, w, id, entryId, change, now)
  }

  // The transaction was stored without moving anything.
  predicate Turned(db: Db, after: Db, id: Id, status: Status, failure: Option<FailureCode>) {
    && OneRow(db, after, id) && after.txs[id].status == status && after.txs[id].failure == failure
    && after.wallets == db.wallets && after.ledger == db.ledger && after.inbox == db.inbox
    && db.outbox <= after.outbox && |after.outbox| == |db.outbox| + 1
  }

  lemma SettledTakes(db: Db, plan: Plan, w: WalletRow, ids: Ids, change: int, now: Instant)
    requires Keyed(db) && plan.Write? && Legal(db, plan.delta) && w.id in db.wallets && db.wallets[w.id] == w
    requires plan.delta.tx.info.walletId == w.id && w.id != 0 && Settles(plan, w, change)
    requires Concerns(plan, plan.delta.create, plan.delta.tx.info, w, ids, now)
    ensures Took(db, Applied(db, plan.delta), w, plan.delta.tx.info.id, ids.entry, change, now)
  {
  }

  lemma RejectedTurns(db: Db, plan: Plan, w: WalletRow, ids: Ids, code: FailureCode, now: Instant)
    requires plan.Write? && Rejects(plan, code) && Concerns(plan, plan.delta.create, plan.delta.tx.info, w, ids, now)
    ensures Turned(db, Applied(db, plan.delta), plan.delta.tx.info.id, Rejected, Some(code))
  {
  }

  lemma WaitingTurns(db: Db, plan: Plan, w: WalletRow, ids: Ids, now: Instant)
    requires plan.Write? && Waits(plan) && plan.delta.create && FieldsMatchStatus(plan.delta.tx)
    requires Concerns(plan, true, plan.delta.tx.info, w, ids, now)
    ensures Turned(db, Applied(db, plan.delta), plan.delta.tx.info.id, PendingReference, None)
  {
  }

  // ----- what a caller is told

  // A movement, if the balance covers it and int64 holds the result.
  predicate Carries(
    db: Db, after: Db, r: Result<TxResult>, w: WalletRow, id: Id, entryId: Id, change: int, short: FailureCode, now: Instant)
  {
    if w.balance as int + change < 0 then Denied(db, after, r, id, short)
    else if !Fits(w.balance as int + change) then r == Err(AmountOverflow) && after == db
    else
      && Took(db, after, w, id, entryId, change, now)
      && r == Ok(TxResult(id, Processed, Some(after.txs[id].result.value.balance), None, false))
  }

  predicate Denied(db: Db, after: Db, r: Result<TxResult>, id: Id, code: FailureCode) {
    r == Ok(TxResult(id, Rejected, None, Some(code), false)) && Turned(db, after, id, Rejected, Some(code))
  }

  // A reversal whose reference ended: a REFUND undoes a processed bet, a ROLLBACK a processed bet,
  // win or refund, once, if wallet, player, round and amount agree; a bet is paid back, anything
  // else taken back.
  predicate Undoes(
    db: Db, after: Db, r: Result<TxResult>, w: WalletRow, kind: string, t: Tx, agrees: bool, amount: int, id: Id, entryId: Id,
    now: Instant)
  {
    if t.status != Processed
       || !((kind == "REFUND" && t.info.kind == Bet) || (kind == "ROLLBACK" && t.info.kind in {Bet, Win, Refund}))
    then Denied(db, after, r, id, ReferenceNotProcessed)
    else if !agrees then Denied(db, after, r, id, ReferenceMismatch)
    else if exists o | o in db.txs ::
              db.txs[o].info.kind in {Refund, Rollback} && db.txs[o].status == Processed && db.txs[o].refId == Some(t.info.id)
    then Denied(db, after, r, id, DuplicateReversal)
    else Carries(db, after, r, w, id, entryId, if t.info.kind == Bet then amount else -amount, ReversalExceedsBalance, now)
  }

  // The row, if any, that bears the external id.
  predicate IsReference(db: Db, provider: string, externalId: string, reference: Option<Tx>) {
    match reference
    case None =>
      forall o | o in db.txs ::
        !(db.txs[o].info.external && db.txs[o].info.provider == provider && db.txs[o].info.externalId == externalId)
    case Some(t) =>
      && t.info.id in db.txs && db.txs[t.info.id] == t
      && t.info.external && t.info.provider == provider && t.info.externalId == externalId
  }

  // How a new submission by the wallet's player in its currency ends.
  predicate SubmissionEnds(
    db: Db, after: Db, r: Result<TxResult>, req: Request, w: WalletRow, reference: Option<Tx>, ids: Ids, now: Instant)
  {
    var c, amount := req.cmd, req.amount.minor as int;
    if c.kind == "BET" then Carries(db, after, r, w, ids.tx, ids.entry, -amount, InsufficientFunds, now)
    else if c.kind == "WIN" then Carries(db, after, r, w, ids.tx, ids.entry, amount, InsufficientFunds, now)
    else if c.kind == "LOSS" then Carries(db, after, r, w, ids.tx, ids.entry, 0, InsufficientFunds, now)
    else if reference.None? || reference.value.status == PendingReference then
      && r == Ok(TxResult(ids.tx, PendingReference, None, None, false)) && Turned(db, after, ids.tx, PendingReference, None)
      && after.txs[ids.tx].attempts == 0 && after.txs[ids.tx].nextRetry == Some(now)
    else
      var t := reference.value;
      Undoes(db, after, r, w, c.kind, t,
             t.info.walletId == req.walletId && t.info.playerId == req.playerId && t.info.round == c.round && t.info.amount == req.amount,
             amount, ids.tx, ids.entry, now)
  }

  // ----- from decisions to effects

  // A decision that refuses, or whose writes all go through.
  ghost predicate Lands(db: Db, plan: Plan, w: WalletRow, ids: Ids, now: Instant) {
    && !plan.Reply?
    && (plan.Write? ==>
          && Legal(db, plan.delta) && RunDelta(db, plan.delta) == Exec(Applied(db, plan.delta), None, false)
          && plan.delta.tx.info.walletId == w.id
          && Concerns(plan, plan.delta.create, plan.delta.tx.info, w, ids, now))
  }

  function After(db: Db, plan: Plan): Db {
    CommitOrRollback(db, PlanExec(db, plan))
  }

  lemma CarriesAsDecided(db: Db, plan: Plan, w: WalletRow, id: Id, ids: Ids, change: int, short: FailureCode, now: Instant)
    requires Keyed(db) && w.id in db.wallets && db.wallets[w.id] == w && w.id != 0 && Lands(db, plan, w, ids, now)
    requires plan.Write? ==> plan.delta.tx.info.id == id
    requires if w.balance as int + change < 0 then Rejects(plan, short)
             else if !Fits(w.balance as int + change) then plan == Refuse(AmountOverflow)
             else Settles(plan, w, change)
    ensures Carries(db, After(db, plan), PlanReply(db, plan), w, id, ids.entry, change, short, now)
  {
    if w.balance as int + change < 0 {
      RejectedTurns(db, plan, w, ids, short, now);
    } else if Fits(w.balance as int + change) {
      SettledTakes(db, plan, w, ids, change, now);
    }
  }

  lemma DeniedAsDecided(db: Db, plan: Plan, w: WalletRow, id: Id, ids: Ids, code: FailureCode, now: Instant)
    requires Lands(db, plan, w, ids, now) && Rejects(plan, code) && plan.delta.tx.info.id == id
    ensures Denied(db, After(db, plan), PlanReply(db, plan), id, code)
  {
    RejectedTurns(db, plan, w, ids, code, now);
  }

  lemma UndoesAsDecided(
    db: Db, plan: Plan, w: WalletRow, kind: Kind, text: string, t: Tx, agrees: bool, amount: int, id: Id, ids: Ids, now: Instant)
    requires Keyed(db) && w.id in db.wallets && db.wallets[w.id] == w && w.id != 0 && Lands(db, plan, w, ids, now)
    requires (plan.Write? ==> plan.delta.tx.info.id == id) && kind in {Refund, Rollback} && text == KindName(kind)
    requires agrees ==> t.info.amount.minor as int == amount
    requires ReversalEnds(plan, w, t, kind, agrees, HasSuccessfulReversal(db.txs, t.info.id))
    ensures Undoes(db, After(db, plan), PlanReply(db, plan), w, text, t, agrees, amount, id, ids.entry, now)
  {
    assert HasSuccessfulReversal(db.txs, t.info.id) <==>
           exists o | o in db.txs ::
             db.txs[o].info.kind in {Refund, Rollback} && db.txs[o].status == Processed && db.txs[o].refId == Some(t.info.id);
    if t.status != Processed || !Undoable(kind, t.info.kind) {
      DeniedAsDecided(db, plan, w, id, ids, ReferenceNotProcessed, now);
    } else if !agrees {
      DeniedAsDecided(db, plan, w, id, ids, ReferenceMismatch, now);
    } else if HasSuccessfulReversal(db.txs, t.info.id) {
      DeniedAsDecided(db, plan, w, id, ids, DuplicateReversal, now);
    } else {
      CarriesAsDecided(db, plan, w, id, ids, Undoing(t), ReversalExceedsBalance, now);
    }
  }

  // ----- new submissions

  // A submission of the wallet's player in its currency, not on record, under fresh identifiers.
  ghost predicate NewSubmission(db: Db, codec: Codec, c: Command, req: Request, ids: Ids, now: Instant) {
    && Denotes(codec, c, req) && req.hash != "" && c.round != "" && c.game != "" && now != 0 && FreshIds(db, ids)
    && req.walletId in db.wallets && db.wallets[req.walletId].playerId == req.playerId
    && db.wallets[req.walletId].currency == c.currency
    && (forall o | o in db.txs ::
          !(db.txs[o].info.external && db.txs[o].info.provider == c.provider
            && (db.txs[o].info.key == c.key || db.txs[o].info.externalId == c.externalId)))
  }

  lemma NewIsApplied(db: Db, codec: Codec, c: Command, req: Request, ids: Ids, now: Instant)
    requires Sound(db) && NewSubmission(db, codec, c, req, ids, now)
    ensures RequestPlan(db, req, ids, now) ==
            ApplyPlan(req, db.wallets[req.walletId], ViewOf(db, c.provider, c.refExternal), ids, now)
    ensures Acceptable(req, db.wallets[req.walletId], ids, now)
  {
    AcceptedExactly(codec, c, req, ids.tx, now);
  }

  lemma NeverAReply(req: Request, w: WalletRow, view: View, ids: Ids, now: Instant)
    requires w.balance >= 0
    ensures !ApplyPlan(req, w, view, ids, now).Reply?
  {
  }

  lemma WritesLand(db: Db, req: Request, ids: Ids, now: Instant)
    requires Inv(db) && FreshIds(db, ids) && RequestPlan(db, req, ids, now).Write?
    requires db.wallets[req.walletId].currency == req.amount.currency
    ensures var d := RequestPlan(db, req, ids, now).delta;
            Legal(db, d) && RunDelta(db, d) == Exec(Applied(db, d), None, false)
  {
    FreshRun(db, req, ids, now);
    RequestKeepsInv(db, req, ids, now);
    LegalRun(db, RequestPlan(db, req, ids, now).delta);
  }

  lemma SubmissionLands(db: Db, req: Request, ids: Ids, now: Instant)
    requires Inv(db) && FreshIds(db, ids) && req.walletId in db.wallets && db.wallets[req.walletId].currency == req.amount.currency
    requires ReplayPlan(db.txs, req).None?
    ensures Lands(db, RequestPlan(db, req, ids, now), db.wallets[req.walletId], ids, now)
    ensures RequestPlan(db, req, ids, now).Write? ==> RequestPlan(db, req, ids, now).delta.tx.info.id == ids.tx
  {
    var w, view := db.wallets[req.walletId], ViewOf(db, req.cmd.provider, req.cmd.refExternal);
    NeverAReply(req, w, view, ids, now);
    ApplyConcerns(req, w, view, ids, now);
    if RequestPlan(db, req, ids, now).Write? {
      WritesLand(db, req, ids, now);
    }
  }

  lemma LegalRun(db: Db, d: Delta)
    requires Keyed(db) && Legal(db, d) && RunDelta(db, d).error.None?
    ensures RunDelta(db, d) == Exec(Applied(db, d), None, false)
  {
    RunIsApplied(db, d);
  }

  lemma ViewShows(db: Db, provider: string, externalId: string, reference: Option<Tx>)
    requires Sound(db) && IsReference(db, provider, externalId, reference)
    ensures ViewOf(db, provider, externalId).reference == reference
    ensures reference.Some? ==> ViewOf(db, provider, externalId).reverted == HasSuccessfulReversal(db.txs, reference.value.info.id)
  {
    if reference.Some? {
      FoundIsTheOne(db, reference.value.info.id);
    }
  }

  predicate DecidedDirectly(plan: Plan, kind: Kind, a: int, w: WalletRow) {
    match kind
    case Bet => a > 0 && if a > w.balance as int then Rejects(plan, InsufficientFunds) else Settles(plan, w, -a)
    case Win => a > 0 && if Fits(w.balance as int + a) then Settles(plan, w, a) else plan == Refuse(AmountOverflow)
    case Loss => Settles(plan, w, 0)
    case _ => false
  }

  lemma DirectDecided(db: Db, codec: Codec, c: Command, req: Request, ids: Ids, now: Instant)
    requires Sound(db) && NewSubmission(db, codec, c, req, ids, now) && c.kind in {"BET", "WIN", "LOSS"}
    ensures DecidedDirectly(RequestPlan(db, req, ids, now), req.kind, req.amount.minor as int, db.wallets[req.walletId])
  {
    NewIsApplied(db, codec, c, req, ids, now);
    DirectOutcome(req, db.wallets[req.walletId], ViewOf(db, c.provider, c.refExternal), ids, now);
  }

  lemma DirectCarries(db: Db, plan: Plan, req: Request, w: WalletRow, reference: Option<Tx>, ids: Ids, now: Instant)
    requires Keyed(db) && w.id in db.wallets && db.wallets[w.id] == w && w.id != 0 && w.balance >= 0 && Lands(db, plan, w, ids, now)
    requires plan.Write? ==> plan.delta.tx.info.id == ids.tx
    requires req.cmd.kind == KindName(req.kind) && DecidedDirectly(plan, req.kind, req.amount.minor as int, w)
    ensures SubmissionEnds(db, After(db, plan), PlanReply(db, plan), req, w, reference, ids, now)
  {
    var a := req.amount.minor as int;
    var change := if req.kind == Bet then -a else if req.kind == Win then a else 0;
    CarriesAsDecided(db, plan, w, ids.tx, ids, change, InsufficientFunds, now);
  }

  // The decision on a new submission, run on the tables.
  lemma DirectEnds(db: Db, codec: Codec, c: Command, req: Request, reference: Option<Tx>, ids: Ids, now: Instant)
    requires Inv(db) && NewSubmission(db, codec, c, req, ids, now) && c.kind in {"BET", "WIN", "LOSS"}
    ensures var plan := RequestPlan(db, req, ids, now);
            SubmissionEnds(db, After(db, plan), PlanReply(db, plan), req, db.wallets[req.walletId], reference, ids, now)
  {
    NothingOnRecord(db, codec, c, req, ids, now);
    SubmissionLands(db, req, ids, now);
    DirectDecided(db, codec, c, req, ids, now);
    DirectCarries(db, RequestPlan(db, req, ids, now), req, db.wallets[req.walletId], reference, ids, now);
  }

  lemma NothingOnRecord(db: Db, codec: Codec, c: Command, req: Request, ids: Ids, now: Instant)
    requires NewSubmission(db, codec, c, req, ids, now)
    ensures ReplayPlan(db.txs, req).None? && db.wallets[req.walletId].currency == req.amount.currency && req.cmd.kind == KindName(req.kind)
  {
  }

  lemma WaitingEnds(db: Db, plan: Plan, req: Request, w: WalletRow, reference: Option<Tx>, ids: Ids, now: Instant)
    requires req.cmd.kind in {"REFUND", "ROLLBACK"} && (reference.None? || reference.value.status == PendingReference)
    requires Lands(db, plan, w, ids, now) && Waits(plan) && plan.delta.create && plan.delta.tx.info.id == ids.tx
    requires plan.delta.tx.attempts == 0 && plan.delta.tx.nextRetry == Some(now)
    ensures SubmissionEnds(db, After(db, plan), PlanReply(db, plan), req, w, reference, ids, now)
  {
    WaitingTurns(db, plan, w, ids, now);
  }

  lemma EndedEnds(db: Db, plan: Plan, req: Request, w: WalletRow, t: Tx, ids: Ids, now: Instant)
    requires Keyed(db) && w.id in db.wallets && db.wallets[w.id] == w && w.id != 0 && Lands(db, plan, w, ids, now)
    requires (plan.Write? ==> plan.delta.tx.info.id == ids.tx) && req.kind in {Refund, Rollback} && req.cmd.kind == KindName(req.kind)
    requires t.status != PendingReference
    requires ReversalEnds(plan, w, t, req.kind, Agrees(t, req.walletId, req.playerId, req.cmd.round, req.amount),
                          HasSuccessfulReversal(db.txs, t.info.id))
    ensures SubmissionEnds(db, After(db, plan), PlanReply(db, plan), req, w, Some(t), ids, now)
  {
    UndoesAsDecided(db, plan, w, req.kind, req.cmd.kind, t, Agrees(t, req.walletId, req.playerId, req.cmd.round, req.amount),
                    req.amount.minor as int, ids.tx, ids, now);
  }

  // The decision on a new reversal, by what the tables hold.
  lemma ReversalDecided(db: Db, codec: Codec, c: Command, req: Request, reference: Option<Tx>, ids: Ids, now: Instant)
    requires Sound(db) && Rows(db) && NewSubmission(db, codec, c, req, ids, now) && c.kind in {"REFUND", "ROLLBACK"}
    requires IsReference(db, c.provider, c.refExternal, reference)
    ensures var plan := RequestPlan(db, req, ids, now);
            if reference.None? || reference.value.status == PendingReference then
              Waits(plan) && plan.delta.create && plan.delta.tx.attempts == 0 && plan.delta.tx.nextRetry == Some(now)
            else
              ReversalEnds(plan, db.wallets[req.walletId], reference.value, req.kind,
                           Agrees(reference.value, req.walletId, req.playerId, c.round, req.amount),
                           HasSuccessfulReversal(db.txs, reference.value.info.id))
  {
    NewIsApplied(db, codec, c, req, ids, now);
    ViewShows(db, c.provider, c.refExternal, reference);
    if reference.Some? {
      assert RowState(reference.value);
    }
    ReversalOutcome(req, db.wallets[req.walletId], ViewOf(db, c.provider, c.refExternal), ids, now);
    ApplyConcerns(req, db.wallets[req.walletId], ViewOf(db, c.provider, c.refExternal), ids, now);
  }

  // By the decision, whichever it is.
  lemma DecidedReversalEnds(db: Db, plan: Plan, req: Request, w: WalletRow, reference: Option<Tx>, ids: Ids, now: Instant)
    requires Keyed(db) && w.id in db.wallets && db.wallets[w.id] == w && w.id != 0 && Lands(db, plan, w, ids, now)
    requires (plan.Write? ==> plan.delta.tx.info.id == ids.tx) && req.kind in {Refund, Rollback} && req.cmd.kind == KindName(req.kind)
    requires if reference.None? || reference.value.status == PendingReference then
               Waits(plan) && plan.delta.create && plan.delta.tx.attempts == 0 && plan.delta.tx.nextRetry == Some(now)
             else
               ReversalEnds(plan, w, reference.value, req.kind,
                            Agrees(reference.value, req.walletId, req.playerId, req.cmd.round, req.amount),
                            HasSuccessfulReversal(db.txs, reference.value.info.id))
    ensures SubmissionEnds(db, After(db, plan), PlanReply(db, plan), req, w, reference, ids, now)
  {
    if reference.None? || reference.value.status == PendingReference {
      WaitingEnds(db, plan, req, w, reference, ids, now);
    } else {
      EndedEnds(db, plan, req, w, reference.value, ids, now);
    }
  }

  lemma ReversalEndsOnTables(db: Db, codec: Codec, c: Command, req: Request, reference: Option<Tx>, ids: Ids, now: Instant)
    requires Inv(db) && NewSubmission(db, codec, c, req, ids, now) && c.kind in {"REFUND", "ROLLBACK"}
    requires IsReference(db, c.provider, c.refExternal, reference)
    ensures var plan := RequestPlan(db, req, ids, now);
            SubmissionEnds(db, After(db, plan), PlanReply(db, plan), req, db.wallets[req.walletId], reference, ids, now)
  {
    NothingOnRecord(db, codec, c, req, ids, now);
    SubmissionLands(db, req, ids, now);
    ReversalDecided(db, codec, c, req, reference, ids, now);
    DecidedReversalEnds(db, RequestPlan(db, req, ids, now), req, db.wallets[req.walletId], reference, ids, now);
  }

  lemma RequestEnds(db: Db, codec: Codec, c: Command, req: Request, reference: Option<Tx>, ids: Ids, now: Instant)
    requires Inv(db) && NewSubmission(db, codec, c, req, ids, now) && IsReference(db, c.provider, c.refExternal, reference)
    ensures var plan := RequestPlan(db, req, ids, now);
            SubmissionEnds(db, After(db, plan), PlanReply(db, plan), req, db.wallets[req.walletId], reference, ids, now)
  {
    if c.kind in {"BET", "WIN", "LOSS"} {
      DirectEnds(db, codec, c, req, reference, ids, now);
    } else {
      ReversalEndsOnTables(db, codec, c, req, reference, ids, now);
    }
  }

  // A new submission over HTTP.
  lemma ExecuteEnds(db: Db, codec: Codec, c: Command, req: Request, reference: Option<Tx>, ids: Ids, now: Instant)
    requires Inv(db) && NewSubmission(db, codec, c, req, ids, now) && IsReference(db, c.provider, c.refExternal, reference)
    ensures var (after, r) := ExecuteStep(db, codec, c, ids, now);
            SubmissionEnds(db, after, r, req, db.wallets[req.walletId], reference, ids, now)
  {
    DenotedParses(codec, c, req);
    RequestEnds(db, codec, c, req, reference, ids, now);
  }

  // A new submission for somebody else's wallet, in its currency, is rejected and the rejection kept.
  lemma ForeignPlayerEnds(db: Db, codec: Codec, c: Command, req: Request, ids: Ids, now: Instant)
    requires Inv(db) && Denotes(codec, c, req) && req.hash != "" && c.round != "" && c.game != "" && now != 0 && FreshIds(db, ids)
    requires req.walletId in db.wallets && db.wallets[req.walletId].currency == c.currency
    requires db.wallets[req.walletId].playerId != req.playerId && !OnRecord(db, c)
    ensures var (after, r) := ExecuteStep(db, codec, c, ids, now); Denied(db, after, r, ids.tx, WalletPlayerMismatch)
  {
    var w, plan := db.wallets[req.walletId], RequestPlan(db, req, ids, now);
    DenotedParses(codec, c, req);
    ForeignDecided(db, codec, c, req, ids, now);
    SubmissionLands(db, req, ids, now);
    DeniedAsDecided(db, plan, w, ids.tx, ids, WalletPlayerMismatch, now);
  }

  lemma ForeignDecided(db: Db, codec: Codec, c: Command, req: Request, ids: Ids, now: Instant)
    requires Sound(db) && Denotes(codec, c, req) && req.hash != "" && c.round != "" && c.game != "" && now != 0 && ids.tx != 0
    requires req.walletId in db.wallets && db.wallets[req.walletId].playerId != req.playerId && !OnRecord(db, c)
    ensures ReplayPlan(db.txs, req).None? && Rejects(RequestPlan(db, req, ids, now), WalletPlayerMismatch)
  {
    AcceptedExactly(codec, c, req, ids.tx, now);
    assert forall o | o in db.txs :: !HasThisKey(db.txs[o], c) && !HasThisExternalId(db.txs[o], c);
    ForeignSubmission(req, db.wallets[req.walletId], ViewOf(db, c.provider, c.refExternal), ids, now);
  }

  // ----- operations on record

  predicate HasThisKey(t: Tx, c: Command) {
    t.info.external && t.info.provider == c.provider && t.info.key == c.key
  }

  predicate HasThisExternalId(t: Tx, c: Command) {
    t.info.external && t.info.provider == c.provider && t.info.externalId == c.externalId
  }

  predicate OnRecord(db: Db, c: Command) {
    exists o | o in db.txs :: HasThisKey(db.txs[o], c) || HasThisExternalId(db.txs[o], c)
  }

  // What a caller is told whose wallet is unknown, whose key is on record (with this content or
  // another), or whose operation is on record under another key.
  predicate ToldFromRecord(db: Db, req: Request, told: Result<TxResult>) {
    if req.walletId !in db.wallets then told == Err(NotFound)
    else
      && (forall o | o in db.txs && HasThisKey(db.txs[o], req.cmd) ::
            told == if db.txs[o].info.hash != req.hash then Err(IdempotencyConflict)
                    else Ok(TxResult(o, db.txs[o].status, if db.txs[o].result.Some? then Some(db.txs[o].result.value.balance) else None,
                                     db.txs[o].failure, true)))
      && ((forall o | o in db.txs :: !HasThisKey(db.txs[o], req.cmd)) ==> told == Err(OperationReapplied))
  }

  lemma RecordDecides(db: Db, req: Request, ids: Ids, now: Instant)
    requires Sound(db) && (req.walletId in db.wallets ==> OnRecord(db, req.cmd))
    ensures var plan := RequestPlan(db, req, ids, now);
            && !plan.Write? && ToldFromRecord(db, req, PlanReply(db, plan))
            && (plan.Refuse? ==> plan.error in {NotFound, IdempotencyConflict, OperationReapplied})
  {
    if req.walletId in db.wallets {
      RecordFound(db, req.cmd);
      RecordReplays(db, req, ReplayPlan(db.txs, req).value);
    }
  }

  lemma RecordFound(db: Db, c: Command)
    requires Sound(db)
    ensures forall o | o in db.txs && HasThisKey(db.txs[o], c) ::
              FindByKey(db.txs, c.provider, c.key) == Some(db.txs[o]) && db.txs[o].info.id == o
    ensures forall o | o in db.txs && HasThisExternalId(db.txs[o], c) ::
              FindByExternalId(db.txs, c.provider, c.externalId) == Some(db.txs[o])
  {
    forall o | o in db.txs && HasThisKey(db.txs[o], c)
      ensures FindByKey(db.txs, c.provider, c.key) == Some(db.txs[o]) && db.txs[o].info.id == o
    {
      FoundIsTheOne(db, o);
    }
    forall o | o in db.txs && HasThisExternalId(db.txs[o], c)
      ensures FindByExternalId(db.txs, c.provider, c.externalId) == Some(db.txs[o])
    {
      FoundIsTheOne(db, o);
    }
  }

  lemma RecordReplays(db: Db, req: Request, plan: Plan)
    requires req.walletId in db.wallets && OnRecord(db, req.cmd) && ReplayPlan(db.txs, req) == Some(plan)
    requires forall o | o in db.txs && HasThisKey(db.txs[o], req.cmd) ::
               FindByKey(db.txs, req.cmd.provider, req.cmd.key) == Some(db.txs[o]) && db.txs[o].info.id == o
    ensures !plan.Write? && ToldFromRecord(db, req, PlanReply(db, plan))
    ensures plan.Refuse? ==> plan.error in {NotFound, IdempotencyConflict, OperationReapplied}
  {
  }

  // An operation on record, or for a wallet there is not, submitted over HTTP.
  lemma RecordAnswers(db: Db, codec: Codec, c: Command, req: Request, ids: Ids, now: Instant)
    requires Sound(db) && Denotes(codec, c, req) && (req.walletId in db.wallets ==> OnRecord(db, c))
    ensures var (after, r) := ExecuteStep(db, codec, c, ids, now); after == db && ToldFromRecord(db, req, r)
  {
    DenotedParses(codec, c, req);
    RecordDecides(db, req, ids, now);
  }

  // ----- deliveries

  // A message with an id, of the right type, that carries a command.
  predicate Sealed(m: Message) {
    m.Envelope? && m.messageId != "" && m.isWagerRequest && m.data.Some?
  }

  predicate Authorized(ch: Channel, c: Command) {
    c.provider in ch.allowed && c.provider != ""
  }

  // A message that is not sealed, or whose provider is not on the list, leaves the tables as they
  // are; these and no other messages are so answered.
  lemma MessageAnswers(db: Db, codec: Codec, ch: Channel, m: Message, ids: Ids, now: Instant)
    requires Sound(db)
    ensures HandleStep(db, codec, ch, m, ids, now).1 == Err(InvalidEnvelope) <==> !Sealed(m)
    ensures HandleStep(db, codec, ch, m, ids, now).1 == Err(UnauthorizedProvider) <==> Sealed(m) && !Authorized(ch, m.data.value)
    ensures !Sealed(m) || !Authorized(ch, m.data.value) ==> HandleStep(db, codec, ch, m, ids, now).0 == db
  {
  }

  lemma EnvelopeExactly(ch: Channel, m: Message)
    ensures ParseEnvelope(ch, m).Ok? <==> Sealed(m) && Authorized(ch, m.data.value)
    ensures ParseEnvelope(ch, m).Ok? ==> ParseEnvelope(ch, m).value == m.data.value
  {
  }

  // Deliveries under different ids, or for different consumers, are different deliveries.
  lemma KeysTellApart(a: Channel, m: Message, b: Channel, n: Message)
    requires m.Envelope? && n.Envelope?
    ensures Key(a, m) == Key(b, n) <==> a.consumer == b.consumer && m.messageId == n.messageId
  {
  }

  // The tables with the delivery's inbox row.
  function Noted(db: Db, ch: Channel, m: Message, hash: string): Db
    requires m.Envelope?
  {
    db.(inbox := db.inbox[(ch.consumer, m.messageId) := hash])
  }

  // The inbox row changes nothing a submission looks at.
  lemma StillNew(db: Db, noted: Db, codec: Codec, c: Command, req: Request, reference: Option<Tx>, ids: Ids, now: Instant)
    requires NewSubmission(db, codec, c, req, ids, now) && IsReference(db, c.provider, c.refExternal, reference)
    requires noted == db.(inbox := noted.inbox)
    ensures NewSubmission(noted, codec, c, req, ids, now) && IsReference(noted, c.provider, c.refExternal, reference)
  {
  }

  lemma NotedEnds(db: Db, noted: Db, codec: Codec, c: Command, req: Request, reference: Option<Tx>, ids: Ids, now: Instant)
    requires Inv(noted) && NewSubmission(noted, codec, c, req, ids, now) && IsReference(noted, c.provider, c.refExternal, reference)
    ensures var plan := RequestPlan(noted, req, ids, now);
            && SubmissionEnds(noted, After(noted, plan), PlanReply(noted, plan), req, noted.wallets[req.walletId], reference, ids, now)
            && HandleCommit(db, noted, plan) ==
               (After(noted, plan), Ok(if PlanReply(noted, plan).Ok? then Some(PlanReply(noted, plan).value) else None))
            && (PlanReply(noted, plan).Err? ==> PlanReply(noted, plan).error == AmountOverflow)
  {
    RequestEnds(noted, codec, c, req, reference, ids, now);
    SubmissionNeverFails(noted, codec, c, req, ids, now);
    CommitFollows(db, noted, RequestPlan(noted, req, ids, now));
  }

  // A new submission by a delivery ends as over HTTP: its inbox row is committed with the effect,
  // or alone if there is none.
  lemma HandleEnds(
    db: Db, codec: Codec, ch: Channel, m: Message, req: Request, reference: Option<Tx>, ids: Ids, now: Instant)
    requires Inv(db) && Sealed(m) && Authorized(ch, m.data.value) && (ch.consumer, m.messageId) !in db.inbox
    requires NewSubmission(db, codec, m.data.value, req, ids, now)
    requires IsReference(db, m.data.value.provider, m.data.value.refExternal, reference)
    ensures var (after, r) := HandleStep(db, codec, ch, m, ids, now);
            && r.Ok?
            && SubmissionEnds(Noted(db, ch, m, req.hash), after, if r.value.Some? then Ok(r.value.value) else Err(AmountOverflow),
                              req, db.wallets[req.walletId], reference, ids, now)
  {
    var noted := Noted(db, ch, m, req.hash);
    RecordKeepsInv(db, Key(ch, m), req.hash);
    StillNew(db, noted, codec, m.data.value, req, reference, ids, now);
    NotedEnds(db, noted, codec, m.data.value, req, reference, ids, now);
    DenotedDelivery(db, codec, ch, m, req, ids, now);
  }

  lemma DenotedDelivery(db: Db, codec: Codec, ch: Channel, m: Message, req: Request, ids: Ids, now: Instant)
    requires Sound(db) && Sealed(m) && Authorized(ch, m.data.value) && (ch.consumer, m.messageId) !in db.inbox
    requires Denotes(codec, m.data.value, req)
    ensures HandleStep(db, codec, ch, m, ids, now) ==
            HandleCommit(db, Noted(db, ch, m, req.hash), RequestPlan(Noted(db, ch, m, req.hash), req, ids, now))
  {
    DenotedParses(codec, m.data.value, req);
    NewDelivery(db, codec, ch, m, req, ids, now);
  }

  lemma SubmissionNeverFails(db: Db, codec: Codec, c: Command, req: Request, ids: Ids, now: Instant)
    requires Inv(db) && NewSubmission(db, codec, c, req, ids, now)
    ensures var plan := RequestPlan(db, req, ids, now);
            !plan.Reply? && (plan.Write? ==> RunDelta(db, plan.delta).error.None? && !RunDelta(db, plan.delta).failed)
            && (plan.Refuse? ==> plan.error == AmountOverflow)
  {
    NewIsApplied(db, codec, c, req, ids, now);
    SubmissionLands(db, req, ids, now);
    var w := db.wallets[req.walletId];
    if req.kind in {Refund, Rollback} {
      ViewIsStored(db, c.provider, c.refExternal);
      StoredReferenceId(db, c.provider, c.refExternal);
      ReversalOutcome(req, w, ViewOf(db, c.provider, c.refExternal), ids, now);
    } else {
      DirectOutcome(req, w, ViewOf(db, c.provider, c.refExternal), ids, now);
    }
  }

  lemma StoredReferenceId(db: Db, provider: string, refExternal: string)
    requires Rows(db)
    ensures ViewOf(db, provider, refExternal).reference.Some? ==> ViewOf(db, provider, refExternal).reference.value.info.id != 0
  {
  }

  // How a delivery commits a decision that cannot fail.
  lemma CommitFollows(db: Db, recorded: Db, plan: Plan)
    requires !plan.Reply? && (plan.Write? ==> RunDelta(recorded, plan.delta).error.None? && !RunDelta(recorded, plan.delta).failed)
    requires plan.Refuse? ==> plan.error == AmountOverflow
    ensures HandleCommit(db, recorded, plan) ==
            (After(recorded, plan), Ok(if PlanReply(recorded, plan).Ok? then Some(PlanReply(recorded, plan).value) else None))
    ensures PlanReply(recorded, plan).Err? ==> PlanReply(recorded, plan).error == AmountOverflow
  {
  }

  // A delivery whose decision is a refusal commits exactly its inbox row and succeeds: the message
  // is not to come back. So does one of a recorded operation.
  lemma RefusedDeliveryIsNoted(db: Db, codec: Codec, ch: Channel, m: Message, ids: Ids, now: Instant)
    requires Sound(db) && Sealed(m) && Authorized(ch, m.data.value) && (ch.consumer, m.messageId) !in db.inbox
    requires var noted := Noted(db, ch, m, PayloadHash(codec, m.data.value));
             var plan := ExecutePlan(noted, codec, m.data.value, ids, now);
             plan.Reply? || (plan.Refuse? && plan.error != CommitFailed && plan.error != Infrastructure)
    ensures var (after, r) := HandleStep(db, codec, ch, m, ids, now);
            after == Noted(db, ch, m, PayloadHash(codec, m.data.value)) && r.Ok?
  {
    EnvelopeExactly(ch, m);
  }

  // The same submitted by a delivery: only its inbox row is new, and the answer is none unless it
  // is an outcome on record.
  lemma RecordAnswersDelivery(db: Db, codec: Codec, ch: Channel, m: Message, req: Request, ids: Ids, now: Instant)
    requires Sound(db) && Sealed(m) && Authorized(ch, m.data.value) && (ch.consumer, m.messageId) !in db.inbox
    requires Denotes(codec, m.data.value, req) && (req.walletId in db.wallets ==> OnRecord(db, m.data.value))
    ensures var (after, r) := HandleStep(db, codec, ch, m, ids, now);
            && after == Noted(db, ch, m, req.hash) && r.Ok?
            && exists told: Result<TxResult> :: ToldFromRecord(db, req, told) && r.value == if told.Ok? then Some(told.value) else None
  {
    var noted := Noted(db, ch, m, req.hash);
    DenotedDelivery(db, codec, ch, m, req, ids, now);
    RecordDecides(noted, req, ids, now);
    QuietCommit(db, noted, RequestPlan(noted, req, ids, now));
    SameRecord(db, noted, req, PlanReply(noted, RequestPlan(noted, req, ids, now)));
  }

  lemma QuietCommit(db: Db, noted: Db, plan: Plan)
    requires !plan.Write? && (plan.Refuse? ==> plan.error != CommitFailed && plan.error != Infrastructure)
    ensures HandleCommit(db, noted, plan) == (noted, Ok(if plan.Reply? then Some(plan.result) else None))
    ensures PlanReply(noted, plan) == if plan.Reply? then Ok(plan.result) else Err(plan.error)
  {
  }

  lemma SameRecord(db: Db, noted: Db, req: Request, told: Result<TxResult>)
    requires noted.txs == db.txs && noted.wallets == db.wallets
    ensures ToldFromRecord(noted, req, told) <==> ToldFromRecord(db, req, told)
  {
  }

  // A delivery whose id is on record changes nothing; with the same content it succeeds.
  lemma DeliveredBefore(db: Db, codec: Codec, ch: Channel, m: Message, ids: Ids, now: Instant)
    requires Sound(db) && Sealed(m) && Authorized(ch, m.data.value) && (ch.consumer, m.messageId) in db.inbox
    ensures HandleStep(db, codec, ch, m, ids, now) ==
            (db, if db.inbox[(ch.consumer, m.messageId)] == PayloadHash(codec, m.data.value) then Ok(None) else Err(InboxPayloadMismatch))
  {
    EnvelopeExactly(ch, m);
  }
}
