// What a decision means for the wallet and the caller, by kind of submission.
module Outcomes {
  import opened Base
  import opened MoneyModel
  import opened Wagering
  import opened Wallets
  import opened Store
  import opened Process
  import opened Resolve
  import opened Units
  import opened Admission
  import opened Backoff

  // A well-formed submission by the wallet's player in the wallet's currency.
  predicate Acceptable(req: Request, w: WalletRow, ids: Ids, now: Instant) {
    && NewExternal(InfoFor(req, ids.tx, now)).Ok? && w.id == req.walletId && w.balance >= 0 && w.version >= 1
    && w.playerId == req.playerId && w.currency == req.amount.currency
  }

  predicate Settles(plan: Plan, w: WalletRow, change: int) {
    && plan.Write? && plan.result.status == Processed && plan.result.failure.None? && !plan.result.replay
    && plan.result.balance.Some? && plan.result.balance.value.minor as int == w.balance as int + change
    && plan.result.balance.value.currency == w.currency && plan.result.txId == plan.delta.tx.info.id
    && plan.delta.tx.status == Processed && plan.delta.tx.result.Some?
    && plan.delta.tx.result.value.balance == plan.result.balance.value
    && (change == 0 ==> plan.delta.move.None? && plan.delta.tx.result.value.version == w.version)
    && (change != 0 ==>
          && plan.delta.move.Some? && plan.delta.move.value.wallet.balance as int == w.balance as int + change
          && plan.delta.tx.result.value.version == plan.delta.move.value.wallet.version == w.version + 1)
  }

  predicate Rejects(plan: Plan, code: FailureCode) {
    && plan.Write? && plan.result == TxResult(plan.delta.tx.info.id, Rejected, None, Some(code), false)
    && plan.delta.move.None? && plan.delta.tx.status == Rejected && plan.delta.tx.failure == Some(code)
  }

  predicate Waits(plan: Plan) {
    && plan.Write? && plan.result == TxResult(plan.delta.tx.info.id, PendingReference, None, None, false)
    && plan.delta.move.None? && plan.delta.tx.status == PendingReference && plan.delta.tx.nextRetry.Some?
  }

  // A bet is rejected exactly when it exceeds the balance; a win fails exactly when the new
  // balance would leave int64; a loss settles without moving anything.
  lemma DirectOutcome(req: Request, w: WalletRow, view: View, ids: Ids, now: Instant)
    requires Acceptable(req, w, ids, now) && !IsReversal(req.kind)
    ensures var plan := ApplyPlan(req, w, view, ids, now);
            && (req.kind == Bet ==>
                  if req.amount.minor > w.balance then Rejects(plan, InsufficientFunds) else Settles(plan, w, -(req.amount.minor as int)))
            && (req.kind == Win ==>
                  if Fits(w.balance as int + req.amount.minor as int) then Settles(plan, w, req.amount.minor as int)
                  else plan == Refuse(AmountOverflow))
            && (req.kind == Loss ==> Settles(plan, w, 0))
  {
  }

  lemma ForeignSubmission(req: Request, w: WalletRow, view: View, ids: Ids, now: Instant)
    requires NewExternal(InfoFor(req, ids.tx, now)).Ok? && w.balance >= 0
    ensures w.playerId != req.playerId ==> Rejects(ApplyPlan(req, w, view, ids, now), WalletPlayerMismatch)
    ensures w.playerId == req.playerId && w.currency != req.amount.currency ==>
              Rejects(ApplyPlan(req, w, view, ids, now), CurrencyMismatch)
  {
  }

  // Whatever it decides, a submission in another currency than its wallet's is refused by the
  // schema: the composite foreign key admits no such row, so the rejection is never stored.
  lemma ForeignCurrencyIsRefused(db: Db, req: Request, ids: Ids, now: Instant)
    requires Sound(db) && RequestPlan(db, req, ids, now).Write? && db.wallets[req.walletId].currency != req.amount.currency
    ensures PlanExec(db, RequestPlan(db, req, ids, now)) == Exec(db, Some(PersistenceConflict), true)
  {
    RowAdmitted(db, req, ids, now);
    ApplyConcerns(req, db.wallets[req.walletId], ViewOf(db, req.cmd.provider, req.cmd.refExternal), ids, now);
  }

  lemma ForeignCurrencyOverHttp(db: Db, codec: Codec, c: Command, ids: Ids, now: Instant)
    requires Sound(db) && Parse(codec, c).Ok? && ExecutePlan(db, codec, c, ids, now).Write?
    requires db.wallets[Parse(codec, c).value.walletId].currency != Parse(codec, c).value.amount.currency
    ensures ExecuteStep(db, codec, c, ids, now) == (db, Err(PersistenceConflict))
  {
    ForeignCurrencyIsRefused(db, Parse(codec, c).value, ids, now);
  }

  // A delivery's commit fails, its inbox row is lost with it, and the message comes back.
  lemma ForeignCurrencyByQueue(db: Db, codec: Codec, ch: Channel, m: Message, ids: Ids, now: Instant)
    requires Sound(db) && ParseEnvelope(ch, m).Ok? && Key(ch, m) !in db.inbox && Parse(codec, m.data.value).Ok?
    requires ExecutePlan(Record(db, Key(ch, m), PayloadHash(codec, m.data.value)), codec, m.data.value, ids, now).Write?
    requires var req := Parse(codec, m.data.value).value; db.wallets[req.walletId].currency != req.amount.currency
    ensures HandleStep(db, codec, ch, m, ids, now) == (db, Err(CommitFailed))
  {
    var recorded := Record(db, Key(ch, m), PayloadHash(codec, m.data.value));
    ForeignCurrencyIsRefused(recorded, Parse(codec, m.data.value).value, ids, now);
    RefusedCommit(db, recorded, ExecutePlan(recorded, codec, m.data.value, ids, now));
  }

  lemma RefusedCommit(db: Db, recorded: Db, plan: Plan)
    requires PlanExec(recorded, plan) == Exec(recorded, Some(PersistenceConflict), true)
    ensures HandleCommit(db, recorded, plan) == (db, Err(CommitFailed))
  {
  }

  // The rejection of a submission by another player or in another currency is stored exactly when
  // the currency is the wallet's, under identifiers that arrived and are new.
  lemma ForeignRejectionStored(db: Db, req: Request, ids: Ids, now: Instant)
    requires Sound(db) && req.walletId in db.wallets && ReplayPlan(db.txs, req).None?
    requires NewExternal(InfoFor(req, ids.tx, now)).Ok?
    requires var w := db.wallets[req.walletId]; w.playerId != req.playerId || w.currency != req.amount.currency
    ensures var plan := RequestPlan(db, req, ids, now);
            && plan.Write? && plan.result.status == Rejected
            && (PlanExec(db, plan).error.None? <==>
                  && db.wallets[req.walletId].currency == req.amount.currency && ids.tx !in db.txs
                  && ids.txEvent != 0 && EventIdFree(db, ids.txEvent))
  {
    var w, view := db.wallets[req.walletId], ViewOf(db, req.cmd.provider, req.cmd.refExternal);
    ForeignSubmission(req, w, view, ids, now);
    RowAdmitted(db, req, ids, now);
    ApplyConcerns(req, w, view, ids, now);
    OneEventRun(db, RequestPlan(db, req, ids, now).delta);
  }

  lemma OneEventRun(db: Db, d: Delta)
    requires d.create && d.move.None? && |d.events| == 1
    ensures RunDelta(db, d).error.None? <==> InsertTx(db, d.tx).Ok? && d.events[0].id != 0 && EventIdFree(db, d.events[0].id)
  {
    if InsertTx(db, d.tx).Ok? {
      var next := InsertTx(db, d.tx).value;
      assert d.events[1..] == [] && RunDelta(db, d) == RunEvents(next, d.events);
      assert InsertEvent(next, d.events[0]).Ok? <==> EventIdFree(db, d.events[0].id);
      if d.events[0].id != 0 && InsertEvent(next, d.events[0]).Ok? {
        assert RunEvents(next, d.events) == RunEvents(InsertEvent(next, d.events[0]).value, []);
      }
    }
  }

  // What undoing an operation does to the balance.
  function Undoing(t: Tx): int {
    if t.info.kind == Bet then t.info.amount.minor as int else -(t.info.amount.minor as int)
  }

  // A refund undoes a bet; a rollback undoes a bet, a win or a refund; nothing else is undone.
  predicate Undoable(reversal: Kind, referenced: Kind) {
    (reversal == Refund && referenced == Bet) || (reversal == Rollback && referenced in {Bet, Win, Refund})
  }

  predicate Agrees(t: Tx, walletId: Id, playerId: Id, round: string, amount: Money) {
    t.info.walletId == walletId && t.info.playerId == playerId && t.info.round == round && t.info.amount == amount
  }

  // How a reversal ends whose reference is processed or rejected: refused for the reference, for
  // an earlier reversal or for lack of funds, or undoing exactly what the reference did.
  predicate ReversalEnds(plan: Plan, w: WalletRow, t: Tx, kind: Kind, agrees: bool, reverted: bool) {
    if t.status != Processed || !Undoable(kind, t.info.kind) then Rejects(plan, ReferenceNotProcessed)
    else if !agrees then Rejects(plan, ReferenceMismatch)
    else if reverted then Rejects(plan, DuplicateReversal)
    else if w.balance as int + Undoing(t) < 0 then Rejects(plan, ReversalExceedsBalance)
    else if !Fits(w.balance as int + Undoing(t)) then plan == Refuse(AmountOverflow)
    else Settles(plan, w, Undoing(t)) && plan.delta.tx.refId == Some(t.info.id)
  }

  predicate Ended(view: View) {
    view.reference.Some? && view.reference.value.status in {Processed, Rejected, Failed}
  }

  // A new reversal waits, due at once and with no attempt made, until its reference has ended.
  lemma ReversalOutcome(req: Request, w: WalletRow, view: View, ids: Ids, now: Instant)
    requires Acceptable(req, w, ids, now) && req.kind in {Refund, Rollback}
    requires view.reference.Some? ==> view.reference.value.info.id != 0
    ensures var plan := ApplyPlan(req, w, view, ids, now);
            if !Ended(view) then Waits(plan) && plan.delta.tx.attempts == 0 && plan.delta.tx.nextRetry == Some(now)
            else
              var t := view.reference.value;
              ReversalEnds(plan, w, t, req.kind, Agrees(t, req.walletId, req.playerId, req.cmd.round, req.amount), view.reverted)
  {
    if Ended(view) {
      var t := view.reference.value;
      if t.status == Processed && Undoable(req.kind, t.info.kind)
         && Agrees(t, req.walletId, req.playerId, req.cmd.round, req.amount) && !view.reverted {
        var created := NewExternal(InfoFor(req, ids.tx, now)).value;
        UndoOutcome(true, created, w, t, ids, now);
      }
    }
  }

  // A pending row resumed after its reference ended, ends as a new reversal would.
  lemma ResumptionOutcome(p: Tx, w: WalletRow, view: View, policy: Policy, ids: Ids, now: Instant)
    requires p.status == PendingReference && p.info.kind in {Refund, Rollback} && p.info.amount.minor > 0 && now != 0
    requires p.failure.None? && p.result.None? && p.info.amount.currency == w.currency != ""
    requires w.balance >= 0 && w.version >= 1 && Ended(view) && view.reference.value.info.id != 0
    ensures var t := view.reference.value;
            ReversalEnds(ResumePlan(p, w, view, policy, ids, now), w, t, p.info.kind,
                         Agrees(t, p.info.walletId, p.info.playerId, p.info.round, p.info.amount), view.reverted)
  {
    var t := view.reference.value;
    if t.status == Processed && Undoable(p.info.kind, t.info.kind)
       && Agrees(t, p.info.walletId, p.info.playerId, p.info.round, p.info.amount) && !view.reverted {
      UndoOutcome(false, p, w, t, ids, now);
    }
  }

  lemma UndoOutcome(create: bool, t: Tx, w: WalletRow, reference: Tx, ids: Ids, now: Instant)
    requires t.status in {Pending, PendingReference} && t.info.kind in {Refund, Rollback} && now != 0
    requires t.info.amount.minor > 0 && t.info.amount.currency == w.currency != "" && w.balance >= 0 && w.version >= 1
    requires reference.info.id != 0 && reference.info.amount == t.info.amount
    ensures ResolveReference(t, reference.info.id, now).Ok?
    ensures var plan := MovePlan(create, ResolveReference(t, reference.info.id, now).value, w,
                                 ReversalDirection(reference.info.kind), t.info.amount, ids, now);
            if w.balance as int + Undoing(reference) < 0 then Rejects(plan, ReversalExceedsBalance)
            else if !Fits(w.balance as int + Undoing(reference)) then plan == Refuse(AmountOverflow)
            else Settles(plan, w, Undoing(reference)) && plan.delta.tx.refId == Some(reference.info.id)
  {
  }

  // A row waits on exactly while attempts and age leave room; it tries again after the backoff of
  // its raised attempt count: the base doubled for each earlier attempt, up to the ceiling.
  lemma WaitOutcome(p: Tx, policy: Policy, ids: Ids, now: Instant)
    requires p.status == PendingReference && p.attempts >= 0 && now != 0 && 0 < policy.backoffBase <= policy.backoffMax
    ensures var plan := WaitPlan(p, policy, ids, now);
            if p.attempts + 1 < policy.maxAttempts && now < p.info.createdAt + policy.ttl then
              var exact := policy.backoffBase * Pow2(p.attempts);
              var capped := if exact > policy.backoffMax then policy.backoffMax else exact;
              && Waits(plan) && plan.delta.events == [] && plan.delta.tx.attempts == p.attempts + 1
              && plan.delta.tx.nextRetry == Some(now + ReferenceDelay(p.attempts + 1, policy.backoffBase, policy.backoffMax))
              && now + capped <= plan.delta.tx.nextRetry.value <= now + capped + policy.backoffMax % 2
              && now + policy.backoffBase <= plan.delta.tx.nextRetry.value <= now + policy.backoffMax
            else Rejects(plan, ReferenceNotFound)
  {
    BackoffsAgree(p.attempts + 1, policy.backoffBase, policy.backoffMax);
  }

  predicate HasWallet(db: Db, playerId: Id, currency: string) {
    exists o | o in db.wallets :: db.wallets[o].playerId == playerId && db.wallets[o].currency == currency
  }

  // Opening: nothing but the wallet row at zero balance; at a positive one the opening credit,
  // its entry and two events with it, or nothing at all; a second wallet of the same player and
  // currency is refused.
  lemma OpeningOutcome(
    db: Db, codec: Codec, player: string, amount: string, currency: string, walletId: Id, ids: Ids, now: Instant)
    ensures var row := OpenRow(codec, player, amount, currency, walletId, now);
            var (after, r) := OpenStep(db, codec, player, amount, currency, walletId, ids, now);
            && (r.Err? ==> after == db)
            && (r.Ok? ==>
                  && row == Ok(r.value) && r.value.version == 1 && r.value.balance >= 0 && r.value.id == walletId
                  && walletId !in db.wallets && !HasWallet(db, r.value.playerId, r.value.currency)
                  && (r.value.balance == 0 ==> after == db.(wallets := db.wallets[walletId := r.value])))
            && (row.Ok? && HasWallet(db, row.value.playerId, row.value.currency) ==> r == Err(WalletAlreadyExists))
  {
  }
}
