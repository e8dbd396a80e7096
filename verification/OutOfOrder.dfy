// A reversal that arrived before its reference ends as if it had arrived after it.
module OutOfOrder {
  import opened Base
  import opened MoneyModel
  import opened Wagering
  import opened Wallets
  import opened Store
  import opened Process
  import opened Resolve
  import opened Units
  import opened Invariant
  import opened Admission
  import opened Serial

  // The tables as if the early submission had never been stored.
  function Without(db: Db, id: Id): Db {
    db.(txs := db.txs - {id})
  }

  // The row the direct submission would have stored, as the pending row ends up.
  function Late(direct: Tx, p: Tx): Tx {
    direct.(info := direct.info.(createdAt := p.info.createdAt), attempts := p.attempts)
  }

  // A pending row and its submission as built afresh.
  predicate Counterpart(t: Tx, p: Tx) {
    && p.status == PendingReference && t.status == Pending && t.attempts == 0 && t.info.id == p.info.id
    && p == Late(t, p).(status := p.status, nextRetry := p.nextRetry, updatedAt := p.updatedAt)
  }

  // Same outcome, movement and events; the rows differ in creation time and attempts alone.
  predicate SameOutcome(resumed: Plan, direct: Plan, p: Tx) {
    match resumed
    case Refuse(e) => direct == Refuse(e)
    case Reply(_) => false
    case Write(d, x) =>
      && direct.Write? && x == direct.result && !d.create && direct.delta.create
      && d.move == direct.delta.move && d.events == direct.delta.events
      && d.tx == Late(direct.delta.tx, p) && d.tx.info == p.info && direct.delta.tx.attempts == 0
  }

  lemma RejectAgrees(t: Tx, p: Tx, code: FailureCode, ids: Ids, now: Instant)
    requires Counterpart(t, p)
    ensures SameOutcome(RejectPlan(false, p, code, ids, now), RejectPlan(true, t, code, ids, now), p)
  {
  }

  lemma SettleAgrees(t: Tx, p: Tx, w: WalletRow, s: Settlement, ids: Ids, now: Instant)
    requires Counterpart(t, p)
    ensures SameOutcome(SettlePlan(false, p, w, Some(s), ids, now), SettlePlan(true, t, w, Some(s), ids, now), p)
  {
  }

  lemma MoveAgrees(t: Tx, p: Tx, w: WalletRow, direction: Direction, amount: Money, ids: Ids, now: Instant)
    requires w.balance >= 0
    requires Counterpart(t, p)
    ensures SameOutcome(MovePlan(false, p, w, direction, amount, ids, now), MovePlan(true, t, w, direction, amount, ids, now), p)
  {
    var moved := if direction == Credit then Credited(w, amount, now) else Debited(w, amount, now);
    if moved.Ok? {
      SettleAgrees(t, p, moved.value.0, Settlement(direction, moved.value.1), ids, now);
    } else {
      RejectAgrees(t, p, InsufficientFundsCode(p.info.kind), ids, now);
    }
  }

  lemma ReversalAgrees(t: Tx, p: Tx, w: WalletRow, req: Request, view: View, policy: Policy, ids: Ids, now: Instant)
    requires w.balance >= 0 && Settled(view.reference)
    requires Counterpart(t, p)
    requires p.info == InfoFor(req, p.info.id, p.info.createdAt) && IsReversal(req.kind)
    ensures SameOutcome(ResumePlan(p, w, view, policy, ids, now), ReversalPlan(t, w, req, view, ids, now), p)
  {
    var reference := view.reference.value;
    var code := ReversalRejection(reference, req.kind, req.walletId, req.playerId, req.cmd.round, req.amount);
    if code.Some? {
      RejectAgrees(t, p, code.value, ids, now);
    } else if view.reverted {
      RejectAgrees(t, p, DuplicateReversal, ids, now);
    } else if reference.info.id != 0 && now != 0 {
      MoveAgrees(ResolveReference(t, reference.info.id, now).value, ResolveReference(p, reference.info.id, now).value, w,
                 ReversalDirection(reference.info.kind), req.amount, ids, now);
    }
  }

  // Without the pending row the lookups find the same reference, and nothing to replay.
  lemma LookupsAgree(db: Db, p: Tx)
    requires Sound(db) && p.info.id in db.txs && db.txs[p.info.id] == p && p.status == PendingReference
    requires Settled(FindByExternalId(db.txs, p.info.provider, p.info.refExternal))
    ensures ViewOf(Without(db, p.info.id), p.info.provider, p.info.refExternal) == ViewOf(db, p.info.provider, p.info.refExternal)
  {
    var txs := Without(db, p.info.id).txs;
    var reference := FindByExternalId(db.txs, p.info.provider, p.info.refExternal).value;
    var r :| r in db.txs && db.txs[r] == reference;
    assert r in txs && HasExternalId(txs[r], p.info.provider, p.info.refExternal);
    forall id | id in txs && HasExternalId(txs[id], p.info.provider, p.info.refExternal) ensures txs[id] == reference {
      FoundIsTheOne(db, id);
    }
    ReversalsAgree(db.txs, p, r);
  }

  lemma ReversalsAgree(txs: map<Id, Tx>, p: Tx, reference: Id)
    requires p.info.id in txs && txs[p.info.id] == p && p.status == PendingReference
    ensures HasSuccessfulReversal(txs - {p.info.id}, reference) <==> HasSuccessfulReversal(txs, reference)
  {
    if HasSuccessfulReversal(txs, reference) {
      var id :| id in txs && SuccessfulReversalOf(txs[id], reference);
      assert id in txs - {p.info.id};
    }
  }

  lemma NothingElseToReplay(db: Db, p: Tx, req: Request)
    requires Sound(db) && p.info.id in db.txs && db.txs[p.info.id] == p && p.info.external
    requires p.info == InfoFor(req, p.info.id, p.info.createdAt)
    ensures ReplayPlan(Without(db, p.info.id).txs, req).None?
  {
    NothingToReplay(Without(db, p.info.id), req, p);
  }

  lemma PendingRowIsItsSubmission(codec: Codec, db: Db, p: Tx, req: Request, now: Instant)
    requires RowState(p) && TxChecks(p) && TxForeignKeys(db, p) && OwnedByPlayer(db, p) && WalletChecks(db.wallets[p.info.walletId])
    requires p.status == PendingReference && now != 0
    requires p.info == InfoFor(req, p.info.id, p.info.createdAt) && Parse(codec, req.cmd) == Ok(req)
    ensures NewExternal(InfoFor(req, p.info.id, now)).Ok?
    ensures Counterpart(NewExternal(InfoFor(req, p.info.id, now)).value, p)
    ensures var w := db.wallets[req.walletId]; w.playerId == req.playerId && w.currency == req.amount.currency && w.balance >= 0
    ensures IsReversal(req.kind)
  {
  }

  // Resuming a pending reversal whose reference is terminal by now decides what executing the
  // original command decides on the same tables without the pending row: same status, failure
  // code, balance, ledger entry and events.
  lemma ResumptionIsLateSubmission(codec: Codec, db: Db, p: Tx, req: Request, policy: Policy, ids: Ids, now: Instant)
    requires Inv(db) && p.info.id in db.txs && db.txs[p.info.id] == p && p.status == PendingReference && now != 0
    requires p.info == InfoFor(req, p.info.id, p.info.createdAt) && Parse(codec, req.cmd) == Ok(req)
    requires Settled(FindByExternalId(db.txs, p.info.provider, p.info.refExternal)) && ids.tx == p.info.id
    ensures SameOutcome(ResumeOn(db, p, policy, ids, now), RequestPlan(Without(db, p.info.id), req, ids, now), p)
  {
    PendingRowIsItsSubmission(codec, db, p, req, now);
    LookupsAgree(db, p);
    NothingElseToReplay(db, p, req);
    var t := NewExternal(InfoFor(req, p.info.id, now)).value;
    ReversalAgrees(t, p, db.wallets[req.walletId], req, ViewOf(db, p.info.provider, p.info.refExternal), policy, ids, now);
  }

  // Tables that later statements cannot tell apart.
  predicate Twins(a: Db, b: Db) {
    a.wallets == b.wallets && a.ledger == b.ledger && a.outbox == b.outbox && a.txs.Keys == b.txs.Keys
  }

  predicate SameRun(a: Exec, b: Exec) {
    a.error == b.error && a.failed == b.failed && Twins(a.db, b.db)
  }

  lemma {:induction false} EventsAgree(a: Db, b: Db, events: seq<Event>)
    requires Twins(a, b)
    ensures SameRun(RunEvents(a, events), RunEvents(b, events))
    ensures RunEvents(a, events).db.txs == a.txs && RunEvents(b, events).db.txs == b.txs
    decreases |events|
  {
    if events != [] && events[0].id != 0 && InsertEvent(a, events[0]).Ok? {
      EventsAgree(InsertEvent(a, events[0]).value, InsertEvent(b, events[0]).value, events[1..]);
    }
  }

  lemma MovesAgree(a: Db, b: Db, m: Move)
    requires Twins(a, b)
    ensures SameRun(RunMove(a, m), RunMove(b, m))
    ensures RunMove(a, m).db.txs == a.txs && RunMove(b, m).db.txs == b.txs
  {
  }

  lemma RowsAgree(db: Db, p: Tx, d: Delta, direct: Delta)
    requires p.info.id in db.txs && db.txs[p.info.id] == p && p.attempts >= 0
    requires d.tx == Late(direct.tx, p) && d.tx.info == p.info
    requires direct.tx.attempts == 0
    ensures UpdateTx(db, d.tx).Ok? <==> InsertTx(Without(db, p.info.id), direct.tx).Ok?
    ensures UpdateTx(db, d.tx).Err? ==> UpdateTx(db, d.tx).error == InsertTx(Without(db, p.info.id), direct.tx).error
  {
    var bare := Without(db, p.info.id);
    assert TxChecks(d.tx) <==> TxChecks(direct.tx);
    assert TxForeignKeys(db, d.tx) <==> TxForeignKeys(bare, direct.tx);
    forall o | o in db.txs && o != p.info.id ensures Clash(db.txs[o], d.tx) <==> Clash(bare.txs[o], direct.tx) {
    }
  }

  // And the statements have the same effect: both succeed or both fail, and if they succeed they
  // leave the same wallets, ledger and outbox, and the same transactions but for the row's
  // creation time and attempts.
  lemma LateSubmissionWritesTheSame(db: Db, p: Tx, d: Delta, direct: Delta)
    requires Sound(db) && p.info.id in db.txs && db.txs[p.info.id] == p && p.attempts >= 0
    requires !d.create && direct.create && d.move == direct.move && d.events == direct.events
    requires d.tx == Late(direct.tx, p) && d.tx.info == p.info
    requires direct.tx.attempts == 0
    ensures var a, b := RunDelta(db, d), RunDelta(Without(db, p.info.id), direct);
            && a.error == b.error && a.failed == b.failed
            && (a.error.None? ==>
                  && Twins(a.db, b.db) && p.info.id in b.db.txs
                  && a.db.txs == b.db.txs[p.info.id := Late(b.db.txs[p.info.id], p)])
  {
    RowsAgree(db, p, d, direct);
    var first, second := UpdateTx(db, d.tx), InsertTx(Without(db, p.info.id), direct.tx);
    if first.Ok? {
      assert second.value.txs[p.info.id] == direct.tx;
      assert first.value.txs == second.value.txs[p.info.id := Late(direct.tx, p)];
      assert RunDelta(db, d) == Rest(first.value, d);
      assert RunDelta(Without(db, p.info.id), direct) == Rest(second.value, direct);
      RestAgrees(first.value, second.value, d, direct);
    }
  }

  // The statements after the transaction row.
  function Rest(db: Db, d: Delta): Exec {
    if d.move.None? then RunEvents(db, d.events)
    else
      var moved := RunMove(db, d.move.value);
      if moved.error.Some? then moved else RunEvents(moved.db, d.events)
  }

  lemma RestAgrees(a: Db, b: Db, d: Delta, direct: Delta)
    requires Twins(a, b) && d.move == direct.move && d.events == direct.events
    ensures SameRun(Rest(a, d), Rest(b, direct)) && Rest(a, d).db.txs == a.txs && Rest(b, direct).db.txs == b.txs
  {
    match d.move
    case None => EventsAgree(a, b, d.events);
    case Some(m) =>
      MovesAgree(a, b, m);
      EventsAgree(RunMove(a, m).db, RunMove(b, m).db, d.events);
  }

  // Out-of-order delivery agrees with in-order delivery, decision and effect together.
  lemma OutOfOrderAgrees(codec: Codec, db: Db, p: Tx, req: Request, policy: Policy, ids: Ids, now: Instant)
    requires Inv(db) && p.info.id in db.txs && db.txs[p.info.id] == p && p.status == PendingReference && now != 0
    requires p.info == InfoFor(req, p.info.id, p.info.createdAt) && Parse(codec, req.cmd) == Ok(req)
    requires Settled(FindByExternalId(db.txs, p.info.provider, p.info.refExternal)) && ids.tx == p.info.id
    ensures var bare := Without(db, p.info.id);
            var late, direct := ResumeOn(db, p, policy, ids, now), RequestPlan(bare, req, ids, now);
            var a, b := CommitOrRollback(db, PlanExec(db, late)), CommitOrRollback(bare, PlanExec(bare, direct));
            && PlanReply(db, late) == PlanReply(bare, direct)
            && a.wallets == b.wallets && a.ledger == b.ledger && a.outbox == b.outbox
            && (PlanReply(db, late).Ok? ==> p.info.id in b.txs && a.txs == b.txs[p.info.id := Late(b.txs[p.info.id], p)])
  {
    ResumptionIsLateSubmission(codec, db, p, req, policy, ids, now);
    OutcomeIsEffect(db, p, ResumeOn(db, p, policy, ids, now), RequestPlan(Without(db, p.info.id), req, ids, now));
  }

  lemma OutcomeIsEffect(db: Db, p: Tx, late: Plan, direct: Plan)
    requires Sound(db) && p.info.id in db.txs && db.txs[p.info.id] == p && SameOutcome(late, direct, p)
    ensures var bare := Without(db, p.info.id);
            var a, b := CommitOrRollback(db, PlanExec(db, late)), CommitOrRollback(bare, PlanExec(bare, direct));
            && PlanReply(db, late) == PlanReply(bare, direct)
            && a.wallets == b.wallets && a.ledger == b.ledger && a.outbox == b.outbox
            && (PlanReply(db, late).Ok? ==> p.info.id in b.txs && a.txs == b.txs[p.info.id := Late(b.txs[p.info.id], p)])
  {
    assert TxChecks(p);
    if late.Write? {
      LateSubmissionWritesTheSame(db, p, late.delta, direct.delta);
      RunErrorsExplainFailure(db, late);
    }
  }
}
