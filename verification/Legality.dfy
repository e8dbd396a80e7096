// The decisions of the use cases are legal writes, given that what the unit read about the
// locked wallet and the reference still holds when its statements run.
module Legality {
  import opened Base
  import opened Wagering
  import opened Wallets
  import opened Store
  import opened Process
  import opened Resolve
  import opened Units
  import opened Invariant

  // ----- statements that all succeed write exactly the delta

  lemma {:induction false} EventsRun(db: Db, events: seq<Event>)
    requires RunEvents(db, events).error.None?
    ensures RunEvents(db, events).db == db.(outbox := db.outbox + events)
    ensures !RunEvents(db, events).failed
    decreases |events|
  {
    if events == [] {
      assert db.outbox + events == db.outbox;
    } else {
      EventsRun(InsertEvent(db, events[0]).value, events[1..]);
      assert db.outbox + events == (db.outbox + [events[0]]) + events[1..];
    }
  }

  ghost predicate WalletRowOnly(db: Db, m: Move) {
    m.wallet.id in db.wallets
    && m.wallet == db.wallets[m.wallet.id].(balance := m.wallet.balance, version := m.wallet.version, updatedAt := m.wallet.updatedAt)
  }

  lemma RunIsApplied(db: Db, d: Delta)
    requires Keyed(db) && RunDelta(db, d).error.None?
    requires !d.create && d.tx.info.id in db.txs ==> db.txs[d.tx.info.id].info == d.tx.info
    requires d.move.Some? ==> WalletRowOnly(db, d.move.value)
    ensures d.move.Some? ==> d.move.value.entry.Ok?
    ensures RunDelta(db, d).db == Applied(db, d) && !RunDelta(db, d).failed
    ensures TxAdmissible(db, d.tx) && (d.create <==> d.tx.info.id !in db.txs)
  {
    var next := (if d.create then InsertTx(db, d.tx) else UpdateTx(db, d.tx)).value;
    assert next == db.(txs := db.txs[d.tx.info.id := d.tx]);
    match d.move
    case None => EventsRun(next, d.events);
    case Some(m) => EventsRun(RunMove(next, m).db, d.events);
  }

  // ----- one lemma per kind of decision

  // A transaction about to be settled, rejected or left waiting: either brand new, or the
  // pending row the worker claimed.
  ghost predicate Open(db: Db, create: bool, t: Tx) {
    && t.info.external && t.info.kind != Opening && t.info.id != 0 && t.info.walletId != 0
    && t.info.walletId in db.wallets
    && t.result.None? && t.failure.None? && t.attempts >= 0
    && (t.refId.Some? ==> IsReversal(t.info.kind))
    && (if create then t.status == Pending && t.nextRetry.None?
        else t.status == PendingReference && t.info.id in db.txs
             && db.txs[t.info.id].info == t.info && db.txs[t.info.id].status == PendingReference)
  }

  ghost predicate Runs(db: Db, plan: Plan) {
    plan.Write? && RunDelta(db, plan.delta).error.None?
  }

  // The transaction row is admitted and the entry, if there is one, was built: whatever may still
  // stop the statements, what they write is settled.
  ghost predicate Accepted(db: Db, plan: Plan) {
    && plan.Write?
    && (if plan.delta.create then InsertTx(db, plan.delta.tx).Ok? else UpdateTx(db, plan.delta.tx).Ok?)
    && (plan.delta.move.Some? ==> plan.delta.move.value.entry.Ok?)
  }

  lemma RunsAreAccepted(db: Db, plan: Plan)
    requires Runs(db, plan)
    ensures Accepted(db, plan)
  {
  }

  lemma RejectLegal(db: Db, create: bool, t: Tx, code: FailureCode, ids: Ids, now: Instant)
    requires Keyed(db) && Open(db, create, t) && Accepted(db, RejectPlan(create, t, code, ids, now))
    ensures Legal(db, RejectPlan(create, t, code, ids, now).delta)
  {
  }

  lemma PendLegal(db: Db, t: Tx, ids: Ids, now: Instant)
    requires Keyed(db) && Open(db, true, t) && OwnedByPlayer(db, t) && t.refId.None?
    requires Accepted(db, PendPlan(t, ids, now))
    ensures Legal(db, PendPlan(t, ids, now).delta)
  {
  }

  lemma WaitLegal(db: Db, p: Tx, policy: Policy, ids: Ids, now: Instant)
    requires Keyed(db) && Open(db, false, p) && OwnedByPlayer(db, p) && p.refId.None? && IsReversal(p.info.kind)
    requires Accepted(db, WaitPlan(p, policy, ids, now))
    ensures Legal(db, WaitPlan(p, policy, ids, now).delta)
  {
    if Exhausted(p, policy, now) {
      RejectLegal(db, false, p, ReferenceNotFound, ids, now);
    } else {
      RunIsApplied(db, WaitPlan(p, policy, ids, now).delta);
    }
  }

  // LOSS: the wallet is left alone.
  lemma SettleLegal(db: Db, t: Tx, ids: Ids, now: Instant)
    requires Keyed(db) && Open(db, true, t) && OwnedByPlayer(db, t) && t.info.kind == Loss
    requires Accepted(db, SettlePlan(true, t, db.wallets[t.info.walletId], None, ids, now))
    ensures Legal(db, SettlePlan(true, t, db.wallets[t.info.walletId], None, ids, now).delta)
  {
  }

  lemma MoveLegal(db: Db, create: bool, t: Tx, direction: Direction, ids: Ids, now: Instant)
    requires Keyed(db) && Open(db, create, t) && OwnedByPlayer(db, t) && t.info.kind != Loss
    requires db.wallets[t.info.walletId].balance >= 0
    requires direction == DirectionOf(db.txs, t)
    requires IsReversal(t.info.kind) ==> RefOk(db.txs, t) && !HasSuccessfulReversal(db.txs, t.refId.value)
    requires Accepted(db, MovePlan(create, t, db.wallets[t.info.walletId], direction, t.info.amount, ids, now))
    ensures Legal(db, MovePlan(create, t, db.wallets[t.info.walletId], direction, t.info.amount, ids, now).delta)
  {
    var w := db.wallets[t.info.walletId];
    var moved := if direction == Credit then Credited(w, t.info.amount, now) else Debited(w, t.info.amount, now);
    if moved.Err? {
      RejectLegal(db, create, t, InsufficientFundsCode(t.info.kind), ids, now);
    } else {
      MovementLegal(db, create, t, moved.value.0, moved.value.1, direction, ids, now);
    }
  }

  lemma MovementLegal(
    db: Db, create: bool, t: Tx, after: WalletRow, m: Movement, direction: Direction, ids: Ids, now: Instant)
    requires Keyed(db) && Open(db, create, t) && OwnedByPlayer(db, t) && t.info.kind != Loss
    requires direction == DirectionOf(db.txs, t)
    requires IsReversal(t.info.kind) ==> RefOk(db.txs, t) && !HasSuccessfulReversal(db.txs, t.refId.value)
    requires var w := db.wallets[t.info.walletId];
             && t.info.amount.minor > 0 && t.info.amount.currency == w.currency && m.after.minor >= 0 && m.after.currency == w.currency
             && (after, m) == Moved(w, t.info.amount, m.after, now)
    requires var s := Some(Settlement(direction, m)); Accepted(db, SettlePlan(create, t, after, s, ids, now))
    ensures Legal(db, SettlePlan(create, t, after, Some(Settlement(direction, m)), ids, now).delta)
  {
    var w := db.wallets[t.info.walletId];
    var d := SettlePlan(create, t, after, Some(Settlement(direction, m)), ids, now).delta;
    var e := d.move.value.entry.value;
    assert e.after == m.after.minor && e.before == w.balance && e.amount == t.info.amount.minor;
    assert DirectionOf(db.txs, d.tx) == direction;
    assert d.events[1].data == EventOf(map[d.tx.info.id := d.tx], e);
  }

  // ----- what a unit read and what still holds

  // The reference row the unit saw, if it was terminal, is still the row of the table; if it
  // shares the locked wallet and was seen without a successful reversal, it still has none.
  ghost predicate ViewHolds(db: Db, w: Id, provider: string, refExternal: string, view: View) {
    match view.reference
    case None => true
    case Some(t) =>
      IsTerminal(t.status) ==>
        && HasExternalId(t, provider, refExternal)
        && t.info.id in db.txs && db.txs[t.info.id] == t
        && (t.info.walletId == w && !view.reverted ==> !HasSuccessfulReversal(db.txs, t.info.id))
  }

  lemma FreshViewHolds(db: Db, w: Id, provider: string, refExternal: string)
    requires Keyed(db)
    ensures ViewHolds(db, w, provider, refExternal, ViewOf(db, provider, refExternal))
  {
  }

  // A submission applied to the locked wallet row writes legally.
  lemma ApplyLegal(db: Db, req: Request, view: View, ids: Ids, now: Instant)
    requires Keyed(db) && req.walletId in db.wallets && db.wallets[req.walletId].balance >= 0
    requires ViewHolds(db, req.walletId, req.cmd.provider, req.cmd.refExternal, view)
    requires Accepted(db, ApplyPlan(req, db.wallets[req.walletId], view, ids, now))
    ensures Legal(db, ApplyPlan(req, db.wallets[req.walletId], view, ids, now).delta)
  {
    var w := db.wallets[req.walletId];
    var t := NewExternal(InfoFor(req, ids.tx, now)).value;
    assert Open(db, true, t);
    if w.playerId != req.playerId {
      RejectLegal(db, true, t, WalletPlayerMismatch, ids, now);
    } else if w.currency != req.amount.currency {
      RejectLegal(db, true, t, CurrencyMismatch, ids, now);
    } else if IsReversal(req.kind) {
      ReversalLegal(db, t, req, view, ids, now);
    } else if req.kind == Loss {
      SettleLegal(db, t, ids, now);
    } else {
      MoveLegal(db, true, t, if req.kind == Bet then Debit else Credit, ids, now);
    }
  }

  lemma ReversalLegal(db: Db, t: Tx, req: Request, view: View, ids: Ids, now: Instant)
    requires Keyed(db) && Open(db, true, t) && OwnedByPlayer(db, t) && t.refId.None? && IsReversal(t.info.kind)
    requires t.info == InfoFor(req, t.info.id, t.info.createdAt) && db.wallets[req.walletId].balance >= 0
    requires ViewHolds(db, req.walletId, req.cmd.provider, req.cmd.refExternal, view)
    requires Accepted(db, ReversalPlan(t, db.wallets[req.walletId], req, view, ids, now))
    ensures Legal(db, ReversalPlan(t, db.wallets[req.walletId], req, view, ids, now).delta)
  {
    if view.reference.None? || !IsTerminal(view.reference.value.status) {
      PendLegal(db, t, ids, now);
    } else {
      var reference := view.reference.value;
      var code := ReversalRejection(reference, req.kind, req.walletId, req.playerId, req.cmd.round, req.amount);
      if code.Some? {
        RejectLegal(db, true, t, code.value, ids, now);
      } else if view.reverted {
        RejectLegal(db, true, t, DuplicateReversal, ids, now);
      } else {
        var resolved := ResolveReference(t, reference.info.id, now).value;
        assert RefOk(db.txs, resolved) && Open(db, true, resolved);
        MoveLegal(db, true, resolved, ReversalDirection(reference.info.kind), ids, now);
      }
    }
  }

  // Resuming a pending row writes legally.
  lemma ResumeLegal(db: Db, p: Tx, view: View, policy: Policy, ids: Ids, now: Instant)
    requires Keyed(db) && p.info.id in db.txs && db.txs[p.info.id] == p && p.status == PendingReference
    requires RowState(p) && p.info.walletId in db.wallets && OwnedByPlayer(db, p)
    requires db.wallets[p.info.walletId].balance >= 0
    requires ViewHolds(db, p.info.walletId, p.info.provider, p.info.refExternal, view)
    requires Accepted(db, ResumePlan(p, db.wallets[p.info.walletId], view, policy, ids, now))
    ensures Legal(db, ResumePlan(p, db.wallets[p.info.walletId], view, policy, ids, now).delta)
  {
    assert Open(db, false, p);
    if view.reference.None? || !IsTerminal(view.reference.value.status) {
      WaitLegal(db, p, policy, ids, now);
    } else {
      var reference := view.reference.value;
      var code := ReversalRejection(reference, p.info.kind, p.info.walletId, p.info.playerId, p.info.round, p.info.amount);
      if code.Some? {
        RejectLegal(db, false, p, code.value, ids, now);
      } else if view.reverted {
        RejectLegal(db, false, p, DuplicateReversal, ids, now);
      } else {
        var resolved := ResolveReference(p, reference.info.id, now).value;
        assert RefOk(db.txs, resolved) && Open(db, false, resolved);
        MoveLegal(db, false, resolved, ReversalDirection(reference.info.kind), ids, now);
      }
    }
  }

  // ----- units keep the invariant

  lemma WritesKeepInv(db: Db, d: Delta)
    requires Inv(db) && RunDelta(db, d).error.None? && Legal(db, d)
    ensures RunDelta(db, d).db == Applied(db, d) && Inv(RunDelta(db, d).db)
  {
    RunIsApplied(db, d);
    RunDeltaKeepsSound(db, d);
    LegalKeepsInv(db, d);
  }

  lemma RequestKeepsInv(db: Db, req: Request, ids: Ids, now: Instant)
    requires Inv(db) && Runs(db, RequestPlan(db, req, ids, now))
    ensures Legal(db, RequestPlan(db, req, ids, now).delta)
    ensures Inv(RunDelta(db, RequestPlan(db, req, ids, now).delta).db)
  {
    RunsAreAccepted(db, RequestPlan(db, req, ids, now));
    FreshViewHolds(db, req.walletId, req.cmd.provider, req.cmd.refExternal);
    ApplyLegal(db, req, ViewOf(db, req.cmd.provider, req.cmd.refExternal), ids, now);
    WritesKeepInv(db, RequestPlan(db, req, ids, now).delta);
  }

  lemma ResumeKeepsInv(db: Db, p: Tx, policy: Policy, ids: Ids, now: Instant)
    requires Inv(db) && p.info.id in db.txs && db.txs[p.info.id] == p && p.status == PendingReference
    requires Runs(db, ResumeOn(db, p, policy, ids, now))
    ensures Legal(db, ResumeOn(db, p, policy, ids, now).delta)
    ensures Inv(RunDelta(db, ResumeOn(db, p, policy, ids, now).delta).db)
  {
    RunsAreAccepted(db, ResumeOn(db, p, policy, ids, now));
    FreshViewHolds(db, p.info.walletId, p.info.provider, p.info.refExternal);
    ResumeLegal(db, p, ViewOf(db, p.info.provider, p.info.refExternal), policy, ids, now);
    WritesKeepInv(db, ResumeOn(db, p, policy, ids, now).delta);
  }
}
