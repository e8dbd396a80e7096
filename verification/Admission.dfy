// What the writes of a decision look like, when the schema admits its transaction row, and when a
// failing identifier generator stops its statements halfway.
module Admission {
  import opened Base
  import opened MoneyModel
  import opened Wagering
  import opened Wallets
  import opened Store
  import opened Process
  import opened Resolve

  // ----- the shape of a decision's writes

  // A movement concerns the locked wallet, goes with a processed row, and is announced by an
  // outcome event and a balance event.
  ghost predicate MovesAs(d: Delta, info: Info, w: WalletRow, ids: Ids, now: Instant)
    requires d.move.Some?
  {
    var m := d.move.value;
    && m.wallet.id == w.id && m.wallet.balance >= 0 && m.wallet.version == w.version + 1 && m.wallet.updatedAt == now
    && d.tx.status == Processed
    && |d.events| == 2 && d.events[1].id == ids.balanceEvent && d.events[1].eventType == BalanceChanged
    && d.events[1].aggregateId == info.walletId
    && match m.entry
       case Err(x) => IsDomainError(x) && (ids.entry == 0 || w.id == 0 || info.id == 0)
       case Ok(e) =>
         && ids.entry != 0 && e.id == ids.entry && e.txId == info.id && e.walletId == w.id && e.currency == w.currency
         && e.before == w.balance && EntryChecks(e) && e.createdAt == now
  }

  // The row written is the one asked about; a new row is always announced.
  ghost predicate Concerns(plan: Plan, create: bool, info: Info, w: WalletRow, ids: Ids, now: Instant) {
    plan.Write? ==>
      var d := plan.delta;
      && d.create == create && d.tx.info == info && (|d.events| == 0 ==> !create && d.tx.status == PendingReference)
      && (|d.events| >= 1 ==> d.events[0].id == ids.txEvent && d.events[0].eventType != BalanceChanged)
      && (if d.move.Some? then MovesAs(d, info, w, ids, now) else |d.events| <= 1)
  }

  lemma MoveConcerns(create: bool, t: Tx, w: WalletRow, direction: Direction, amount: Money, ids: Ids, now: Instant)
    requires w.balance >= 0
    ensures Concerns(MovePlan(create, t, w, direction, amount, ids, now), create, t.info, w, ids, now)
  {
  }

  lemma RejectConcerns(create: bool, t: Tx, w: WalletRow, code: FailureCode, ids: Ids, now: Instant)
    ensures Concerns(RejectPlan(create, t, code, ids, now), create, t.info, w, ids, now)
  {
  }

  lemma ReversalConcerns(t: Tx, w: WalletRow, req: Request, view: View, ids: Ids, now: Instant)
    requires w.balance >= 0
    ensures Concerns(ReversalPlan(t, w, req, view, ids, now), true, t.info, w, ids, now)
  {
    if view.reference.Some? && IsTerminal(view.reference.value.status) {
      var reference := view.reference.value;
      var code := ReversalRejection(reference, req.kind, req.walletId, req.playerId, req.cmd.round, req.amount);
      RejectConcerns(true, t, w, if code.Some? then code.value else DuplicateReversal, ids, now);
      if ResolveReference(t, reference.info.id, now).Ok? {
        MoveConcerns(true, ResolveReference(t, reference.info.id, now).value, w, ReversalDirection(reference.info.kind),
                     req.amount, ids, now);
      }
    }
  }

  lemma ApplyConcerns(req: Request, w: WalletRow, view: View, ids: Ids, now: Instant)
    requires w.balance >= 0
    ensures Concerns(ApplyPlan(req, w, view, ids, now), true, InfoFor(req, ids.tx, now), w, ids, now)
    ensures ApplyPlan(req, w, view, ids, now).Write? && ApplyPlan(req, w, view, ids, now).delta.move.Some? ==> req.kind != Loss
  {
    var created := NewExternal(InfoFor(req, ids.tx, now));
    if created.Ok? {
      if IsReversal(req.kind) {
        ReversalConcerns(created.value, w, req, view, ids, now);
      } else {
        MoveConcerns(true, created.value, w, if req.kind == Bet then Debit else Credit, req.amount, ids, now);
      }
    }
  }

  lemma ResumeConcerns(p: Tx, w: WalletRow, view: View, policy: Policy, ids: Ids, now: Instant)
    requires w.balance >= 0
    ensures Concerns(ResumePlan(p, w, view, policy, ids, now), false, p.info, w, ids, now)
  {
    if view.reference.Some? && IsTerminal(view.reference.value.status) {
      var reference := view.reference.value;
      var code := ReversalRejection(reference, p.info.kind, p.info.walletId, p.info.playerId, p.info.round, p.info.amount);
      RejectConcerns(false, p, w, if code.Some? then code.value else DuplicateReversal, ids, now);
      if ResolveReference(p, reference.info.id, now).Ok? {
        MoveConcerns(false, ResolveReference(p, reference.info.id, now).value, w, ReversalDirection(reference.info.kind),
                     p.info.amount, ids, now);
      }
    } else {
      RejectConcerns(false, p, w, ReferenceNotFound, ids, now);
    }
  }

  // ----- when the schema admits a new row

  // A row whose columns agree with its status and whose reference, if any, is stored and free.
  ghost predicate RowFits(txs: map<Id, Tx>, t: Tx) {
    && FieldsMatchStatus(t) && (t.result.Some? ==> t.result.value.balance.minor >= 0)
    && (t.refId.Some? ==> t.refId.value in txs)
    && (SuccessfulReversal(t) ==> t.refId.Some? && !HasSuccessfulReversal(txs, t.refId.value))
  }

  predicate Fresh(t: Tx) {
    t.status == Pending && t.result.None? && t.failure.None? && t.nextRetry.None? && t.attempts == 0
  }

  predicate Waiting(t: Tx) {
    t.status == PendingReference && t.result.None? && t.failure.None? && t.attempts >= 0 && IsReversal(t.info.kind)
  }

  lemma MoveFits(create: bool, txs: map<Id, Tx>, t: Tx, w: WalletRow, direction: Direction, amount: Money, ids: Ids, now: Instant)
    requires w.balance >= 0 && (if create then Fresh(t) else Waiting(t))
    requires t.refId.Some? ==> IsReversal(t.info.kind) && t.refId.value in txs && !HasSuccessfulReversal(txs, t.refId.value)
    requires IsReversal(t.info.kind) ==> t.refId.Some?
    ensures var plan := MovePlan(create, t, w, direction, amount, ids, now); plan.Write? ==> RowFits(txs, plan.delta.tx)
  {
  }

  lemma ReversalFits(txs: map<Id, Tx>, t: Tx, w: WalletRow, req: Request, view: View, ids: Ids, now: Instant)
    requires w.balance >= 0 && Fresh(t) && t.refId.None? && IsReversal(t.info.kind)
    requires Stored(txs, view)
    ensures var plan := ReversalPlan(t, w, req, view, ids, now); plan.Write? ==> RowFits(txs, plan.delta.tx)
  {
    if view.reference.Some? && !view.reverted && ResolveReference(t, view.reference.value.info.id, now).Ok? {
      var reference := view.reference.value;
      MoveFits(true, txs, ResolveReference(t, reference.info.id, now).value, w, ReversalDirection(reference.info.kind), req.amount, ids, now);
    }
  }

  // The reference a view shows is stored, and free if the view says so.
  ghost predicate Stored(txs: map<Id, Tx>, view: View) {
    view.reference.Some? ==>
      var id := view.reference.value.info.id; id in txs && (!view.reverted ==> !HasSuccessfulReversal(txs, id))
  }

  lemma ViewIsStored(db: Db, provider: string, refExternal: string)
    requires Sound(db)
    ensures Stored(db.txs, ViewOf(db, provider, refExternal))
  {
  }

  lemma ResumeFits(txs: map<Id, Tx>, p: Tx, w: WalletRow, view: View, policy: Policy, ids: Ids, now: Instant)
    requires w.balance >= 0 && Waiting(p) && p.refId.None? && Stored(txs, view)
    ensures var plan := ResumePlan(p, w, view, policy, ids, now); plan.Write? ==> RowFits(txs, plan.delta.tx)
  {
    if view.reference.Some? && !view.reverted && ResolveReference(p, view.reference.value.info.id, now).Ok? {
      var reference := view.reference.value;
      MoveFits(false, txs, ResolveReference(p, reference.info.id, now).value, w, ReversalDirection(reference.info.kind),
               p.info.amount, ids, now);
    }
  }

  lemma ApplyFits(txs: map<Id, Tx>, req: Request, w: WalletRow, view: View, ids: Ids, now: Instant)
    requires w.balance >= 0 && Stored(txs, view)
    ensures var plan := ApplyPlan(req, w, view, ids, now); plan.Write? ==> RowFits(txs, plan.delta.tx)
  {
    var created := NewExternal(InfoFor(req, ids.tx, now));
    if created.Ok? {
      if IsReversal(req.kind) {
        ReversalFits(txs, created.value, w, req, view, ids, now);
      } else {
        MoveFits(true, txs, created.value, w, if req.kind == Bet then Debit else Credit, req.amount, ids, now);
      }
    }
  }

  // A row that could be inserted was not there: the replay check would find nothing.
  lemma NothingToReplay(db: Db, req: Request, t: Tx)
    requires TxUnique(db.txs, t) && t.info.external && t.info.id !in db.txs
    requires t.info.provider == req.cmd.provider && t.info.externalId == req.cmd.externalId && t.info.key == req.cmd.key
    ensures ReplayPlan(db.txs, req).None?
  {
    assert forall id | id in db.txs :: !Clash(db.txs[id], t);
  }

  // And the other way round: nothing to replay, nothing to clash with.
  lemma NothingToClash(db: Db, req: Request, t: Tx)
    requires RowFits(db.txs, t) && ReplayPlan(db.txs, req).None? && t.info.kind != Opening
    requires t.info.external && t.info.provider == req.cmd.provider && t.info.externalId == req.cmd.externalId && t.info.key == req.cmd.key
    ensures TxUnique(db.txs, t)
  {
    forall o | o in db.txs && o != t.info.id ensures !Clash(db.txs[o], t) {
      assert !HasKey(db.txs[o], req.cmd.provider, req.cmd.key) && !HasExternalId(db.txs[o], req.cmd.provider, req.cmd.externalId);
      assert SuccessfulReversal(t) ==> !SuccessfulReversalOf(db.txs[o], t.refId.value);
    }
  }

  lemma RowChecks(db: Db, req: Request, t: Tx, ids: Ids, now: Instant)
    requires req.walletId in db.wallets && WalletChecks(db.wallets[req.walletId]) && RowFits(db.txs, t)
    requires t.info == InfoFor(req, ids.tx, now) && NewExternal(t.info).Ok?
    ensures TxChecks(t) && TxForeignKeys(db, t) <==> db.wallets[req.walletId].currency == req.amount.currency
  {
  }

  // The schema admits the row of a new submission exactly when its identifier is new and the
  // wallet is kept in its currency.
  lemma RowAdmitted(db: Db, req: Request, ids: Ids, now: Instant)
    requires Sound(db) && RequestPlan(db, req, ids, now).Write?
    ensures InsertTx(db, RequestPlan(db, req, ids, now).delta.tx).Ok?
            <==> ids.tx !in db.txs && db.wallets[req.walletId].currency == req.amount.currency
  {
    var w, view := db.wallets[req.walletId], ViewOf(db, req.cmd.provider, req.cmd.refExternal);
    ApplyConcerns(req, w, view, ids, now);
    ViewIsStored(db, req.cmd.provider, req.cmd.refExternal);
    ApplyFits(db.txs, req, w, view, ids, now);
    var t := RequestPlan(db, req, ids, now).delta.tx;
    RowChecks(db, req, t, ids, now);
    NothingToClash(db, req, t);
  }

  // ----- when the generator stops a new submission's statements halfway

  predicate EntryIdFree(db: Db, id: Id) {
    forall i | 0 <= i < |db.ledger| :: db.ledger[i].id != id
  }

  predicate EventIdFree(db: Db, id: Id) {
    forall i | 0 <= i < |db.outbox| :: db.outbox[i].id != id
  }

  // The first identifier that does not serve is one the generator failed to deliver, rather than
  // one already taken.
  predicate GeneratorFails(db: Db, moves: bool, ids: Ids) {
    if !moves then ids.txEvent == 0
    else
      || ids.entry == 0
      || (EntryIdFree(db, ids.entry) && (ids.txEvent == 0 || (EventIdFree(db, ids.txEvent) && ids.balanceEvent == 0)))
  }

  // A run that an error stopped although no statement was refused.
  predicate StopsHalfway(db: Db, d: Delta) {
    RunDelta(db, d).error.Some? && !RunDelta(db, d).failed
  }

  lemma EntryAdmitted(db: Db, e: Entry)
    requires LedgerSound(db) && e.walletId in db.wallets && db.wallets[e.walletId].currency == e.currency && EntryChecks(e)
    requires forall i | 0 <= i < |db.ledger| :: db.ledger[i].txId != e.txId
    ensures forall next: Db | next.ledger == db.ledger && next.wallets == db.wallets && e.txId in next.txs ::
              InsertEntry(next, e).Ok? <==> EntryIdFree(db, e.id)
  {
  }

  lemma EventsStop(db: Db, events: seq<Event>)
    requires 1 <= |events| <= 2
    ensures var run := RunEvents(db, events);
            run.error.Some? && !run.failed <==>
            events[0].id == 0 || (|events| == 2 && EventIdFree(db, events[0].id) && events[1].id == 0)
  {
    if events[0].id != 0 && InsertEvent(db, events[0]).Ok? {
      var next := InsertEvent(db, events[0]).value;
      assert RunEvents(db, events) == RunEvents(next, events[1..]);
      if |events| == 2 {
        assert events[1..][0] == events[1];
        if events[1].id != 0 && InsertEvent(next, events[1]).Ok? {
          assert events[1..][1..] == [];
        }
      } else {
        assert events[1..] == [];
      }
    }
  }

  lemma RunStops(db: Db, d: Delta, info: Info, w: WalletRow, ids: Ids, now: Instant)
    requires Sound(db) && InsertTx(db, d.tx).Ok? && d.tx.info == info && w.id == info.walletId && w.id in db.wallets && db.wallets[w.id] == w
    requires w.id != 0 && info.id != 0 && w.version >= 1
    requires Concerns(Write(d, TxResult(0, Pending, None, None, false)), true, info, w, ids, now)
    ensures StopsHalfway(db, d) <==> GeneratorFails(db, d.move.Some?, ids)
  {
    var next := InsertTx(db, d.tx).value;
    match d.move
    case None => EventsStop(next, d.events);
    case Some(m) =>
      if m.entry.Ok? {
        EntryAdmitted(db, m.entry.value);
        if InsertEntry(next, m.entry.value).Ok? {
          EventsStop(RunMove(next, m).db, d.events);
        }
      }
  }

  // A new submission's run stops halfway exactly when its row is admitted and the generator fails.
  lemma StopsExactly(db: Db, req: Request, ids: Ids, now: Instant)
    requires Sound(db) && RequestPlan(db, req, ids, now).Write?
    ensures var d := RequestPlan(db, req, ids, now).delta;
            StopsHalfway(db, d) <==>
            ids.tx !in db.txs && db.wallets[req.walletId].currency == req.amount.currency && GeneratorFails(db, d.move.Some?, ids)
  {
    var w := db.wallets[req.walletId];
    var plan := RequestPlan(db, req, ids, now);
    RowAdmitted(db, req, ids, now);
    ApplyConcerns(req, w, ViewOf(db, req.cmd.provider, req.cmd.refExternal), ids, now);
    if InsertTx(db, plan.delta.tx).Ok? {
      RunStops(db, plan.delta, plan.delta.tx.info, w, ids, now);
    }
  }

  // The identifiers of entry and events arrived, and none is taken.
  predicate FreshWrites(db: Db, ids: Ids) {
    && ids.entry != 0 && EntryIdFree(db, ids.entry)
    && ids.txEvent != 0 && EventIdFree(db, ids.txEvent) && ids.balanceEvent != 0 && EventIdFree(db, ids.balanceEvent)
    && ids.txEvent != ids.balanceEvent
  }

  // Every identifier arrived, and none is taken.
  predicate FreshIds(db: Db, ids: Ids) {
    ids.tx != 0 && ids.tx !in db.txs && FreshWrites(db, ids)
  }

  lemma FreshEventsRun(db: Db, events: seq<Event>)
    requires 1 <= |events| <= 2 && events[0].id != 0 && EventIdFree(db, events[0].id)
    requires |events| == 2 ==> events[1].id != 0 && EventIdFree(db, events[1].id) && events[0].id != events[1].id
    ensures RunEvents(db, events).error.None?
  {
    var next := InsertEvent(db, events[0]).value;
    assert RunEvents(db, events) == RunEvents(next, events[1..]);
    if |events| == 2 {
      assert events[1..][0] == events[1] && events[1..][1..] == [];
      assert InsertEvent(next, events[1]).Ok?;
      assert RunEvents(next, events[1..]) == RunEvents(InsertEvent(next, events[1]).value, []);
    } else {
      assert events[1..] == [];
    }
  }

  // Under fresh identifiers a new submission that decides to write is stored exactly when its
  // wallet is kept in its currency, and otherwise refused.
  lemma FreshRun(db: Db, req: Request, ids: Ids, now: Instant)
    requires Sound(db) && RequestPlan(db, req, ids, now).Write? && FreshIds(db, ids)
    ensures var d, run := RequestPlan(db, req, ids, now).delta, RunDelta(db, RequestPlan(db, req, ids, now).delta);
            && d.tx.info == InfoFor(req, ids.tx, now)
            && (if db.wallets[req.walletId].currency == req.amount.currency then
                  run.error.None? && d.tx.info.id in run.db.txs && d.tx.info.id !in db.txs
                else run == Exec(db, Some(PersistenceConflict), true))
  {
    var w, plan := db.wallets[req.walletId], RequestPlan(db, req, ids, now);
    RowAdmitted(db, req, ids, now);
    ApplyConcerns(req, w, ViewOf(db, req.cmd.provider, req.cmd.refExternal), ids, now);
    if InsertTx(db, plan.delta.tx).Ok? {
      FreshDelta(db, plan.delta, InsertTx(db, plan.delta.tx).value, w, ids, now);
    }
  }

  // Once the transaction row is written, fresh identifiers carry the other statements through.
  lemma FreshDelta(db: Db, d: Delta, next: Db, w: WalletRow, ids: Ids, now: Instant)
    requires (if d.create then InsertTx(db, d.tx) else UpdateTx(db, d.tx)) == Ok(next) && d.tx.info.id in next.txs
    requires LedgerSound(db) && FreshWrites(db, ids) && forall i | 0 <= i < |db.ledger| :: db.ledger[i].txId != d.tx.info.id
    requires w.id in db.wallets && db.wallets[w.id] == w && w.id != 0 && d.tx.info.id != 0 && w.version >= 1
    requires Concerns(Write(d, TxResult(0, Pending, None, None, false)), d.create, d.tx.info, w, ids, now)
    ensures RunDelta(db, d).error.None? && d.tx.info.id in RunDelta(db, d).db.txs
  {
    match d.move
    case None =>
      if d.events != [] {
        FreshEventsRun(next, d.events);
      }
      EventsKeepTxs(next, d.events);
    case Some(m) =>
      EntryAdmitted(db, m.entry.value);
      FreshEventsRun(RunMove(next, m).db, d.events);
      EventsKeepTxs(RunMove(next, m).db, d.events);
  }

  lemma {:induction false} EventsKeepTxs(db: Db, events: seq<Event>)
    ensures RunEvents(db, events).db.txs == db.txs
    decreases |events|
  {
    if events != [] && events[0].id != 0 && InsertEvent(db, events[0]).Ok? {
      EventsKeepTxs(InsertEvent(db, events[0]).value, events[1..]);
    }
  }

  // ----- a row the worker resumes

  lemma NoOtherClash(db: Db, p: Tx, t: Tx)
    requires p.info.id in db.txs && db.txs[p.info.id] == p && t.info == p.info && RowFits(db.txs, t)
    requires forall a, b | a in db.txs && b in db.txs :: a != b ==> !Clash(db.txs[a], db.txs[b])
    ensures TxUnique(db.txs, t)
  {
    forall o | o in db.txs && o != t.info.id ensures !Clash(db.txs[o], t) {
      assert !Clash(db.txs[o], p);
      assert SuccessfulReversal(t) ==> !SuccessfulReversalOf(db.txs[o], t.refId.value);
    }
  }

  lemma ResumedRowAdmitted(db: Db, p: Tx, t: Tx)
    requires p.info.id in db.txs && db.txs[p.info.id] == p && t.info == p.info && RowFits(db.txs, t)
    requires TxChecks(p) && TxForeignKeys(db, p) && TxUnique(db.txs, t)
    ensures UpdateTx(db, t) == Ok(db.(txs := db.txs[t.info.id := t]))
  {
    assert TxChecks(t) && TxForeignKeys(db, t);
  }

  // Under fresh identifiers whatever a resumption decides to write is stored.
  lemma FreshResumption(db: Db, p: Tx, policy: Policy, ids: Ids, now: Instant)
    requires Sound(db) && p.info.id in db.txs && db.txs[p.info.id] == p && Waiting(p) && p.refId.None? && p.info.id != 0
    requires p.info.walletId != 0 && FreshWrites(db, ids) && ResumeOn(db, p, policy, ids, now).Write?
    requires forall i | 0 <= i < |db.ledger| :: db.ledger[i].txId != p.info.id
    ensures RunDelta(db, ResumeOn(db, p, policy, ids, now).delta).error.None?
  {
    var w, view := db.wallets[p.info.walletId], ViewOf(db, p.info.provider, p.info.refExternal);
    var d := ResumeOn(db, p, policy, ids, now).delta;
    ViewIsStored(db, p.info.provider, p.info.refExternal);
    ResumeFits(db.txs, p, w, view, policy, ids, now);
    ResumeConcerns(p, w, view, policy, ids, now);
    NoOtherClash(db, p, d.tx);
    ResumedRowAdmitted(db, p, d.tx);
    FreshDelta(db, d, UpdateTx(db, d.tx).value, w, ids, now);
  }
}
