// Every unit of work, run against any committed state that satisfies the invariant, commits
// another one. A message unit needs one thing more: the identifiers it draws must be delivered.
module Steps {
  import opened Base
  import opened Wagering
  import opened Wallets
  import opened Store
  import opened Process
  import opened Resolve
  import opened Units
  import opened Invariant
  import opened Legality

  // ----- opening a wallet

  lemma NothingYet(db: Db, w: Id)
    requires Inv(db) && w !in db.wallets
    ensures forall i | 0 <= i < |db.ledger| :: db.ledger[i].walletId != w
    ensures Sum(db.ledger, w) == 0 && Moves(db.txs, db.ledger, w) == 0
  {
    forall i | 0 <= i < |db.ledger| ensures db.ledger[i].walletId != w {
      assert EntryOk(db.txs, db.ledger, i);
    }
    NoEntries(db.txs, db.ledger, w);
  }

  lemma EmptyOpeningKeepsInv(db: Db, w: WalletRow)
    requires Inv(db) && InsertWallet(db, w).Ok? && w.balance == 0 && w.version == 1
    ensures Inv(InsertWallet(db, w).value)
  {
    NothingYet(db, w.id);
    WalletInsertKeepsSound(db, w);
    EmptyWalletRows(db, w);
  }

  lemma EmptyWalletRows(db: Db, w: WalletRow)
    requires Rows(db) && Balances(db) && w.id !in db.wallets && w.balance == 0 && w.version == 1
    requires Sum(db.ledger, w.id) == 0 && Moves(db.txs, db.ledger, w.id) == 0
    ensures Rows(db.(wallets := db.wallets[w.id := w])) && Balances(db.(wallets := db.wallets[w.id := w]))
  {
    var next := db.(wallets := db.wallets[w.id := w]);
    forall x | x in next.wallets ensures BalanceOk(next.wallets, next.txs, next.ledger, x) {
      assert x != w.id ==> BalanceOk(db.wallets, db.txs, db.ledger, x);
    }
  }

  ghost predicate OpeningTx(t: Tx, w: WalletRow) {
    && t.info.id != 0 && w.id != 0 && t.info.kind == Opening && t.info.walletId == w.id && t.info.playerId == w.playerId
    && t.info.amount == w.Balance() && t.status == Processed && t.result == Some(Outcome(w.Balance(), w.version))
    && t.refId.None? && t.failure.None? && t.nextRetry.None? && t.attempts == 0
  }

  ghost predicate OpeningEntry(e: Entry, t: Tx, w: WalletRow) {
    && e.walletId == w.id && e.txId == t.info.id && e.direction == Credit && e.amount == w.balance
    && e.currency == w.currency && e.before == 0 && e.after == w.balance
  }

  lemma OpeningLedger(db: Db, w: WalletRow, t: Tx, e: Entry)
    requires Refs(db.txs) && Ledger(db.txs, db.ledger) && w.version == 1 && w.balance > 0
    requires forall i | 0 <= i < |db.ledger| :: db.ledger[i].walletId != w.id
    requires t.info.id !in db.txs && OpeningTx(t, w) && OpeningEntry(e, t, w)
    ensures Ledger(db.txs[t.info.id := t], db.ledger + [e])
  {
    var txs, L := db.txs[t.info.id := t], db.ledger + [e];
    NoEntries(txs, db.ledger, w.id);
    EntryAppended(txs, db.ledger, t, e);
    LedgerGrows(db.txs, txs, db.ledger, L, t.info.id);
  }

  lemma OpeningTotals(txs: map<Id, Tx>, t: Tx, L: seq<Entry>, e: Entry, x: Id)
    requires EntriesKnown(txs, L) && t.info.id !in txs && t.info.kind == Opening && e.txId == t.info.id
    ensures Moves(txs[t.info.id := t], L + [e], x) == Moves(txs, L, x)
    ensures Sum(L + [e], x) == Sum(L, x) + if x == e.walletId then Signed(e) else 0
  {
    MovesFrame(txs, txs[t.info.id := t], L, x);
    MovesAppend(txs[t.info.id := t], L, e, x);
    SumAppend(L, e, x);
  }

  lemma OpeningBalances(db: Db, w: WalletRow, t: Tx, e: Entry)
    requires Balances(db) && EntriesKnown(db.txs, db.ledger) && w.id !in db.wallets && w.version == 1
    requires Sum(db.ledger, w.id) == 0 && Moves(db.txs, db.ledger, w.id) == 0
    requires t.info.id !in db.txs && OpeningTx(t, w) && OpeningEntry(e, t, w)
    ensures Balances(db.(wallets := db.wallets[w.id := w], txs := db.txs[t.info.id := t], ledger := db.ledger + [e]))
  {
    var txs, L := db.txs[t.info.id := t], db.ledger + [e];
    forall x: Id ensures Moves(txs, L, x) == Moves(db.txs, db.ledger, x)
                 && Sum(L, x) == Sum(db.ledger, x) + if x == w.id then w.balance as int else 0
    {
      OpeningTotals(db.txs, t, db.ledger, e, x);
    }
  }

  lemma OpeningMirror(db: Db, w: WalletRow, t: Tx, e: Entry, events: seq<Event>)
    requires Mirrored(db) && EntriesKnown(db.txs, db.ledger)
    requires t.info.id !in db.txs && OpeningTx(t, w) && OpeningEntry(e, t, w)
    requires |events| == 2 && events[0].eventType != BalanceChanged && events[1].eventType == BalanceChanged
    requires events[1].aggregateId == w.id && events[1].data == EventOf(map[t.info.id := t], e)
    ensures Mirrored(db.(txs := db.txs[t.info.id := t], ledger := db.ledger + [e], outbox := db.outbox + events))
  {
    var txs := db.txs[t.info.id := t];
    assert events == [events[0], events[1]] && EventOf(txs, e) == events[1].data;
    forall x: Id ensures Changes(db.outbox + events, x) == Expected(txs, db.ledger + [e], x) {
      ExpectedFrame(db.txs, txs, db.ledger, x);
      MirrorAppended(txs, db.ledger, e, db.outbox, events[0], events[1], x);
    }
  }

  lemma OpeningRefs(db: Db, w: WalletRow, t: Tx)
    requires Refs(db.txs) && t.info.id !in db.txs && OpeningTx(t, w)
    ensures Refs(db.txs[t.info.id := t])
  {
  }

  // What a credited opening writes when every statement succeeds.
  lemma OpeningShape(db: Db, w: WalletRow, o: OpeningWrites, ids: Ids)
    requires InsertWallet(db, w).Ok? && w.balance > 0 && w.version == 1
    requires OpeningOf(w, ids) == Ok(o) && RunOpening(InsertWallet(db, w).value, o).error.None?
    ensures o.entry.Ok? && OpeningTx(o.tx, w) && OpeningEntry(o.entry.value, o.tx, w) && o.tx.info.id !in db.txs
    ensures |o.events| == 2 && o.events[0].eventType != BalanceChanged && o.events[1].eventType == BalanceChanged
    ensures o.events[1].aggregateId == w.id && o.events[1].data == EventOf(map[o.tx.info.id := o.tx], o.entry.value)
    ensures RunOpening(InsertWallet(db, w).value, o).db ==
            Db(db.wallets[w.id := w], db.txs[o.tx.info.id := o.tx], db.ledger + [o.entry.value], db.inbox, db.outbox + o.events)
  {
    var next := InsertWallet(db, w).value;
    var withTx := InsertTx(next, o.tx).value;
    EventsRun(InsertEntry(withTx, o.entry.value).value, o.events);
  }

  lemma CreditedOpeningKeepsInv(db: Db, w: WalletRow, ids: Ids)
    requires Inv(db) && InsertWallet(db, w).Ok? && w.balance > 0 && w.version == 1 && w.id != 0
    requires OpeningOf(w, ids).Ok? && RunOpening(InsertWallet(db, w).value, OpeningOf(w, ids).value).error.None?
    ensures Inv(RunOpening(InsertWallet(db, w).value, OpeningOf(w, ids).value).db)
  {
    var o := OpeningOf(w, ids).value;
    OpeningShape(db, w, o, ids);
    var t, e := o.tx, o.entry.value;
    NothingYet(db, w.id);
    EntriesProcessed(db.txs, db.ledger);
    OpeningLedger(db, w, t, e);
    OpeningBalances(db, w, t, e);
    OpeningRefs(db, w, t);
    OpeningMirror(db, w, t, e, o.events);
    OpenKeepsSound(db, w, ids);
    OpeningRows(db, w, t);
    var last := RunOpening(InsertWallet(db, w).value, o).db;
    assert Mirrored(last) && Balances(last) && Rows(last);
  }

  lemma OpeningRows(db: Db, w: WalletRow, t: Tx)
    requires Rows(db) && OpeningTx(t, w) && w.id !in db.wallets
    ensures Rows(db.(wallets := db.wallets[w.id := w], txs := db.txs[t.info.id := t]))
  {
  }

  lemma OpenKeepsInv(
    db: Db, codec: Codec, player: string, amount: string, currency: string, walletId: Id, ids: Ids, now: Instant)
    requires Inv(db)
    ensures Inv(OpenStep(db, codec, player, amount, currency, walletId, ids, now).0)
  {
    var row := OpenRow(codec, player, amount, currency, walletId, now);
    if row.Ok? && OpenExec(db, row.value, ids).error.None? {
      if row.value.balance == 0 {
        EmptyOpeningKeepsInv(db, row.value);
      } else {
        CreditedOpeningKeepsInv(db, row.value, ids);
      }
    }
  }

  // ----- submissions and the worker

  lemma UnitKeepsInv(db: Db, plan: Plan)
    requires Inv(db) && (Runs(db, plan) ==> Inv(RunDelta(db, plan.delta).db))
    ensures Inv(CommitOrRollback(db, PlanExec(db, plan)))
  {
  }

  lemma ExecuteKeepsInv(db: Db, codec: Codec, c: Command, ids: Ids, now: Instant)
    requires Inv(db)
    ensures Inv(ExecuteStep(db, codec, c, ids, now).0)
  {
    var plan := ExecutePlan(db, codec, c, ids, now);
    if Runs(db, plan) {
      RequestKeepsInv(db, Parse(codec, c).value, ids, now);
    }
    UnitKeepsInv(db, plan);
  }

  lemma WorkerKeepsInv(db: Db, policy: Policy, ids: Ids, now: Instant)
    requires Inv(db)
    ensures Inv(WorkerStep(db, policy, ids, now).0)
  {
    if Claimed(db.txs, now).Some? {
      var p := Claimed(db.txs, now).value;
      ClaimedIsStored(db, p, now);
      if Runs(db, ResumeOn(db, p, policy, ids, now)) {
        ResumeKeepsInv(db, p, policy, ids, now);
      }
      UnitKeepsInv(db, ResumeOn(db, p, policy, ids, now));
    }
  }

  lemma ClaimedIsStored(db: Db, p: Tx, now: Instant)
    requires Keyed(db) && Claimed(db.txs, now) == Some(p)
    ensures p.info.id in db.txs && db.txs[p.info.id] == p && p.status == PendingReference
  {
  }

  // ----- messages

  // The generator delivered every identifier the writes need after the first statement.
  predicate Delivered(d: Delta) {
    (d.move.Some? ==> d.move.value.entry.Ok?) && forall i | 0 <= i < |d.events| :: d.events[i].id != 0
  }

  // A unit whose identifiers arrive either completes or has a statement refused.
  lemma {:induction false} EventsCompleteOrRefused(db: Db, events: seq<Event>)
    requires forall i | 0 <= i < |events| :: events[i].id != 0
    ensures RunEvents(db, events).error.Some? ==> RunEvents(db, events).failed
    decreases |events|
  {
    if events != [] && InsertEvent(db, events[0]).Ok? {
      EventsCompleteOrRefused(InsertEvent(db, events[0]).value, events[1..]);
    }
  }

  lemma DeliveredCompletesOrRefused(db: Db, d: Delta)
    requires Delivered(d) && (!d.create ==> d.tx.info.id in db.txs)
    requires d.move.Some? ==> d.move.value.wallet.id in db.wallets
    ensures RunDelta(db, d).error.Some? ==> RunDelta(db, d).failed
  {
    var first := if d.create then InsertTx(db, d.tx) else UpdateTx(db, d.tx);
    if first.Ok? {
      match d.move
      case None => EventsCompleteOrRefused(first.value, d.events);
      case Some(m) => EventsCompleteOrRefused(RunMove(first.value, m).db, d.events);
    }
  }

  lemma RecordKeepsInv(db: Db, key: InboxKey, hash: string)
    requires Inv(db)
    ensures Inv(Record(db, key, hash))
  {
  }
}
