// When a wallet opens, and what is stored then.
module Openings {
  import opened Base
  import opened MoneyModel
  import opened Wagering
  import opened Wallets
  import opened Store
  import opened Process
  import opened Units
  import opened Legality
  import opened Admission
  import opened Outcomes
  import opened Texts
  import MoneyText

  // The row a request to open a wallet denotes.
  predicate AsksFor(codec: Codec, player: string, amount: string, currency: string, walletId: Id, now: Instant, w: WalletRow) {
    && (codec.parseId)(player) == Some(w.playerId) && w.playerId != 0 && walletId != 0 && now != 0
    && w.balance >= 0 && amount == MoneyText.Format(w.balance) && ThreeCapitals(currency)
    && w == WalletRow(walletId, w.playerId, currency, w.balance, 1, now, now)
  }

  lemma RowExactly(codec: Codec, player: string, amount: string, currency: string, walletId: Id, now: Instant, w: WalletRow)
    ensures OpenRow(codec, player, amount, currency, walletId, now) == Ok(w)
            <==> AsksFor(codec, player, amount, currency, walletId, now, w)
  {
    AmountText(amount, w.balance);
  }

  // An opening credit of the whole balance, processed at once.
  function OpeningCredit(w: WalletRow, ids: Ids): Tx {
    Tx(Info(ids.tx, false, Opening, w.id, w.playerId, Money(w.balance, w.currency), "", "", "", "", "", "", "", w.createdAt),
       Processed, None, None, Some(Outcome(Money(w.balance, w.currency), 1)), 0, None, w.createdAt)
  }

  function OpeningEntryOf(w: WalletRow, ids: Ids): Entry {
    Entry(ids.entry, w.id, ids.tx, Credit, w.balance, w.currency, 0, w.balance, w.createdAt)
  }

  function OpeningEvents(w: WalletRow, ids: Ids): seq<Event> {
    var all := Money(w.balance, w.currency);
    [Event(ids.txEvent, TransactionProcessed, ids.tx, w.createdAt,
           TxData(ids.tx, w.id, w.playerId, "", "", Opening, Processed, None, all)),
     Event(ids.balanceEvent, BalanceChanged, w.id, w.createdAt,
           BalanceData(w.id, ids.tx, Credit, all, Money(0, w.currency), all, 1))]
  }

  // The wallet alone if it is empty; with its credit, entry and events otherwise.
  function Opened(db: Db, w: WalletRow, ids: Ids): Db {
    var next := db.(wallets := db.wallets[w.id := w]);
    if w.balance == 0 then next
    else
      next.(txs := db.txs[ids.tx := OpeningCredit(w, ids)], ledger := db.ledger + [OpeningEntryOf(w, ids)],
            outbox := db.outbox + OpeningEvents(w, ids))
  }

  predicate NewRow(w: WalletRow) {
    w.id != 0 && w.playerId != 0 && w.createdAt != 0 && w.balance >= 0 && w.version == 1 && MoneyText.IsCurrency(w.currency)
  }

  lemma CreditIs(w: WalletRow, ids: Ids)
    requires NewRow(w) && w.balance > 0
    ensures OpeningOf(w, ids).Ok? <==> ids.tx != 0
    ensures ids.tx != 0 ==>
              OpeningOf(w, ids) ==
              Ok(OpeningWrites(w, OpeningCredit(w, ids), if ids.entry == 0 then Err(InvalidId) else Ok(OpeningEntryOf(w, ids)),
                               OpeningEvents(w, ids)))
  {
    if ids.tx != 0 {
      assert OpeningOf(w, ids).value.tx == OpeningCredit(w, ids);
      assert OpeningOf(w, ids).value.events == OpeningEvents(w, ids);
    }
  }

  lemma EventsFresh(db: Db, events: seq<Event>)
    requires |events| == 2
    ensures var run := RunEvents(db, events);
            run.error.None? <==> events[0].id != 0 && EventIdFree(db, events[0].id) && events[1].id != 0
                                 && EventIdFree(db, events[1].id) && events[0].id != events[1].id
    ensures RunEvents(db, events).error.None? ==> RunEvents(db, events) == Exec(db.(outbox := db.outbox + events), None, false)
  {
    if events[0].id != 0 && InsertEvent(db, events[0]).Ok? {
      var next := InsertEvent(db, events[0]).value;
      assert RunEvents(db, events) == RunEvents(next, events[1..]) && events[1..][0] == events[1] && events[1..][1..] == [];
      assert next.outbox[|db.outbox|] == events[0] && forall i | 0 <= i < |db.outbox| :: next.outbox[i] == db.outbox[i];
      if events[1].id != 0 && InsertEvent(next, events[1]).Ok? {
        assert RunEvents(next, events[1..]) == RunEvents(InsertEvent(next, events[1]).value, []);
        assert db.outbox + events == db.outbox + [events[0]] + [events[1]];
      }
    }
  }

  lemma CreditAdmitted(db: Db, w: WalletRow, ids: Ids)
    requires Sound(db) && NewRow(w) && w.balance > 0 && InsertWallet(db, w).Ok? && ids.tx != 0
    ensures InsertTx(InsertWallet(db, w).value, OpeningCredit(w, ids)).Ok? <==> ids.tx !in db.txs
  {
    forall o | o in db.txs ensures !Clash(db.txs[o], OpeningCredit(w, ids)) {
      assert TxForeignKeys(db, db.txs[o]) && TxChecks(db.txs[o]);
    }
  }

  lemma EntryAdmittedFor(db: Db, next: Db, w: WalletRow, ids: Ids)
    requires Sound(db) && NewRow(w) && w.balance > 0 && w.id !in db.wallets && ids.tx !in db.txs
    requires next == db.(wallets := db.wallets[w.id := w], txs := db.txs[ids.tx := OpeningCredit(w, ids)])
    ensures InsertEntry(next, OpeningEntryOf(w, ids)).Ok? <==> EntryIdFree(db, ids.entry)
  {
  }

  lemma CreditStored(db: Db, w: WalletRow, ids: Ids)
    requires Sound(db) && NewRow(w) && w.balance > 0 && InsertWallet(db, w).Ok? && ids.tx != 0
    ensures var run := RunOpening(InsertWallet(db, w).value, OpeningOf(w, ids).value);
            (run.error.None? <==> FreshIds(db, ids)) && (run.error.None? ==> run == Exec(Opened(db, w, ids), None, false))
  {
    CreditIs(w, ids);
    CreditAdmitted(db, w, ids);
    if ids.tx !in db.txs {
      var next := db.(wallets := db.wallets[w.id := w], txs := db.txs[ids.tx := OpeningCredit(w, ids)]);
      EntryAdmittedFor(db, next, w, ids);
      if ids.entry != 0 && EntryIdFree(db, ids.entry) {
        EventsFresh(InsertEntry(next, OpeningEntryOf(w, ids)).value, OpeningEvents(w, ids));
      }
    }
  }

  // A wallet opens exactly when its player has none in that currency and the identifiers a credit
  // needs are fresh; then these are the tables, and otherwise nothing is stored.
  lemma OpensExactly(
    db: Db, codec: Codec, player: string, amount: string, currency: string, walletId: Id, ids: Ids, now: Instant, w: WalletRow)
    requires Sound(db) && AsksFor(codec, player, amount, currency, walletId, now, w)
    ensures var (after, r) := OpenStep(db, codec, player, amount, currency, walletId, ids, now);
            if walletId !in db.wallets && !HasWallet(db, w.playerId, currency) && (w.balance > 0 ==> FreshIds(db, ids))
            then r == Ok(w) && after == Opened(db, w, ids)
            else r.Err? && after == db
  {
    RowExactly(codec, player, amount, currency, walletId, now, w);
    assert MoneyText.IsCurrency(currency);
    if InsertWallet(db, w).Ok? && w.balance > 0 {
      CreditIs(w, ids);
      if ids.tx != 0 {
        CreditStored(db, w, ids);
      }
    }
  }
}
