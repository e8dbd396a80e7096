// What every committed state of the tables satisfies, and why the writes of a unit keep it.
module Invariant {
  import opened Base
  import opened MoneyModel
  import opened Wagering
  import opened Wallets
  import opened Store
  import opened Process

  // ----- ledger arithmetic, in append order

  // Credits minus debits of one wallet.
  function Sum(L: seq<Entry>, w: Id): int {
    if L == [] then 0
    else Sum(L[..|L| - 1], w) + if L[|L| - 1].walletId == w then Signed(L[|L| - 1]) else 0
  }

  predicate IsOpening(txs: map<Id, Tx>, id: Id) {
    id in txs && txs[id].info.kind == Opening
  }

  // Movements of one wallet after its opening credit.
  function Moves(txs: map<Id, Tx>, L: seq<Entry>, w: Id): nat {
    if L == [] then 0
    else Moves(txs, L[..|L| - 1], w) + if L[|L| - 1].walletId == w && !IsOpening(txs, L[|L| - 1].txId) then 1 else 0
  }

  lemma SumAppend(L: seq<Entry>, e: Entry, w: Id)
    ensures Sum(L + [e], w) == Sum(L, w) + if e.walletId == w then Signed(e) else 0
  {
  }

  lemma MovesAppend(txs: map<Id, Tx>, L: seq<Entry>, e: Entry, w: Id)
    ensures Moves(txs, L + [e], w) == Moves(txs, L, w) + if e.walletId == w && !IsOpening(txs, e.txId) then 1 else 0
  {
  }

  lemma {:induction false} NoEntries(txs: map<Id, Tx>, L: seq<Entry>, w: Id)
    requires forall i | 0 <= i < |L| :: L[i].walletId != w
    ensures Sum(L, w) == 0 && Moves(txs, L, w) == 0
  {
    if L != [] {
      NoEntries(txs, L[..|L| - 1], w);
    }
  }

  // ----- transactions

  predicate RowState(t: Tx) {
    && t.info.id != 0 && t.info.walletId != 0
    && FieldsMatchStatus(t)
    && t.status in {PendingReference, Processed, Rejected}
    && (t.info.kind == Opening ==> t.status == Processed)
    && (t.status == PendingReference ==> IsReversal(t.info.kind) && t.refId.None?)
    && (t.info.kind != Opening ==> t.info.external)
  }

  // Rows that were accepted for their wallet belong to its player.
  predicate OwnedByPlayer(db: Db, t: Tx)
    requires t.info.walletId in db.wallets
  {
    t.status != Rejected ==> t.info.playerId == db.wallets[t.info.walletId].playerId
  }

  ghost predicate Rows(db: Db) {
    forall id | id in db.txs :: RowState(db.txs[id]) && db.txs[id].info.walletId in db.wallets && OwnedByPlayer(db, db.txs[id])
  }

  // A processed reversal and the operation it undid agree on everything but kind and identity.
  predicate RefOk(txs: map<Id, Tx>, r: Tx) {
    && r.refId.Some? && r.refId.value in txs
    && var b := txs[r.refId.value];
       && b.status == Processed && EligibleForReversal(r.info.kind, b.info.kind)
       && b.info.walletId == r.info.walletId && b.info.playerId == r.info.playerId
       && b.info.round == r.info.round && b.info.amount == r.info.amount
       && b.info.provider == r.info.provider && b.info.externalId == r.info.refExternal
  }

  ghost predicate Refs(txs: map<Id, Tx>) {
    && (forall id | id in txs :: SuccessfulReversal(txs[id]) ==> RefOk(txs, txs[id]))
    && (forall a, b | a in txs && b in txs && SuccessfulReversal(txs[a]) && SuccessfulReversal(txs[b]) ::
          txs[a].refId == txs[b].refId ==> a == b)
  }

  // ----- ledger entries against transactions

  function DirectionOf(txs: map<Id, Tx>, t: Tx): Direction {
    match t.info.kind
    case Opening => Credit
    case Win => Credit
    case Bet => Debit
    case Loss => Debit
    case _ => if t.refId.Some? && t.refId.value in txs && txs[t.refId.value].info.kind == Bet then Credit else Debit
  }

  // The i-th entry belongs to one processed transaction, whose kind fixes its direction; its
  // balances are the running sums around it and the frozen result repeats them.
  ghost predicate EntryOk(txs: map<Id, Tx>, L: seq<Entry>, i: nat)
    requires i < |L|
  {
    var e := L[i];
    && e.txId in txs
    && var t := txs[e.txId];
       && t.status == Processed && t.info.kind != Loss && t.info.walletId == e.walletId
       && e.amount == t.info.amount.minor > 0 && e.currency == t.info.amount.currency
       && e.direction == DirectionOf(txs, t)
       && e.before as int == Sum(L[..i], e.walletId)
       && e.after as int == Sum(L[..i + 1], e.walletId)
       && e.after >= 0
       && t.result == Some(Outcome(Money(e.after, e.currency), 1 + Moves(txs, L[..i + 1], e.walletId)))
       && (t.info.kind == Opening ==> forall j | 0 <= j < i :: L[j].walletId != e.walletId)
  }

  predicate EntryOf(L: seq<Entry>, i: nat, id: Id) {
    i < |L| && L[i].txId == id
  }

  // The frozen result is the running balance and version at some point of the ledger.
  predicate FrozenAt(txs: map<Id, Tx>, L: seq<Entry>, t: Tx, n: nat) {
    && n <= |L| && t.result.Some?
    && t.result.value.balance.minor as int == Sum(L[..n], t.info.walletId)
    && t.result.value.balance.currency == t.info.amount.currency
    && t.result.value.version == 1 + Moves(txs, L[..n], t.info.walletId)
    && (t.info.kind != Loss ==> n > 0 && L[n - 1].txId == t.info.id)
  }

  ghost predicate EntriesOk(txs: map<Id, Tx>, L: seq<Entry>) {
    forall i: nat | i < |L| :: EntryOk(txs, L, i)
  }

  predicate OneEntryEach(L: seq<Entry>) {
    forall i, j | 0 <= i < |L| && 0 <= j < |L| :: L[i].txId == L[j].txId ==> i == j
  }

  ghost predicate ResultFrozen(txs: map<Id, Tx>, L: seq<Entry>, id: Id)
    requires id in txs
  {
    exists n: nat :: FrozenAt(txs, L, txs[id], n)
  }

  ghost predicate ResultsFrozen(txs: map<Id, Tx>, L: seq<Entry>) {
    forall id | id in txs :: txs[id].status == Processed ==> ResultFrozen(txs, L, id)
  }

  // The operation a reversal undid has its entry strictly before the reversal's own.
  ghost predicate ReferenceBefore(txs: map<Id, Tx>, L: seq<Entry>, i: nat)
    requires i < |L|
  {
    L[i].txId in txs && SuccessfulReversal(txs[L[i].txId]) ==>
      txs[L[i].txId].refId.Some? && exists j: nat :: j < i && EntryOf(L, j, txs[L[i].txId].refId.value)
  }

  ghost predicate ReversalsLater(txs: map<Id, Tx>, L: seq<Entry>) {
    forall i: nat | i < |L| :: ReferenceBefore(txs, L, i)
  }

  ghost predicate Ledger(txs: map<Id, Tx>, L: seq<Entry>) {
    EntriesOk(txs, L) && OneEntryEach(L) && ResultsFrozen(txs, L) && ReversalsLater(txs, L)
  }

  ghost predicate BalanceOk(wallets: map<Id, WalletRow>, txs: map<Id, Tx>, L: seq<Entry>, w: Id)
    requires w in wallets
  {
    wallets[w].balance as int == Sum(L, w) && wallets[w].version == 1 + Moves(txs, L, w)
  }

  ghost predicate Balances(db: Db) {
    forall w | w in db.wallets :: BalanceOk(db.wallets, db.txs, db.ledger, w)
  }

  // ----- events against the ledger

  function Changes(outbox: seq<Event>, w: Id): seq<EventData> {
    if outbox == [] then []
    else
      var last := outbox[|outbox| - 1];
      Changes(outbox[..|outbox| - 1], w)
      + if last.eventType == BalanceChanged && last.aggregateId == w then [last.data] else []
  }

  // The event an entry must have produced.
  function EventOf(txs: map<Id, Tx>, e: Entry): EventData {
    BalanceData(e.walletId, e.txId, e.direction, Money(e.amount, e.currency), Money(e.before, e.currency),
                Money(e.after, e.currency),
                if e.txId in txs && txs[e.txId].result.Some? then txs[e.txId].result.value.version else 0)
  }

  function Expected(txs: map<Id, Tx>, L: seq<Entry>, w: Id): seq<EventData> {
    if L == [] then []
    else
      var last := L[|L| - 1];
      Expected(txs, L[..|L| - 1], w) + if last.walletId == w then [EventOf(txs, last)] else []
  }

  lemma ChangesAppend(outbox: seq<Event>, e: Event, w: Id)
    ensures Changes(outbox + [e], w)
            == Changes(outbox, w) + if e.eventType == BalanceChanged && e.aggregateId == w then [e.data] else []
  {
  }

  lemma ExpectedAppend(txs: map<Id, Tx>, L: seq<Entry>, e: Entry, w: Id)
    ensures Expected(txs, L + [e], w) == Expected(txs, L, w) + if e.walletId == w then [EventOf(txs, e)] else []
  {
  }

  ghost predicate Mirrored(db: Db) {
    forall w: Id :: Changes(db.outbox, w) == Expected(db.txs, db.ledger, w)
  }

  ghost predicate Inv(db: Db) {
    Sound(db) && Rows(db) && Refs(db.txs) && Ledger(db.txs, db.ledger) && Balances(db) && Mirrored(db)
  }

  lemma EmptyIsInv()
    ensures Inv(EMPTY_DB)
  {
  }

  predicate EntriesKnown(txs: map<Id, Tx>, L: seq<Entry>) {
    forall i | 0 <= i < |L| :: L[i].txId in txs && txs[L[i].txId].status == Processed
  }

  lemma EntriesProcessed(txs: map<Id, Tx>, L: seq<Entry>)
    requires EntriesOk(txs, L)
    ensures EntriesKnown(txs, L)
  {
    forall i | 0 <= i < |L| ensures L[i].txId in txs && txs[L[i].txId].status == Processed {
      assert EntryOk(txs, L, i);
    }
  }

  // ----- growth of the transaction table

  // Submissions are never rewritten and terminal rows never change.
  ghost predicate TxsGrow(txs: map<Id, Tx>, txs': map<Id, Tx>) {
    forall id | id in txs :: id in txs' && txs'[id].info == txs[id].info && (IsTerminal(txs[id].status) ==> txs'[id] == txs[id])
  }

  lemma {:induction false} MovesFrame(txs: map<Id, Tx>, txs': map<Id, Tx>, L: seq<Entry>, w: Id)
    requires TxsGrow(txs, txs') && forall i | 0 <= i < |L| :: L[i].txId in txs
    ensures Moves(txs', L, w) == Moves(txs, L, w)
  {
    if L != [] {
      MovesFrame(txs, txs', L[..|L| - 1], w);
    }
  }

  lemma {:induction false} ExpectedFrame(txs: map<Id, Tx>, txs': map<Id, Tx>, L: seq<Entry>, w: Id)
    requires TxsGrow(txs, txs') && EntriesKnown(txs, L)
    ensures Expected(txs', L, w) == Expected(txs, L, w)
  {
    if L != [] {
      ExpectedFrame(txs, txs', L[..|L| - 1], w);
    }
  }

  lemma EntryFrame(txs: map<Id, Tx>, txs': map<Id, Tx>, L: seq<Entry>, L': seq<Entry>, i: nat)
    requires Refs(txs) && TxsGrow(txs, txs') && L <= L' && i < |L| && EntryOk(txs, L, i)
    requires EntriesKnown(txs, L)
    ensures EntryOk(txs', L', i)
  {
    assert L'[..i] == L[..i] && L'[..i + 1] == L[..i + 1];
    MovesFrame(txs, txs', L[..i + 1], L[i].walletId);
  }

  lemma FrozenFrame(txs: map<Id, Tx>, txs': map<Id, Tx>, L: seq<Entry>, L': seq<Entry>, id: Id)
    requires TxsGrow(txs, txs') && L <= L' && EntriesKnown(txs, L)
    requires id in txs && txs[id].status == Processed && ResultFrozen(txs, L, id)
    ensures ResultFrozen(txs', L', id)
  {
    var n: nat :| FrozenAt(txs, L, txs[id], n);
    assert L'[..n] == L[..n];
    MovesFrame(txs, txs', L[..n], txs[id].info.walletId);
    assert FrozenAt(txs', L', txs'[id], n);
  }

  lemma BeforeFrame(txs: map<Id, Tx>, txs': map<Id, Tx>, L: seq<Entry>, L': seq<Entry>, i: nat)
    requires TxsGrow(txs, txs') && L <= L' && EntriesKnown(txs, L)
    requires i < |L| && ReferenceBefore(txs, L, i)
    ensures ReferenceBefore(txs', L', i)
  {
    var id := L[i].txId;
    assert txs'[id] == txs[id];
    if SuccessfulReversal(txs[id]) {
      var j: nat :| j < i && EntryOf(L, j, txs[id].refId.value);
      assert EntryOf(L', j, txs[id].refId.value);
    }
  }

  // ----- the writes of a unit

  ghost predicate LegalMove(db: Db, t: Tx, m: Move)
    requires t.info.walletId in db.wallets
  {
    var w := db.wallets[t.info.walletId];
    && m.entry.Ok?
    && var e := m.entry.value;
       && e.walletId == t.info.walletId && e.txId == t.info.id
       && e.amount == t.info.amount.minor > 0 && e.currency == t.info.amount.currency
       && e.direction == DirectionOf(db.txs, t)
       && e.before == w.balance && e.after as int == e.before as int + Signed(e) && e.after >= 0
       && m.wallet == w.(balance := e.after, version := w.version + 1, updatedAt := m.wallet.updatedAt)
       && t.result == Some(Outcome(Money(e.after, e.currency), m.wallet.version))
  }

  // Exactly one balance event, carrying the movement, when there is a movement; none otherwise.
  predicate EventsMatch(d: Delta) {
    match d.move
    case None => forall i | 0 <= i < |d.events| :: d.events[i].eventType != BalanceChanged
    case Some(m) =>
      && m.entry.Ok? && |d.events| == 2 && d.events[0].eventType != BalanceChanged
      && d.events[1].eventType == BalanceChanged && d.events[1].aggregateId == d.tx.info.walletId
      && d.events[1].data == EventOf(map[d.tx.info.id := d.tx], m.entry.value)
  }

  ghost predicate TxsKeyed(txs: map<Id, Tx>) {
    forall id | id in txs :: txs[id].info.id == id
  }

  ghost predicate Keyed(db: Db) {
    (forall w | w in db.wallets :: db.wallets[w].id == w) && TxsKeyed(db.txs)
  }

  // Writes that respect what the tables hold at the moment they are committed.
  ghost predicate Legal(db: Db, d: Delta) {
    var t := d.tx;
    && t.info.external && t.info.kind != Opening && RowState(t)
    && t.info.walletId in db.wallets && db.wallets[t.info.walletId].currency == t.info.amount.currency
    && (d.create <==> t.info.id !in db.txs)
    && (!d.create ==> db.txs[t.info.id].info == t.info && db.txs[t.info.id].status == PendingReference)
    && OwnedByPlayer(db, t)
    && (SuccessfulReversal(t) ==> RefOk(db.txs, t) && !HasSuccessfulReversal(db.txs, t.refId.value))
    && (d.move.Some? <==> t.status == Processed && t.info.kind != Loss)
    && (d.move.Some? ==> LegalMove(db, t, d.move.value))
    && (d.move.None? && t.status == Processed ==>
          t.result == Some(Outcome(db.wallets[t.info.walletId].Balance(), db.wallets[t.info.walletId].version)))
    && EventsMatch(d)
  }

  function Applied(db: Db, d: Delta): Db
    requires d.move.Some? ==> d.move.value.entry.Ok?
  {
    var next := db.(txs := db.txs[d.tx.info.id := d.tx], outbox := db.outbox + d.events);
    match d.move
    case None => next
    case Some(m) => next.(ledger := db.ledger + [m.entry.value], wallets := db.wallets[m.wallet.id := m.wallet])
  }

  lemma GrowsByDelta(db: Db, d: Delta)
    requires Keyed(db) && Legal(db, d)
    ensures TxsGrow(db.txs, db.txs[d.tx.info.id := d.tx])
  {
  }

  lemma RowsAfter(db: Db, d: Delta)
    requires Keyed(db) && Rows(db) && Legal(db, d)
    ensures Rows(Applied(db, d))
  {
  }

  lemma RefsAfter(db: Db, d: Delta)
    requires Keyed(db) && Refs(db.txs) && Legal(db, d)
    ensures Refs(db.txs[d.tx.info.id := d.tx])
  {
    var t, txs := d.tx, db.txs[d.tx.info.id := d.tx];
    forall id | id in txs && SuccessfulReversal(txs[id]) ensures RefOk(txs, txs[id]) {
      if id != t.info.id {
        assert RefOk(db.txs, db.txs[id]);
      }
    }
    forall a, b | a in txs && b in txs && SuccessfulReversal(txs[a]) && SuccessfulReversal(txs[b]) && txs[a].refId == txs[b].refId
      ensures a == b
    {
      if SuccessfulReversal(t) {
        assert forall id | id in db.txs :: !SuccessfulReversalOf(db.txs[id], t.refId.value);
      }
    }
  }

  // One more entry, whose balances continue the running sum of its wallet.
  lemma EntryAppended(txs: map<Id, Tx>, L: seq<Entry>, t: Tx, e: Entry)
    requires t.info.id in txs && txs[t.info.id] == t && e.txId == t.info.id
    requires t.status == Processed && t.info.kind != Loss && t.info.walletId == e.walletId
    requires e.amount == t.info.amount.minor > 0 && e.currency == t.info.amount.currency
    requires e.direction == DirectionOf(txs, t)
    requires e.before as int == Sum(L, e.walletId) && e.after as int == e.before as int + Signed(e) && e.after >= 0
    requires t.result == Some(Outcome(Money(e.after, e.currency),
               1 + Moves(txs, L, e.walletId) + if t.info.kind == Opening then 0 else 1))
    requires t.info.kind == Opening ==> forall j | 0 <= j < |L| :: L[j].walletId != e.walletId
    ensures EntryOk(txs, L + [e], |L|) && FrozenAt(txs, L + [e], t, |L| + 1)
  {
    var L' := L + [e];
    assert L'[..|L|] == L && L'[..|L| + 1] == L';
    SumAppend(L, e, e.walletId);
    MovesAppend(txs, L, e, e.walletId);
  }

  // Writing a transaction row that was not processed before keeps the ledger invariant, with or
  // without the entry that goes with it.
  lemma LedgerGrows(txs: map<Id, Tx>, txs': map<Id, Tx>, L: seq<Entry>, L': seq<Entry>, id: Id)
    requires Refs(txs) && Ledger(txs, L) && TxsGrow(txs, txs') && L <= L'
    requires id in txs' && (id in txs ==> txs[id].status != Processed)
    requires forall o | o in txs' && o != id :: o in txs && txs'[o] == txs[o]
    requires txs'[id].status == Processed ==> ResultFrozen(txs', L', id)
    requires |L'| <= |L| + 1
    requires |L'| > |L| ==> L'[|L|].txId == id && EntryOk(txs', L', |L|) && ReferenceBefore(txs', L', |L|)
    ensures Ledger(txs', L')
  {
    EntriesProcessed(txs, L);
    forall i: nat | i < |L'| ensures EntryOk(txs', L', i) && ReferenceBefore(txs', L', i) {
      if i < |L| {
        EntryFrame(txs, txs', L, L', i);
        BeforeFrame(txs, txs', L, L', i);
      }
    }
    forall o | o in txs' && txs'[o].status == Processed ensures ResultFrozen(txs', L', o) {
      if o != id {
        FrozenFrame(txs, txs', L, L', o);
      }
    }
    OneEntryGrows(txs, L, L', id);
  }

  lemma OneEntryGrows(txs: map<Id, Tx>, L: seq<Entry>, L': seq<Entry>, id: Id)
    requires OneEntryEach(L) && EntriesKnown(txs, L) && L <= L' && (id in txs ==> txs[id].status != Processed)
    requires |L'| <= |L| + 1 && (|L'| > |L| ==> L'[|L|].txId == id)
    ensures OneEntryEach(L')
  {
  }

  lemma ReferenceHasEntry(txs: map<Id, Tx>, L: seq<Entry>, t: Tx)
    requires Ledger(txs, L) && RefOk(txs, t) && forall id | id in txs :: txs[id].info.id == id
    ensures exists j: nat :: j < |L| && EntryOf(L, j, t.refId.value)
  {
    var reference := txs[t.refId.value];
    assert ResultFrozen(txs, L, t.refId.value);
    var k: nat :| FrozenAt(txs, L, reference, k);
    assert EntryOf(L, k - 1, t.refId.value);
  }

  lemma NewEntryFits(db: Db, d: Delta)
    requires Keyed(db) && EntriesKnown(db.txs, db.ledger) && Legal(db, d) && d.move.Some?
    requires BalanceOk(db.wallets, db.txs, db.ledger, d.tx.info.walletId)
    ensures var txs, L := db.txs[d.tx.info.id := d.tx], db.ledger + [d.move.value.entry.value];
            EntryOk(txs, L, |db.ledger|) && FrozenAt(txs, L, d.tx, |L|)
  {
    var t, e := d.tx, d.move.value.entry.value;
    var txs := db.txs[t.info.id := t];
    assert LegalMove(db, t, d.move.value);
    GrowsByDelta(db, d);
    MovesFrame(db.txs, txs, db.ledger, e.walletId);
    assert DirectionOf(txs, t) == DirectionOf(db.txs, t) by {
      if SuccessfulReversal(t) {
        assert RefOk(db.txs, t);
      }
    }
    EntryAppended(txs, db.ledger, t, e);
  }

  lemma LedgerAfterMove(db: Db, d: Delta)
    requires Keyed(db) && Refs(db.txs) && Ledger(db.txs, db.ledger) && Balances(db) && Legal(db, d) && d.move.Some?
    ensures Ledger(db.txs[d.tx.info.id := d.tx], db.ledger + [d.move.value.entry.value])
  {
    var t, e := d.tx, d.move.value.entry.value;
    var txs, L := db.txs[t.info.id := t], db.ledger + [e];
    GrowsByDelta(db, d);
    EntriesProcessed(db.txs, db.ledger);
    NewEntryFits(db, d);
    assert ReferenceBefore(txs, L, |db.ledger|) by {
      if SuccessfulReversal(t) {
        ReferenceHasEntry(db.txs, db.ledger, t);
        var j: nat :| j < |db.ledger| && EntryOf(db.ledger, j, t.refId.value);
        assert EntryOf(L, j, t.refId.value);
      }
    }
    LedgerGrows(db.txs, txs, db.ledger, L, t.info.id);
  }

  lemma LedgerAfterNoMove(db: Db, d: Delta)
    requires Keyed(db) && Refs(db.txs) && Ledger(db.txs, db.ledger) && Balances(db) && Legal(db, d) && d.move.None?
    ensures Ledger(db.txs[d.tx.info.id := d.tx], db.ledger)
  {
    var t := d.tx;
    var txs := db.txs[t.info.id := t];
    GrowsByDelta(db, d);
    EntriesProcessed(db.txs, db.ledger);
    if t.status == Processed {
      assert db.ledger[..|db.ledger|] == db.ledger;
      MovesFrame(db.txs, txs, db.ledger, t.info.walletId);
      assert FrozenAt(txs, db.ledger, t, |db.ledger|);
    }
    LedgerGrows(db.txs, txs, db.ledger, db.ledger, t.info.id);
  }

  // Sum and version of a wallet after one more entry.
  lemma TotalsAppended(txs: map<Id, Tx>, txs': map<Id, Tx>, L: seq<Entry>, e: Entry, w: Id)
    requires TxsGrow(txs, txs') && EntriesKnown(txs, L) && !IsOpening(txs', e.txId)
    ensures Sum(L + [e], w) == Sum(L, w) + if e.walletId == w then Signed(e) else 0
    ensures Moves(txs', L + [e], w) == Moves(txs, L, w) + if e.walletId == w then 1 else 0
  {
    MovesFrame(txs, txs', L, w);
    SumAppend(L, e, w);
    MovesAppend(txs', L, e, w);
  }

  // The movement and its wallet row, as legal writes relate them to the stored row.
  lemma MoveFacts(db: Db, d: Delta)
    requires Keyed(db) && Legal(db, d) && d.move.Some?
    ensures d.move.value.entry.Ok? && MovesWallet(db.wallets, d.move.value.entry.value, d.move.value.wallet)
    ensures d.move.value.entry.value.txId == d.tx.info.id && d.tx.info.kind != Opening
  {
  }

  predicate MovesWallet(wallets: map<Id, WalletRow>, e: Entry, row: WalletRow) {
    && row.id == e.walletId && e.walletId in wallets
    && e.before == wallets[e.walletId].balance && e.after as int == e.before as int + Signed(e)
    && row.balance == e.after && row.version == wallets[e.walletId].version + 1
  }

  lemma BalanceMoved(wallets: map<Id, WalletRow>, txs: map<Id, Tx>, txs': map<Id, Tx>, L: seq<Entry>, e: Entry, row: WalletRow, w: Id)
    requires w in wallets && BalanceOk(wallets, txs, L, w) && MovesWallet(wallets, e, row)
    requires TxsGrow(txs, txs') && EntriesKnown(txs, L) && !IsOpening(txs', e.txId)
    ensures BalanceOk(wallets[row.id := row], txs', L + [e], w)
  {
    TotalsAppended(txs, txs', L, e, w);
  }

  lemma BalancesAfter(db: Db, d: Delta)
    requires Keyed(db) && EntriesKnown(db.txs, db.ledger) && Balances(db) && Legal(db, d)
    ensures Balances(Applied(db, d))
  {
    var txs := db.txs[d.tx.info.id := d.tx];
    GrowsByDelta(db, d);
    if d.move.Some? {
      MoveFacts(db, d);
      BalancesMoved(db.wallets, db.txs, txs, db.ledger, d.move.value.entry.value, d.move.value.wallet);
    } else {
      forall w | w in db.wallets ensures BalanceOk(db.wallets, txs, db.ledger, w) {
        MovesFrame(db.txs, txs, db.ledger, w);
      }
    }
  }

  lemma BalancesMoved(wallets: map<Id, WalletRow>, txs: map<Id, Tx>, txs': map<Id, Tx>, L: seq<Entry>, e: Entry, row: WalletRow)
    requires (forall w | w in wallets :: BalanceOk(wallets, txs, L, w)) && MovesWallet(wallets, e, row)
    requires TxsGrow(txs, txs') && EntriesKnown(txs, L) && !IsOpening(txs', e.txId)
    ensures forall w | w in wallets :: BalanceOk(wallets[row.id := row], txs', L + [e], w)
  {
    forall w | w in wallets ensures BalanceOk(wallets[row.id := row], txs', L + [e], w) {
      BalanceMoved(wallets, txs, txs', L, e, row, w);
    }
  }

  // A balance event and its entry extend both streams of their wallet by the same change.
  lemma MirrorAppended(txs: map<Id, Tx>, L: seq<Entry>, e: Entry, outbox: seq<Event>, first: Event, second: Event, w: Id)
    requires Changes(outbox, w) == Expected(txs, L, w)
    requires first.eventType != BalanceChanged && second.eventType == BalanceChanged
    requires second.aggregateId == e.walletId && second.data == EventOf(txs, e)
    ensures Changes(outbox + [first, second], w) == Expected(txs, L + [e], w)
  {
    assert outbox + [first, second] == (outbox + [first]) + [second];
    ChangesAppend(outbox, first, w);
    ChangesAppend(outbox + [first], second, w);
    ExpectedAppend(txs, L, e, w);
  }

  lemma MirroredAfter(db: Db, d: Delta)
    requires Keyed(db) && EntriesKnown(db.txs, db.ledger) && Mirrored(db) && Legal(db, d)
    ensures Mirrored(Applied(db, d))
  {
    var txs := db.txs[d.tx.info.id := d.tx];
    GrowsByDelta(db, d);
    forall w: Id ensures Changes(Applied(db, d).outbox, w) == Expected(txs, Applied(db, d).ledger, w) {
      ExpectedFrame(db.txs, txs, db.ledger, w);
      if d.move.Some? {
        assert d.events == [d.events[0], d.events[1]];
        MirrorAppended(txs, db.ledger, d.move.value.entry.value, db.outbox, d.events[0], d.events[1], w);
      } else {
        ChangesQuiet(db.outbox, d.events, w);
      }
    }
  }

  lemma {:induction false} ChangesQuiet(outbox: seq<Event>, events: seq<Event>, w: Id)
    requires forall i | 0 <= i < |events| :: events[i].eventType != BalanceChanged
    ensures Changes(outbox + events, w) == Changes(outbox, w)
    decreases |events|
  {
    if events == [] {
      assert outbox + events == outbox;
    } else {
      assert outbox + events == (outbox + [events[0]]) + events[1..];
      ChangesAppend(outbox, events[0], w);
      ChangesQuiet(outbox + [events[0]], events[1..], w);
    }
  }

  // The inductive step of everything below: legal writes that the schema admits keep every
  // invariant.
  lemma LegalKeepsInv(db: Db, d: Delta)
    requires Inv(db) && Legal(db, d) && Sound(Applied(db, d))
    ensures Inv(Applied(db, d))
  {
    EntriesProcessed(db.txs, db.ledger);
    RowsAfter(db, d);
    RefsAfter(db, d);
    if d.move.Some? {
      LedgerAfterMove(db, d);
    } else {
      LedgerAfterNoMove(db, d);
    }
    BalancesAfter(db, d);
    MirroredAfter(db, d);
  }
}
