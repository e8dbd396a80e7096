// The five tables as one value, the constraints of the schema, the statements the repositories
// issue against it, and the ledger entry and outbox event types they store.
module Store {
  import opened Base
  import opened MoneyModel
  import opened Wagering
  import opened Wallets
  import MoneyText

  // ----- ledger entries

  datatype Direction = Debit | Credit

  datatype Entry = Entry(
    id: Id, walletId: Id, txId: Id, direction: Direction, amount: int64, currency: string,
    before: int64, after: int64, createdAt: Instant)

  // An entry exists only if its balances satisfy the equation of its direction.
  function NewEntry(
    id: Id, walletId: Id, txId: Id, direction: Direction,
    amount: Money, before: Money, after: Money, createdAt: Instant): (r: Result<Entry>)
    ensures r.Ok? ==> r.value.amount > 0 && r.value.after >= 0
    ensures r.Ok? ==> r.value.after as int == r.value.before as int + Signed(r.value)
    ensures r.Err? ==> IsDomainError(r.error)
  {
    if id == 0 || walletId == 0 || txId == 0 then Err(InvalidId)
    else if !amount.Initialized() || !before.Initialized() || !after.Initialized() then Err(Uninitialized)
    else if amount.minor <= 0 then Err(InconsistentEntry)
    else
      var expected :- if direction == Credit then before.Plus(amount) else before.Minus(amount);
      if expected != after || after.minor < 0 || createdAt == 0 then Err(InconsistentEntry)
      else Ok(Entry(id, walletId, txId, direction, amount.minor, amount.currency, before.minor, after.minor, createdAt))
  }

  // Credits count up, debits down.
  function Signed(e: Entry): int {
    if e.direction == Credit then e.amount as int else -(e.amount as int)
  }

  // ----- outbox events

  datatype EventType = TransactionProcessed | TransactionRejected | TransactionPending | BalanceChanged

  datatype EventData =
    | TxData(txId: Id, walletId: Id, playerId: Id, provider: string, externalId: string,
             kind: Kind, status: Status, failure: Option<FailureCode>, amount: Money)
    | BalanceData(walletId: Id, txId: Id, direction: Direction, amount: Money,
                  before: Money, after: Money, version: int)

  datatype Event = Event(id: Id, eventType: EventType, aggregateId: Id, occurredAt: Instant, data: EventData)

  // ----- the tables

  // A delivery is identified by consumer name and message id.
  type InboxKey = (string, string)

  datatype Db = Db(
    wallets: map<Id, WalletRow>,
    txs: map<Id, Tx>,
    ledger: seq<Entry>,
    inbox: map<InboxKey, string>,
    outbox: seq<Event>)

  const EMPTY_DB := Db(map[], map[], [], map[], [])

  // ----- constraints

  predicate WalletChecks(w: WalletRow) {
    MoneyText.IsCurrency(w.currency) && w.balance >= 0 && w.version >= 1
  }

  predicate OriginMetadata(t: Tx) {
    if t.info.external then
      && t.info.kind != Opening && t.info.provider != "" && t.info.externalId != "" && t.info.key != ""
      && t.info.hash != "" && t.info.round != "" && t.info.game != ""
    else
      && t.info.kind == Opening && t.info.provider == "" && t.info.externalId == "" && t.info.key == ""
      && t.info.hash == "" && t.info.round == "" && t.info.game == "" && t.info.refExternal == "" && t.refId.None?
  }

  predicate TxChecks(t: Tx) {
    && MoneyText.IsCurrency(t.info.amount.currency)
    && (if t.info.kind == Loss then t.info.amount.minor == 0 else t.info.amount.minor > 0)
    && (IsReversal(t.info.kind) ==> t.info.refExternal != "")
    && OriginMetadata(t)
    && (t.failure.Some? <==> t.status == Rejected || t.status == Failed)
    && (t.result.Some? <==> t.status == Processed)
    && (t.result.Some? ==> t.result.value.balance.minor >= 0)
    && t.attempts >= 0
  }

  predicate SuccessfulReversal(t: Tx) {
    IsReversal(t.info.kind) && t.status == Processed
  }

  predicate SuccessfulReversalOf(t: Tx, reference: Id) {
    SuccessfulReversal(t) && t.refId == Some(reference)
  }

  // Two rows that one of the unique indexes keeps apart.
  predicate Clash(a: Tx, b: Tx) {
    || (a.info.external && b.info.external && a.info.provider == b.info.provider
        && (a.info.externalId == b.info.externalId || a.info.key == b.info.key))
    || (a.info.kind == Opening && b.info.kind == Opening && a.info.walletId == b.info.walletId)
    || (SuccessfulReversal(a) && SuccessfulReversal(b) && a.refId.Some? && a.refId == b.refId
        && a.info.kind == b.info.kind)
  }

  predicate TxUnique(txs: map<Id, Tx>, t: Tx) {
    forall o | o in txs :: o != t.info.id ==> !Clash(txs[o], t)
  }

  predicate TxForeignKeys(db: Db, t: Tx) {
    && t.info.walletId in db.wallets && db.wallets[t.info.walletId].currency == t.info.amount.currency
    && (t.refId.Some? ==> t.refId.value in db.txs || t.refId.value == t.info.id)
  }

  predicate TxAdmissible(db: Db, t: Tx) {
    TxChecks(t) && TxForeignKeys(db, t) && TxUnique(db.txs, t)
  }

  predicate EntryChecks(e: Entry) {
    e.amount > 0 && e.before >= 0 && e.after >= 0 && e.after as int == e.before as int + Signed(e)
  }

  predicate EntryAdmissible(db: Db, e: Entry) {
    && (forall i | 0 <= i < |db.ledger| :: db.ledger[i].id != e.id
          && !(db.ledger[i].walletId == e.walletId && db.ledger[i].txId == e.txId))
    && e.walletId in db.wallets && db.wallets[e.walletId].currency == e.currency
    && e.txId in db.txs
    && EntryChecks(e)
  }

  predicate EventAdmissible(outbox: seq<Event>, e: Event) {
    forall i | 0 <= i < |outbox| :: outbox[i].id != e.id
  }

  // ----- statements

  function InsertWallet(db: Db, w: WalletRow): Result<Db> {
    if w.id in db.wallets || !WalletChecks(w)
       || exists o | o in db.wallets :: db.wallets[o].playerId == w.playerId && db.wallets[o].currency == w.currency
    then Err(PersistenceConflict)
    else Ok(db.(wallets := db.wallets[w.id := w]))
  }

  // UPDATE of balance, version and instant; no version predicate.
  function UpdateWallet(db: Db, w: WalletRow): Result<Db> {
    if w.id !in db.wallets then Err(NotFound)
    else if w.balance < 0 || w.version < 1 then Err(PersistenceConflict)
    else
      var row := db.wallets[w.id].(balance := w.balance, version := w.version, updatedAt := w.updatedAt);
      Ok(db.(wallets := db.wallets[w.id := row]))
  }

  function InsertTx(db: Db, t: Tx): Result<Db> {
    if t.info.id in db.txs || !TxAdmissible(db, t) then Err(PersistenceConflict)
    else Ok(db.(txs := db.txs[t.info.id := t]))
  }

  // UPDATE of the columns a transition may change; the submission itself is never rewritten.
  function UpdateTx(db: Db, t: Tx): Result<Db> {
    if t.info.id !in db.txs then Err(NotFound)
    else
      var row := t.(info := db.txs[t.info.id].info);
      if !TxAdmissible(db, row) then Err(PersistenceConflict)
      else Ok(db.(txs := db.txs[t.info.id := row]))
  }

  function InsertEntry(db: Db, e: Entry): Result<Db> {
    if !EntryAdmissible(db, e) then Err(PersistenceConflict) else Ok(db.(ledger := db.ledger + [e]))
  }

  function InsertEvent(db: Db, e: Event): Result<Db> {
    if !EventAdmissible(db.outbox, e) then Err(PersistenceConflict) else Ok(db.(outbox := db.outbox + [e]))
  }

  // ----- what the schema keeps

  // Primary key, unique (wallet, transaction), foreign keys and CHECKs of the ledger.
  ghost predicate LedgerSound(db: Db) {
    && (forall i, j | 0 <= i < j < |db.ledger| ::
          db.ledger[i].id != db.ledger[j].id
          && !(db.ledger[i].walletId == db.ledger[j].walletId && db.ledger[i].txId == db.ledger[j].txId))
    && (forall i | 0 <= i < |db.ledger| ::
          && db.ledger[i].walletId in db.wallets && db.wallets[db.ledger[i].walletId].currency == db.ledger[i].currency
          && db.ledger[i].txId in db.txs && EntryChecks(db.ledger[i]))
  }

  ghost predicate OutboxSound(outbox: seq<Event>) {
    forall i, j | 0 <= i < j < |outbox| :: outbox[i].id != outbox[j].id
  }

  ghost predicate WalletsUnique(wallets: map<Id, WalletRow>) {
    forall a, b | a in wallets && b in wallets && a != b ::
      !(wallets[a].playerId == wallets[b].playerId && wallets[a].currency == wallets[b].currency)
  }

  ghost predicate Sound(db: Db) {
    && (forall w | w in db.wallets :: db.wallets[w].id == w && WalletChecks(db.wallets[w]))
    && (forall t | t in db.txs :: db.txs[t].info.id == t && TxChecks(db.txs[t]) && TxForeignKeys(db, db.txs[t]))
    && (forall a, b | a in db.txs && b in db.txs :: a != b ==> !Clash(db.txs[a], db.txs[b]))
    && WalletsUnique(db.wallets) && LedgerSound(db) && OutboxSound(db.outbox)
  }

  // What the schema says of the rows themselves.
  lemma SchemaSays(db: Db)
    requires Sound(db)
    ensures forall a, b | a in db.wallets && b in db.wallets ::
              db.wallets[a].playerId == db.wallets[b].playerId && db.wallets[a].currency == db.wallets[b].currency ==> a == b
    ensures forall w | w in db.wallets :: db.wallets[w].balance >= 0 && db.wallets[w].version >= 1 && |db.wallets[w].currency| == 3
    ensures forall a, b | a in db.txs && b in db.txs && a != b && db.txs[a].info.external && db.txs[b].info.external
                          && db.txs[a].info.provider == db.txs[b].info.provider ::
              db.txs[a].info.externalId != db.txs[b].info.externalId && db.txs[a].info.key != db.txs[b].info.key
    ensures forall a, b | a in db.txs && b in db.txs && db.txs[a].info.kind == Opening && db.txs[b].info.kind == Opening ::
              db.txs[a].info.walletId == db.txs[b].info.walletId ==> a == b
    ensures forall a, b | a in db.txs && b in db.txs && db.txs[a].status == Processed && db.txs[b].status == Processed
                          && db.txs[a].info.kind == db.txs[b].info.kind && db.txs[a].info.kind in {Refund, Rollback} ::
              db.txs[a].refId.Some? && db.txs[a].refId == db.txs[b].refId ==> a == b
    ensures forall t | t in db.txs ::
              && db.txs[t].info.walletId in db.wallets
              && db.wallets[db.txs[t].info.walletId].currency == db.txs[t].info.amount.currency
              && (db.txs[t].info.amount.minor == 0 <==> db.txs[t].info.kind == Loss) && db.txs[t].info.amount.minor >= 0
              && (db.txs[t].result.Some? <==> db.txs[t].status == Processed)
              && (db.txs[t].failure.Some? <==> db.txs[t].status in {Rejected, Failed})
              && (db.txs[t].info.external <==> db.txs[t].info.kind != Opening)
              && (db.txs[t].refId.Some? ==> db.txs[t].refId.value in db.txs)
    ensures forall i | 0 <= i < |db.ledger| ::
              && db.ledger[i].txId in db.txs && db.ledger[i].walletId in db.wallets && db.ledger[i].amount > 0
              && db.ledger[i].before >= 0 && db.ledger[i].after >= 0
              && db.ledger[i].after as int - db.ledger[i].before as int
                 == if db.ledger[i].direction == Credit then db.ledger[i].amount as int else -(db.ledger[i].amount as int)
    ensures forall i, j | 0 <= i < j < |db.ledger| ::
              db.ledger[i].id != db.ledger[j].id
              && (db.ledger[i].walletId != db.ledger[j].walletId || db.ledger[i].txId != db.ledger[j].txId)
    ensures forall i, j | 0 <= i < j < |db.outbox| :: db.outbox[i].id != db.outbox[j].id
  {
    forall a, b | a in db.txs && b in db.txs && a != b ensures !Clash(db.txs[a], db.txs[b]) {
    }
    assert forall t | t in db.txs :: TxChecks(db.txs[t]) && TxForeignKeys(db, db.txs[t]);
    assert forall w | w in db.wallets :: WalletChecks(db.wallets[w]);
  }

  // A statement that is not refused leaves tables the schema admits.
  ghost predicate Admits(next: Result<Db>) {
    next.Ok? ==> Sound(next.value)
  }

  // Wallets may be added or changed, but none moves to another currency.
  lemma WalletsMayChange(db: Db, wallets: map<Id, WalletRow>)
    requires Sound(db) && WalletsUnique(wallets)
    requires forall w | w in wallets :: wallets[w].id == w && WalletChecks(wallets[w])
    requires forall w | w in db.wallets :: w in wallets && wallets[w].currency == db.wallets[w].currency
    ensures Sound(db.(wallets := wallets))
  {
    var next := db.(wallets := wallets);
    assert forall t | t in db.txs :: TxForeignKeys(db, db.txs[t]) ==> TxForeignKeys(next, db.txs[t]);
    assert LedgerSound(next);
  }

  lemma WalletInsertKeepsSound(db: Db, w: WalletRow)
    requires Sound(db)
    ensures Admits(InsertWallet(db, w))
  {
    if InsertWallet(db, w).Ok? {
      WalletsMayChange(db, InsertWallet(db, w).value.wallets);
    }
  }

  lemma WalletUpdateKeepsSound(db: Db, w: WalletRow)
    requires Sound(db)
    ensures Admits(UpdateWallet(db, w))
  {
    if UpdateWallet(db, w).Ok? {
      WalletsMayChange(db, UpdateWallet(db, w).value.wallets);
    }
  }

  lemma PutTxKeepsSound(db: Db, t: Tx)
    requires Sound(db) && TxAdmissible(db, t)
    ensures Sound(db.(txs := db.txs[t.info.id := t]))
  {
    var txs := db.txs[t.info.id := t];
    forall a, b | a in txs && b in txs && a != b ensures !Clash(txs[a], txs[b]) {
      if a == t.info.id {
        assert !Clash(db.txs[b], t);
      } else if b == t.info.id {
        assert !Clash(db.txs[a], t);
      }
    }
    assert LedgerSound(db.(txs := txs));
  }

  lemma TxStatementsKeepSound(db: Db, t: Tx)
    requires Sound(db)
    ensures Admits(InsertTx(db, t)) && Admits(UpdateTx(db, t))
  {
    if InsertTx(db, t).Ok? {
      PutTxKeepsSound(db, t);
    }
    if UpdateTx(db, t).Ok? {
      PutTxKeepsSound(db, t.(info := db.txs[t.info.id].info));
    }
  }

  lemma EntryInsertKeepsSound(db: Db, e: Entry)
    requires Sound(db)
    ensures Admits(InsertEntry(db, e))
  {
    if InsertEntry(db, e).Ok? {
      LedgerAppendSound(db, e);
    }
  }

  lemma LedgerAppendSound(db: Db, e: Entry)
    requires LedgerSound(db) && EntryAdmissible(db, e)
    ensures LedgerSound(db.(ledger := db.ledger + [e]))
  {
  }

  lemma EventInsertKeepsSound(db: Db, v: Event)
    requires Sound(db)
    ensures Admits(InsertEvent(db, v))
  {
    if InsertEvent(db, v).Ok? {
      var next := InsertEvent(db, v).value;
      assert OutboxSound(next.outbox) && LedgerSound(next);
    }
  }

  // No statement, whatever row it is given, can leave the tables outside their constraints.
  lemma StatementsKeepSound(db: Db, w: WalletRow, t: Tx, e: Entry, v: Event)
    requires Sound(db)
    ensures Admits(InsertWallet(db, w)) && Admits(UpdateWallet(db, w)) && Admits(InsertTx(db, t)) && Admits(UpdateTx(db, t))
    ensures Admits(InsertEntry(db, e)) && Admits(InsertEvent(db, v))
  {
    WalletInsertKeepsSound(db, w);
    WalletUpdateKeepsSound(db, w);
    TxStatementsKeepSound(db, t);
    EntryInsertKeepsSound(db, e);
    EventInsertKeepsSound(db, v);
  }

  // ----- lookups

  predicate HasExternalId(t: Tx, provider: string, externalId: string) {
    t.info.external && t.info.provider == provider && t.info.externalId == externalId
  }

  predicate HasKey(t: Tx, provider: string, key: string) {
    t.info.external && t.info.provider == provider && t.info.key == key
  }

  ghost function FindByExternalId(txs: map<Id, Tx>, provider: string, externalId: string): (r: Option<Tx>)
    ensures r.None? <==> forall id | id in txs :: !HasExternalId(txs[id], provider, externalId)
    ensures r.Some? ==> HasExternalId(r.value, provider, externalId) && exists id :: id in txs && txs[id] == r.value
  {
    if id :| id in txs && HasExternalId(txs[id], provider, externalId) then Some(txs[id]) else None
  }

  ghost function FindByKey(txs: map<Id, Tx>, provider: string, key: string): (r: Option<Tx>)
    ensures r.None? <==> forall id | id in txs :: !HasKey(txs[id], provider, key)
    ensures r.Some? ==> HasKey(r.value, provider, key) && exists id :: id in txs && txs[id] == r.value
  {
    if id :| id in txs && HasKey(txs[id], provider, key) then Some(txs[id]) else None
  }

  // The unique indexes make both lookups functions of the table.
  lemma FoundIsTheOne(db: Db, id: Id)
    requires Sound(db) && id in db.txs && db.txs[id].info.external
    ensures FindByExternalId(db.txs, db.txs[id].info.provider, db.txs[id].info.externalId) == Some(db.txs[id])
    ensures FindByKey(db.txs, db.txs[id].info.provider, db.txs[id].info.key) == Some(db.txs[id])
  {
    var t := db.txs[id];
    assert HasExternalId(t, t.info.provider, t.info.externalId) && HasKey(t, t.info.provider, t.info.key);
  }

  predicate HasSuccessfulReversal(txs: map<Id, Tx>, reference: Id) {
    exists id | id in txs :: SuccessfulReversalOf(txs[id], reference)
  }

  // ----- one SQL transaction

  // The tables as the open transaction sees them. A refused statement aborts it: nothing can be
  // committed afterwards.
  class Session {
    var db: Db
    var failed: bool

    constructor (committed: Db)
      ensures db == committed && !failed
    {
      db, failed := committed, false;
    }

    // SELECT ... FOR UPDATE and rehydration of the aggregate.
    method LockWallet(id: Id) returns (r: Result<Wallet>)
      requires Sound(db)
      ensures if id in db.wallets then r.Ok? && fresh(r.value) && r.value.Valid() && r.value.Row() == db.wallets[id]
              else r == Err(NotFound)
    {
      if id !in db.wallets {
        return Err(NotFound);
      }
      var w := new Wallet.Rehydrate(db.wallets[id]);
      r := Ok(w);
    }

    method LoadByKey(provider: string, key: string) returns (r: Option<Transaction>)
      requires Sound(db)
      ensures match FindByKey(db.txs, provider, key)
              case Some(t) => r.Some? && fresh(r.value) && r.value.State() == t
              case None => r == None
    {
      if id :| id in db.txs && HasKey(db.txs[id], provider, key) {
        FoundIsTheOne(db, id);
        var t := new Transaction(db.txs[id]);
        r := Some(t);
      } else {
        r := None;
      }
    }

    method LoadByExternalId(provider: string, externalId: string) returns (r: Option<Transaction>)
      requires Sound(db)
      ensures match FindByExternalId(db.txs, provider, externalId)
              case Some(t) => r.Some? && fresh(r.value) && r.value.State() == t
              case None => r == None
    {
      if id :| id in db.txs && HasExternalId(db.txs[id], provider, externalId) {
        FoundIsTheOne(db, id);
        var t := new Transaction(db.txs[id]);
        r := Some(t);
      } else {
        r := None;
      }
    }

    // One statement: its effect, or the refusal that aborts the transaction.
    method Run(next: Result<Db>) returns (e: Option<Error>)
      modifies this
      ensures match next
              case Ok(d) => e == None && db == d && failed == old(failed)
              case Err(x) => e == Some(x) && db == old(db) && failed == (old(failed) || x == PersistenceConflict)
    {
      match next
      case Ok(d) =>
        db := d;
        e := None;
      case Err(x) =>
        failed := failed || x == PersistenceConflict;
        e := Some(x);
    }
  }
}
