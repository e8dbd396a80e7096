// A run in which a delivery reuses the id of a dropped resubmission: with the resubmission the
// second loss is never applied, without it it is.
module ReuseRun {
  import opened Base
  import opened MoneyModel
  import opened Wagering
  import opened Wallets
  import opened Store
  import opened Process
  import opened Resolve
  import opened Units
  import opened Admission
  import opened Replay
  import MoneyText

  function LossOf(key: string, externalId: string): Command {
    Command(key, "provider", externalId, "1", "1", "round", "game", "LOSS", "0.00", "EUR", "")
  }

  function Known1(): Command {
    LossOf("key-1", "loss-1")
  }

  function Other(): Command {
    LossOf("key-2", "loss-2")
  }

  function RequestOf(key: string, externalId: string): Request {
    Request(LossOf(key, externalId), externalId, Loss, 1, 1, Money(0, "EUR"))
  }

  function OneSetup(): Setup {
    Setup(Codec((s: string) => if s == "1" then Some(1) else None, (f: Fields) => f.externalId),
          Channel("consumer", {"provider"}), Policy(0, 0, 0, 0, 0), (key: InboxKey) => Known1())
  }

  lemma ZeroParses()
    ensures MoneyText.ParseMoney("0.00", "EUR") == Ok(Money(0, "EUR"))
  {
    var zero := "0.00";
    assert zero[..1] == "0" && zero[2..] == "00" && "00"[..1] == "0";
    assert MoneyText.Value("0") == 0 && MoneyText.Value("00") == 0;
  }

  lemma LossParses(key: string, externalId: string)
    requires key != "" && externalId != ""
    ensures Parse(OneSetup().codec, LossOf(key, externalId)) == Ok(RequestOf(key, externalId))
  {
    ZeroParses();
  }

  // ----- a wallet, and a loss on record

  function Row(): WalletRow {
    WalletRow(1, 1, "EUR", 0, 1, 1, 1)
  }

  function OneWallet(): Db {
    EMPTY_DB.(wallets := map[1 := Row()])
  }

  function Opens(): Op {
    NewWallet("1", "0.00", "EUR", 1, Ids(0, 0, 0, 0), 1)
  }

  lemma OpensWallet()
    requires Sound(EMPTY_DB)
    ensures Perform(OneSetup(), EMPTY_DB, Opens()) == OneWallet()
  {
    ZeroParses();
    assert OpenRow(OneSetup().codec, "1", "0.00", "EUR", 1, 1) == Ok(Row());
    assert InsertWallet(EMPTY_DB, Row()) == Ok(OneWallet());
  }

  function Submits(): Op {
    Submission(Known1(), Ids(10, 11, 12, 13), 1)
  }

  lemma NothingKnown(db: Db, c: Command)
    requires db.txs == map[]
    ensures !Known(db.txs, c)
  {
  }

  // A loss by the wallet's player is decided, and stored under fresh identifiers.
  lemma LossIsWritten(db: Db, req: Request, ids: Ids, now: Instant)
    requires Sound(db) && req.walletId in db.wallets && ReplayPlan(db.txs, req).None? && req.kind == Loss && now != 0
    requires NewExternal(InfoFor(req, ids.tx, now)).Ok? && FreshIds(db, ids)
    requires var w := db.wallets[req.walletId]; w.playerId == req.playerId && w.currency == req.amount.currency
    ensures RequestPlan(db, req, ids, now).Write? && RequestPlan(db, req, ids, now).delta.tx.info == InfoFor(req, ids.tx, now)
  {
  }

  // The tables once the first loss is in.
  ghost predicate OnRecord(db: Db) {
    && Sound(db) && db.inbox == map[] && db.wallets == map[1 := Row()]
    && db.txs.Keys == {10} && db.txs[10].info == InfoFor(RequestOf("key-1", "loss-1"), 10, 1)
    && db.ledger == [] && |db.outbox| == 1 && db.outbox[0].id == 12
  }

  lemma FirstLossStored()
    requires Sound(OneWallet())
    ensures OnRecord(Perform(OneSetup(), OneWallet(), Submits()))
  {
    var req, ids := RequestOf("key-1", "loss-1"), Ids(10, 11, 12, 13);
    LossParses("key-1", "loss-1");
    LossIsWritten(OneWallet(), req, ids, 1);
    FreshRun(OneWallet(), req, ids, 1);
    LossShape(OneWallet(), req, ids, 1);
    QuietRun(OneWallet(), RequestPlan(OneWallet(), req, ids, 1).delta);
  }

  lemma LossShape(db: Db, req: Request, ids: Ids, now: Instant)
    requires Sound(db) && req.walletId in db.wallets && ReplayPlan(db.txs, req).None? && req.kind == Loss
    requires RequestPlan(db, req, ids, now).Write? && db.wallets[req.walletId].playerId == req.playerId
    requires db.wallets[req.walletId].currency == req.amount.currency
    ensures var d := RequestPlan(db, req, ids, now).delta;
            d.create && d.move.None? && |d.events| == 1 && d.events[0].id == ids.txEvent
  {
  }

  lemma QuietRun(db: Db, d: Delta)
    requires d.create && d.move.None? && |d.events| == 1 && RunDelta(db, d).error.None?
    ensures RunDelta(db, d) == Exec(db.(txs := db.txs[d.tx.info.id := d.tx], outbox := db.outbox + d.events), None, false)
  {
    var next := InsertTx(db, d.tx).value;
    assert d.events == [d.events[0]] && d.events[1..] == [];
    assert RunEvents(next, d.events) == RunEvents(InsertEvent(next, d.events[0]).value, []);
  }

  // ----- the same id twice

  function MessageOf(c: Command): Message {
    Envelope("message-1", true, Some(c))
  }

  function NewIds(): Ids {
    Ids(20, 21, 22, 23)
  }

  lemma RecordIsKnown(db: Db)
    requires OnRecord(db)
    ensures Known(db.txs, Known1()) && !Known(db.txs, Other())
  {
    assert HasKey(db.txs[10], "provider", "key-1");
  }

  // The resubmission is dropped, but its inbox row stays.
  lemma KnownLeavesItsRow(db: Db)
    requires OnRecord(db)
    ensures HandleStep(db, OneSetup().codec, OneSetup().channel, MessageOf(Known1()), NewIds(), 2).0 != db
  {
    var key := Key(OneSetup().channel, MessageOf(Known1()));
    var recorded := Record(db, key, "loss-1");
    RecordIsKnown(db);
    LossParses("key-1", "loss-1");
    FoundIsTheOne(recorded, 10);
    assert ReplayPlan(recorded.txs, RequestOf("key-1", "loss-1")) == Some(Reply(ReplayOf(db.txs[10])));
    assert ExecutePlan(recorded, OneSetup().codec, Known1(), NewIds(), 2).Reply?;
    assert key in recorded.inbox;
  }

  lemma OtherIsPlanned(recorded: Db)
    requires OnRecord(recorded.(inbox := map[])) && Sound(recorded)
    ensures RequestPlan(recorded, RequestOf("key-2", "loss-2"), NewIds(), 2).Write?
  {
    RecordIsKnown(recorded.(inbox := map[]));
    assert ReplayPlan(recorded.txs, RequestOf("key-2", "loss-2")).None?;
    LossIsWritten(recorded, RequestOf("key-2", "loss-2"), NewIds(), 2);
  }

  lemma DeliveryApplies(db: Db, codec: Codec, ch: Channel, m: Message, req: Request, ids: Ids, now: Instant)
    requires Sound(db) && FreshIds(db, ids) && ParseEnvelope(ch, m).Ok? && Key(ch, m) !in db.inbox
    requires Parse(codec, m.data.value) == Ok(req)
    requires RequestPlan(Record(db, Key(ch, m), PayloadHash(codec, m.data.value)), req, ids, now).Write?
    requires req.walletId in db.wallets && db.wallets[req.walletId].currency == req.amount.currency
    ensures Business(HandleStep(db, codec, ch, m, ids, now).0) != Business(db)
  {
    var key, hash := Key(ch, m), PayloadHash(codec, m.data.value);
    NewDelivery(db, codec, ch, m, req, ids, now);
    NewDeliveryApplies(db, key, hash, RequestPlan(Record(db, key, hash), req, ids, now), req, ids, now);
  }

  // The other loss, alone, is applied.
  lemma OtherIsApplied(db: Db)
    requires OnRecord(db)
    ensures Business(HandleStep(db, OneSetup().codec, OneSetup().channel, MessageOf(Other()), NewIds(), 2).0) != Business(db)
  {
    var recorded := Record(db, Key(OneSetup().channel, MessageOf(Other())), "loss-2");
    assert recorded.(inbox := map[]) == db;
    OtherIsPlanned(recorded);
    LossParses("key-2", "loss-2");
    assert PayloadHash(OneSetup().codec, Other()) == "loss-2";
    DeliveryApplies(db, OneSetup().codec, OneSetup().channel, MessageOf(Other()), RequestOf("key-2", "loss-2"), NewIds(), 2);
  }

  lemma RunsPart(db: Db)
    requires OnRecord(db)
    ensures var ops := [Delivery(MessageOf(Known1()), NewIds(), 2), Delivery(MessageOf(Other()), NewIds(), 2)];
            Business(Play(OneSetup(), db, ops)) != Business(Play(OneSetup(), db, Pruned(OneSetup(), db, ops)))
  {
    RecordIsKnown(db);
    KnownLeavesItsRow(db);
    OtherIsApplied(db);
    ReusedDeliveryId(OneSetup(), db, MessageOf(Known1()), MessageOf(Other()), NewIds(), 2);
  }

  lemma Beginning()
    ensures Sound(EMPTY_DB) && OnRecord(Play(OneSetup(), EMPTY_DB, [Opens()] + [Submits()]))
    ensures Pruned(OneSetup(), EMPTY_DB, [Opens()] + [Submits()]) == [Opens()] + [Submits()]
  {
    OpensWallet();
    assert Sound(OneWallet());
    FirstLossStored();
    NothingKnown(OneWallet(), Known1());
    PlayConcat(OneSetup(), EMPTY_DB, [Opens()], [Submits()]);
    PrunedConcat(OneSetup(), EMPTY_DB, [Opens()], [Submits()]);
    PlayOne(OneSetup(), EMPTY_DB, Opens());
    PlayOne(OneSetup(), OneWallet(), Submits());
  }

  // Dropping the resubmissions of a run from empty tables changes what it commits.
  ghost predicate Differs(setup: Setup, ops: seq<Op>) {
    Sound(EMPTY_DB) && Business(Play(setup, EMPTY_DB, ops)) != Business(Play(setup, EMPTY_DB, Pruned(setup, EMPTY_DB, ops)))
  }

  lemma DiffersAfter(setup: Setup, start: seq<Op>, ops: seq<Op>)
    requires Sound(EMPTY_DB) && Pruned(setup, EMPTY_DB, start) == start
    requires var db := Play(setup, EMPTY_DB, start);
             Business(Play(setup, db, ops)) != Business(Play(setup, db, Pruned(setup, db, ops)))
    ensures Differs(setup, start + ops)
  {
    PlayConcat(setup, EMPTY_DB, start, ops);
    PrunedConcat(setup, EMPTY_DB, start, ops);
    PlayConcat(setup, EMPTY_DB, start, Pruned(setup, Play(setup, EMPTY_DB, start), ops));
  }

  function Start(): seq<Op> {
    [Opens()] + [Submits()]
  }

  function Reuses(): seq<Op> {
    [Delivery(MessageOf(Known1()), NewIds(), 2), Delivery(MessageOf(Other()), NewIds(), 2)]
  }

  lemma ReuseDiffers()
    ensures Differs(OneSetup(), Start() + Reuses())
  {
    Beginning();
    RunsPart(Play(OneSetup(), EMPTY_DB, Start()));
    DiffersAfter(OneSetup(), Start(), Reuses());
  }

  // From empty tables: an opening, a loss, the loss redelivered by the queue, and another loss
  // under the same delivery id. Dropping the redelivery changes what is committed.
  lemma ReusedDeliveryHappens()
    ensures exists setup: Setup, ops: seq<Op> :: Differs(setup, ops)
  {
    ReuseDiffers();
  }
}
