// When a delivery is all or nothing. A permanent error is swallowed so that the inbox row
// survives, and a failing identifier generator counts as a permanent error: if it fails after
// the first write, the unit commits the statements that ran before it.
module Messages {
  import opened Base
  import opened MoneyModel
  import opened Wagering
  import opened Wallets
  import opened Store
  import opened Process
  import opened Units
  import opened Invariant
  import opened Legality
  import opened Admission
  import opened Steps
  import opened Announcements
  import MoneyText

  // The tables as the use case sees them inside a delivery's unit, and what it decides there.
  function Recorded(db: Db, codec: Codec, ch: Channel, m: Message): Db
    requires ParseEnvelope(ch, m).Ok?
  {
    Record(db, Key(ch, m), PayloadHash(codec, m.data.value))
  }

  ghost function DeliveryPlan(db: Db, codec: Codec, ch: Channel, m: Message, ids: Ids, now: Instant): Plan
    requires Sound(db) && ParseEnvelope(ch, m).Ok?
  {
    ExecutePlan(Recorded(db, codec, ch, m), codec, m.data.value, ids, now)
  }

  // A new delivery whose decision writes, to a row the schema admits, with identifiers among which
  // the first that does not serve is one the generator failed to deliver.
  ghost predicate CutShort(db: Db, codec: Codec, ch: Channel, m: Message, ids: Ids, now: Instant)
    requires Sound(db)
  {
    && ParseEnvelope(ch, m).Ok?
    && Key(ch, m) !in db.inbox
    && var plan := DeliveryPlan(db, codec, ch, m, ids, now);
       && plan.Write?
       && ids.tx !in db.txs && plan.delta.tx.info.walletId in db.wallets
       && db.wallets[plan.delta.tx.info.walletId].currency == plan.delta.tx.info.amount.currency
       && GeneratorFails(db, plan.delta.move.Some?, ids)
  }

  // That is when the run stops halfway.
  lemma CutShortStops(db: Db, codec: Codec, ch: Channel, m: Message, ids: Ids, now: Instant)
    requires Sound(db) && ParseEnvelope(ch, m).Ok? && Key(ch, m) !in db.inbox && DeliveryPlan(db, codec, ch, m, ids, now).Write?
    ensures CutShort(db, codec, ch, m, ids, now)
            <==> StopsHalfway(Recorded(db, codec, ch, m), DeliveryPlan(db, codec, ch, m, ids, now).delta)
  {
    var recorded, req := Recorded(db, codec, ch, m), Parse(codec, m.data.value).value;
    StopsExactly(recorded, req, ids, now);
    ApplyConcerns(req, recorded.wallets[req.walletId], ViewOf(recorded, req.cmd.provider, req.cmd.refExternal), ids, now);
  }

  // Delivered identifiers are enough: such a unit is never cut short.
  lemma NotCutShort(db: Db, codec: Codec, ch: Channel, m: Message, ids: Ids, now: Instant)
    requires Sound(db) && ids.entry != 0 && ids.txEvent != 0 && ids.balanceEvent != 0
    ensures !CutShort(db, codec, ch, m, ids, now)
  {
  }

  // ----- a run that stops halfway

  lemma {:induction false} StoppedEventsAreFewer(db: Db, events: seq<Event>) returns (k: nat)
    requires RunEvents(db, events).error.Some?
    ensures k < |events| && RunEvents(db, events).db == db.(outbox := db.outbox + events[..k])
    ensures (forall i | 0 <= i < k :: events[i].id != 0) && (!RunEvents(db, events).failed ==> events[k].id == 0)
    decreases |events|
  {
    if events[0].id != 0 && InsertEvent(db, events[0]).Ok? {
      k := StoppedEventsAreFewer(InsertEvent(db, events[0]).value, events[1..]);
      assert events[..k + 1] == [events[0]] + events[1..][..k];
      assert db.outbox + ([events[0]] + events[1..][..k]) == (db.outbox + [events[0]]) + events[1..][..k];
      assert forall i | 0 < i <= k :: events[i] == events[1..][i - 1];
      k := k + 1;
    } else {
      k := 0;
      assert db.outbox + events[..0] == db.outbox;
    }
  }

  // The tables after a run that an error stopped once its transaction row was in: the entry may
  // be missing, and some event is.
  lemma StoppedRun(db: Db, d: Delta) returns (k: nat)
    requires d.create && StopsHalfway(db, d)
    requires (d.move.Some? ==> d.move.value.wallet.id in db.wallets) && |d.events| >= 1
    ensures InsertTx(db, d.tx).Ok? && RunDelta(db, d).db.txs == db.txs[d.tx.info.id := d.tx]
    ensures k < |d.events| && RunDelta(db, d).db.outbox == db.outbox + d.events[..k]
    ensures RunDelta(db, d).db.ledger ==
            if d.move.Some? && d.move.value.entry.Ok? then db.ledger + [d.move.value.entry.value] else db.ledger
    ensures d.move.None? ==>
              RunDelta(db, d).db == db.(txs := db.txs[d.tx.info.id := d.tx], outbox := db.outbox + d.events[..k])
    ensures if d.move.Some? && d.move.value.entry.Err? then k == 0
            else (forall i | 0 <= i < k :: d.events[i].id != 0) && d.events[k].id == 0
  {
    var next := InsertTx(db, d.tx).value;
    k := 0;
    assert db.outbox + d.events[..0] == db.outbox;
    match d.move
    case None => k := StoppedEventsAreFewer(next, d.events);
    case Some(m) =>
      if m.entry.Ok? {
        k := StoppedEventsAreFewer(RunMove(next, m).db, d.events);
      }
  }

  // What the writes of a submission look like before they run.
  predicate Writes(db: Db, d: Delta) {
    && d.create && |d.events| >= 1 && d.events[0].eventType != BalanceChanged
    && (d.move.Some? ==>
          && d.move.value.wallet.id in db.wallets && d.tx.status == Processed && d.tx.info.kind != Loss && |d.events| == 2
          && d.events[1].eventType == BalanceChanged
          && d.events[1].aggregateId == d.tx.info.walletId
          && (d.move.value.entry.Ok? ==> d.move.value.entry.value.txId == d.tx.info.id)
          && (d.move.value.entry.Err? ==> IsDomainError(d.move.value.entry.error)))
    && (d.move.None? ==> |d.events| == 1)
  }

  lemma WritesOf(db: Db, req: Request, ids: Ids, now: Instant)
    requires Sound(db) && RequestPlan(db, req, ids, now).Write?
    ensures Writes(db, RequestPlan(db, req, ids, now).delta)
  {
    ApplyConcerns(req, db.wallets[req.walletId], ViewOf(db, req.cmd.provider, req.cmd.refExternal), ids, now);
  }

  // What is left of a run that an error stopped halfway is never the whole effect.
  lemma StoppedIsPartial(db: Db, d: Delta)
    requires Sound(db) && Writes(db, d) && StopsHalfway(db, d)
    ensures RunDelta(db, d).db != db
    ensures (d.move.Some? ==> d.move.value.entry.Ok?) ==> RunDelta(db, d).db != Applied(db, d)
  {
    var k := StoppedRun(db, d);
    assert d.tx.info.id !in db.txs && d.tx.info.id in RunDelta(db, d).db.txs;
    assert |db.outbox + d.events[..k]| < |db.outbox + d.events|;
  }

  lemma RunKeepsInbox(db: Db, d: Delta)
    ensures RunDelta(db, d).db.inbox == db.inbox
  {
    var first := if d.create then InsertTx(db, d.tx) else UpdateTx(db, d.tx);
    if first.Ok? {
      match d.move
      case None => EventsKeepInbox(first.value, d.events);
      case Some(m) => EventsKeepInbox(RunMove(first.value, m).db, d.events);
    }
  }

  lemma {:induction false} EventsKeepInbox(db: Db, events: seq<Event>)
    ensures RunEvents(db, events).db.inbox == db.inbox
    decreases |events|
  {
    if events != [] && events[0].id != 0 && InsertEvent(db, events[0]).Ok? {
      EventsKeepInbox(InsertEvent(db, events[0]).value, events[1..]);
    }
  }

  // An error that is no refusal of a statement is a permanent one.
  lemma CutShortCommits(db: Db, d: Delta)
    requires Writes(db, d) && RunDelta(db, d).error.Some? && !RunDelta(db, d).failed
    ensures IsDomainError(RunDelta(db, d).error.value)
  {
    var next := InsertTx(db, d.tx).value;
    match d.move
    case None => EventErrorsAreDomain(next, d.events);
    case Some(m) => EventErrorsAreDomain(RunMove(next, m).db, d.events);
  }

  lemma {:induction false} EventErrorsAreDomain(db: Db, events: seq<Event>)
    ensures RunEvents(db, events).error.Some? ==> IsDomainError(RunEvents(db, events).error.value)
    decreases |events|
  {
    if events != [] && events[0].id != 0 && InsertEvent(db, events[0]).Ok? {
      EventErrorsAreDomain(InsertEvent(db, events[0]).value, events[1..]);
    }
  }

  // ----- all or nothing

  // The inbox row alone, or the inbox row and every write of the plan.
  predicate Whole(recorded: Db, plan: Plan, after: Db) {
    || after == recorded
    || (plan.Write? && (plan.delta.move.Some? ==> plan.delta.move.value.entry.Ok?) && after == Applied(recorded, plan.delta))
  }

  // Nothing, or the inbox row alone, or the inbox row and the whole effect of the submission.
  ghost predicate AllOrNothing(db: Db, codec: Codec, ch: Channel, m: Message, ids: Ids, now: Instant, after: Db)
    requires Sound(db)
  {
    || after == db
    || (ParseEnvelope(ch, m).Ok? && Whole(Recorded(db, codec, ch, m), DeliveryPlan(db, codec, ch, m, ids, now), after))
  }

  // How a delivery whose decision writes ends, by how its run went.
  lemma CommitCases(db: Db, recorded: Db, plan: Plan)
    requires plan.Write? && Writes(recorded, plan.delta)
    ensures var after, run := HandleCommit(db, recorded, plan).0, RunDelta(recorded, plan.delta);
            if run.error.None? || StopsHalfway(recorded, plan.delta) then after == run.db || (run.error.None? && run.failed) else after == db
  {
    RunErrorsExplainFailure(recorded, plan);
    if StopsHalfway(recorded, plan.delta) {
      CutShortCommits(recorded, plan.delta);
    }
  }

  lemma RequestIsWhole(db: Db, req: Request, ids: Ids, now: Instant)
    requires Inv(db) && Runs(db, RequestPlan(db, req, ids, now))
    ensures var plan := RequestPlan(db, req, ids, now); Whole(db, plan, RunDelta(db, plan.delta).db)
    ensures !RunDelta(db, RequestPlan(db, req, ids, now).delta).failed
  {
    RequestKeepsInv(db, req, ids, now);
    RunIsApplied(db, RequestPlan(db, req, ids, now).delta);
  }

  lemma HalfwayIsNotWhole(db: Db, recorded: Db, plan: Plan)
    requires plan.Write? && Sound(recorded) && Writes(recorded, plan.delta) && StopsHalfway(recorded, plan.delta)
    requires db.inbox != recorded.inbox
    ensures RunDelta(recorded, plan.delta).db != db && !Whole(recorded, plan, RunDelta(recorded, plan.delta).db)
  {
    StoppedIsPartial(recorded, plan.delta);
    RunKeepsInbox(recorded, plan.delta);
  }

  lemma WritingDeliveryIsWhole(db: Db, recorded: Db, req: Request, ids: Ids, now: Instant)
    requires Inv(recorded) && db.inbox != recorded.inbox && RequestPlan(recorded, req, ids, now).Write?
    ensures var plan := RequestPlan(recorded, req, ids, now);
            var after := HandleCommit(db, recorded, plan).0;
            after == db || Whole(recorded, plan, after) <==> !StopsHalfway(recorded, plan.delta)
  {
    var plan := RequestPlan(recorded, req, ids, now);
    WritesOf(recorded, req, ids, now);
    CommitCases(db, recorded, plan);
    if StopsHalfway(recorded, plan.delta) {
      HalfwayIsNotWhole(db, recorded, plan);
    } else if Runs(recorded, plan) {
      RequestIsWhole(recorded, req, ids, now);
    }
  }

  // A delivery is all or nothing exactly when it is not cut short.
  lemma AllOrNothingExactly(db: Db, codec: Codec, ch: Channel, m: Message, ids: Ids, now: Instant)
    requires Inv(db)
    ensures AllOrNothing(db, codec, ch, m, ids, now, HandleStep(db, codec, ch, m, ids, now).0) <==> !CutShort(db, codec, ch, m, ids, now)
  {
    if ParseEnvelope(ch, m).Ok? && Key(ch, m) !in db.inbox {
      var recorded, plan := Recorded(db, codec, ch, m), DeliveryPlan(db, codec, ch, m, ids, now);
      RecordKeepsInv(db, Key(ch, m), PayloadHash(codec, m.data.value));
      assert Key(ch, m) in recorded.inbox;
      if plan.Write? {
        CutShortStops(db, codec, ch, m, ids, now);
        WritingDeliveryIsWhole(db, recorded, Parse(codec, m.data.value).value, ids, now);
      }
    }
  }

  // ----- the invariant

  lemma MissingEntry(db: Db, after: Db, t: Tx)
    requires EntriesKnown(db.txs, db.ledger) && t.info.id !in db.txs && t.status == Processed && t.info.kind != Loss
    requires after.txs == db.txs[t.info.id := t] && after.ledger == db.ledger
    ensures !Ledger(after.txs, after.ledger)
  {
    forall n: nat ensures !FrozenAt(after.txs, after.ledger, t, n) {
      assert 0 < n <= |after.ledger| ==> after.ledger[n - 1].txId in db.txs;
    }
    assert after.txs[t.info.id] == t && !ResultFrozen(after.txs, after.ledger, t.info.id);
  }

  lemma MissingEvent(db: Db, after: Db, e: Entry, d: Delta, k: nat)
    requires EntriesKnown(db.txs, db.ledger) && Mirrored(db) && d.tx.info.id !in db.txs && e.txId == d.tx.info.id
    requires after.txs == db.txs[d.tx.info.id := d.tx] && after.ledger == db.ledger + [e]
    requires k < |d.events| == 2 && d.events[0].eventType != BalanceChanged && after.outbox == db.outbox + d.events[..k]
    ensures !Mirrored(after)
  {
    var w := e.walletId;
    ExpectedFrame(db.txs, after.txs, db.ledger, w);
    ExpectedAppend(after.txs, db.ledger, e, w);
    ChangesQuiet(db.outbox, d.events[..k], w);
    assert |Changes(after.outbox, w)| < |Expected(after.txs, after.ledger, w)|;
  }

  lemma StoppedMoveBreaksInv(db: Db, d: Delta)
    requires Inv(db) && Writes(db, d) && d.move.Some? && StopsHalfway(db, d)
    ensures !Inv(RunDelta(db, d).db)
  {
    var after := RunDelta(db, d).db;
    var k := StoppedRun(db, d);
    EntriesProcessed(db.txs, db.ledger);
    if d.move.value.entry.Err? {
      MissingEntry(db, after, d.tx);
    } else {
      MissingEvent(db, after, d.move.value.entry.value, d, k);
    }
  }

  // Without a movement only an announcement is lost, and the books still balance.
  lemma StoppedQuietKeepsInv(db: Db, req: Request, ids: Ids, now: Instant)
    requires Inv(db) && RequestPlan(db, req, ids, now).Write?
    requires var d := RequestPlan(db, req, ids, now).delta; Writes(db, d) && d.move.None? && StopsHalfway(db, d)
    ensures Inv(RunDelta(db, RequestPlan(db, req, ids, now).delta).db)
  {
    var d := RequestPlan(db, req, ids, now).delta;
    var k := StoppedRun(db, d);
    FreshViewHolds(db, req.walletId, req.cmd.provider, req.cmd.refExternal);
    ApplyLegal(db, req, ViewOf(db, req.cmd.provider, req.cmd.refExternal), ids, now);
    RowAloneKeepsInv(db, d);
    assert db.outbox + d.events[..0] == db.outbox;
  }

  lemma RowAloneKeepsInv(db: Db, d: Delta)
    requires Inv(db) && Legal(db, d) && d.move.None? && TxAdmissible(db, d.tx)
    ensures Inv(db.(txs := db.txs[d.tx.info.id := d.tx]))
  {
    var quiet := d.(events := []);
    PutTxKeepsSound(db, d.tx);
    assert db.outbox + [] == db.outbox;
    assert Applied(db, quiet) == db.(txs := db.txs[d.tx.info.id := d.tx]);
    LegalKeepsInv(db, quiet);
  }

  // A delivery keeps the invariant exactly when it is not cut short while it moves money: that
  // leaves a processed transaction without its entry, or an entry without its balance event.
  lemma HandleInvExactly(db: Db, codec: Codec, ch: Channel, m: Message, ids: Ids, now: Instant)
    requires Inv(db)
    ensures Inv(HandleStep(db, codec, ch, m, ids, now).0)
            <==> !(CutShort(db, codec, ch, m, ids, now) && DeliveryPlan(db, codec, ch, m, ids, now).delta.move.Some?)
  {
    if ParseEnvelope(ch, m).Ok? && Key(ch, m) !in db.inbox {
      var recorded, plan := Recorded(db, codec, ch, m), DeliveryPlan(db, codec, ch, m, ids, now);
      RecordKeepsInv(db, Key(ch, m), PayloadHash(codec, m.data.value));
      if plan.Write? {
        var req := Parse(codec, m.data.value).value;
        WritesOf(recorded, req, ids, now);
        CutShortStops(db, codec, ch, m, ids, now);
        CommitCases(db, recorded, plan);
        RunInvExactly(recorded, req, ids, now);
      }
    }
  }

  lemma RunInvExactly(db: Db, req: Request, ids: Ids, now: Instant)
    requires Inv(db) && RequestPlan(db, req, ids, now).Write? && Writes(db, RequestPlan(db, req, ids, now).delta)
    ensures var d := RequestPlan(db, req, ids, now).delta;
            && (RunDelta(db, d).error.None? ==> Inv(RunDelta(db, d).db) && !RunDelta(db, d).failed)
            && (StopsHalfway(db, d) ==> (Inv(RunDelta(db, d).db) <==> d.move.None?))
  {
    var d := RequestPlan(db, req, ids, now).delta;
    if RunDelta(db, d).error.None? {
      RequestKeepsInv(db, req, ids, now);
      RequestIsWhole(db, req, ids, now);
    } else if StopsHalfway(db, d) {
      if d.move.Some? {
        StoppedMoveBreaksInv(db, d);
      } else {
        StoppedQuietKeepsInv(db, req, ids, now);
      }
    }
  }

  // A delivery that is not cut short keeps the invariant.
  lemma HandleKeepsInv(db: Db, codec: Codec, ch: Channel, m: Message, ids: Ids, now: Instant)
    requires Inv(db) && !CutShort(db, codec, ch, m, ids, now)
    ensures Inv(HandleStep(db, codec, ch, m, ids, now).0)
  {
    HandleInvExactly(db, codec, ch, m, ids, now);
  }

  // ----- the announcements

  // Of a run that stops halfway the announcement survives only if the entry and the outcome event
  // were written, that is, if nothing but the balance event is missing.
  lemma StoppedTells(db: Db, d: Delta)
    requires Announced(db) && Writes(db, d) && Announces(d) && StopsHalfway(db, d)
    ensures Announced(RunDelta(db, d).db) <==> d.move.Some? && d.move.value.entry.Ok? && d.events[0].id != 0
  {
    var after := RunDelta(db, d).db;
    var k := StoppedRun(db, d);
    assert d.tx.info.id !in db.txs && after.txs[d.tx.info.id] == d.tx;
    if k == 0 {
      assert after.outbox == db.outbox;
      assert Told(db.outbox, d.tx.info.id) == [] && !WellTold(d.tx, []);
    } else {
      NewRowAnnounced(db, after, d.tx, d.events[..1]);
    }
  }

  lemma RequestTells(db: Db, req: Request, ids: Ids, now: Instant)
    requires Sound(db)
    ensures TellsOutcome(RequestPlan(db, req, ids, now))
  {
    if req.walletId in db.wallets {
      ApplyTells(req, db.wallets[req.walletId], ViewOf(db, req.cmd.provider, req.cmd.refExternal), ids, now);
    }
  }

  lemma LegalRunTells(db: Db, d: Delta)
    requires Keyed(db) && Rows(db) && Announced(db) && Announces(d) && Legal(db, d) && RunDelta(db, d).error.None?
    ensures Announced(RunDelta(db, d).db)
  {
    RunIsApplied(db, d);
    AppliedAnnounced(db, d);
  }

  lemma WholeRunTells(db: Db, req: Request, ids: Ids, now: Instant)
    requires Inv(db) && Announced(db) && Runs(db, RequestPlan(db, req, ids, now))
    ensures Announced(RunDelta(db, RequestPlan(db, req, ids, now).delta).db)
  {
    RequestTells(db, req, ids, now);
    RequestKeepsInv(db, req, ids, now);
    LegalRunTells(db, RequestPlan(db, req, ids, now).delta);
  }

  lemma HalfRunTells(db: Db, req: Request, ids: Ids, now: Instant)
    requires Sound(db) && Announced(db) && RequestPlan(db, req, ids, now).Write?
    requires StopsHalfway(db, RequestPlan(db, req, ids, now).delta)
    ensures var d := RequestPlan(db, req, ids, now).delta;
            Announced(RunDelta(db, d).db) <==> d.move.Some? && ids.entry != 0 && ids.txEvent != 0
  {
    var w, view := db.wallets[req.walletId], ViewOf(db, req.cmd.provider, req.cmd.refExternal);
    WritesOf(db, req, ids, now);
    RequestTells(db, req, ids, now);
    ApplyConcerns(req, w, view, ids, now);
    HalfTells(db, RequestPlan(db, req, ids, now).delta, w, ids, now);
  }

  lemma HalfTells(db: Db, d: Delta, w: WalletRow, ids: Ids, now: Instant)
    requires Announced(db) && Writes(db, d) && Announces(d) && StopsHalfway(db, d) && d.events[0].id == ids.txEvent
    requires d.move.Some? ==> MovesAs(d, d.tx.info, w, ids, now) && w.id != 0 && d.tx.info.id != 0
    ensures Announced(RunDelta(db, d).db) <==> d.move.Some? && ids.entry != 0 && ids.txEvent != 0
  {
    StoppedTells(db, d);
  }

  // A delivery leaves an outcome unannounced exactly when it is cut short before its outcome event.
  lemma HandleToldExactly(db: Db, codec: Codec, ch: Channel, m: Message, ids: Ids, now: Instant)
    requires Inv(db) && Announced(db)
    ensures Announced(HandleStep(db, codec, ch, m, ids, now).0)
            <==> !(CutShort(db, codec, ch, m, ids, now)
                   && !(DeliveryPlan(db, codec, ch, m, ids, now).delta.move.Some? && ids.entry != 0 && ids.txEvent != 0))
  {
    if ParseEnvelope(ch, m).Ok? && Key(ch, m) !in db.inbox {
      var recorded, plan := Recorded(db, codec, ch, m), DeliveryPlan(db, codec, ch, m, ids, now);
      RecordKeepsInv(db, Key(ch, m), PayloadHash(codec, m.data.value));
      if plan.Write? {
        var req := Parse(codec, m.data.value).value;
        WritesOf(recorded, req, ids, now);
        CutShortStops(db, codec, ch, m, ids, now);
        CommitCases(db, recorded, plan);
        if RunDelta(recorded, plan.delta).error.None? {
          RequestIsWhole(recorded, req, ids, now);
          WholeRunTells(recorded, req, ids, now);
        } else if StopsHalfway(recorded, plan.delta) {
          HalfRunTells(recorded, req, ids, now);
        }
      }
    }
  }

  // ----- it happens

  function ExampleDb(): Db {
    Db(map[1 := WalletRow(1, 1, "EUR", 0, 1, 1, 1)], map[], [], map[], [])
  }

  function ExampleWin(): Command {
    Command("key", "provider", "win-1", "player", "wallet", "round", "game", "WIN", "1.00", "EUR", "")
  }

  function ExampleCodec(): Codec {
    Codec((s: string) => Some(1), (f: Fields) => "hash")
  }

  function ExampleChannel(): Channel {
    Channel("consumer", {"provider"})
  }

  function ExampleIds(): Ids {
    Ids(2, 0, 3, 4)
  }

  lemma OneIsHundredCents()
    ensures MoneyText.ParseAmount("1.00") == Ok(100)
  {
    var raw := "1.00";
    assert raw[..1] == "1" && raw[2..] == "00";
    assert MoneyText.Value("0") == 0;
    assert "00"[..1] == "0";
    assert MoneyText.Value("00") == 0 && MoneyText.Value("1") == 1;
  }

  lemma ExampleParses()
    ensures Parse(ExampleCodec(), ExampleWin()) == Ok(ExampleRequest())
  {
    OneIsHundredCents();
    assert MoneyText.ParseMoney("1.00", "EUR") == Ok(Money(100, "EUR"));
  }

  lemma ExampleDbIsInv()
    ensures Inv(ExampleDb())
  {
  }

  // A win on a wallet that holds nothing.
  lemma FirstWinMoves(db: Db, req: Request, ids: Ids, now: Instant)
    requires Sound(db) && db.txs == map[] && req.walletId in db.wallets && db.wallets[req.walletId].balance == 0
    requires req.kind == Win && NewExternal(InfoFor(req, ids.tx, now)).Ok? && now != 0
    requires var w := db.wallets[req.walletId]; w.playerId == req.playerId && w.currency == req.amount.currency
    ensures var plan := RequestPlan(db, req, ids, now);
            plan.Write? && plan.delta.move.Some? && plan.delta.tx.info == InfoFor(req, ids.tx, now)
  {
  }

  // A movement whose entry's identifier fails to arrive is cut short.
  lemma MissingEntryId(db: Db, codec: Codec, ch: Channel, m: Message, req: Request, ids: Ids, now: Instant)
    requires Sound(db) && ParseEnvelope(ch, m).Ok? && Key(ch, m) !in db.inbox && Parse(codec, m.data.value) == Ok(req)
    requires var plan := RequestPlan(Recorded(db, codec, ch, m), req, ids, now);
             plan.Write? && plan.delta.move.Some? && plan.delta.tx.info == InfoFor(req, ids.tx, now)
    requires ids.tx !in db.txs && req.walletId in db.wallets && db.wallets[req.walletId].currency == req.amount.currency
    requires ids.entry == 0
    ensures CutShort(db, codec, ch, m, ids, now) && DeliveryPlan(db, codec, ch, m, ids, now).delta.move.Some?
  {
  }

  function ExampleRequest(): Request {
    Request(ExampleWin(), "hash", Win, 1, 1, Money(100, "EUR"))
  }

  lemma ExampleMoves(recorded: Db)
    requires Sound(recorded) && recorded.txs == map[] && recorded.wallets == ExampleDb().wallets
    ensures var plan := RequestPlan(recorded, ExampleRequest(), ExampleIds(), 1);
            plan.Write? && plan.delta.move.Some? && plan.delta.tx.info == InfoFor(ExampleRequest(), ExampleIds().tx, 1)
  {
    FirstWinMoves(recorded, ExampleRequest(), ExampleIds(), 1);
  }

  lemma ExampleIsCutShort(m: Message)
    requires m == Envelope("message-1", true, Some(ExampleWin())) && Sound(ExampleDb())
    ensures CutShort(ExampleDb(), ExampleCodec(), ExampleChannel(), m, ExampleIds(), 1)
    ensures DeliveryPlan(ExampleDb(), ExampleCodec(), ExampleChannel(), m, ExampleIds(), 1).delta.move.Some?
  {
    ExampleParses();
    assert ParseEnvelope(ExampleChannel(), m) == Ok(ExampleWin());
    ExampleMoves(Recorded(ExampleDb(), ExampleCodec(), ExampleChannel(), m));
    MissingEntryId(ExampleDb(), ExampleCodec(), ExampleChannel(), m, ExampleRequest(), ExampleIds(), 1);
  }

  // A delivery that is cut short and takes the tables out of their invariant.
  ghost predicate Breaks(db: Db, codec: Codec, ch: Channel, m: Message, ids: Ids, now: Instant) {
    Inv(db) && CutShort(db, codec, ch, m, ids, now) && !Inv(HandleStep(db, codec, ch, m, ids, now).0)
  }

  lemma ExampleBreaks(m: Message)
    requires m == Envelope("message-1", true, Some(ExampleWin()))
    ensures Breaks(ExampleDb(), ExampleCodec(), ExampleChannel(), m, ExampleIds(), 1)
  {
    ExampleDbIsInv();
    ExampleIsCutShort(m);
    HandleInvExactly(ExampleDb(), ExampleCodec(), ExampleChannel(), m, ExampleIds(), 1);
  }

  // Such a delivery exists: a win of 1.00 on a new wallet commits as processed, moving nothing.
  lemma CutShortHappens()
    ensures exists db: Db, codec: Codec, ch: Channel, m: Message, ids: Ids, now: Instant :: Breaks(db, codec, ch, m, ids, now)
  {
    ExampleBreaks(Envelope("message-1", true, Some(ExampleWin())));
  }
}
