// Resubmissions: they change nothing, they are answered with the frozen outcome, and a run is
// the same run without them.
module Replay {
  import opened Base
  import opened Wagering
  import opened Wallets
  import opened Store
  import opened Process
  import opened Resolve
  import opened Units
  import opened Invariant
  import opened Admission
  import opened Interleaving
  import opened Isolation

  // The operation is on record, under its idempotency key or under its external id.
  ghost predicate Known(txs: map<Id, Tx>, c: Command) {
    FindByKey(txs, c.provider, c.key).Some? || FindByExternalId(txs, c.provider, c.externalId).Some?
  }

  // Everything but the inbox.
  function Business(db: Db): Db {
    db.(inbox := map[])
  }

  lemma KnownIsAnswered(txs: map<Id, Tx>, req: Request)
    requires Known(txs, req.cmd)
    ensures ReplayPlan(txs, req).Some? && !ReplayPlan(txs, req).value.Write?
  {
  }

  lemma KnownNeverWrites(db: Db, codec: Codec, c: Command, ids: Ids, now: Instant)
    requires Sound(db) && Known(db.txs, c)
    ensures !ExecutePlan(db, codec, c, ids, now).Write?
  {
    if Parse(codec, c).Ok? {
      KnownIsAnswered(db.txs, Parse(codec, c).value);
    }
  }

  // Whatever its payload, whichever channel it comes by: a recorded operation submitted again
  // leaves wallets, transactions, ledger and outbox as they are.
  lemma ResubmissionChangesNothing(db: Db, codec: Codec, ch: Channel, c: Command, m: Message, ids: Ids, now: Instant)
    requires Sound(db)
    ensures Known(db.txs, c) ==> ExecuteStep(db, codec, c, ids, now).0 == db
    ensures ParseEnvelope(ch, m).Ok? && Known(db.txs, m.data.value) ==>
              Business(HandleStep(db, codec, ch, m, ids, now).0) == Business(db)
  {
    if Known(db.txs, c) {
      KnownNeverWrites(db, codec, c, ids, now);
    }
    if ParseEnvelope(ch, m).Ok? && Known(db.txs, m.data.value) {
      RepeatedDelivery(db, codec, ch, m, ids, now);
    }
  }

  // No statement removes a submission or rewrites what it was.
  ghost predicate InfosStay(txs: map<Id, Tx>, txs': map<Id, Tx>) {
    forall id | id in txs :: id in txs' && txs'[id].info == txs[id].info
  }

  lemma KnownStays(txs: map<Id, Tx>, txs': map<Id, Tx>, c: Command)
    requires InfosStay(txs, txs') && Known(txs, c)
    ensures Known(txs', c)
  {
  }

  // ----- frozen replay

  // However the system moves on, concurrently or not, from a state where a row is terminal: the
  // identical resubmission is answered with the same id, status, balance and failure code, and
  // for a processed movement that balance is the ledger's sum up to its own entry.
  lemma FrozenReplay(s: System, steps: seq<Step>, id: Id, req: Request, ids: Ids, now: Instant)
    requires Reachable(s) && id in s.db.txs && IsTerminal(s.db.txs[id].status) && s.db.txs[id].info.external
    requires var t := s.db.txs[id];
             req.walletId == t.info.walletId && req.cmd.provider == t.info.provider && req.cmd.key == t.info.key
             && req.hash == t.info.hash
    ensures var later, t := Run(s, steps).db, s.db.txs[id];
            && Sound(later)
            && RequestPlan(later, req, ids, now) == Reply(ReplayOf(t))
            && ReplayOf(t) == TxResult(id, t.status, if t.result.Some? then Some(t.result.value.balance) else None, t.failure, true)
            && (t.status == Processed ==>
                  exists n: nat :: n <= |later.ledger| && t.result.Some?
                    && t.result.value.balance.minor as int == Sum(later.ledger[..n], t.info.walletId)
                    && (t.info.kind != Loss ==> n > 0 && later.ledger[n - 1].txId == id))
  {
    ReachableOk(s);
    RunOk(s, steps);
    var later, t := Run(s, steps).db, s.db.txs[id];
    assert later.txs[id] == t;
    FoundIsTheOne(later, id);
    if t.status == Processed {
      assert ResultFrozen(later.txs, later.ledger, id);
      var n: nat :| FrozenAt(later.txs, later.ledger, t, n);
    }
  }

  // The same key with other content is a conflict, and the same operation under another key is
  // refused; exactly these and the missing wallet are the refusals of a recorded operation.
  lemma ResubmissionAnswers(db: Db, req: Request, id: Id, ids: Ids, now: Instant)
    requires Sound(db) && id in db.txs && db.txs[id].info.external && req.walletId in db.wallets
    ensures HasKey(db.txs[id], req.cmd.provider, req.cmd.key) ==>
              RequestPlan(db, req, ids, now) == if db.txs[id].info.hash == req.hash then Reply(ReplayOf(db.txs[id])) else Refuse(IdempotencyConflict)
    ensures HasExternalId(db.txs[id], req.cmd.provider, req.cmd.externalId) && FindByKey(db.txs, req.cmd.provider, req.cmd.key).None? ==>
              RequestPlan(db, req, ids, now) == Refuse(OperationReapplied)
  {
    FoundIsTheOne(db, id);
  }

  // Rows are never stored as PENDING, carry result, failure code and retry time exactly in the
  // statuses that own them, and once terminal are the same row in every later state.
  lemma StoredRows(s: System, steps: seq<Step>, id: Id)
    requires Reachable(s) && id in s.db.txs
    ensures var t := s.db.txs[id];
            && t.status in {PendingReference, Processed, Rejected}
            && (t.result.Some? <==> t.status == Processed)
            && (t.failure.Some? <==> t.status == Rejected)
            && (t.nextRetry.Some? <==> t.status == PendingReference)
    ensures id in Run(s, steps).db.txs && Run(s, steps).db.txs[id].info == s.db.txs[id].info
    ensures IsTerminal(s.db.txs[id].status) ==> Run(s, steps).db.txs[id] == s.db.txs[id]
  {
    ReachableOk(s);
    RunOk(s, steps);
    assert RowState(s.db.txs[id]);
  }

  // ----- runs with and without resubmissions

  // `content` is what each delivery id stands for; a channel that never reuses an id for other
  // content has one.
  datatype Setup = Setup(codec: Codec, channel: Channel, policy: Policy, content: InboxKey -> Command)

  datatype Op =
    | Submission(c: Command, ids: Ids, now: Instant)
    | Delivery(m: Message, ids: Ids, now: Instant)
    | Round(ids: Ids, now: Instant)
    | NewWallet(player: string, amount: string, currency: string, walletId: Id, ids: Ids, now: Instant)

  ghost function Perform(setup: Setup, db: Db, op: Op): (after: Db)
    requires Sound(db)
    ensures Sound(after)
  {
    match op
    case Submission(c, ids, now) =>
      PlanKeepsSound(db, ExecutePlan(db, setup.codec, c, ids, now));
      ExecuteStep(db, setup.codec, c, ids, now).0
    case Delivery(m, ids, now) =>
      HandleSound(db, setup.codec, setup.channel, m, ids, now);
      HandleStep(db, setup.codec, setup.channel, m, ids, now).0
    case Round(ids, now) =>
      StepKeepsSound(db, setup.policy, ids, now);
      WorkerStep(db, setup.policy, ids, now).0
    case NewWallet(player, amount, currency, walletId, ids, now) =>
      OpenStepSound(db, setup.codec, player, amount, currency, walletId, ids, now);
      OpenStep(db, setup.codec, player, amount, currency, walletId, ids, now).0
  }

  lemma HandleSound(db: Db, codec: Codec, ch: Channel, m: Message, ids: Ids, now: Instant)
    requires Sound(db)
    ensures Sound(HandleStep(db, codec, ch, m, ids, now).0)
  {
    if ParseEnvelope(ch, m).Ok? && Key(ch, m) !in db.inbox {
      var recorded := Record(db, Key(ch, m), PayloadHash(codec, m.data.value));
      PlanKeepsSound(recorded, ExecutePlan(recorded, codec, m.data.value, ids, now));
    }
  }

  lemma OpenStepSound(
    db: Db, codec: Codec, player: string, amount: string, currency: string, walletId: Id, ids: Ids, now: Instant)
    requires Sound(db)
    ensures Sound(OpenStep(db, codec, player, amount, currency, walletId, ids, now).0)
  {
    var row := OpenRow(codec, player, amount, currency, walletId, now);
    if row.Ok? {
      OpenKeepsSound(db, row.value, ids);
    }
  }

  ghost function Play(setup: Setup, db: Db, ops: seq<Op>): (after: Db)
    requires Sound(db)
    ensures Sound(after)
    decreases |ops|
  {
    if ops == [] then db else Play(setup, Perform(setup, db, ops[0]), ops[1..])
  }

  ghost predicate Repeats(setup: Setup, db: Db, op: Op) {
    match op
    case Submission(c, _, _) => Known(db.txs, c)
    case Delivery(m, _, _) => ParseEnvelope(setup.channel, m).Ok? && Known(db.txs, m.data.value)
    case _ => false
  }

  // The run without the submissions that were on record when they came.
  ghost function Pruned(setup: Setup, db: Db, ops: seq<Op>): seq<Op>
    requires Sound(db)
    decreases |ops|
  {
    if ops == [] then [] else Kept(setup, db, ops[0]) + Pruned(setup, Perform(setup, db, ops[0]), ops[1..])
  }

  ghost function Kept(setup: Setup, db: Db, op: Op): seq<Op> {
    if Repeats(setup, db, op) then [] else [op]
  }

  predicate Conforms(setup: Setup, op: Op) {
    op.Delivery? && ParseEnvelope(setup.channel, op.m).Ok? ==> op.m.data.value == setup.content(Key(setup.channel, op.m))
  }

  // Same business; the pruned run may lack inbox rows.
  ghost predicate Alongside(a: Db, b: Db) {
    Sound(a) && Sound(b) && Business(a) == Business(b) && forall k | k in b.inbox :: k in a.inbox
  }

  // It lacks only rows of operations on record.
  ghost predicate Simulates(setup: Setup, a: Db, b: Db) {
    Alongside(a, b) && forall k | k in a.inbox :: k in b.inbox || Known(a.txs, setup.content(k))
  }

  // A new operation under a delivery id that only the full run has seen.
  ghost predicate Masked(setup: Setup, a: Db, b: Db, op: Op) {
    && op.Delivery? && ParseEnvelope(setup.channel, op.m).Ok? && !Known(a.txs, op.m.data.value)
    && Key(setup.channel, op.m) in a.inbox && Key(setup.channel, op.m) !in b.inbox
  }

  // ----- no decision and no statement looks at the inbox

  lemma {:induction false} EventsIgnoreInbox(db: Db, inbox: map<InboxKey, string>, events: seq<Event>)
    ensures var run := RunEvents(db, events);
            RunEvents(db.(inbox := inbox), events) == run.(db := run.db.(inbox := inbox))
    decreases |events|
  {
    if events != [] && events[0].id != 0 && InsertEvent(db, events[0]).Ok? {
      EventsIgnoreInbox(InsertEvent(db, events[0]).value, inbox, events[1..]);
    }
  }

  lemma MoveIgnoresInbox(db: Db, inbox: map<InboxKey, string>, m: Move)
    ensures var run := RunMove(db, m);
            RunMove(db.(inbox := inbox), m) == run.(db := run.db.(inbox := inbox))
  {
  }

  lemma PlanIgnoresInbox(db: Db, inbox: map<InboxKey, string>, plan: Plan)
    ensures var run := PlanExec(db, plan);
            PlanExec(db.(inbox := inbox), plan) == run.(db := run.db.(inbox := inbox))
  {
    if plan.Write? {
      var d := plan.delta;
      var first := if d.create then InsertTx(db, d.tx) else UpdateTx(db, d.tx);
      if first.Ok? {
        if d.move.None? {
          EventsIgnoreInbox(first.value, inbox, d.events);
        } else {
          MoveIgnoresInbox(first.value, inbox, d.move.value);
          EventsIgnoreInbox(RunMove(first.value, d.move.value).db, inbox, d.events);
        }
      }
    }
  }

  lemma WritesIgnoreInbox(db: Db, inbox: map<InboxKey, string>, o: OpeningWrites)
    ensures var run := RunOpening(db, o);
            RunOpening(db.(inbox := inbox), o) == run.(db := run.db.(inbox := inbox))
  {
    if InsertTx(db, o.tx).Ok? && o.entry.Ok? && InsertEntry(InsertTx(db, o.tx).value, o.entry.value).Ok? {
      EventsIgnoreInbox(InsertEntry(InsertTx(db, o.tx).value, o.entry.value).value, inbox, o.events);
    }
  }

  lemma OpeningIgnoresInbox(db: Db, inbox: map<InboxKey, string>, w: WalletRow, ids: Ids)
    ensures var run := OpenExec(db, w, ids);
            OpenExec(db.(inbox := inbox), w, ids) == run.(db := run.db.(inbox := inbox))
  {
    if InsertWallet(db, w).Ok? && OpeningOf(w, ids).Ok? {
      WritesIgnoreInbox(InsertWallet(db, w).value, inbox, OpeningOf(w, ids).value);
    }
  }

  // ----- no statement forgets a submission

  lemma MoveKeepsTxs(db: Db, m: Move)
    ensures RunMove(db, m).db.txs == db.txs
  {
  }

  lemma DeltaKeepsInfos(db: Db, d: Delta)
    ensures InfosStay(db.txs, RunDelta(db, d).db.txs)
  {
    var first := if d.create then InsertTx(db, d.tx) else UpdateTx(db, d.tx);
    if first.Ok? {
      assert InfosStay(db.txs, first.value.txs);
      if d.move.None? {
        EventsKeepTxs(first.value, d.events);
      } else {
        MoveKeepsTxs(first.value, d.move.value);
        EventsKeepTxs(RunMove(first.value, d.move.value).db, d.events);
      }
    }
  }

  lemma PlanKeepsInfos(db: Db, plan: Plan)
    ensures InfosStay(db.txs, PlanExec(db, plan).db.txs)
  {
    if plan.Write? {
      DeltaKeepsInfos(db, plan.delta);
    }
  }

  lemma OpeningKeepsInfos(db: Db, w: WalletRow, ids: Ids)
    ensures InfosStay(db.txs, OpenExec(db, w, ids).db.txs)
  {
    if InsertWallet(db, w).Ok? && w.balance != 0 && OpeningOf(w, ids).Ok? {
      var next, o := InsertWallet(db, w).value, OpeningOf(w, ids).value;
      if InsertTx(next, o.tx).Ok? && o.entry.Ok? && InsertEntry(InsertTx(next, o.tx).value, o.entry.value).Ok? {
        EventsKeepTxs(InsertEntry(InsertTx(next, o.tx).value, o.entry.value).value, o.events);
      }
    }
  }

  lemma SubmissionKeepsInfos(db: Db, codec: Codec, c: Command, ids: Ids, now: Instant)
    requires Sound(db)
    ensures InfosStay(db.txs, ExecuteStep(db, codec, c, ids, now).0.txs)
  {
    PlanKeepsInfos(db, ExecutePlan(db, codec, c, ids, now));
  }

  lemma DeliveryKeepsInfos(db: Db, codec: Codec, ch: Channel, m: Message, ids: Ids, now: Instant)
    requires Sound(db)
    ensures InfosStay(db.txs, HandleStep(db, codec, ch, m, ids, now).0.txs)
  {
    if ParseEnvelope(ch, m).Ok? && Key(ch, m) !in db.inbox {
      var recorded := Record(db, Key(ch, m), PayloadHash(codec, m.data.value));
      PlanKeepsInfos(recorded, ExecutePlan(recorded, codec, m.data.value, ids, now));
    }
  }

  lemma RoundKeepsInfos(db: Db, policy: Policy, ids: Ids, now: Instant)
    requires Sound(db)
    ensures InfosStay(db.txs, WorkerStep(db, policy, ids, now).0.txs)
  {
    if Claimed(db.txs, now).Some? {
      PlanKeepsInfos(db, ResumeOn(db, Claimed(db.txs, now).value, policy, ids, now));
    }
  }

  lemma OpenStepKeepsInfos(
    db: Db, codec: Codec, player: string, amount: string, currency: string, walletId: Id, ids: Ids, now: Instant)
    ensures InfosStay(db.txs, OpenStep(db, codec, player, amount, currency, walletId, ids, now).0.txs)
  {
    var row := OpenRow(codec, player, amount, currency, walletId, now);
    if row.Ok? {
      OpeningKeepsInfos(db, row.value, ids);
    }
  }

  lemma PerformKeepsInfos(setup: Setup, db: Db, op: Op)
    requires Sound(db)
    ensures InfosStay(db.txs, Perform(setup, db, op).txs)
  {
    match op
    case Submission(c, ids, now) => SubmissionKeepsInfos(db, setup.codec, c, ids, now);
    case Delivery(m, ids, now) => DeliveryKeepsInfos(db, setup.codec, setup.channel, m, ids, now);
    case Round(ids, now) => RoundKeepsInfos(db, setup.policy, ids, now);
    case NewWallet(player, amount, currency, walletId, ids, now) =>
      OpenStepKeepsInfos(db, setup.codec, player, amount, currency, walletId, ids, now);
  }

  // ----- the simulation, one operation at a time

  lemma UnitSame(a: Db, b: Db, plan: Plan)
    requires Business(a) == Business(b)
    ensures Business(CommitOrRollback(a, PlanExec(a, plan))) == Business(CommitOrRollback(b, PlanExec(b, plan)))
    ensures CommitOrRollback(a, PlanExec(a, plan)).inbox == a.inbox && CommitOrRollback(b, PlanExec(b, plan)).inbox == b.inbox
  {
    PlanIgnoresInbox(Business(a), a.inbox, plan);
    PlanIgnoresInbox(Business(b), b.inbox, plan);
    assert Business(a).(inbox := a.inbox) == a && Business(b).(inbox := b.inbox) == b;
  }

  lemma DeliverySame(a: Db, b: Db, key: InboxKey, hash: string, plan: Plan)
    requires Business(a) == Business(b)
    ensures var a' := HandleCommit(a, Record(a, key, hash), plan).0;
            var b' := HandleCommit(b, Record(b, key, hash), plan).0;
            && Business(a') == Business(b')
            && ((a' == a && b' == b) || (a'.inbox == a.inbox[key := hash] && b'.inbox == b.inbox[key := hash]))
  {
    var a1, b1 := Record(a, key, hash), Record(b, key, hash);
    PlanIgnoresInbox(Business(a), a1.inbox, plan);
    PlanIgnoresInbox(Business(b), b1.inbox, plan);
    assert Business(a).(inbox := a1.inbox) == a1 && Business(b).(inbox := b1.inbox) == b1;
  }

  // Decisions depend on wallets and transactions only.
  lemma ExecutePlanSame(a: Db, b: Db, codec: Codec, c: Command, ids: Ids, now: Instant)
    requires Sound(a) && Sound(b) && a.txs == b.txs && a.wallets == b.wallets
    ensures ExecutePlan(a, codec, c, ids, now) == ExecutePlan(b, codec, c, ids, now)
  {
  }

  lemma DeliveriesSame(setup: Setup, a: Db, b: Db, m: Message, ids: Ids, now: Instant)
    requires Alongside(a, b) && !Masked(setup, a, b, Delivery(m, ids, now))
    requires ParseEnvelope(setup.channel, m).Ok? && !Known(a.txs, m.data.value)
    ensures var key, hash := Key(setup.channel, m), PayloadHash(setup.codec, m.data.value);
            var a' := HandleStep(a, setup.codec, setup.channel, m, ids, now).0;
            var b' := HandleStep(b, setup.codec, setup.channel, m, ids, now).0;
            Business(a') == Business(b') && InboxesMatch(a, b, a', b', key, hash)
  {
    var key, hash := Key(setup.channel, m), PayloadHash(setup.codec, m.data.value);
    if key !in a.inbox {
      SameTables(a, b);
      var recorded := Record(a, key, hash);
      ExecutePlanSame(recorded, Record(b, key, hash), setup.codec, m.data.value, ids, now);
      DeliverySame(a, b, key, hash, ExecutePlan(recorded, setup.codec, m.data.value, ids, now));
    }
  }

  lemma SameTables(a: Db, b: Db)
    requires Business(a) == Business(b)
    ensures a.txs == b.txs && a.wallets == b.wallets && a.ledger == b.ledger && a.outbox == b.outbox
  {
  }

  // Both inboxes stay, or both gain the same row.
  predicate InboxesMatch(a: Db, b: Db, a': Db, b': Db, key: InboxKey, hash: string) {
    || (a'.inbox == a.inbox && b'.inbox == b.inbox)
    || (a'.inbox == a.inbox[key := hash] && b'.inbox == b.inbox[key := hash])
  }

  lemma SubmissionSame(a: Db, b: Db, codec: Codec, c: Command, ids: Ids, now: Instant)
    requires Sound(a) && Sound(b) && Business(a) == Business(b)
    ensures var a', b' := ExecuteStep(a, codec, c, ids, now).0, ExecuteStep(b, codec, c, ids, now).0;
            Business(a') == Business(b') && a'.inbox == a.inbox && b'.inbox == b.inbox
  {
    SameTables(a, b);
    ExecutePlanSame(a, b, codec, c, ids, now);
    UnitSame(a, b, ExecutePlan(a, codec, c, ids, now));
  }

  lemma RoundSame(a: Db, b: Db, policy: Policy, ids: Ids, now: Instant)
    requires Sound(a) && Sound(b) && Business(a) == Business(b)
    ensures var a', b' := WorkerStep(a, policy, ids, now).0, WorkerStep(b, policy, ids, now).0;
            Business(a') == Business(b') && a'.inbox == a.inbox && b'.inbox == b.inbox
  {
    SameTables(a, b);
    if Claimed(a.txs, now).Some? {
      var p := Claimed(a.txs, now).value;
      assert ResumeOn(a, p, policy, ids, now) == ResumeOn(b, p, policy, ids, now);
      UnitSame(a, b, ResumeOn(a, p, policy, ids, now));
    }
  }

  lemma OpeningSame(a: Db, b: Db, w: WalletRow, ids: Ids)
    requires Business(a) == Business(b)
    ensures var a', b' := CommitOrRollback(a, OpenExec(a, w, ids)), CommitOrRollback(b, OpenExec(b, w, ids));
            Business(a') == Business(b') && a'.inbox == a.inbox && b'.inbox == b.inbox
  {
    OpeningIgnoresInbox(Business(a), a.inbox, w, ids);
    OpeningIgnoresInbox(Business(b), b.inbox, w, ids);
    assert Business(a).(inbox := a.inbox) == a && Business(b).(inbox := b.inbox) == b;
  }

  lemma PerformAlike(setup: Setup, a: Db, b: Db, op: Op)
    requires Alongside(a, b) && !Repeats(setup, a, op) && !Masked(setup, a, b, op)
    ensures Business(Perform(setup, a, op)) == Business(Perform(setup, b, op))
    ensures exists key: InboxKey, hash: string :: InboxesMatch(a, b, Perform(setup, a, op), Perform(setup, b, op), key, hash)
  {
    var a', b', any := Perform(setup, a, op), Perform(setup, b, op), ("", "");
    match op
    case Submission(c, ids, now) =>
      SubmissionSame(a, b, setup.codec, c, ids, now);
      assert InboxesMatch(a, b, a', b', any, "");
    case Delivery(m, ids, now) =>
      if ParseEnvelope(setup.channel, m).Ok? {
        DeliveriesSame(setup, a, b, m, ids, now);
        assert InboxesMatch(a, b, a', b', Key(setup.channel, m), PayloadHash(setup.codec, m.data.value));
      } else {
        assert InboxesMatch(a, b, a', b', any, "");
      }
    case Round(ids, now) =>
      RoundSame(a, b, setup.policy, ids, now);
      assert InboxesMatch(a, b, a', b', any, "");
    case NewWallet(player, amount, currency, walletId, ids, now) =>
      var row := OpenRow(setup.codec, player, amount, currency, walletId, now);
      if row.Ok? {
        OpeningSame(a, b, row.value, ids);
      }
      assert InboxesMatch(a, b, a', b', any, "");
  }

  lemma PerformSame(setup: Setup, a: Db, b: Db, op: Op)
    requires Simulates(setup, a, b) && Conforms(setup, op) && !Repeats(setup, a, op)
    ensures Simulates(setup, Perform(setup, a, op), Perform(setup, b, op))
  {
    PerformAlike(setup, a, b, op);
    PerformKeepsInfos(setup, a, op);
    var a', b' := Perform(setup, a, op), Perform(setup, b, op);
    forall k | k in a'.inbox ensures k in b'.inbox || Known(a'.txs, setup.content(k)) {
      if k in a.inbox && k !in b.inbox {
        KnownStays(a.txs, a'.txs, setup.content(k));
      }
    }
  }

  lemma RepeatSame(setup: Setup, a: Db, b: Db, op: Op)
    requires Simulates(setup, a, b) && Conforms(setup, op) && Repeats(setup, a, op)
    ensures Simulates(setup, Perform(setup, a, op), b)
  {
    RepeatAlongside(setup, a, b, op);
  }

  // A repeat adds at most its own inbox row to the full run.
  lemma RepeatAlongside(setup: Setup, a: Db, b: Db, op: Op)
    requires Alongside(a, b) && Repeats(setup, a, op)
    ensures Alongside(Perform(setup, a, op), b) && Perform(setup, a, op).txs == a.txs
    ensures Perform(setup, a, op).inbox == a.inbox
            || (op.Delivery? && ParseEnvelope(setup.channel, op.m).Ok?
                && Perform(setup, a, op).inbox == a.inbox[Key(setup.channel, op.m) := PayloadHash(setup.codec, op.m.data.value)])
  {
    match op
    case Submission(c, ids, now) => ResubmissionChangesNothing(a, setup.codec, setup.channel, c, Malformed, ids, now);
    case Delivery(m, ids, now) => RepeatedDelivery(a, setup.codec, setup.channel, m, ids, now);
  }

  lemma IdleCommit(db: Db, recorded: Db, plan: Plan)
    requires !plan.Write?
    ensures HandleCommit(db, recorded, plan).0 == db || HandleCommit(db, recorded, plan).0 == recorded
  {
  }

  lemma RepeatedDelivery(db: Db, codec: Codec, ch: Channel, m: Message, ids: Ids, now: Instant)
    requires Sound(db) && ParseEnvelope(ch, m).Ok? && Known(db.txs, m.data.value)
    ensures var db' := HandleStep(db, codec, ch, m, ids, now).0;
            db' == db || db' == Record(db, Key(ch, m), PayloadHash(codec, m.data.value))
  {
    var recorded := Record(db, Key(ch, m), PayloadHash(codec, m.data.value));
    KnownNeverWrites(recorded, codec, m.data.value, ids, now);
    IdleCommit(db, recorded, ExecutePlan(recorded, codec, m.data.value, ids, now));
  }

  lemma {:induction false} PrunedRunSimulates(setup: Setup, a: Db, b: Db, ops: seq<Op>)
    requires Simulates(setup, a, b) && forall i | 0 <= i < |ops| :: Conforms(setup, ops[i])
    ensures Simulates(setup, Play(setup, a, ops), Play(setup, b, Pruned(setup, a, ops)))
    decreases |ops|
  {
    if ops != [] {
      var a' := Perform(setup, a, ops[0]);
      if Repeats(setup, a, ops[0]) {
        RepeatSame(setup, a, b, ops[0]);
        PrunedRunSimulates(setup, a', b, ops[1..]);
        assert Pruned(setup, a, ops) == Pruned(setup, a', ops[1..]);
      } else {
        PerformSame(setup, a, b, ops[0]);
        PrunedRunSimulates(setup, a', Perform(setup, b, ops[0]), ops[1..]);
        assert Pruned(setup, a, ops) == [ops[0]] + Pruned(setup, a', ops[1..]);
      }
    }
  }

  // A run equals the same run without the submissions that were already on record, for both
  // channels, provided a delivery id always stands for the same content.
  lemma RunWithoutRepeats(setup: Setup, db: Db, ops: seq<Op>)
    requires Sound(db) && forall i | 0 <= i < |ops| :: Conforms(setup, ops[i])
    ensures Business(Play(setup, db, ops)) == Business(Play(setup, db, Pruned(setup, db, ops)))
  {
    PrunedRunSimulates(setup, db, db, ops);
  }

  // ----- the exact condition

  // The full run refuses or ignores a masked delivery; the pruned one handles it.
  lemma MaskedStep(setup: Setup, a: Db, b: Db, op: Op)
    requires Alongside(a, b) && Masked(setup, a, b, op)
    ensures Perform(setup, a, op) == a
    ensures forall k | k in Perform(setup, b, op).inbox :: k in a.inbox
  {
    var key, hash := Key(setup.channel, op.m), PayloadHash(setup.codec, op.m.data.value);
    DeliverySame(b, b, key, hash, ExecutePlan(Record(b, key, hash), setup.codec, op.m.data.value, op.ids, op.now));
  }

  ghost function PrunedPerform(setup: Setup, a: Db, b: Db, op: Op): Db
    requires Sound(b)
  {
    if Repeats(setup, a, op) then b else Perform(setup, b, op)
  }

  // One operation keeps both runs alike exactly when, if it is masked, handling it changes nothing.
  lemma StepAlongside(setup: Setup, a: Db, b: Db, op: Op)
    requires Alongside(a, b)
    ensures var a', b' := Perform(setup, a, op), PrunedPerform(setup, a, b, op);
            && (Business(a') == Business(b') <==> (Masked(setup, a, b, op) ==> Business(Perform(setup, b, op)) == Business(b)))
            && (Business(a') == Business(b') ==> Alongside(a', b'))
  {
    if Repeats(setup, a, op) {
      RepeatAlongside(setup, a, b, op);
    } else if Masked(setup, a, b, op) {
      MaskedStep(setup, a, b, op);
    } else {
      PerformAlike(setup, a, b, op);
    }
  }

  lemma {:induction false} PlayConcat(setup: Setup, db: Db, xs: seq<Op>, ys: seq<Op>)
    requires Sound(db)
    ensures Play(setup, db, xs + ys) == Play(setup, Play(setup, db, xs), ys)
    decreases |xs|
  {
    if xs == [] {
      assert xs + ys == ys;
    } else {
      assert (xs + ys)[1..] == xs[1..] + ys;
      PlayConcat(setup, Perform(setup, db, xs[0]), xs[1..], ys);
    }
  }

  lemma {:induction false} PrunedConcat(setup: Setup, db: Db, xs: seq<Op>, ys: seq<Op>)
    requires Sound(db)
    ensures Pruned(setup, db, xs + ys) == Pruned(setup, db, xs) + Pruned(setup, Play(setup, db, xs), ys)
    decreases |xs|
  {
    if xs == [] {
      assert xs + ys == ys;
    } else {
      var next := Perform(setup, db, xs[0]);
      assert (xs + ys)[1..] == xs[1..] + ys && (xs + ys)[0] == xs[0];
      PrunedConcat(setup, next, xs[1..], ys);
      Regroup(Kept(setup, db, xs[0]), Pruned(setup, next, xs[1..]), Pruned(setup, Play(setup, next, xs[1..]), ys));
    }
  }

  lemma Regroup(a: seq<Op>, b: seq<Op>, c: seq<Op>)
    ensures a + (b + c) == (a + b) + c
  {
  }

  lemma PlayOne(setup: Setup, db: Db, op: Op)
    requires Sound(db)
    ensures Play(setup, db, [op]) == Perform(setup, db, op)
    ensures Pruned(setup, db, [op]) == if Repeats(setup, db, op) then [] else [op]
  {
    assert [op][1..] == [];
    assert Pruned(setup, Perform(setup, db, op), []) == [];
  }

  // Both runs after the first k operations.
  ghost function FullAt(setup: Setup, db: Db, ops: seq<Op>, k: nat): (after: Db)
    requires Sound(db) && k <= |ops|
    ensures Sound(after)
  {
    Play(setup, db, ops[..k])
  }

  ghost function PrunedAt(setup: Setup, db: Db, ops: seq<Op>, k: nat): (after: Db)
    requires Sound(db) && k <= |ops|
    ensures Sound(after)
  {
    Play(setup, db, Pruned(setup, db, ops[..k]))
  }

  lemma NextOp(setup: Setup, db: Db, ops: seq<Op>, k: nat)
    requires Sound(db) && k < |ops|
    ensures FullAt(setup, db, ops, k + 1) == Perform(setup, FullAt(setup, db, ops, k), ops[k])
    ensures PrunedAt(setup, db, ops, k + 1) == PrunedPerform(setup, FullAt(setup, db, ops, k), PrunedAt(setup, db, ops, k), ops[k])
  {
    var op, pruned := ops[k], Pruned(setup, db, ops[..k]);
    assert ops[..k + 1] == ops[..k] + [op];
    PlayConcat(setup, db, ops[..k], [op]);
    PrunedConcat(setup, db, ops[..k], [op]);
    PlayOne(setup, FullAt(setup, db, ops, k), op);
    if Repeats(setup, FullAt(setup, db, ops, k), op) {
      assert pruned + [] == pruned;
    } else {
      PlayConcat(setup, db, pruned, [op]);
      PlayOne(setup, PrunedAt(setup, db, ops, k), op);
    }
  }

  ghost predicate AlikeAt(setup: Setup, db: Db, ops: seq<Op>, k: nat)
    requires Sound(db) && k <= |ops|
  {
    Business(FullAt(setup, db, ops, k)) == Business(PrunedAt(setup, db, ops, k))
  }

  // If the k-th operation is masked, the pruned run finds nothing in it to apply.
  ghost predicate HarmlessAt(setup: Setup, db: Db, ops: seq<Op>, k: nat)
    requires Sound(db) && k < |ops|
  {
    Masked(setup, FullAt(setup, db, ops, k), PrunedAt(setup, db, ops, k), ops[k]) ==>
      Business(Perform(setup, PrunedAt(setup, db, ops, k), ops[k])) == Business(PrunedAt(setup, db, ops, k))
  }

  // At every point up to the n-th.
  ghost predicate AlikeTo(setup: Setup, db: Db, ops: seq<Op>, n: nat)
    requires Sound(db) && n <= |ops|
  {
    AlikeAt(setup, db, ops, n) && (n > 0 ==> AlikeTo(setup, db, ops, n - 1))
  }

  ghost predicate HarmlessTo(setup: Setup, db: Db, ops: seq<Op>, n: nat)
    requires Sound(db) && n <= |ops|
  {
    n > 0 ==> HarmlessAt(setup, db, ops, n - 1) && HarmlessTo(setup, db, ops, n - 1)
  }

  lemma NextAlike(setup: Setup, db: Db, ops: seq<Op>, k: nat)
    requires Sound(db) && k < |ops| && Alongside(FullAt(setup, db, ops, k), PrunedAt(setup, db, ops, k))
    ensures AlikeAt(setup, db, ops, k + 1) <==> HarmlessAt(setup, db, ops, k)
    ensures AlikeAt(setup, db, ops, k + 1) ==> Alongside(FullAt(setup, db, ops, k + 1), PrunedAt(setup, db, ops, k + 1))
  {
    NextOp(setup, db, ops, k);
    StepAlongside(setup, FullAt(setup, db, ops, k), PrunedAt(setup, db, ops, k), ops[k]);
  }

  lemma BothStart(setup: Setup, db: Db, ops: seq<Op>)
    requires Sound(db)
    ensures FullAt(setup, db, ops, 0) == db && PrunedAt(setup, db, ops, 0) == db && Alongside(db, db)
  {
    assert ops[..0] == [] && Pruned(setup, db, []) == [];
  }

  lemma {:induction false} AlikeIsHarmless(setup: Setup, db: Db, ops: seq<Op>, n: nat)
    requires Sound(db) && n <= |ops| && AlikeTo(setup, db, ops, n)
    ensures HarmlessTo(setup, db, ops, n) && Alongside(FullAt(setup, db, ops, n), PrunedAt(setup, db, ops, n))
  {
    if n == 0 {
      BothStart(setup, db, ops);
    } else {
      AlikeIsHarmless(setup, db, ops, n - 1);
      NextAlike(setup, db, ops, n - 1);
    }
  }

  lemma {:induction false} HarmlessIsAlike(setup: Setup, db: Db, ops: seq<Op>, n: nat)
    requires Sound(db) && n <= |ops| && HarmlessTo(setup, db, ops, n)
    ensures AlikeTo(setup, db, ops, n) && Alongside(FullAt(setup, db, ops, n), PrunedAt(setup, db, ops, n))
  {
    if n == 0 {
      BothStart(setup, db, ops);
    } else {
      HarmlessIsAlike(setup, db, ops, n - 1);
      NextAlike(setup, db, ops, n - 1);
    }
  }

  // A run equals the run without resubmissions, at every point of it, exactly when no delivery
  // reuses the id of a dropped resubmission for a new operation that the pruned run would apply.
  lemma RunWithoutRepeatsExactly(setup: Setup, db: Db, ops: seq<Op>)
    requires Sound(db)
    ensures AlikeTo(setup, db, ops, |ops|) <==> HarmlessTo(setup, db, ops, |ops|)
  {
    if AlikeTo(setup, db, ops, |ops|) {
      AlikeIsHarmless(setup, db, ops, |ops|);
    }
    if HarmlessTo(setup, db, ops, |ops|) {
      HarmlessIsAlike(setup, db, ops, |ops|);
    }
  }

  lemma NewDeliveryApplies(b: Db, key: InboxKey, hash: string, plan: Plan, req: Request, ids: Ids, now: Instant)
    requires Sound(b) && FreshIds(b, ids) && plan == RequestPlan(Record(b, key, hash), req, ids, now) && plan.Write?
    ensures plan.delta.tx.info == InfoFor(req, ids.tx, now)
    ensures Business(HandleCommit(b, Record(b, key, hash), plan).0) != Business(b) <==>
            b.wallets[req.walletId].currency == req.amount.currency
  {
    FreshRun(Record(b, key, hash), req, ids, now);
    if b.wallets[req.walletId].currency == req.amount.currency {
      FreshCommit(b, Record(b, key, hash), plan);
    }
  }

  lemma FreshCommit(b: Db, recorded: Db, plan: Plan)
    requires plan.Write? && RunDelta(recorded, plan.delta).error.None? && plan.delta.tx.info.id !in b.txs
    requires plan.delta.tx.info.id in RunDelta(recorded, plan.delta).db.txs
    ensures Business(HandleCommit(b, recorded, plan).0) != Business(b)
  {
    RunErrorsExplainFailure(recorded, plan);
    assert plan.delta.tx.info.id in Business(HandleCommit(b, recorded, plan).0).txs;
  }

  // Under fresh identifiers a masked delivery is applied exactly when its command is one the
  // pruned run decides to write, in its wallet's currency.
  lemma MaskedIsApplied(setup: Setup, a: Db, b: Db, op: Op)
    requires Alongside(a, b) && Masked(setup, a, b, op) && FreshIds(b, op.ids)
    ensures var plan := ExecutePlan(b, setup.codec, op.m.data.value, op.ids, op.now);
            Business(Perform(setup, b, op)) != Business(b) <==>
            plan.Write? && plan.delta.tx.info.walletId in b.wallets
            && b.wallets[plan.delta.tx.info.walletId].currency == plan.delta.tx.info.amount.currency
  {
    var c := op.m.data.value;
    var key, hash := Key(setup.channel, op.m), PayloadHash(setup.codec, c);
    ExecutePlanSame(Record(b, key, hash), b, setup.codec, c, op.ids, op.now);
    var plan := ExecutePlan(Record(b, key, hash), setup.codec, c, op.ids, op.now);
    assert Perform(setup, b, op) == HandleCommit(b, Record(b, key, hash), plan).0;
    if plan.Write? {
      NewDeliveryApplies(b, key, hash, plan, Parse(setup.codec, c).value, op.ids, op.now);
    }
  }

  lemma TwoOps(setup: Setup, db: Db, x: Op, y: Op)
    requires Sound(db)
    ensures Play(setup, db, [x, y]) == Perform(setup, Perform(setup, db, x), y)
    ensures Repeats(setup, db, x) && !Repeats(setup, Perform(setup, db, x), y) ==> Pruned(setup, db, [x, y]) == [y]
  {
    assert [x, y] == [x] + [y];
    PlayConcat(setup, db, [x], [y]);
    PrunedConcat(setup, db, [x], [y]);
    PlayOne(setup, db, x);
    PlayOne(setup, Perform(setup, db, x), y);
  }

  // Without that proviso it fails: the inbox row a recorded operation leaves makes a later
  // delivery under the same id, with other content, a mismatch that is never applied.
  lemma ReusedDeliveryId(setup: Setup, db: Db, known: Message, other: Message, ids: Ids, now: Instant)
    requires Sound(db)
    requires ParseEnvelope(setup.channel, known).Ok? && ParseEnvelope(setup.channel, other).Ok?
    requires Key(setup.channel, known) == Key(setup.channel, other) && Key(setup.channel, known) !in db.inbox
    requires Known(db.txs, known.data.value) && !Known(db.txs, other.data.value)
    requires HandleStep(db, setup.codec, setup.channel, known, ids, now).0 != db
    requires Business(HandleStep(db, setup.codec, setup.channel, other, ids, now).0) != Business(db)
    ensures var ops := [Delivery(known, ids, now), Delivery(other, ids, now)];
            Business(Play(setup, db, ops)) != Business(Play(setup, db, Pruned(setup, db, ops)))
  {
    var first, second := Delivery(known, ids, now), Delivery(other, ids, now);
    RepeatedDelivery(db, setup.codec, setup.channel, known, ids, now);
    var recorded := Perform(setup, db, first);
    assert recorded == Record(db, Key(setup.channel, known), PayloadHash(setup.codec, known.data.value));
    assert Perform(setup, recorded, second) == recorded && Business(recorded) == Business(db);
    TwoOps(setup, db, first, second);
    PlayOne(setup, db, second);
  }
}
