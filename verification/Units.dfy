// One unit of work per use case: begin, run, then commit or roll back. The functions give the
// committed tables after a unit; the methods compute them statement by statement.
module Units {
  import opened Base
  import opened Wagering
  import opened Wallets
  import opened Store
  import opened Process
  import opened Resolve
  import MoneyText

  // ----- units as functions of the committed tables

  // The unit returned an error or a statement was refused: nothing is kept.
  function CommitOrRollback(db: Db, run: Exec): Db {
    if run.error.Some? || run.failed then db else run.db
  }

  function PlanExec(db: Db, plan: Plan): Exec {
    match plan
    case Refuse(e) => Exec(db, Some(e), false)
    case Reply(_) => Exec(db, None, false)
    case Write(d, _) => RunDelta(db, d)
  }

  function PlanReply(db: Db, plan: Plan): Result<TxResult> {
    var run := PlanExec(db, plan);
    if run.error.Some? then Err(run.error.value)
    else match plan case Refuse(e) => Err(e) case Reply(x) => Ok(x) case Write(_, x) => Ok(x)
  }

  // A submission over HTTP.
  ghost function ExecuteStep(db: Db, codec: Codec, c: Command, ids: Ids, now: Instant): (Db, Result<TxResult>)
    requires Sound(db)
  {
    var plan := ExecutePlan(db, codec, c, ids, now);
    (CommitOrRollback(db, PlanExec(db, plan)), PlanReply(db, plan))
  }

  // A message as the queue hands it over; `data` is absent when it is empty or unreadable.
  datatype Message = Malformed | Envelope(messageId: string, isWagerRequest: bool, data: Option<Command>)

  datatype Channel = Channel(consumer: string, allowed: set<string>)

  function ParseEnvelope(ch: Channel, m: Message): (r: Result<Command>)
    ensures r.Ok? ==> m.Envelope?
  {
    if m.Malformed? || m.messageId == "" || !m.isWagerRequest || m.data.None? then Err(InvalidEnvelope)
    else if m.data.value.provider !in ch.allowed || m.data.value.provider == "" then Err(UnauthorizedProvider)
    else Ok(m.data.value)
  }

  function Key(ch: Channel, m: Message): InboxKey
    requires m.Envelope?
  {
    (ch.consumer, m.messageId)
  }

  function Record(db: Db, key: InboxKey, hash: string): Db {
    db.(inbox := db.inbox[key := hash])
  }

  // A permanent error is swallowed so that the inbox row survives; if a statement was refused
  // the commit itself fails and nothing survives.
  function HandleCommit(db: Db, recorded: Db, plan: Plan): (Db, Result<Option<TxResult>>) {
    var run := PlanExec(recorded, plan);
    if run.error.Some? && !IsDomainError(run.error.value) then (db, Err(run.error.value))
    else if run.failed then (db, Err(CommitFailed))
    else (run.db, Ok(if PlanReply(recorded, plan).Ok? then Some(PlanReply(recorded, plan).value) else None))
  }

  // A delivery: inbox row and effect in one unit.
  ghost function HandleStep(db: Db, codec: Codec, ch: Channel, m: Message, ids: Ids, now: Instant): (Db, Result<Option<TxResult>>)
    requires Sound(db)
  {
    match ParseEnvelope(ch, m)
    case Err(e) => (db, Err(e))
    case Ok(c) =>
      var key, hash := Key(ch, m), PayloadHash(codec, c);
      if key in db.inbox then (db, if db.inbox[key] != hash then Err(InboxPayloadMismatch) else Ok(None))
      else
        var recorded := Record(db, key, hash);
        HandleCommit(db, recorded, ExecutePlan(recorded, codec, c, ids, now))
  }

  lemma NewDelivery(db: Db, codec: Codec, ch: Channel, m: Message, req: Request, ids: Ids, now: Instant)
    requires Sound(db) && ParseEnvelope(ch, m).Ok? && Key(ch, m) !in db.inbox && Parse(codec, m.data.value) == Ok(req)
    ensures var recorded := Record(db, Key(ch, m), PayloadHash(codec, m.data.value));
            HandleStep(db, codec, ch, m, ids, now) == HandleCommit(db, recorded, RequestPlan(recorded, req, ids, now))
  {
  }

  // One round of the worker: claim a due row, if any, and resume it.
  ghost function WorkerStep(db: Db, policy: Policy, ids: Ids, now: Instant): (Db, Result<Option<TxResult>>)
    requires Sound(db)
  {
    match Claimed(db.txs, now)
    case None => (db, Ok(None))
    case Some(p) =>
      var plan := ResumeOn(db, p, policy, ids, now);
      (CommitOrRollback(db, PlanExec(db, plan)),
       if PlanReply(db, plan).Ok? then Ok(Some(PlanReply(db, plan).value)) else Err(PlanReply(db, plan).error))
  }

  datatype OpeningWrites = OpeningWrites(wallet: WalletRow, tx: Tx, entry: Result<Entry>, events: seq<Event>)

  function RunOpening(db: Db, o: OpeningWrites): Exec {
    match InsertTx(db, o.tx)
    case Err(e) => Exec(db, Some(e), true)
    case Ok(next) =>
      match o.entry
      case Err(e) => Exec(next, Some(e), false)
      case Ok(entry) =>
        match InsertEntry(next, entry)
        case Err(e) => Exec(next, Some(e), true)
        case Ok(last) => RunEvents(last, o.events)
  }

  // What opening with a positive balance records besides the wallet row.
  function OpeningOf(w: WalletRow, ids: Ids): Result<OpeningWrites> {
    var t :- NewProcessedOpening(ids.tx, w.id, w.playerId, w.Balance(), Outcome(w.Balance(), w.version), w.createdAt);
    var settled := Settlement(Credit, OpeningMovement(w));
    Ok(OpeningWrites(w, t, EntryFor(ids, w, t, settled, w.createdAt), ProcessedEvents(t, Some(settled), ids, w.createdAt)))
  }

  function OpenExec(db: Db, w: WalletRow, ids: Ids): Exec {
    match InsertWallet(db, w)
    case Err(e) => Exec(db, Some(WalletAlreadyExists), true)
    case Ok(next) =>
      if w.balance == 0 then Exec(next, None, false)
      else
        match OpeningOf(w, ids)
        case Err(e) => Exec(next, Some(e), false)
        case Ok(o) => RunOpening(next, o)
  }

  function OpenRow(codec: Codec, player: string, amount: string, currency: string, walletId: Id, now: Instant): Result<WalletRow> {
    var playerId :- ParseId(codec, player);
    var initial :- MoneyText.ParseMoney(amount, currency);
    if initial.minor < 0 then Err(InvalidInput) else Open(walletId, playerId, initial, now)
  }

  function OpenStep(
    db: Db, codec: Codec, player: string, amount: string, currency: string, walletId: Id, ids: Ids, now: Instant)
    : (Db, Result<WalletRow>)
  {
    match OpenRow(codec, player, amount, currency, walletId, now)
    case Err(e) => (db, Err(e))
    case Ok(w) =>
      var run := OpenExec(db, w, ids);
      (CommitOrRollback(db, run), if run.error.Some? then Err(run.error.value) else Ok(w))
  }

  // ----- statements keep the schema's constraints, so every unit starts from sound tables

  lemma {:induction false} RunEventsKeepsSound(db: Db, events: seq<Event>)
    requires Sound(db)
    ensures Sound(RunEvents(db, events).db)
    decreases |events|
  {
    if events != [] && events[0].id != 0 && InsertEvent(db, events[0]).Ok? {
      EventInsertKeepsSound(db, events[0]);
      RunEventsKeepsSound(InsertEvent(db, events[0]).value, events[1..]);
    }
  }

  lemma RunDeltaKeepsSound(db: Db, d: Delta)
    requires Sound(db)
    ensures Sound(RunDelta(db, d).db)
  {
    TxStatementsKeepSound(db, d.tx);
    var first := if d.create then InsertTx(db, d.tx) else UpdateTx(db, d.tx);
    if first.Ok? {
      if d.move.None? {
        RunEventsKeepsSound(first.value, d.events);
      } else {
        RunMoveKeepsSound(first.value, d.move.value);
        RunEventsKeepsSound(RunMove(first.value, d.move.value).db, d.events);
      }
    }
  }

  lemma RunMoveKeepsSound(db: Db, m: Move)
    requires Sound(db)
    ensures Sound(RunMove(db, m).db)
  {
    if m.entry.Ok? && InsertEntry(db, m.entry.value).Ok? {
      EntryInsertKeepsSound(db, m.entry.value);
      WalletUpdateKeepsSound(InsertEntry(db, m.entry.value).value, m.wallet);
    }
  }

  lemma PlanKeepsSound(db: Db, plan: Plan)
    requires Sound(db)
    ensures Sound(PlanExec(db, plan).db)
  {
    if plan.Write? {
      RunDeltaKeepsSound(db, plan.delta);
    }
  }

  lemma RunOpeningKeepsSound(db: Db, o: OpeningWrites)
    requires Sound(db)
    ensures Sound(RunOpening(db, o).db)
  {
    TxStatementsKeepSound(db, o.tx);
    if InsertTx(db, o.tx).Ok? && o.entry.Ok? {
      var next := InsertTx(db, o.tx).value;
      EntryInsertKeepsSound(next, o.entry.value);
      if InsertEntry(next, o.entry.value).Ok? {
        RunEventsKeepsSound(InsertEntry(next, o.entry.value).value, o.events);
      }
    }
  }

  lemma OpenKeepsSound(db: Db, w: WalletRow, ids: Ids)
    requires Sound(db)
    ensures Sound(OpenExec(db, w, ids).db)
  {
    WalletInsertKeepsSound(db, w);
    if InsertWallet(db, w).Ok? && OpeningOf(w, ids).Ok? {
      RunOpeningKeepsSound(InsertWallet(db, w).value, OpeningOf(w, ids).value);
    }
  }

  // ----- the database and the use cases

  class Database {
    var committed: Db

    ghost predicate Valid()
      reads this
    {
      Sound(committed)
    }

    constructor ()
      ensures Valid() && committed == EMPTY_DB
    {
      committed := EMPTY_DB;
    }

    method Begin() returns (s: Session)
      ensures fresh(s) && s.db == committed && !s.failed
    {
      s := new Session(committed);
    }

    // COMMIT of an aborted transaction fails and rolls back.
    method Commit(s: Session) returns (ok: bool)
      modifies this
      ensures ok == !s.failed && committed == if s.failed then old(committed) else s.db
    {
      if s.failed {
        return false;
      }
      committed := s.db;
      ok := true;
    }

    method Execute(codec: Codec, c: Command, ids: Ids, now: Instant) returns (r: Result<TxResult>)
      requires Valid()
      modifies this
      ensures Valid() && (committed, r) == ExecuteStep(old(committed), codec, c, ids, now)
    {
      ghost var plan := ExecutePlan(committed, codec, c, ids, now);
      PlanKeepsSound(committed, plan);
      RunErrorsExplainFailure(committed, plan);
      var s := Begin();
      r := ExecuteIn(s, codec, c, ids, now);
      if r.Err? {
        return;
      }
      var ok := Commit(s);
    }

    method Handle(codec: Codec, ch: Channel, m: Message, ids: Ids, now: Instant) returns (r: Result<Option<TxResult>>)
      requires Valid()
      modifies this
      ensures Valid() && (committed, r) == HandleStep(old(committed), codec, ch, m, ids, now)
    {
      var parsed := ParseEnvelope(ch, m);
      if parsed.Err? {
        return Err(parsed.error);
      }
      var c := parsed.value;
      var key, hash := Key(ch, m), PayloadHash(codec, c);
      var s := Begin();
      if key in s.db.inbox {
        if s.db.inbox[key] != hash {
          return Err(InboxPayloadMismatch);
        }
        return Ok(None);
      }
      s.db := Record(s.db, key, hash);
      ghost var recorded := s.db;
      ghost var plan := ExecutePlan(recorded, codec, c, ids, now);
      PlanKeepsSound(recorded, plan);
      RunErrorsExplainFailure(recorded, plan);
      var done := ExecuteIn(s, codec, c, ids, now);
      if done.Err? && !IsDomainError(done.error) {
        return Err(done.error);
      }
      var ok := Commit(s);
      if !ok {
        return Err(CommitFailed);
      }
      r := Ok(if done.Ok? then Some(done.value) else None);
    }

    method WorkOnce(policy: Policy, ids: Ids, now: Instant) returns (r: Result<Option<TxResult>>)
      requires Valid()
      modifies this
      ensures Valid() && (committed, r) == WorkerStep(old(committed), policy, ids, now)
    {
      var s := Begin();
      var claimed := ClaimPending(s, now);
      if claimed.None? {
        return Ok(None);
      }
      ghost var plan := ResumeOn(committed, claimed.value.State(), policy, ids, now);
      PlanKeepsSound(committed, plan);
      RunErrorsExplainFailure(committed, plan);
      var done := Resume(s, claimed.value, policy, ids, now);
      if done.Err? {
        return Err(done.error);
      }
      var ok := Commit(s);
      r := Ok(Some(done.value));
    }

    method OpenWallet(
      codec: Codec, player: string, amount: string, currency: string, walletId: Id, ids: Ids, now: Instant)
      returns (r: Result<WalletRow>)
      requires Valid()
      modifies this
      ensures Valid()
      ensures (committed, r) == OpenStep(old(committed), codec, player, amount, currency, walletId, ids, now)
    {
      var row := OpenRow(codec, player, amount, currency, walletId, now);
      if row.Err? {
        return Err(row.error);
      }
      var w := row.value;
      OpenKeepsSound(committed, w, ids);
      var s := Begin();
      var e := s.Run(InsertWallet(s.db, w));
      if e.Some? {
        return Err(WalletAlreadyExists);
      }
      if w.balance != 0 {
        e := RecordOpening(s, w, ids);
        if e.Some? {
          return Err(e.value);
        }
      }
      var ok := Commit(s);
      r := Ok(w);
    }
  }

  method RecordOpening(s: Session, w: WalletRow, ids: Ids) returns (e: Option<Error>)
    modifies s
    ensures match OpeningOf(w, ids)
            case Err(x) => e == Some(x) && s.db == old(s.db) && s.failed == old(s.failed)
            case Ok(o) =>
              var run := RunOpening(old(s.db), o);
              e == run.error && s.db == run.db && s.failed == (old(s.failed) || run.failed)
  {
    var opening := NewProcessedOpening(
      ids.tx, w.id, w.playerId, w.Balance(), Outcome(w.Balance(), w.version), w.createdAt);
    if opening.Err? {
      return Some(opening.error);
    }
    var t := opening.value;
    e := s.Run(InsertTx(s.db, t));
    if e.Some? {
      return;
    }
    e := AppendEntry(s, ids.entry, w.id, t.info.id, Credit, OpeningMovement(w), w.createdAt);
    if e.Some? {
      return;
    }
    e := AppendEvents(s, ProcessedEvents(t, Some(Settlement(Credit, OpeningMovement(w))), ids, w.createdAt));
  }

  // A unit stops at its first error, so a refused statement always shows as an error.
  lemma RunErrorsExplainFailure(db: Db, plan: Plan)
    ensures PlanExec(db, plan).failed ==> PlanExec(db, plan).error == Some(PersistenceConflict)
  {
    if plan.Write? {
      var d := plan.delta;
      var first := if d.create then InsertTx(db, d.tx) else UpdateTx(db, d.tx);
      if first.Ok? {
        if d.move.None? {
          EventErrors(first.value, d.events);
        } else {
          EventErrors(RunMove(first.value, d.move.value).db, d.events);
        }
      }
    }
  }

  lemma {:induction false} EventErrors(db: Db, events: seq<Event>)
    ensures RunEvents(db, events).failed ==> RunEvents(db, events).error == Some(PersistenceConflict)
    decreases |events|
  {
    if events != [] && events[0].id != 0 && InsertEvent(db, events[0]).Ok? {
      EventErrors(InsertEvent(db, events[0]).value, events[1..]);
    }
  }

  // ----- the worker's tick

  datatype Tick = Tick(db: Db, processed: nat, error: Option<Error>)

  // Rounds i, i+1, ... of a tick, each with its own clock reading and identifiers.
  ghost function TickFrom(db: Db, policy: Policy, rounds: seq<(Ids, Instant)>, i: nat): Tick
    requires Sound(db) && i <= |rounds|
    decreases |rounds| - i
  {
    if i == |rounds| then Tick(db, i, None)
    else
      StepKeepsSound(db, policy, rounds[i].0, rounds[i].1);
      var (next, r) := WorkerStep(db, policy, rounds[i].0, rounds[i].1);
      if r.Err? then Tick(next, i, Some(r.error))
      else if r.value.None? then Tick(next, i, None)
      else TickFrom(next, policy, rounds, i + 1)
  }

  lemma StepKeepsSound(db: Db, policy: Policy, ids: Ids, now: Instant)
    requires Sound(db)
    ensures Sound(WorkerStep(db, policy, ids, now).0)
  {
    if Claimed(db.txs, now).Some? {
      PlanKeepsSound(db, ResumeOn(db, Claimed(db.txs, now).value, policy, ids, now));
    }
  }

  // At most one claim per round and at most BatchSize rounds; an error or an empty claim stops it.
  method RunTick(d: Database, policy: Policy, rounds: seq<(Ids, Instant)>) returns (processed: nat, error: Option<Error>)
    requires d.Valid() && policy.batchSize >= 1 && |rounds| == policy.batchSize
    modifies d
    ensures d.Valid() && Tick(d.committed, processed, error) == TickFrom(old(d.committed), policy, rounds, 0)
    ensures processed <= policy.batchSize
  {
    processed := 0;
    error := None;
    while processed < policy.batchSize
      invariant processed <= policy.batchSize && error == None && d.Valid()
      invariant TickFrom(d.committed, policy, rounds, processed) == TickFrom(old(d.committed), policy, rounds, 0)
    {
      var r := d.WorkOnce(policy, rounds[processed].0, rounds[processed].1);
      if r.Err? {
        return processed, Some(r.error);
      }
      if r.value.None? {
        return;
      }
      processed := processed + 1;
    }
  }
}
