// Package usecase, process_transaction.go: what one submission does. A plan is the decision the
// use case takes from what it read; running a plan issues its statements one by one.
module Process {
  import opened Base
  import opened MoneyModel
  import opened Wagering
  import opened Wallets
  import opened Store
  import MoneyText

  // ----- commands

  datatype Command = Command(
    key: string, provider: string, externalId: string, playerId: string, walletId: string,
    round: string, game: string, kind: string, amount: string, currency: string, refExternal: string)

  // The ten business fields that enter the payload hash: everything but the idempotency key.
  datatype Fields = Fields(
    provider: string, externalId: string, playerId: string, walletId: string, round: string,
    game: string, kind: string, amount: string, currency: string, refExternal: string)

  function BusinessFields(c: Command): Fields {
    Fields(c.provider, c.externalId, c.playerId, c.walletId, c.round, c.game, c.kind, c.amount, c.currency, c.refExternal)
  }

  // UUID parsing and the digest of the canonical JSON stay abstract.
  datatype Codec = Codec(parseId: string -> Option<Id>, digest: Fields -> string)

  function PayloadHash(codec: Codec, c: Command): string {
    (codec.digest)(BusinessFields(c))
  }

  function ParseId(codec: Codec, raw: string): (r: Result<Id>)
    ensures r.Ok? ==> r.value != 0
  {
    match (codec.parseId)(raw)
    case Some(id) => if id == 0 then Err(InvalidInput) else Ok(id)
    case None => Err(InvalidInput)
  }

  // A command whose every field passed validation.
  datatype Request = Request(cmd: Command, hash: string, kind: Kind, walletId: Id, playerId: Id, amount: Money)

  function Parse(codec: Codec, c: Command): Result<Request> {
    if c.key == "" || c.provider == "" || c.externalId == "" then Err(InvalidInput)
    else
      var kind :- ParseExternalKind(c.kind);
      var walletId :- ParseId(codec, c.walletId);
      var playerId :- ParseId(codec, c.playerId);
      var amount :- MoneyText.ParseMoney(c.amount, c.currency);
      if ValidateAmount(kind, amount).Some? then Err(ValidateAmount(kind, amount).value)
      else if ValidateReference(kind, c.refExternal).Some? then Err(ValidateReference(kind, c.refExternal).value)
      else Ok(Request(c, PayloadHash(codec, c), kind, walletId, playerId, amount))
  }

  // ----- results, plans and their execution

  datatype TxResult = TxResult(
    txId: Id, status: Status, balance: Option<Money>, failure: Option<FailureCode>, replay: bool)

  // Identifiers drawn during one unit of work; zero stands for a failing generator.
  datatype Ids = Ids(tx: Id, entry: Id, txEvent: Id, balanceEvent: Id)

  datatype Move = Move(entry: Result<Entry>, wallet: WalletRow)

  // The writes of one unit: a transaction row, possibly a movement, and the events.
  datatype Delta = Delta(create: bool, tx: Tx, move: Option<Move>, events: seq<Event>)

  datatype Plan =
    | Refuse(error: Error)
    | Reply(result: TxResult)
    | Write(delta: Delta, result: TxResult)

  // Where a unit stands after its statements: the tables it sees, the error that stopped it,
  // and whether a statement was refused.
  datatype Exec = Exec(db: Db, error: Option<Error>, failed: bool)

  function RunEvents(db: Db, events: seq<Event>): Exec
    decreases |events|
  {
    if events == [] then Exec(db, None, false)
    else if events[0].id == 0 then Exec(db, Some(InvalidId), false)
    else
      match InsertEvent(db, events[0])
      case Err(e) => Exec(db, Some(e), true)
      case Ok(next) => RunEvents(next, events[1..])
  }

  function RunMove(db: Db, m: Move): Exec {
    match m.entry
    case Err(e) => Exec(db, Some(e), false)
    case Ok(entry) =>
      match InsertEntry(db, entry)
      case Err(e) => Exec(db, Some(e), true)
      case Ok(next) =>
        match UpdateWallet(next, m.wallet)
        case Err(e) => Exec(next, Some(e), e == PersistenceConflict)
        case Ok(last) => Exec(last, None, false)
  }

  function RunDelta(db: Db, d: Delta): Exec {
    match if d.create then InsertTx(db, d.tx) else UpdateTx(db, d.tx)
    case Err(e) => Exec(db, Some(e), e == PersistenceConflict)
    case Ok(next) =>
      if d.move.None? then RunEvents(next, d.events)
      else
        var moved := RunMove(next, d.move.value);
        if moved.error.Some? then moved else RunEvents(moved.db, d.events)
  }

  // ----- the decision

  function TxEvent(id: Id, eventType: EventType, t: Tx, now: Instant): Event {
    Event(id, eventType, t.info.id, now,
          TxData(t.info.id, t.info.walletId, t.info.playerId, t.info.provider, t.info.externalId,
                 t.info.kind, t.status, t.failure, t.info.amount))
  }

  function BalanceEvent(id: Id, t: Tx, direction: Direction, m: Movement, now: Instant): Event {
    Event(id, BalanceChanged, t.info.walletId, now,
          BalanceData(t.info.walletId, t.info.id, direction, m.amount, m.before, m.after, m.version))
  }

  datatype Settlement = Settlement(direction: Direction, movement: Movement)

  function ProcessedEvents(t: Tx, applied: Option<Settlement>, ids: Ids, now: Instant): seq<Event> {
    [TxEvent(ids.txEvent, TransactionProcessed, t, now)]
    + match applied
      case None => []
      case Some(s) => [BalanceEvent(ids.balanceEvent, t, s.direction, s.movement, now)]
  }

  function EntryFor(ids: Ids, w: WalletRow, t: Tx, s: Settlement, now: Instant): Result<Entry> {
    NewEntry(ids.entry, w.id, t.info.id, s.direction, s.movement.amount, s.movement.before, s.movement.after, now)
  }

  // Settling: the wallet row is the one after the movement, if there was one.
  function SettlePlan(create: bool, t: Tx, w: WalletRow, applied: Option<Settlement>, ids: Ids, now: Instant): Plan {
    match MarkProcessed(t, Outcome(w.Balance(), w.version), now)
    case Err(e) => Refuse(e)
    case Ok(done) =>
      var move := match applied
                  case None => None
                  case Some(s) => Some(Move(EntryFor(ids, w, done, s, now), w));
      Write(Delta(create, done, move, ProcessedEvents(done, applied, ids, now)),
            TxResult(done.info.id, Processed, Some(w.Balance()), None, false))
  }

  function RejectPlan(create: bool, t: Tx, code: FailureCode, ids: Ids, now: Instant): Plan {
    match Reject(t, code, now)
    case Err(e) => Refuse(e)
    case Ok(done) =>
      Write(Delta(create, done, None, [TxEvent(ids.txEvent, TransactionRejected, done, now)]),
            TxResult(done.info.id, Rejected, None, Some(code), false))
  }

  function PendPlan(t: Tx, ids: Ids, now: Instant): Plan {
    match MarkPendingReference(t, now)
    case Err(e) => Refuse(e)
    case Ok(done) =>
      Write(Delta(true, done, None, [TxEvent(ids.txEvent, TransactionPending, done, now)]),
            TxResult(done.info.id, PendingReference, None, None, false))
  }

  function InsufficientFundsCode(k: Kind): FailureCode {
    if IsReversal(k) then ReversalExceedsBalance else InsufficientFunds
  }

  function MovePlan(create: bool, t: Tx, w: WalletRow, direction: Direction, amount: Money, ids: Ids, now: Instant): Plan
    requires w.balance >= 0
  {
    match if direction == Credit then Credited(w, amount, now) else Debited(w, amount, now)
    case Err(e) =>
      if e == InsufficientFundsError then RejectPlan(create, t, InsufficientFundsCode(t.info.kind), ids, now)
      else Refuse(e)
    case Ok((row, m)) => SettlePlan(create, t, row, Some(Settlement(direction, m)), ids, now)
  }

  // REFUND undoes bets only; ROLLBACK undoes any earlier movement except an opening or a rollback.
  predicate EligibleForReversal(reversal: Kind, referenced: Kind) {
    if reversal == Refund then referenced == Bet else referenced == Bet || referenced == Win || referenced == Refund
  }

  function ReversalRejection(
    reference: Tx, kind: Kind, walletId: Id, playerId: Id, round: string, amount: Money): (code: Option<FailureCode>)
    ensures code.None? <==>
            (reference.status == Processed
             && (if kind == Refund then reference.info.kind == Bet else reference.info.kind in {Bet, Win, Refund})
             && reference.info.walletId == walletId && reference.info.playerId == playerId
             && reference.info.round == round && reference.info.amount == amount)
  {
    if reference.status != Processed then Some(ReferenceNotProcessed)
    else if !EligibleForReversal(kind, reference.info.kind) then Some(ReferenceNotProcessed)
    else if reference.info.walletId != walletId || reference.info.playerId != playerId
            || reference.info.round != round || reference.info.amount != amount then Some(ReferenceMismatch)
    else None
  }

  // Undoing a bet credits; undoing a credit debits.
  function ReversalDirection(referenced: Kind): Direction {
    if referenced != Bet then Debit else Credit
  }

  // What a unit read about the reference: the row found under the external id, if any, and
  // whether that row already had a successful reversal (looked up only when it matters).
  datatype View = View(reference: Option<Tx>, reverted: bool)

  ghost function ViewOf(db: Db, provider: string, refExternal: string): View {
    var reference := FindByExternalId(db.txs, provider, refExternal);
    View(reference, reference.Some? && HasSuccessfulReversal(db.txs, reference.value.info.id))
  }

  function ReversalPlan(t: Tx, w: WalletRow, req: Request, view: View, ids: Ids, now: Instant): Plan
    requires w.balance >= 0
  {
    match view.reference
    case None => PendPlan(t, ids, now)
    case Some(reference) =>
      if !IsTerminal(reference.status) then PendPlan(t, ids, now)
      else
        match ReversalRejection(reference, req.kind, req.walletId, req.playerId, req.cmd.round, req.amount)
        case Some(code) => RejectPlan(true, t, code, ids, now)
        case None =>
          if view.reverted then RejectPlan(true, t, DuplicateReversal, ids, now)
          else
            match ResolveReference(t, reference.info.id, now)
            case Err(e) => Refuse(e)
            case Ok(resolved) =>
              MovePlan(true, resolved, w, ReversalDirection(reference.info.kind), req.amount, ids, now)
  }

  function InfoFor(req: Request, id: Id, now: Instant): Info {
    Info(id, true, req.kind, req.walletId, req.playerId, req.amount, req.cmd.provider, req.cmd.externalId,
         req.cmd.key, req.hash, req.cmd.round, req.cmd.game, req.cmd.refExternal, now)
  }

  // The submission is new: apply it to the locked wallet.
  function ApplyPlan(req: Request, w: WalletRow, view: View, ids: Ids, now: Instant): Plan
    requires w.balance >= 0
  {
    match NewExternal(InfoFor(req, ids.tx, now))
    case Err(e) => Refuse(e)
    case Ok(t) =>
      if w.playerId != req.playerId then RejectPlan(true, t, WalletPlayerMismatch, ids, now)
      else if w.currency != req.amount.currency then RejectPlan(true, t, CurrencyMismatch, ids, now)
      else if IsReversal(req.kind) then ReversalPlan(t, w, req, view, ids, now)
      else
        match req.kind
        case Bet => MovePlan(true, t, w, Debit, req.amount, ids, now)
        case Win => MovePlan(true, t, w, Credit, req.amount, ids, now)
        case _ => SettlePlan(true, t, w, None, ids, now)
  }

  // The stored outcome of an earlier submission, never recomputed.
  function ReplayOf(t: Tx): TxResult {
    TxResult(t.info.id, t.status, if t.result.Some? then Some(t.result.value.balance) else None, t.failure, true)
  }

  // What the table answers to a submission before any effect: replay, conflict, or nothing known.
  ghost function ReplayPlan(txs: map<Id, Tx>, req: Request): Option<Plan> {
    match FindByKey(txs, req.cmd.provider, req.cmd.key)
    case Some(existing) =>
      Some(if existing.info.hash != req.hash then Refuse(IdempotencyConflict) else Reply(ReplayOf(existing)))
    case None =>
      if FindByExternalId(txs, req.cmd.provider, req.cmd.externalId).Some? then Some(Refuse(OperationReapplied))
      else None
  }

  // A submission executed against one state of the tables.
  ghost function ExecutePlan(db: Db, codec: Codec, c: Command, ids: Ids, now: Instant): Plan
    requires Sound(db)
  {
    match Parse(codec, c)
    case Err(e) => Refuse(e)
    case Ok(req) => RequestPlan(db, req, ids, now)
  }

  ghost function RequestPlan(db: Db, req: Request, ids: Ids, now: Instant): Plan
    requires forall w | w in db.wallets :: db.wallets[w].balance >= 0
  {
    if req.walletId !in db.wallets then Refuse(NotFound)
    else
      match ReplayPlan(db.txs, req)
      case Some(plan) => plan
      case None => ApplyPlan(req, db.wallets[req.walletId], ViewOf(db, req.cmd.provider, req.cmd.refExternal), ids, now)
  }

  // How a call that runs inside an open SQL transaction follows a plan, statement by statement.
  ghost predicate Follows(plan: Plan, db: Db, failed: bool, db': Db, failed': bool, r: Result<TxResult>) {
    match plan
    case Refuse(e) => r == Err(e) && db' == db && failed' == failed
    case Reply(x) => r == Ok(x) && db' == db && failed' == failed
    case Write(d, x) =>
      var run := RunDelta(db, d);
      && db' == run.db && failed' == (failed || run.failed)
      && r == (if run.error.Some? then Err(run.error.value) else Ok(x))
  }

  // ----- the use case

  method AppendEvents(s: Session, events: seq<Event>) returns (e: Option<Error>)
    modifies s
    ensures var run := RunEvents(old(s.db), events);
            s.db == run.db && e == run.error && s.failed == (old(s.failed) || run.failed)
  {
    var i := 0;
    while i < |events|
      invariant 0 <= i <= |events| && s.failed == old(s.failed)
      invariant RunEvents(s.db, events[i..]) == RunEvents(old(s.db), events)
    {
      assert events[i..][0] == events[i] && events[i..][1..] == events[i + 1..];
      if events[i].id == 0 {
        return Some(InvalidId);
      }
      e := s.Run(InsertEvent(s.db, events[i]));
      if e.Some? {
        return;
      }
      i := i + 1;
    }
    assert events[i..] == [];
    e := None;
  }

  method AppendEntry(s: Session, entryId: Id, walletId: Id, txId: Id, direction: Direction, m: Movement, now: Instant)
    returns (e: Option<Error>)
    modifies s
    ensures match NewEntry(entryId, walletId, txId, direction, m.amount, m.before, m.after, now)
            case Err(x) => e == Some(x) && s.db == old(s.db) && s.failed == old(s.failed)
            case Ok(entry) =>
              match InsertEntry(old(s.db), entry)
              case Err(x) => e == Some(x) && s.db == old(s.db) && s.failed
              case Ok(d) => e == None && s.db == d && s.failed == old(s.failed)
  {
    if entryId == 0 {
      return Some(InvalidId);
    }
    var entry := NewEntry(entryId, walletId, txId, direction, m.amount, m.before, m.after, now);
    if entry.Err? {
      return Some(entry.error);
    }
    e := s.Run(InsertEntry(s.db, entry.value));
  }

  method PersistSettled(
    s: Session, target: Wallet, t: Transaction, applied: Option<Settlement>, ids: Ids, now: Instant, create: bool)
    returns (r: Result<TxResult>)
    requires target.Valid()
    modifies s, t
    ensures Follows(SettlePlan(create, old(t.State()), target.Row(), applied, ids, now),
                    old(s.db), old(s.failed), s.db, s.failed, r)
  {
    var e := t.Process(Outcome(target.balance, target.version), now);
    if e.Some? {
      return Err(e.value);
    }
    ghost var done := t.State();
    var row := t.Row();
    e := s.Run(if create then InsertTx(s.db, row) else UpdateTx(s.db, row));
    if e.Some? {
      return Err(e.value);
    }
    if applied.Some? {
      e := AppendEntry(s, ids.entry, target.id, t.info.id, applied.value.direction, applied.value.movement, now);
      if e.Some? {
        return Err(e.value);
      }
      var w := target.ToRow();
      e := s.Run(UpdateWallet(s.db, w));
      if e.Some? {
        return Err(e.value);
      }
    }
    e := AppendEvents(s, ProcessedEvents(row, applied, ids, now));
    if e.Some? {
      return Err(e.value);
    }
    r := Ok(TxResult(t.info.id, t.status, Some(target.balance), None, false));
  }

  method PersistRejected(s: Session, t: Transaction, code: FailureCode, ids: Ids, now: Instant, create: bool)
    returns (r: Result<TxResult>)
    modifies s, t
    ensures Follows(RejectPlan(create, old(t.State()), code, ids, now), old(s.db), old(s.failed), s.db, s.failed, r)
  {
    var e := t.Refuse(code, now);
    if e.Some? {
      return Err(e.value);
    }
    var row := t.Row();
    e := s.Run(if create then InsertTx(s.db, row) else UpdateTx(s.db, row));
    if e.Some? {
      return Err(e.value);
    }
    e := AppendEvents(s, [TxEvent(ids.txEvent, TransactionRejected, row, now)]);
    if e.Some? {
      return Err(e.value);
    }
    r := Ok(TxResult(t.info.id, t.status, None, Some(code), false));
  }

  method MarkPending(s: Session, t: Transaction, ids: Ids, now: Instant) returns (r: Result<TxResult>)
    modifies s, t
    ensures Follows(PendPlan(old(t.State()), ids, now), old(s.db), old(s.failed), s.db, s.failed, r)
  {
    var e := t.Wait(now);
    if e.Some? {
      return Err(e.value);
    }
    var row := t.Row();
    e := s.Run(InsertTx(s.db, row));
    if e.Some? {
      return Err(e.value);
    }
    e := AppendEvents(s, [TxEvent(ids.txEvent, TransactionPending, row, now)]);
    if e.Some? {
      return Err(e.value);
    }
    r := Ok(TxResult(t.info.id, t.status, None, None, false));
  }

  method MoveBalance(
    s: Session, target: Wallet, t: Transaction, direction: Direction, amount: Money, ids: Ids, now: Instant, create: bool)
    returns (r: Result<TxResult>)
    requires target.Valid()
    modifies s, target, t
    ensures Follows(MovePlan(create, old(t.State()), old(target.Row()), direction, amount, ids, now),
                    old(s.db), old(s.failed), s.db, s.failed, r)
  {
    var moved;
    if direction == Credit {
      moved := target.Credit(amount, now);
    } else {
      moved := target.Debit(amount, now);
    }
    if moved.Err? {
      if moved.error == InsufficientFundsError {
        r := PersistRejected(s, t, InsufficientFundsCode(t.info.kind), ids, now, create);
        return;
      }
      return Err(moved.error);
    }
    r := PersistSettled(s, target, t, Some(Settlement(direction, moved.value)), ids, now, create);
  }

  method LookupReversal(s: Session, reference: Id) returns (reverted: bool)
    ensures reverted == HasSuccessfulReversal(s.db.txs, reference)
  {
    reverted := exists id | id in s.db.txs :: SuccessfulReversalOf(s.db.txs[id], reference);
  }

  method ApplyReversal(s: Session, target: Wallet, t: Transaction, req: Request, ids: Ids, now: Instant)
    returns (r: Result<TxResult>)
    requires target.Valid() && Sound(s.db)
    modifies s, target, t
    ensures Follows(ReversalPlan(old(t.State()), old(target.Row()), req,
                                 ViewOf(old(s.db), req.cmd.provider, req.cmd.refExternal), ids, now),
                    old(s.db), old(s.failed), s.db, s.failed, r)
  {
    var found := s.LoadByExternalId(req.cmd.provider, req.cmd.refExternal);
    if found.None? {
      r := MarkPending(s, t, ids, now);
      return;
    }
    var reference := found.value;
    if !IsTerminal(reference.status) {
      r := MarkPending(s, t, ids, now);
      return;
    }
    var row := reference.Row();
    var code := ReversalRejection(row, req.kind, req.walletId, req.playerId, req.cmd.round, req.amount);
    if code.Some? {
      r := PersistRejected(s, t, code.value, ids, now, true);
      return;
    }
    var reverted := LookupReversal(s, reference.info.id);
    if reverted {
      r := PersistRejected(s, t, DuplicateReversal, ids, now, true);
      return;
    }
    var e := t.Resolve(reference.info.id, now);
    if e.Some? {
      return Err(e.value);
    }
    var direction := Credit;
    if reference.info.kind != Bet {
      direction := Debit;
    }
    r := MoveBalance(s, target, t, direction, req.amount, ids, now, true);
  }

  method Apply(s: Session, target: Wallet, req: Request, ids: Ids, now: Instant) returns (r: Result<TxResult>)
    requires target.Valid() && Sound(s.db)
    modifies s, target
    ensures Follows(ApplyPlan(req, old(target.Row()), ViewOf(old(s.db), req.cmd.provider, req.cmd.refExternal), ids, now),
                    old(s.db), old(s.failed), s.db, s.failed, r)
  {
    var created := NewExternal(InfoFor(req, ids.tx, now));
    if created.Err? {
      return Err(created.error);
    }
    var t := new Transaction(created.value);
    if target.playerId != req.playerId {
      r := PersistRejected(s, t, WalletPlayerMismatch, ids, now, true);
      return;
    }
    if target.currency != req.amount.currency {
      r := PersistRejected(s, t, CurrencyMismatch, ids, now, true);
      return;
    }
    if IsReversal(req.kind) {
      r := ApplyReversal(s, target, t, req, ids, now);
      return;
    }
    if req.kind == Bet {
      r := MoveBalance(s, target, t, Debit, req.amount, ids, now, true);
    } else if req.kind == Win {
      r := MoveBalance(s, target, t, Credit, req.amount, ids, now, true);
    } else {
      r := PersistSettled(s, target, t, None, ids, now, true);
    }
  }

  method FindReplay(s: Session, req: Request) returns (r: Option<Result<TxResult>>)
    requires Sound(s.db)
    ensures match ReplayPlan(s.db.txs, req)
            case None => r == None
            case Some(plan) => r == Some(if plan.Reply? then Ok(plan.result) else Err(plan.error)) && !plan.Write?
  {
    var existing := s.LoadByKey(req.cmd.provider, req.cmd.key);
    if existing.Some? {
      var row := existing.value.Row();
      if row.info.hash != req.hash {
        return Some(Err(IdempotencyConflict));
      }
      return Some(Ok(ReplayOf(row)));
    }
    var applied := s.LoadByExternalId(req.cmd.provider, req.cmd.externalId);
    if applied.Some? {
      return Some(Err(OperationReapplied));
    }
    r := None;
  }

  // The whole submission inside an open SQL transaction: wallet lock, replay check, effect.
  method ExecuteIn(s: Session, codec: Codec, c: Command, ids: Ids, now: Instant) returns (r: Result<TxResult>)
    requires Sound(s.db)
    modifies s
    ensures Follows(ExecutePlan(old(s.db), codec, c, ids, now), old(s.db), old(s.failed), s.db, s.failed, r)
  {
    var parsed := Parse(codec, c);
    if parsed.Err? {
      return Err(parsed.error);
    }
    var locked := s.LockWallet(parsed.value.walletId);
    if locked.Err? {
      return Err(locked.error);
    }
    var replay := FindReplay(s, parsed.value);
    if replay.Some? {
      return replay.value;
    }
    r := Apply(s, locked.value, parsed.value, ids, now);
  }
}
