// Package wagering: kinds, the status machine, and the transaction with its transitions.
module Wagering {
  import opened Base
  import opened MoneyModel

  datatype Kind = Opening | Bet | Win | Loss | Refund | Rollback

  datatype Status = Pending | PendingReference | Processed | Rejected | Failed

  datatype FailureCode =
    | InsufficientFunds
    | ReversalExceedsBalance
    | ReferenceNotFound
    | ReferenceNotProcessed
    | DuplicateReversal
    | ReferenceMismatch
    | CurrencyMismatch
    | WalletPlayerMismatch
    | InfrastructureFailure

  // ----- kinds

  function ParseExternalKind(raw: string): (r: Result<Kind>)
    ensures r.Ok? ==> !r.value.Opening?
  {
    match raw
    case "BET" => Ok(Bet)
    case "WIN" => Ok(Win)
    case "LOSS" => Ok(Loss)
    case "REFUND" => Ok(Refund)
    case "ROLLBACK" => Ok(Rollback)
    case "OPENING" => Err(OpeningNotAllowed)
    case _ => Err(UnknownKind)
  }

  predicate IsReversal(k: Kind) {
    k == Refund || k == Rollback
  }

  // LOSS needs exactly zero, every other kind a positive amount.
  function ValidateAmount(k: Kind, amount: Money): (e: Option<Error>)
    ensures e.None? <==> amount.Initialized() && (if k == Loss then amount.minor == 0 else amount.minor > 0)
  {
    if !amount.Initialized() then Some(Uninitialized)
    else if k == Loss then (if amount.minor != 0 then Some(InvalidAmountForKind) else None)
    else if amount.minor <= 0 then Some(InvalidAmountForKind)
    else None
  }

  // Reversals need a reference, WIN may carry one, the others may not.
  function ValidateReference(k: Kind, reference: string): (e: Option<Error>)
    ensures e.None? <==> (IsReversal(k) ==> reference != "") && (reference != "" ==> IsReversal(k) || k == Win)
  {
    if IsReversal(k) && reference == "" then Some(ReferenceRequired)
    else if !IsReversal(k) && k != Win && reference != "" then Some(ReferenceNotAllowed)
    else None
  }

  // ----- statuses

  predicate IsTerminal(s: Status) {
    s == Processed || s == Rejected || s == Failed
  }

  function AllowedTransitions(s: Status): set<Status> {
    match s
    case Pending => {PendingReference, Processed, Rejected, Failed}
    case PendingReference => {Processed, Rejected, Failed}
    case _ => {}
  }

  predicate CanTransitionTo(s: Status, target: Status) {
    target in AllowedTransitions(s)
  }

  // ----- the transaction

  // What a submission fixes for good: identity, origin and business fields.
  datatype Info = Info(
    id: Id, external: bool, kind: Kind, walletId: Id, playerId: Id, amount: Money,
    provider: string, externalId: string, key: string, hash: string,
    round: string, game: string, refExternal: string, createdAt: Instant)

  // The balance and wallet version frozen when the transaction was processed.
  datatype Outcome = Outcome(balance: Money, version: int)

  datatype Tx = Tx(
    info: Info, status: Status, refId: Option<Id>, failure: Option<FailureCode>,
    result: Option<Outcome>, attempts: int, nextRetry: Option<Instant>, updatedAt: Instant)

  function NewExternal(info: Info): Result<Tx> {
    if info.id == 0 || info.walletId == 0 || info.playerId == 0 then Err(InvalidId)
    else if info.kind == Opening then Err(OpeningNotAllowed)
    else if ValidateAmount(info.kind, info.amount).Some? then Err(ValidateAmount(info.kind, info.amount).value)
    else if ValidateReference(info.kind, info.refExternal).Some? then Err(ValidateReference(info.kind, info.refExternal).value)
    else if info.provider == "" || info.externalId == "" || info.key == "" || info.hash == ""
            || info.round == "" || info.game == "" || info.createdAt == 0 then Err(MissingField)
    else Ok(Tx(info.(external := true), Pending, None, None, None, 0, None, info.createdAt))
  }

  function OpeningInfo(id: Id, walletId: Id, playerId: Id, amount: Money, now: Instant): Info {
    Info(id, false, Opening, walletId, playerId, amount, "", "", "", "", "", "", "", now)
  }

  function NewOpening(id: Id, walletId: Id, playerId: Id, amount: Money, now: Instant): Result<Tx> {
    if id == 0 || walletId == 0 || playerId == 0 then Err(InvalidId)
    else if !amount.Initialized() then Err(Uninitialized)
    else if amount.minor <= 0 then Err(InvalidAmountForKind)
    else if now == 0 then Err(MissingField)
    else Ok(Tx(OpeningInfo(id, walletId, playerId, amount, now), Pending, None, None, None, 0, None, now))
  }

  function NewProcessedOpening(id: Id, walletId: Id, playerId: Id, amount: Money, result: Outcome, now: Instant): Result<Tx> {
    var opening :- NewOpening(id, walletId, playerId, amount, now);
    MarkProcessed(opening, result, now)
  }

  function Transition(t: Tx, target: Status, now: Instant): Result<Tx> {
    if now == 0 then Err(MissingField)
    else if !CanTransitionTo(t.status, target) then Err(IllegalTransition)
    else Ok(t.(status := target, updatedAt := now))
  }

  function MarkProcessed(t: Tx, result: Outcome, now: Instant): Result<Tx> {
    if !result.balance.Initialized() then Err(Uninitialized)
    else if result.version < 1 then Err(InvalidTransactionState)
    else
      var moved :- Transition(t, Processed, now);
      Ok(moved.(result := Some(result), nextRetry := None))
  }

  function MarkPendingReference(t: Tx, now: Instant): Result<Tx> {
    if !IsReversal(t.info.kind) then Err(IllegalTransition)
    else
      var moved :- Transition(t, PendingReference, now);
      Ok(moved.(nextRetry := Some(now), attempts := 0))
  }

  function ScheduleReferenceRetry(t: Tx, attempts: int, next: Instant, now: Instant): Result<Tx> {
    if t.status != PendingReference then Err(IllegalTransition)
    else if attempts < 0 then Err(InvalidTransactionState)
    else if next == 0 || now == 0 then Err(MissingField)
    else Ok(t.(attempts := attempts, nextRetry := Some(next), updatedAt := now))
  }

  function Reject(t: Tx, code: FailureCode, now: Instant): Result<Tx> {
    var moved :- Transition(t, Rejected, now);
    Ok(moved.(failure := Some(code), nextRetry := None))
  }

  function Fail(t: Tx, code: FailureCode, now: Instant): Result<Tx> {
    var moved :- Transition(t, Failed, now);
    Ok(moved.(failure := Some(code), nextRetry := None))
  }

  function ResolveReference(t: Tx, referenceId: Id, now: Instant): Result<Tx> {
    if !IsReversal(t.info.kind) then Err(ReferenceNotAllowed)
    else if referenceId == 0 then Err(InvalidId)
    else if IsTerminal(t.status) then Err(IllegalTransition)
    else if now == 0 then Err(MissingField)
    else Ok(t.(refId := Some(referenceId), updatedAt := now))
  }

  // ----- the machine as a whole

  // One call of any of the transitions.
  datatype Action =
    | DoProcess(result: Outcome)
    | DoWait
    | DoRetry(attempts: int, next: Instant)
    | DoReject(code: FailureCode)
    | DoFail(code: FailureCode)
    | DoResolve(referenceId: Id)

  function Act(t: Tx, a: Action, now: Instant): Result<Tx> {
    match a
    case DoProcess(result) => MarkProcessed(t, result, now)
    case DoWait => MarkPendingReference(t, now)
    case DoRetry(attempts, next) => ScheduleReferenceRetry(t, attempts, next, now)
    case DoReject(code) => Reject(t, code, now)
    case DoFail(code) => Fail(t, code, now)
    case DoResolve(referenceId) => ResolveReference(t, referenceId, now)
  }

  // A call that fails changes nothing.
  function ActOrKeep(t: Tx, a: Action, now: Instant): Tx {
    match Act(t, a, now) case Ok(t') => t' case Err(_) => t
  }

  function RunActions(t: Tx, calls: seq<(Action, Instant)>): Tx
    decreases |calls|
  {
    if calls == [] then t
    else RunActions(ActOrKeep(t, calls[0].0, calls[0].1), calls[1..])
  }

  // Each optional field is present exactly in the states that own it.
  predicate FieldsMatchStatus(t: Tx) {
    && (t.result.Some? <==> t.status == Processed)
    && (t.failure.Some? <==> t.status == Rejected || t.status == Failed)
    && (t.nextRetry.Some? <==> t.status == PendingReference)
    && (t.refId.Some? ==> IsReversal(t.info.kind))
    && t.attempts >= 0
  }

  lemma FieldsFollowStatus(t: Tx, a: Action, now: Instant)
    requires FieldsMatchStatus(t)
    ensures FieldsMatchStatus(ActOrKeep(t, a, now)) && ActOrKeep(t, a, now).info == t.info
  {
  }

  // Whatever is called afterwards, in any order and any number of times, a terminal
  // transaction keeps every field, and the fields keep matching the status of any other.
  lemma {:induction false} TerminalForever(t: Tx, calls: seq<(Action, Instant)>)
    requires FieldsMatchStatus(t)
    ensures IsTerminal(t.status) ==> RunActions(t, calls) == t
    ensures FieldsMatchStatus(RunActions(t, calls)) && RunActions(t, calls).info == t.info
    decreases |calls|
  {
    if calls != [] {
      FieldsFollowStatus(t, calls[0].0, calls[0].1);
      TerminalForever(ActOrKeep(t, calls[0].0, calls[0].1), calls[1..]);
    }
  }

  class Transaction {
    const info: Info
    var status: Status
    var refId: Option<Id>
    var failure: Option<FailureCode>
    var result: Option<Outcome>
    var attempts: int
    var nextRetry: Option<Instant>
    var updatedAt: Instant

    ghost function State(): Tx
      reads this
    {
      Tx(info, status, refId, failure, result, attempts, nextRetry, updatedAt)
    }

    constructor (state: Tx)
      ensures State() == state
    {
      info := state.info;
      status, refId, failure, result := state.status, state.refId, state.failure, state.result;
      attempts, nextRetry, updatedAt := state.attempts, state.nextRetry, state.updatedAt;
    }

    method Row() returns (row: Tx)
      ensures row == State()
    {
      row := Tx(info, status, refId, failure, result, attempts, nextRetry, updatedAt);
    }

    method ChangeStatus(target: Status, now: Instant) returns (e: Option<Error>)
      modifies this
      ensures match Transition(old(State()), target, now)
              case Ok(t) => e == None && State() == t
              case Err(x) => e == Some(x) && State() == old(State())
    {
      if now == 0 {
        return Some(MissingField);
      }
      if !CanTransitionTo(status, target) {
        return Some(IllegalTransition);
      }
      status := target;
      updatedAt := now;
      e := None;
    }

    method Process(outcome: Outcome, now: Instant) returns (e: Option<Error>)
      modifies this
      ensures match MarkProcessed(old(State()), outcome, now)
              case Ok(t) => e == None && State() == t
              case Err(x) => e == Some(x) && State() == old(State())
    {
      if !outcome.balance.Initialized() {
        return Some(Uninitialized);
      }
      if outcome.version < 1 {
        return Some(InvalidTransactionState);
      }
      e := ChangeStatus(Processed, now);
      if e.Some? {
        return;
      }
      result := Some(outcome);
      nextRetry := None;
    }

    method Wait(now: Instant) returns (e: Option<Error>)
      modifies this
      ensures match MarkPendingReference(old(State()), now)
              case Ok(t) => e == None && State() == t
              case Err(x) => e == Some(x) && State() == old(State())
    {
      if !IsReversal(info.kind) {
        return Some(IllegalTransition);
      }
      e := ChangeStatus(PendingReference, now);
      if e.Some? {
        return;
      }
      nextRetry := Some(now);
      attempts := 0;
    }

    method ScheduleRetry(count: int, next: Instant, now: Instant) returns (e: Option<Error>)
      modifies this
      ensures match ScheduleReferenceRetry(old(State()), count, next, now)
              case Ok(t) => e == None && State() == t
              case Err(x) => e == Some(x) && State() == old(State())
    {
      if status != PendingReference {
        return Some(IllegalTransition);
      }
      if count < 0 {
        return Some(InvalidTransactionState);
      }
      if next == 0 || now == 0 {
        return Some(MissingField);
      }
      attempts := count;
      nextRetry := Some(next);
      updatedAt := now;
      e := None;
    }

    method Refuse(code: FailureCode, now: Instant) returns (e: Option<Error>)
      modifies this
      ensures match Reject(old(State()), code, now)
              case Ok(t) => e == None && State() == t
              case Err(x) => e == Some(x) && State() == old(State())
    {
      e := ChangeStatus(Rejected, now);
      if e.Some? {
        return;
      }
      failure := Some(code);
      nextRetry := None;
    }

    method Resolve(referenceId: Id, now: Instant) returns (e: Option<Error>)
      modifies this
      ensures match ResolveReference(old(State()), referenceId, now)
              case Ok(t) => e == None && State() == t
              case Err(x) => e == Some(x) && State() == old(State())
    {
      if !IsReversal(info.kind) {
        return Some(ReferenceNotAllowed);
      }
      if referenceId == 0 {
        return Some(InvalidId);
      }
      if IsTerminal(status) {
        return Some(IllegalTransition);
      }
      if now == 0 {
        return Some(MissingField);
      }
      refId := Some(referenceId);
      updatedAt := now;
      e := None;
    }
  }
}
