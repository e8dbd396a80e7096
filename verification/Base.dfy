// Shared vocabulary: optional values, the domain's errors, and results that may carry one.
module Base {

  datatype Option<+T> = None | Some(value: T)

  // Internal identifiers (UUIDs). Zero is the nil UUID, which no operation accepts.
  type Id = nat

  // Instants and durations, in ticks of the database clock. Zero is the zero time.
  type Instant = nat

  datatype Error =
    | InvalidInput
    | InvalidId
    | UnknownKind
    | OpeningNotAllowed
    | InvalidAmount
    | InvalidCurrency
    | CurrencyMismatchError
    | AmountOverflow
    | Uninitialized
    | InvalidAmountForKind
    | ReferenceRequired
    | ReferenceNotAllowed
    | MissingField
    | IllegalTransition
    | InvalidTransactionState
    | InsufficientFundsError
    | NonPositiveMovement
    | NegativeInitialBalance
    | InvalidWalletState
    | InconsistentEntry
    | NotFound
    | PersistenceConflict
    | IdempotencyConflict
    | OperationReapplied
    | WalletAlreadyExists
    | InvalidEnvelope
    | UnauthorizedProvider
    | InboxPayloadMismatch
    | CommitFailed
    | Infrastructure

  datatype Result<+T> = Ok(value: T) | Err(error: Error) {
    predicate IsFailure() {
      Err?
    }

    function PropagateFailure<U>(): Result<U>
      requires Err?
    {
      Err(error)
    }

    function Extract(): T
      requires Ok?
    {
      value
    }
  }

  // Every domain error carries a class (validation, rejection, conflict or invariant);
  // only failures without one, those of the infrastructure, are transient for a message.
  predicate IsDomainError(e: Error) {
    !e.CommitFailed? && !e.Infrastructure?
  }
}
