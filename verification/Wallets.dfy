// Package wallet: the aggregate root, whose balance only its own methods change.
module Wallets {
  import opened Base
  import opened MoneyModel

  datatype WalletRow = WalletRow(
    id: Id, playerId: Id, currency: string, balance: int64, version: int,
    createdAt: Instant, updatedAt: Instant)
  {
    function Balance(): Money {
      Money(balance, currency)
    }
  }

  datatype Movement = Movement(amount: Money, before: Money, after: Money, version: int)

  function Open(id: Id, playerId: Id, initial: Money, now: Instant): Result<WalletRow> {
    if id == 0 || playerId == 0 then Err(InvalidId)
    else if !initial.Initialized() then Err(Uninitialized)
    else if initial.minor < 0 then Err(NegativeInitialBalance)
    else if now == 0 then Err(InvalidWalletState)
    else Ok(WalletRow(id, playerId, initial.currency, initial.minor, 1, now, now))
  }

  function OpeningMovement(w: WalletRow): Movement {
    Movement(w.Balance(), Money(0, w.currency), w.Balance(), w.version)
  }

  function MovementError(w: WalletRow, amount: Money, now: Instant): Option<Error> {
    if !amount.Initialized() then Some(Uninitialized)
    else if amount.currency != w.currency then Some(CurrencyMismatchError)
    else if amount.minor <= 0 then Some(NonPositiveMovement)
    else if now == 0 then Some(InvalidWalletState)
    else None
  }

  function Moved(w: WalletRow, amount: Money, after: Money, now: Instant): (WalletRow, Movement) {
    (w.(balance := after.minor, version := w.version + 1, updatedAt := now),
     Movement(amount, w.Balance(), after, w.version + 1))
  }

  function Credited(w: WalletRow, amount: Money, now: Instant): (r: Result<(WalletRow, Movement)>)
    ensures r.Ok? <==> MovementError(w, amount, now).None? && Fits(w.balance as int + amount.minor as int)
    ensures r.Ok? ==> r.value.0.balance as int == w.balance as int + amount.minor as int
  {
    if MovementError(w, amount, now).Some? then Err(MovementError(w, amount, now).value)
    else
      var after :- w.Balance().Plus(amount);
      Ok(Moved(w, amount, after, now))
  }

  function Debited(w: WalletRow, amount: Money, now: Instant): (r: Result<(WalletRow, Movement)>)
    requires w.balance >= 0
    ensures r.Ok? <==> MovementError(w, amount, now).None? && amount.minor <= w.balance
    ensures r.Ok? ==> r.value.0.balance as int == w.balance as int - amount.minor as int >= 0
    ensures r == Err(InsufficientFundsError) <==> MovementError(w, amount, now).None? && amount.minor > w.balance
  {
    if MovementError(w, amount, now).Some? then Err(MovementError(w, amount, now).value)
    else
      match w.Balance().Minus(amount)
      case Err(e) => Err(e)
      case Ok(after) => if after.minor < 0 then Err(InsufficientFundsError) else Ok(Moved(w, amount, after, now))
  }

  class Wallet {
    const id: Id
    const playerId: Id
    const currency: string
    const createdAt: Instant
    var balance: Money
    var version: int
    var updatedAt: Instant

    ghost predicate Valid()
      reads this
    {
      balance.currency == currency && balance.minor >= 0
    }

    ghost function Row(): WalletRow
      reads this
    {
      WalletRow(id, playerId, currency, balance.minor, version, createdAt, updatedAt)
    }

    constructor Rehydrate(row: WalletRow)
      requires row.balance >= 0
      ensures Valid() && Row() == row
    {
      id, playerId, currency, createdAt := row.id, row.playerId, row.currency, row.createdAt;
      balance, version, updatedAt := Money(row.balance, row.currency), row.version, row.updatedAt;
    }

    method ToRow() returns (row: WalletRow)
      ensures row == Row()
    {
      row := WalletRow(id, playerId, currency, balance.minor, version, createdAt, updatedAt);
    }

    method ValidateMovement(amount: Money, now: Instant) returns (e: Option<Error>)
      ensures e == MovementError(Row(), amount, now)
    {
      if !amount.Initialized() {
        return Some(Uninitialized);
      }
      if amount.currency != currency {
        return Some(CurrencyMismatchError);
      }
      if amount.minor <= 0 {
        return Some(NonPositiveMovement);
      }
      if now == 0 {
        return Some(InvalidWalletState);
      }
      e := None;
    }

    method Apply(amount: Money, before: Money, after: Money, now: Instant) returns (m: Movement)
      requires Valid() && before == balance && after.currency == currency && after.minor >= 0
      modifies this
      ensures Valid() && (Row(), m) == Moved(old(Row()), amount, after, now)
    {
      balance := after;
      version := version + 1;
      updatedAt := now;
      m := Movement(amount, before, after, version);
    }

    // A refused movement leaves the wallet as it was; an accepted one changes balance,
    // version and instant together.
    method Credit(amount: Money, now: Instant) returns (r: Result<Movement>)
      requires Valid()
      modifies this
      ensures Valid()
      ensures match Credited(old(Row()), amount, now)
              case Ok((row, m)) => r == Ok(m) && Row() == row
              case Err(e) => r == Err(e) && Row() == old(Row())
    {
      var invalid := ValidateMovement(amount, now);
      if invalid.Some? {
        return Err(invalid.value);
      }
      var before := balance;
      var sum := before.Plus(amount);
      if sum.Err? {
        return Err(sum.error);
      }
      var m := Apply(amount, before, sum.value, now);
      r := Ok(m);
    }

    method Debit(amount: Money, now: Instant) returns (r: Result<Movement>)
      requires Valid()
      modifies this
      ensures Valid()
      ensures match Debited(old(Row()), amount, now)
              case Ok((row, m)) => r == Ok(m) && Row() == row
              case Err(e) => r == Err(e) && Row() == old(Row())
    {
      var invalid := ValidateMovement(amount, now);
      if invalid.Some? {
        return Err(invalid.value);
      }
      var before := balance;
      var difference := before.Minus(amount);
      if difference.Err? {
        return Err(difference.error);
      }
      if difference.value.minor < 0 {
        return Err(InsufficientFundsError);
      }
      var m := Apply(amount, before, difference.value, now);
      r := Ok(m);
    }
  }
}
