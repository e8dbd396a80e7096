// Package money: int64 minor units with checked arithmetic, and the strict parser and printer
// of the two-decimal contract form.
module MoneyModel {
  import opened Base

  newtype int64 = x: int | -0x8000_0000_0000_0000 <= x < 0x8000_0000_0000_0000

  const MAX_INT64: int64 := 0x7FFF_FFFF_FFFF_FFFF
  const MIN_INT64: int64 := -0x8000_0000_0000_0000
  const MINOR_PER_UNIT: int64 := 100
  const SCALE := 2

  predicate Fits(x: int) {
    MIN_INT64 as int <= x <= MAX_INT64 as int
  }

  lemma MulMonotone(x: int, y: int, f: int)
    requires x <= y && f >= 0
    ensures x * f <= y * f
  {
  }

  // Go's integer division truncates toward zero.
  function TruncDiv(a: int64, b: int64): (q: int64)
    requires b > 0
    ensures a >= 0 ==> (q as int) * (b as int) <= a as int < (q as int + 1) * (b as int)
    ensures a < 0 ==> (q as int - 1) * (b as int) < a as int <= (q as int) * (b as int)
  {
    if a >= 0 then
      NatQuotient(a as int, b as int);
      ((a as int) / (b as int)) as int64
    else
      NatQuotient(-(a as int), b as int);
      (-((-(a as int)) / (b as int))) as int64
  }

  lemma NatQuotient(n: int, d: int)
    requires n >= 0 && d > 0
    ensures 0 <= n / d <= n
    ensures (n / d) * d <= n < (n / d + 1) * d
    ensures (-(n / d) - 1) * d < -n <= -(n / d) * d
  {
    var q, r := n / d, n % d;
    assert n == q * d + r && 0 <= r < d;
    if q < 0 {
      MulMonotone(q, -1, d);
    }
    MulMonotone(1, d, q);
    MulMinus(q, d);
    MulMinus(q + 1, d);
  }

  lemma MulMinus(x: int, f: int)
    ensures (-x) * f == -(x * f)
  {
  }

  function Add(a: int64, b: int64): (r: Result<int64>)
    ensures r.Ok? <==> Fits(a as int + b as int)
    ensures r.Ok? ==> r.value as int == a as int + b as int
    ensures r.Err? ==> r.error == AmountOverflow
  {
    if (b > 0 && a > MAX_INT64 - b) || (b < 0 && a < MIN_INT64 - b) then Err(AmountOverflow)
    else Ok(a + b)
  }

  function Subtract(a: int64, b: int64): (r: Result<int64>)
    ensures r.Ok? <==> Fits(a as int - b as int)
    ensures r.Ok? ==> r.value as int == a as int - b as int
    ensures r.Err? ==> r.error == AmountOverflow
  {
    if (b < 0 && a > MAX_INT64 + b) || (b > 0 && a < MIN_INT64 + b) then Err(AmountOverflow)
    else Ok(a - b)
  }

  function Multiply(a: int64, factor: int64): (r: Result<int64>)
    requires factor > 0
    ensures r.Ok? <==> Fits(a as int * factor as int)
    ensures r.Ok? ==> r.value as int == a as int * factor as int
    ensures r.Err? ==> r.error == AmountOverflow
  {
    if a == 0 then Ok(0)
    else
      MultiplyGuard(a, factor);
      if a > TruncDiv(MAX_INT64, factor) || a < TruncDiv(MIN_INT64, factor) then Err(AmountOverflow)
      else Ok(a * factor)
  }

  // The two quotient comparisons decide exactly whether the product fits.
  lemma MultiplyGuard(a: int64, factor: int64)
    requires factor > 0
    ensures (a > TruncDiv(MAX_INT64, factor) || a < TruncDiv(MIN_INT64, factor)) <==> !Fits(a as int * factor as int)
  {
    var hi, lo, x, f := TruncDiv(MAX_INT64, factor) as int, TruncDiv(MIN_INT64, factor) as int, a as int, factor as int;
    if x > hi {
      MulMonotone(hi + 1, x, f);
    } else {
      MulMonotone(x, hi, f);
    }
    if x < lo {
      MulMonotone(x, lo - 1, f);
    } else {
      MulMonotone(lo, x, f);
    }
  }

  // A value in minor units and its currency. An empty currency marks an uninitialised value.
  datatype Money = Money(minor: int64, currency: string) {
    predicate Initialized() {
      currency != ""
    }

    function Compatible(other: Money): (e: Option<Error>) {
      if !Initialized() || !other.Initialized() then Some(Uninitialized)
      else if currency != other.currency then Some(CurrencyMismatchError)
      else None
    }

    function Plus(other: Money): (r: Result<Money>)
      ensures r.Ok? <==> Compatible(other).None? && Fits(minor as int + other.minor as int)
      ensures r.Ok? ==> r.value.minor as int == minor as int + other.minor as int && r.value.currency == currency
    {
      if Compatible(other).Some? then Err(Compatible(other).value)
      else
        var sum :- Add(minor, other.minor);
        Ok(Money(sum, currency))
    }

    function Minus(other: Money): (r: Result<Money>)
      ensures r.Ok? <==> Compatible(other).None? && Fits(minor as int - other.minor as int)
      ensures r.Ok? ==> r.value.minor as int == minor as int - other.minor as int && r.value.currency == currency
    {
      if Compatible(other).Some? then Err(Compatible(other).value)
      else
        var difference :- Subtract(minor, other.minor);
        Ok(Money(difference, currency))
    }

    function Negate(): (r: Result<Money>)
      ensures r.Ok? <==> Initialized() && Fits(-(minor as int))
      ensures r.Ok? ==> r.value.minor as int == -(minor as int) && r.value.currency == currency
    {
      if !Initialized() then Err(Uninitialized)
      else if minor == MIN_INT64 then Err(AmountOverflow)
      else Ok(Money(-minor, currency))
    }
  }

  // Subtraction undoes addition whenever the addition fits.
  lemma MinusUndoesPlus(a: Money, b: Money)
    requires a.Plus(b).Ok?
    ensures a.Plus(b).value.Minus(b) == Ok(a)
  {
  }
}
