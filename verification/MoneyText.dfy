// The contract form of an amount: how it is recognised, parsed and printed.
module MoneyText {
  import opened Base
  import opened MoneyModel

  predicate IsDigit(c: char) {
    '0' <= c <= '9'
  }

  function DigitValue(c: char): (d: int)
    requires IsDigit(c)
    ensures 0 <= d <= 9
  {
    c as int - '0' as int
  }

  function DigitChar(d: int): (c: char)
    requires 0 <= d <= 9
    ensures IsDigit(c) && DigitValue(c) == d
  {
    (d + '0' as int) as char
  }

  predicate AllDigits(s: string) {
    forall i :: 0 <= i < |s| ==> IsDigit(s[i])
  }

  // The number a digit string denotes.
  function Value(s: string): nat
    requires AllDigits(s)
  {
    if s == "" then 0 else Value(s[..|s| - 1]) * 10 + DigitValue(s[|s| - 1])
  }

  predicate NoLeadingZero(s: string) {
    |s| >= 1 && (|s| == 1 || s[0] != '0')
  }

  // Canonical unsigned form: digits without leading zeros, a point, exactly two digits.
  predicate IsMagnitude(s: string) {
    |s| >= 4 && s[|s| - 3] == '.'
    && AllDigits(s[..|s| - 3]) && AllDigits(s[|s| - 2..]) && NoLeadingZero(s[..|s| - 3])
  }

  function MagnitudeValue(s: string): nat
    requires IsMagnitude(s)
  {
    Value(s[..|s| - 3]) * 100 + Value(s[|s| - 2..])
  }

  // What a parse must answer: the denoted value when it is canonical and fits, an overflow when
  // it is canonical but too large, and an invalid amount otherwise (negative zero included).
  function ParseAmount(raw: string): (r: Result<int64>)
    ensures r.Ok? ==> r.value != MIN_INT64
    ensures r.Err? ==> r.error in {AmountOverflow, InvalidAmount}
  {
    var negative := raw != "" && raw[0] == '-';
    var body := if negative then raw[1..] else raw;
    if !IsMagnitude(body) || (negative && MagnitudeValue(body) == 0) then Err(InvalidAmount)
    else if MagnitudeValue(body) > MAX_INT64 as int then Err(AmountOverflow)
    else Ok(if negative then (-(MagnitudeValue(body) as int)) as int64 else MagnitudeValue(body) as int64)
  }

  // Index of the first occurrence, or -1.
  method IndexByte(s: string, c: char) returns (k: int)
    ensures -1 <= k < |s|
    ensures k >= 0 ==> s[k] == c && c !in s[..k]
    ensures k < 0 ==> c !in s
  {
    k := 0;
    while k < |s|
      invariant 0 <= k <= |s| && c !in s[..k]
    {
      if s[k] == c {
        return;
      }
      k := k + 1;
    }
    k := -1;
  }

  method RequireDigits(part: string) returns (ok: bool)
    ensures ok <==> AllDigits(part)
  {
    var i := 0;
    while i < |part|
      invariant 0 <= i <= |part| && AllDigits(part[..i])
    {
      if part[i] < '0' || part[i] > '9' {
        return false;
      }
      assert part[..i + 1] == part[..i] + [part[i]];
      i := i + 1;
    }
    assert part[..i] == part;
    ok := true;
  }

  lemma {:induction false} PrefixValueAtMost(s: string, i: nat)
    requires AllDigits(s) && i <= |s|
    ensures Value(s[..i]) <= Value(s)
    decreases |s| - i
  {
    if i < |s| {
      assert s[..i + 1][..i] == s[..i];
      PrefixValueAtMost(s, i + 1);
    } else {
      assert s[..i] == s;
    }
  }

  method DigitsToMinorUnits(integerPart: string, fractionPart: string) returns (r: Result<int64>)
    requires AllDigits(integerPart) && AllDigits(fractionPart) && |fractionPart| == SCALE
    ensures var total := Value(integerPart) * 100 + Value(fractionPart);
            r == if total <= MAX_INT64 as int then Ok(total as int64) else Err(AmountOverflow)
  {
    var minor: int64 := 0;
    var i := 0;
    while i < |integerPart|
      invariant 0 <= i <= |integerPart|
      invariant minor as int == Value(integerPart[..i])
    {
      assert integerPart[..i + 1][..i] == integerPart[..i];
      PrefixValueAtMost(integerPart, i + 1);
      var scaled := Multiply(minor, 10);
      if scaled.Err? {
        return Err(AmountOverflow);
      }
      var next := Add(scaled.value, DigitValue(integerPart[i]) as int64);
      if next.Err? {
        return Err(AmountOverflow);
      }
      minor := next.value;
      i := i + 1;
    }
    assert integerPart[..i] == integerPart;
    assert Value(fractionPart) == DigitValue(fractionPart[0]) * 10 + DigitValue(fractionPart[1]) by {
      assert fractionPart[..1] == [fractionPart[0]] && fractionPart[..1][..0] == "";
    }
    var scaled := Multiply(minor, MINOR_PER_UNIT);
    if scaled.Err? {
      return Err(AmountOverflow);
    }
    var fraction := DigitValue(fractionPart[0]) as int64 * 10 + DigitValue(fractionPart[1]) as int64;
    r := Add(scaled.value, fraction);
  }

  // With the first point at k, the checks around it decide the canonical shape.
  lemma ShapeAroundPoint(body: string, k: nat)
    requires k < |body| && body[k] == '.' && '.' !in body[..k]
    ensures IsMagnitude(body) <==>
            k == |body| - 3 && NoLeadingZero(body[..k]) && AllDigits(body[..k]) && AllDigits(body[k + 1..])
  {
  }

  // The strict parser: one left-to-right pass of checks, then the checked conversion.
  method ParseMinorUnits(raw: string) returns (r: Result<int64>)
    ensures r == ParseAmount(raw)
  {
    if raw == "" {
      return Err(InvalidAmount);
    }
    var body := raw;
    var negative := body[0] == '-';
    if negative {
      body := body[1..];
    }
    var separator := IndexByte(body, '.');
    if separator < 0 {
      return Err(InvalidAmount);
    }
    ShapeAroundPoint(body, separator);
    var integerPart, fractionPart := body[..separator], body[separator + 1..];
    if |fractionPart| != SCALE {
      return Err(InvalidAmount);
    }
    if integerPart == "" {
      return Err(InvalidAmount);
    }
    if |integerPart| > 1 && integerPart[0] == '0' {
      return Err(InvalidAmount);
    }
    var integerOk := RequireDigits(integerPart);
    if !integerOk {
      return Err(InvalidAmount);
    }
    var fractionOk := RequireDigits(fractionPart);
    if !fractionOk {
      return Err(InvalidAmount);
    }
    assert IsMagnitude(body) && MagnitudeValue(body) == Value(integerPart) * 100 + Value(fractionPart);
    var converted := DigitsToMinorUnits(integerPart, fractionPart);
    if converted.Err? {
      return Err(converted.error);
    }
    if !negative {
      return converted;
    }
    if converted.value == 0 {
      return Err(InvalidAmount);
    }
    r := Ok(-converted.value);
  }

  // Decimal digits of a natural number.
  function FormatNat(n: nat): (s: string)
    ensures AllDigits(s) && NoLeadingZero(s) && (n > 0 ==> s[0] != '0')
    ensures Value(s) == n
  {
    if n < 10 then [DigitChar(n)]
    else
      var rest := FormatNat(n / 10);
      var s := rest + [DigitChar(n % 10)];
      assert s[..|s| - 1] == rest;
      s
  }

  // The contract form of an amount: quotient and remainder truncate toward zero.
  function Format(minor: int64): string {
    var quotient := TruncDiv(minor, MINOR_PER_UNIT) as int;
    var remainder := minor as int - quotient * 100;
    var sign := if minor < 0 then "-" else "";
    var units, cents := if minor < 0 then -quotient else quotient, if minor < 0 then -remainder else remainder;
    sign + FormatNat(units) + "." + (if cents < 10 then "0" else "") + FormatNat(cents)
  }

  // A digit string without leading zeros is the one its value prints as.
  lemma {:induction false} FormatNatInverts(s: string)
    requires AllDigits(s) && NoLeadingZero(s)
    ensures FormatNat(Value(s)) == s
  {
    var last, rest := s[|s| - 1], s[..|s| - 1];
    assert s == rest + [last];
    assert DigitChar(DigitValue(last)) == last;
    if rest == "" {
      assert Value(s) == DigitValue(last);
    } else {
      assert rest[0] == s[0];
      FormatNatInverts(rest);
      var v := Value(rest);
      assert FormatNat(v)[0] != '0' && FormatNat(0) == ['0'];
      assert Value(s) / 10 == v && Value(s) % 10 == DigitValue(last);
    }
  }

  function TwoDigits(cents: nat): (s: string)
    requires cents < 100
    ensures |s| == 2 && AllDigits(s) && Value(s) == cents
  {
    var s := (if cents < 10 then "0" else "") + FormatNat(cents);
    assert |FormatNat(cents)| == if cents < 10 then 1 else 2;
    assert s[..1] == [s[0]] && s[..1][..0] == "";
    if cents < 10 then
      assert s == "0" + FormatNat(cents); assert s[1] == FormatNat(cents)[0]; s
    else
      assert s == FormatNat(cents); s
  }

  lemma TwoDigitsInverts(s: string)
    requires |s| == 2 && AllDigits(s)
    ensures Value(s) < 100 && TwoDigits(Value(s)) == s
  {
    assert s[..1] == [s[0]] && s[..1][..0] == "" && s == [s[0], s[1]];
    var a, b := DigitValue(s[0]), DigitValue(s[1]);
    assert Value(s[..1]) == a;
    assert Value(s) == a * 10 + b;
    assert DigitChar(a) == s[0] && DigitChar(b) == s[1];
    if a == 0 {
      assert FormatNat(b) == [s[1]];
    } else {
      assert (a * 10 + b) / 10 == a && (a * 10 + b) % 10 == b;
      assert FormatNat(a) == [s[0]];
    }
  }

  // The printed form splits into the two parts the parser looks for.
  lemma FormatParts(minor: int64) returns (negative: bool, units: nat, cents: nat)
    ensures negative == (minor < 0) && cents < 100
    ensures units * 100 + cents == if negative then -(minor as int) else minor as int
    ensures Format(minor) == (if negative then "-" else "") + (FormatNat(units) + "." + TwoDigits(cents))
  {
    var quotient := TruncDiv(minor, MINOR_PER_UNIT) as int;
    var remainder := minor as int - quotient * 100;
    negative := minor < 0;
    units, cents := if negative then -quotient else quotient, if negative then -remainder else remainder;
  }

  lemma MagnitudeOf(units: nat, cents: nat)
    requires cents < 100
    ensures var s := FormatNat(units) + "." + TwoDigits(cents);
            IsMagnitude(s) && MagnitudeValue(s) == units * 100 + cents && s[0] != '-'
  {
    var s := FormatNat(units) + "." + TwoDigits(cents);
    assert s[..|s| - 3] == FormatNat(units);
    assert s[|s| - 2..] == TwoDigits(cents);
    assert s[0] == FormatNat(units)[0];
  }

  lemma ParseSigned(negative: bool, s: string)
    requires IsMagnitude(s) && s[0] != '-'
    ensures var v := MagnitudeValue(s);
            ParseAmount((if negative then "-" else "") + s) ==
            if negative && v == 0 then Err(InvalidAmount)
            else if v > MAX_INT64 as int then Err(AmountOverflow)
            else Ok(if negative then (-(v as int)) as int64 else v as int64)
  {
    var raw := (if negative then "-" else "") + s;
    if negative {
      assert raw[1..] == s;
    } else {
      assert raw == s;
    }
  }

  // Printing then parsing gives the amount back, for every int64 except the minimum.
  lemma ParseAfterFormat(minor: int64)
    ensures ParseAmount(Format(minor)) == if minor == MIN_INT64 then Err(AmountOverflow) else Ok(minor)
  {
    var negative, units, cents := FormatParts(minor);
    MagnitudeOf(units, cents);
    ParseSigned(negative, FormatNat(units) + "." + TwoDigits(cents));
  }

  // A canonical magnitude is the printed form of its value.
  lemma MagnitudeText(s: string)
    requires IsMagnitude(s)
    ensures s == FormatNat(MagnitudeValue(s) / 100) + "." + TwoDigits(MagnitudeValue(s) % 100)
  {
    var whole, fraction := s[..|s| - 3], s[|s| - 2..];
    assert s == whole + "." + fraction;
    FormatNatInverts(whole);
    TwoDigitsInverts(fraction);
  }

  // Parsing then printing gives the text back: no two accepted texts denote the same amount.
  lemma FormatAfterParse(raw: string)
    requires ParseAmount(raw).Ok?
    ensures Format(ParseAmount(raw).value) == raw
  {
    var body := if raw[0] == '-' then raw[1..] else raw;
    MagnitudeText(body);
    var negative, units, cents := FormatParts(ParseAmount(raw).value);
    assert units == MagnitudeValue(body) / 100 && cents == MagnitudeValue(body) % 100;
    assert raw == (if negative then "-" else "") + body;
  }

  // The accepted texts are exactly the printed forms of the amounts above the minimum.
  lemma AcceptedExactly(raw: string)
    ensures ParseAmount(raw).Ok? <==> exists v: int64 :: v != MIN_INT64 && raw == Format(v)
  {
    if ParseAmount(raw).Ok? {
      FormatAfterParse(raw);
    }
    forall v: int64 | v != MIN_INT64 && raw == Format(v) ensures ParseAmount(raw).Ok? {
      ParseAfterFormat(v);
    }
  }

  predicate IsUpper(c: char) {
    'A' <= c <= 'Z'
  }

  // Shape of an ISO 4217 alphabetic code.
  predicate IsCurrency(s: string) {
    |s| == 3 && forall i :: 0 <= i < |s| ==> IsUpper(s[i])
  }

  function ParseMoney(amount: string, currency: string): Result<Money> {
    if !IsCurrency(currency) then Err(InvalidCurrency)
    else
      var minor :- ParseAmount(amount);
      Ok(Money(minor, currency))
  }
}
