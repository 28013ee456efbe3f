/** Decimal text to nine-decimal fixed point (crates/market-data/src/sponsors.rs). */
module DecimalQ9 {
  import opened Wrappers
  import opened Arithmetic

  const I128_MAX: int := 0x7fff_ffff_ffff_ffff_ffff_ffff_ffff_ffff
  const I64_MAX: int := 0x7fff_ffff_ffff_ffff
  const U32_MAX: int := 0xffff_ffff

  // ----- digits -----

  predicate IsDigit(c: char) { '0' <= c <= '9' }

  predicate AllDigits(s: string) { forall k :: 0 <= k < |s| ==> IsDigit(s[k]) }

  function DigitValue(c: char): (d: nat)
    requires IsDigit(c)
    ensures d <= 9
  {
    c as int - '0' as int
  }

  /** The number written by the digits. */
  function Number(digits: string): nat
    requires AllDigits(digits)
  {
    if digits == "" then 0 else Number(digits[..|digits| - 1]) * 10 + DigitValue(digits[|digits| - 1])
  }

  /** The digits read left to right with checked arithmetic. */
  function CheckedNumber(digits: string, cap: int): Option<nat>
    requires AllDigits(digits)
  {
    if digits == "" then Some(0)
    else
      match CheckedNumber(digits[..|digits| - 1], cap)
      case None => None
      case Some(value) =>
        var d := DigitValue(digits[|digits| - 1]);
        if value * 10 > cap || value * 10 + d > cap then None else Some(value * 10 + d)
  }

  lemma {:induction false} CheckedNumberIs(digits: string, cap: int)
    requires AllDigits(digits) && cap >= 0
    ensures CheckedNumber(digits, cap) == if Number(digits) <= cap then Some(Number(digits)) else None
  {
    if digits != "" { CheckedNumberIs(digits[..|digits| - 1], cap); }
  }

  /** The decimal text of a number, without leading zeros. */
  function Text(n: nat): (s: string)
    ensures AllDigits(s) && s != "" && (s[0] == '0' <==> n == 0) && (n == 0 ==> s == "0")
  {
    if n < 10 then [('0' as int + n) as char] else Text(n / 10) + [('0' as int + n % 10) as char]
  }

  lemma {:induction false} TextNumber(n: nat)
    ensures Number(Text(n)) == n
  {
    if n < 10 {
      assert Text(n)[..0] == "";
    } else {
      TextNumber(n / 10);
      assert Text(n)[..|Text(n)| - 1] == Text(n / 10);
    }
  }

  function SignedText(i: int): string { if i < 0 then "-" + Text(-i) else Text(i) }

  // ----- powers of ten -----

  function Pow10(n: nat): (p: nat)
    ensures p >= 1
  {
    if n == 0 then 1 else 10 * Pow10(n - 1)
  }

  /** Multiplied up in 128 bits. */
  function PowerOfTen(exponent: nat): (r: Option<nat>)
    ensures r.Some? ==> r.value >= 1
  {
    if exponent == 0 then Some(1)
    else
      match PowerOfTen(exponent - 1)
      case None => None
      case Some(value) => if value * 10 > I128_MAX then None else Some(value * 10)
  }

  lemma LargestPower()
    ensures Pow10(38) <= I128_MAX < Pow10(39)
  {
    assert Pow10(13) == 1_0000_0000_0000_0;
    assert Pow10(26) == 1_0000_0000_0000_0000_0000_0000_00;
    assert Pow10(38) == 1_0000_0000_0000_0000_0000_0000_0000_0000_0000_00;
  }

  lemma {:induction false} Pow10Grows(a: nat, b: nat)
    requires a <= b
    ensures Pow10(a) <= Pow10(b)
  {
    if a < b { Pow10Grows(a, b - 1); }
  }

  lemma Pow10Step(n: nat)
    requires n > 0
    ensures Pow10(n) == 10 * Pow10(n - 1)
  {
  }

  lemma {:induction false} PowerOfTenIs(exponent: nat)
    ensures PowerOfTen(exponent) == if exponent <= 38 then Some(Pow10(exponent)) else None
  {
    hide Pow10;
    LargestPower();
    if exponent == 0 {
      assert Pow10(0) == 1 by { FirstPower(); }
    } else {
      PowerOfTenIs(exponent - 1);
      Pow10Step(exponent);
      if exponent <= 38 { Pow10Grows(exponent, 38); }
    }
  }

  lemma FirstPower()
    ensures Pow10(0) == 1
  {
  }

  // ----- the scaling -----

  /** The value times a power of ten in 128 bits; a negative power divides, towards zero. */
  function Rescaled(value: int, scale: int): Option<int> {
    match PowerOfTen(if scale >= 0 then scale else -scale)
    case None => None
    case Some(power) =>
      if scale < 0 then Some(Truncated(value, power))
      else if -I128_MAX - 1 <= value * power <= I128_MAX then Some(value * power)
      else None
  }

  /** The greatest integer not above the value times ten to the scale. */
  function Floored(value: nat, scale: int): int {
    if scale >= 0 then value * Pow10(scale) else value / Pow10(-scale)
  }

  lemma RescaledIs(value: nat, scale: int, cap: int)
    requires 0 < value <= I128_MAX && 0 < cap <= I128_MAX
    ensures var r := Rescaled(value, scale);
            r.Some? && 0 < r.value <= cap <==> 1 <= Floored(value, scale) <= cap
    ensures var r := Rescaled(value, scale);
            r.Some? && 0 < r.value ==> r.value == Floored(value, scale) && r.value <= I128_MAX
  {
    hide PowerOfTen, Pow10;
    var n := if scale >= 0 then scale else -scale;
    PowerOfTenIs(n);
    if n > 38 { TooLarge(value, n); }
    if n <= 38 && scale >= 0 { assert value * Pow10(n) >= 0; }
  }

  /** Beyond thirty-eight places a product does not fit and a quotient is zero. */
  lemma TooLarge(value: nat, n: nat)
    requires 0 < value <= I128_MAX && n > 38
    ensures value * Pow10(n) > I128_MAX && value / Pow10(n) == 0
  {
    hide Pow10;
    LargestPower();
    Pow10Grows(39, n);
    Beyond(value, Pow10(n));
  }

  lemma Beyond(value: nat, p: nat)
    requires 0 < value < p
    ensures value * p >= p && value / p == 0
  {
    assert value * p == (value - 1) * p + p;
  }

  // ----- the parser -----

  predicate IsSpace(c: char) { c == ' ' || c == '\t' || c == '\n' || c == '\r' || c as int == 12 }

  predicate IsMark(c: char) { c == 'e' || c == 'E' }

  /** Index of the first exponent mark, or the length. */
  function FirstMark(s: string): (i: nat)
    ensures i <= |s| && (forall k :: 0 <= k < i ==> !IsMark(s[k])) && (i < |s| ==> IsMark(s[i]))
  {
    if s == "" || IsMark(s[0]) then 0 else 1 + FirstMark(s[1..])
  }

  /** Index of the first point, or the length. */
  function FirstPoint(s: string): (i: nat)
    ensures i <= |s| && (forall k :: 0 <= k < i ==> s[k] != '.') && (i < |s| ==> s[i] == '.')
  {
    if s == "" || s[0] == '.' then 0 else 1 + FirstPoint(s[1..])
  }

  function SignOf(s: string): string { if s != "" && (s[0] == '-' || s[0] == '+') then [s[0]] else "" }

  function Signed(sign: string, magnitude: int): int { if sign == "-" then -magnitude else magnitude }

  function ParseWideExponent(s: string): Option<int> {
    var sign := SignOf(s);
    var digits := s[|sign|..];
    if digits == "" || !AllDigits(digits) then None
    else
      match CheckedNumber(digits, I64_MAX)
      case None => None
      case Some(magnitude) => Some(Signed(sign, magnitude))
  }

  function ParseDecimalQ9Wide(input: string): Option<string> {
    if input == "" || exists k :: 0 <= k < |input| && IsSpace(input[k]) then None
    else
      var mark := FirstMark(input);
      if mark < |input| && FirstMark(input[mark + 1..]) < |input[mark + 1..]| then None
      else
        var exponent := if mark < |input| then ParseWideExponent(input[mark + 1..]) else Some(0);
        if exponent.None? then None else ParseMantissa(input[..mark], exponent.value)
  }

  function ParseMantissa(mantissa: string, exponent: int): Option<string> {
    var sign := SignOf(mantissa);
    var unsigned := mantissa[|sign|..];
    var point := FirstPoint(unsigned);
    var integer := unsigned[..point];
    var fraction := if point < |unsigned| then unsigned[point + 1..] else "";
    if (integer == "" && fraction == "") || !AllDigits(integer) || !AllDigits(fraction) || sign == "-" then None
    else Scaled(integer, fraction, exponent)
  }

  function Scaled(integer: string, fraction: string, exponent: int): Option<string>
    requires AllDigits(integer) && AllDigits(fraction)
  {
    var coefficient := CheckedNumber(integer + fraction, I128_MAX);
    var places := |fraction|;
    if coefficient.None? || coefficient.value == 0 || places > I64_MAX then None
    else if exponent - places < -I64_MAX - 1 || exponent - places + 9 > I64_MAX then None
    else
      var scale := exponent - places + 9;
      if scale > U32_MAX || -scale > U32_MAX then None
      else
        var scaled := Rescaled(coefficient.value, scale);
        if scaled.None? || scaled.value <= 0 then None else Some(Text(scaled.value))
  }

  function PythMantissaToQ9(mantissa: int, exponent: int): Option<int> {
    var scaled := Rescaled(mantissa, exponent + 9);
    if scaled.None? || scaled.value <= 0 || scaled.value > I64_MAX then None else scaled
  }

  // ----- what a numeral means -----

  /** The parts of a numeral as written. */
  datatype Numeral = Numeral(sign: string, integer: string, point: bool, fraction: string, exponent: Option<Power>)

  datatype Power = Power(mark: char, sign: string, digits: string)

  predicate IsSign(s: string) { s == "" || s == "+" || s == "-" }

  predicate WellFormed(n: Numeral) {
    && (n.sign == "" || n.sign == "+" || n.sign == "-") && AllDigits(n.integer) && AllDigits(n.fraction)
    && (n.integer != "" || n.fraction != "") && (!n.point ==> n.fraction == "")
    && (n.exponent.Some? ==> WellFormedPower(n.exponent.value))
  }

  predicate WellFormedPower(p: Power) {
    && (p.mark == 'e' || p.mark == 'E') && (p.sign == "" || p.sign == "+" || p.sign == "-")
    && p.digits != "" && AllDigits(p.digits)
  }

  function Mantissa(n: Numeral): string { n.sign + Unsigned(n) }

  function Unsigned(n: Numeral): string { n.integer + (if n.point then "." else "") + n.fraction }

  function Written(n: Numeral): string {
    Mantissa(n) + match n.exponent
                  case None => ""
                  case Some(p) => [p.mark] + (p.sign + p.digits)
  }

  /** Ten to any integer power. */
  function TenTo(k: int): real { if k >= 0 then Pow10(k) as real else 1.0 / Pow10(-k) as real }

  /** The value of digits after the point. */
  function FractionValue(digits: string): real
    requires AllDigits(digits)
  {
    if digits == "" then 0.0 else (DigitValue(digits[0]) as real + FractionValue(digits[1..])) / 10.0
  }

  function Magnitude(p: Power): nat
    requires WellFormedPower(p)
  {
    Number(p.digits)
  }

  function ExponentOf(n: Numeral): int
    requires WellFormed(n)
  {
    match n.exponent
    case None => 0
    case Some(p) => Signed(p.sign, Magnitude(p))
  }

  function Value(n: Numeral): real
    requires WellFormed(n)
  {
    var size := (Number(n.integer) as real + FractionValue(n.fraction)) * TenTo(ExponentOf(n));
    if n.sign == "-" then -size else size
  }

  function Q9(n: Numeral): int
    requires WellFormed(n)
  {
    (Value(n) * 1000000000.0).Floor
  }

  /** The parts fit the integer types they are read into. */
  predicate Representable(n: Numeral)
    requires WellFormed(n)
  {
    && Number(n.integer + n.fraction) <= I128_MAX && |n.fraction| <= I64_MAX
    && (n.exponent.Some? ==> Magnitude(n.exponent.value) <= I64_MAX)
  }

  // ----- real arithmetic -----

  lemma {:induction false} Pow10Adds(a: nat, b: nat)
    ensures Pow10(a + b) == Pow10(a) * Pow10(b)
  {
    if a > 0 { Pow10Adds(a - 1, b); }
  }

  lemma Quotient(a: real, b: real, c: real)
    requires a > 0.0 && b > 0.0 && c == a * b
    ensures c / a == b && 1.0 / b == a / c && 1.0 / c == 1.0 / a * (1.0 / b)
  {
  }

  lemma TenToAdds(a: int, b: int)
    ensures TenTo(a + b) == TenTo(a) * TenTo(b)
  {
    hide Pow10;
    if a >= 0 && b >= 0 {
      Pow10Adds(a, b);
    } else if a < 0 && b < 0 {
      BothNegative(-a, -b);
    } else if a >= 0 {
      MixedSigns(a, -b);
    } else {
      MixedSigns(b, -a);
    }
  }

  lemma BothNegative(a: nat, b: nat)
    requires a > 0 && b > 0
    ensures TenTo(-(a as int) - b) == TenTo(-(a as int)) * TenTo(-(b as int))
  {
    hide Pow10;
    Pow10Adds(a, b);
    Quotient(Pow10(a) as real, Pow10(b) as real, Pow10(a + b) as real);
  }

  lemma MixedSigns(a: nat, b: nat)
    ensures TenTo(a as int - b) == TenTo(a) * TenTo(-(b as int))
  {
    hide Pow10;
    if a >= b {
      Pow10Adds(a - b, b);
      Quotient(Pow10(b) as real, Pow10(a - b) as real, Pow10(a) as real);
    } else {
      Pow10Adds(a, b - a);
      Quotient(Pow10(a) as real, Pow10(b - a) as real, Pow10(b) as real);
    }
  }

  function Times(x: real, y: real): real { x * y }

  /** The digits before and after the point, read together, are the mantissa times a power. */
  lemma {:induction false} DigitsTogether(integer: string, fraction: string)
    requires AllDigits(integer) && AllDigits(fraction)
    ensures Number(integer + fraction) as real
              == Times(Number(integer) as real + FractionValue(fraction), TenTo(|fraction|))
    decreases |fraction|
  {
    hide Times, Pow10;
    if fraction == "" {
      assert integer + fraction == integer;
      TimesOne(Number(integer) as real);
    } else {
      var longer, rest := integer + fraction[..1], fraction[1..];
      assert integer + fraction == longer + rest && longer[..|longer| - 1] == integer;
      DigitsTogether(longer, rest);
      Pow10Step(|fraction|);
      ShiftDigit(Number(integer) as real, DigitValue(fraction[0]) as real, FractionValue(rest), TenTo(|rest|));
    }
  }

  lemma TimesOne(x: real)
    ensures Times(x + 0.0, TenTo(0)) == x
  {
  }

  lemma ShiftDigit(i: real, d: real, f: real, p: real)
    ensures Times(i * 10.0 + d + f, p) == Times(i + (d + f) / 10.0, 10.0 * p)
  {
    hide Times;
    assert i * 10.0 + d + f == (i + (d + f) / 10.0) * 10.0;
    MoveTen(i + (d + f) / 10.0, p);
  }

  lemma MoveTen(h: real, p: real)
    ensures Times(h * 10.0, p) == Times(h, 10.0 * p)
  {
  }

  lemma FlooredIs(value: nat, scale: int)
    ensures (value as real * TenTo(scale)).Floor == Floored(value, scale)
  {
    hide Pow10;
    if scale >= 0 {
      assert value as real * TenTo(scale) == (value * Pow10(scale)) as real;
    } else {
      QuotientFloor(value, Pow10(-scale));
    }
  }

  lemma QuotientFloor(value: nat, p: nat)
    requires p >= 1
    ensures (value as real * (1.0 / p as real)).Floor == value / p
  {
    var q, r := value / p, value % p;
    assert value == q * p + r;
    var x := value as real * (1.0 / p as real);
    assert x * p as real == value as real;
    assert (q * p) as real == q as real * p as real;
    assert (x - q as real) * p as real == r as real;
    assert 0.0 <= x - q as real < 1.0;
  }

  /** Nine decimals of the value, rounded down, from the coefficient and the exponent. */
  lemma Q9Is(n: Numeral)
    requires WellFormed(n) && n.sign != "-"
    ensures Q9(n) == Floored(Number(n.integer + n.fraction), ExponentOf(n) - |n.fraction| + 9)
  {
    hide TenTo, Number, FractionValue, ExponentOf, Floored, Times;
    DigitsTogether(n.integer, n.fraction);
    var c := Number(n.integer + n.fraction);
    ScaledValue(c as real, Number(n.integer) as real + FractionValue(n.fraction), |n.fraction|, ExponentOf(n));
    FlooredIs(c, ExponentOf(n) - |n.fraction| + 9);
  }

  lemma ScaledValue(c: real, m: real, f: int, e: int)
    requires f >= 0 && c == Times(m, TenTo(f))
    ensures m * TenTo(e) * 1000000000.0 == c * TenTo(e - f + 9)
  {
    hide TenTo;
    NinePlaces();
    TenToAdds(f, -f);
    TenToAdds(-f, e);
    TenToAdds(e - f, 9);
    Rearranged(c, m, TenTo(f), TenTo(-f), TenTo(e), TenTo(e - f), TenTo(9), TenTo(e - f + 9));
  }

  lemma Rearranged(c: real, m: real, up: real, down: real, te: real, moved: real, nine: real, all: real)
    requires c == m * up && up * down == 1.0 && moved == down * te && all == moved * nine
    ensures m * te * nine == c * all
  {
    assert c * all == m * (up * down) * (te * nine);
  }

  lemma NinePlaces()
    ensures TenTo(9) == 1000000000.0 && TenTo(0) == 1.0
  {
    assert Pow10(9) == 1000000000;
  }

  /** Nothing is lost in rounding down exactly when the digits beyond the ninth decimal place are
      all zero. */
  lemma ExactExactly(n: Numeral)
    requires WellFormed(n) && n.sign != "-"
    ensures var c, s := Number(n.integer + n.fraction), ExponentOf(n) - |n.fraction| + 9;
            Q9(n) as real == Value(n) * 1000000000.0 <==> s >= 0 || c % Pow10(-s) == 0
  {
    hide TenTo, Number, FractionValue, ExponentOf, Floored, Times, Pow10;
    Q9Is(n);
    DigitsTogether(n.integer, n.fraction);
    var c, s := Number(n.integer + n.fraction), ExponentOf(n) - |n.fraction| + 9;
    ScaledValue(c as real, Number(n.integer) as real + FractionValue(n.fraction), |n.fraction|, ExponentOf(n));
    FlooredExactly(c, s);
  }

  lemma FlooredExactly(value: nat, scale: int)
    ensures Floored(value, scale) as real == value as real * TenTo(scale) <==> scale >= 0 || value % Pow10(-scale) == 0
  {
    hide Pow10;
    if scale >= 0 {
      assert value as real * TenTo(scale) == (value * Pow10(scale)) as real;
    } else {
      QuotientExactly(value, Pow10(-scale));
    }
  }

  lemma QuotientExactly(value: nat, p: nat)
    requires p >= 1
    ensures (value / p) as real == value as real * (1.0 / p as real) <==> value % p == 0
  {
    var q, r := value / p, value % p;
    assert value == q * p + r;
    var x := value as real * (1.0 / p as real);
    assert x * p as real == value as real;
    assert (q * p) as real == q as real * p as real;
    assert (x - q as real) * p as real == r as real;
  }

  /** A negative numeral is never positive. */
  lemma NegativeQ9(n: Numeral)
    requires WellFormed(n) && n.sign == "-"
    ensures Q9(n) <= 0
  {
    hide Number, ExponentOf;
    FractionNonNegative(n.fraction);
    var m, t := Number(n.integer) as real + FractionValue(n.fraction), TenTo(ExponentOf(n));
    TenToPositive(ExponentOf(n));
    NonNegative(m, t);
  }

  lemma NonNegative(m: real, t: real)
    requires m >= 0.0 && t > 0.0
    ensures m * t >= 0.0
  {
  }

  lemma TenToPositive(k: int)
    ensures TenTo(k) > 0.0
  {
    hide Pow10;
  }

  lemma {:induction false} FractionNonNegative(digits: string)
    requires AllDigits(digits)
    ensures FractionValue(digits) >= 0.0
  {
    if digits != "" { FractionNonNegative(digits[1..]); }
  }

  // ----- the parser reads every numeral -----

  lemma ScaledIs(integer: string, fraction: string, exponent: int)
    requires AllDigits(integer) && AllDigits(fraction) && -I64_MAX <= exponent <= I64_MAX
    ensures var c, s := Number(integer + fraction), exponent - |fraction| + 9;
            Scaled(integer, fraction, exponent) ==
              if c <= I128_MAX && |fraction| <= I64_MAX && 1 <= Floored(c, s) <= I128_MAX
                 then Some(Text(Floored(c, s))) else None
  {
    hide Rescaled, Floored, CheckedNumber, Number, Text;
    var c, s := Number(integer + fraction), exponent - |fraction| + 9;
    CheckedNumberIs(integer + fraction, I128_MAX);
    if c == 0 {
      ZeroFloored(s);
    } else if c <= I128_MAX {
      RescaledIs(c, s, I128_MAX);
      if s > 38 || s < -38 { FarFloored(c, s); }
    }
  }

  lemma ZeroFloored(scale: int)
    ensures Floored(0, scale) == 0
  {
    hide Pow10;
  }

  lemma FarFloored(value: nat, scale: int)
    requires 0 < value <= I128_MAX && (scale > 38 || scale < -38)
    ensures !(1 <= Floored(value, scale) <= I128_MAX)
  {
    hide Pow10;
    TooLarge(value, if scale > 0 then scale else -scale);
  }

  lemma ExponentRead(p: Power)
    requires WellFormedPower(p)
    ensures ParseWideExponent(p.sign + p.digits) ==
              if Magnitude(p) <= I64_MAX then Some(Signed(p.sign, Magnitude(p))) else None
  {
    hide CheckedNumber, Number;
    var s := p.sign + p.digits;
    assert SignOf(s) == p.sign && s[|p.sign|..] == p.digits;
    CheckedNumberIs(p.digits, I64_MAX);
  }

  lemma SignRead(sign: string, rest: string)
    requires IsSign(sign) && rest != "" && rest[0] != '-' && rest[0] != '+'
    ensures SignOf(sign + rest) == sign && (sign + rest)[|sign|..] == rest
  {
    if sign == "" { assert sign + rest == rest; } else { assert (sign + rest)[0] == sign[0]; }
  }

  lemma PointRead(n: Numeral)
    requires WellFormed(n)
    ensures var u, k := Unsigned(n), |n.integer|;
            && k <= |u| && FirstPoint(u) == k && u[..k] == n.integer
            && (if k < |u| then u[k + 1..] else "") == n.fraction
  {
    var u := Unsigned(n);
    assert u[..|n.integer|] == n.integer;
    if n.point { assert u[|n.integer|] == '.' && u[|n.integer| + 1..] == n.fraction; }
    PointIs(u, |n.integer|);
  }

  lemma UnsignedStart(n: Numeral)
    requires WellFormed(n)
    ensures Unsigned(n) != "" && (IsDigit(Unsigned(n)[0]) || Unsigned(n)[0] == '.')
  {
  }

  lemma MantissaRead(n: Numeral, exponent: int)
    requires WellFormed(n)
    ensures ParseMantissa(Mantissa(n), exponent) ==
              if n.sign == "-" then None else Scaled(n.integer, n.fraction, exponent)
  {
    hide Scaled, Unsigned, SignOf, FirstPoint;
    UnsignedStart(n);
    SignRead(n.sign, Unsigned(n));
    PointRead(n);
  }

  lemma PointIs(s: string, i: nat)
    requires i <= |s| && (forall k :: 0 <= k < i ==> s[k] != '.') && (i < |s| ==> s[i] == '.')
    ensures FirstPoint(s) == i
  {
    hide FirstPoint;
  }

  lemma MarkIs(s: string, i: nat)
    requires i <= |s| && (forall k :: 0 <= k < i ==> !IsMark(s[k])) && (i < |s| ==> IsMark(s[i]))
    ensures FirstMark(s) == i
  {
    hide FirstMark;
  }

  predicate Plain(s: string) { forall k :: 0 <= k < |s| ==> !IsMark(s[k]) && !IsSpace(s[k]) }

  lemma MantissaPlain(n: Numeral)
    requires WellFormed(n)
    ensures Plain(Mantissa(n)) && Mantissa(n) != ""
  {
    assert Plain(n.sign) && Plain(n.integer) && Plain(n.fraction);
  }

  lemma PowerPlain(p: Power)
    requires WellFormedPower(p)
    ensures Plain(p.sign + p.digits)
  {
  }

  lemma NumeralRead(n: Numeral)
    requires WellFormed(n)
    ensures ParseDecimalQ9Wide(Written(n)) ==
      if n.exponent.Some? && Magnitude(n.exponent.value) > I64_MAX then None
      else ParseMantissa(Mantissa(n), ExponentOf(n))
  {
    hide ParseMantissa, ParseWideExponent, Mantissa, Number, FirstMark;
    var m, input := Mantissa(n), Written(n);
    MantissaPlain(n);
    if n.exponent.Some? {
      var p := n.exponent.value;
      var rest := p.sign + p.digits;
      PowerPlain(p);
      assert input == m + [p.mark] + rest;
      assert forall k :: 0 <= k < |input| ==>
        input[k] == if k < |m| then m[k] else if k == |m| then p.mark else rest[k - |m| - 1];
      MarkIs(input, |m|);
      MarkIs(rest, |rest|);
      assert input[|m| + 1..] == rest && input[..|m|] == m;
      ExponentRead(p);
    } else {
      assert input == m;
      MarkIs(input, |m|);
      assert input[..|m|] == m;
    }
  }

  /** The numeral is taken: its parts fit, and nine decimals of it, rounded down, are positive and
      fit 128 bits. */
  predicate Accepted(n: Numeral)
    requires WellFormed(n)
  {
    Representable(n) && 1 <= Q9(n) <= I128_MAX
  }

  /** A numeral is parsed to the text of nine decimals of its value, rounded down, exactly when it
      is accepted. */
  lemma ParsesNumeral(n: Numeral)
    requires WellFormed(n)
    ensures ParseDecimalQ9Wide(Written(n)) == if Accepted(n) then Some(Text(Q9(n))) else None
  {
    hide ParseMantissa, Scaled, Text, Value, Number, FirstMark, ParseDecimalQ9Wide, Written, Floored, Q9;
    NumeralRead(n);
    if n.sign == "-" {
      NegativeQ9(n);
      MantissaRead(n, ExponentOf(n));
    } else if !(n.exponent.Some? && Magnitude(n.exponent.value) > I64_MAX) {
      MantissaRead(n, ExponentOf(n));
      Q9Is(n);
      ScaledIs(n.integer, n.fraction, ExponentOf(n));
    }
  }

  /** One with a tenth digit after the point. */
  function TenPlaces(): Numeral { Numeral("", "1", true, "0000000001", None) }

  lemma TenPlacesWritten()
    ensures WellFormed(TenPlaces()) && Written(TenPlaces()) == "1.0000000001" && ExponentOf(TenPlaces()) == 0
    ensures TenPlaces().integer + TenPlaces().fraction == "10000000001" && |TenPlaces().fraction| == 10
    ensures TenPlaces().sign == "" && TenPlaces().exponent == None
  {
  }

  lemma OneRoundedAway()
    ensures Floored(10000000001, -1) == 1000000000 && 10000000001 % Pow10(1) != 0
  {
    assert Pow10(1) == 10 * Pow10(0);
  }

  /** The tenth digit is accepted and lost. */
  lemma DigitLost()
    ensures WellFormed(TenPlaces()) && Written(TenPlaces()) == "1.0000000001"
    ensures ParseDecimalQ9Wide("1.0000000001") == Some(Text(1000000000))
    ensures Q9(TenPlaces()) as real != Value(TenPlaces()) * 1000000000.0
  {
    TenPlacesWritten();
    LongNumber();
    OneRoundedAway();
    hide Number, Text, FractionValue, Value, Q9, TenPlaces, Floored, WellFormed, Written, Pow10, ExponentOf,
      ParseDecimalQ9Wide;
    Q9Is(TenPlaces());
    ExactExactly(TenPlaces());
    ParsesNumeral(TenPlaces());
  }

  lemma LongNumber()
    ensures Number("10000000001") == 10000000001
  {
    var s := "10000000001";
    assert s[..1][..0] == "" && AllDigits(s);
    assert Number(s[..1]) == 1;
    for k := 1 to 10
      invariant Number(s[..k]) == Pow10(k - 1)
    {
      assert s[..k + 1][..k] == s[..k] && s[k] == '0';
    }
    assert s[..11] == s && Pow10(9) == 1000000000;
  }

  /** The parts the parser finds in a text. */
  function Parts(input: string): Numeral {
    var mark := FirstMark(input);
    MantissaParts(input[..mark], if mark < |input| then Some(PowerParts(input[mark], input[mark + 1..])) else None)
  }

  function MantissaParts(mantissa: string, exponent: Option<Power>): Numeral {
    var sign := SignOf(mantissa);
    var unsigned := mantissa[|sign|..];
    var point := FirstPoint(unsigned);
    Numeral(sign, unsigned[..point], point < |unsigned|, if point < |unsigned| then unsigned[point + 1..] else "",
            exponent)
  }

  function PowerParts(mark: char, rest: string): Power { Power(mark, SignOf(rest), rest[|SignOf(rest)|..]) }

  lemma SignParts(s: string)
    ensures |SignOf(s)| <= |s| && SignOf(s) + s[|SignOf(s)|..] == s && IsSign(SignOf(s))
  {
  }

  lemma CutAt(u: string, k: nat)
    requires k < |u|
    ensures u[..k] + [u[k]] + u[k + 1..] == u
  {
  }

  lemma MantissaPartsWritten(mantissa: string, exponent: Option<Power>)
    ensures Mantissa(MantissaParts(mantissa, exponent)) == mantissa
    ensures MantissaParts(mantissa, exponent).exponent == exponent
  {
    hide FirstPoint, SignOf;
    SignParts(mantissa);
    var u := mantissa[|SignOf(mantissa)|..];
    var k := FirstPoint(u);
    if k < |u| { CutAt(u, k); } else { assert u[..k] + "" + "" == u; }
  }

  lemma PartsWritten(input: string)
    ensures Written(Parts(input)) == input
  {
    hide FirstMark, MantissaParts, SignOf, Mantissa;
    var mark := FirstMark(input);
    if mark < |input| {
      var m, rest := input[..mark], input[mark + 1..];
      var power := PowerParts(input[mark], rest);
      MantissaPartsWritten(m, Some(power));
      SignParts(rest);
      CutAt(input, mark);
      Regrouped(m, [input[mark]], rest);
      WrittenIs(Parts(input), m, power);
    } else {
      MantissaPartsWritten(input[..mark], None);
      assert input[..mark] + "" == input;
    }
  }

  lemma WrittenIs(n: Numeral, m: string, p: Power)
    requires Mantissa(n) == m && n.exponent == Some(p)
    ensures Written(n) == m + ([p.mark] + (p.sign + p.digits))
  {
    hide Mantissa;
  }

  lemma Regrouped(a: string, b: string, c: string)
    ensures a + (b + c) == a + b + c
  {
  }

  /** Only numerals are parsed. */
  lemma ParsedIsNumeral(input: string)
    requires ParseDecimalQ9Wide(input).Some?
    ensures WellFormed(Parts(input)) && Written(Parts(input)) == input
  {
    hide FirstMark, FirstPoint, Scaled, CheckedNumber, Number;
    PartsWritten(input);
  }

  /** The parser takes exactly the texts of accepted numerals, and gives for each the text of its
      value times a billion, rounded down. */
  lemma ParserIsExact(input: string)
    ensures ParseDecimalQ9Wide(input).Some? <==> exists n :: WellFormed(n) && Accepted(n) && Written(n) == input
    ensures forall n :: WellFormed(n) && Accepted(n) && Written(n) == input ==>
              ParseDecimalQ9Wide(input) == Some(Text(Q9(n)))
  {
    hide ParseDecimalQ9Wide, WellFormed, Representable, Written, Text, Q9;
    forall n | WellFormed(n) && Accepted(n) && Written(n) == input
      ensures ParseDecimalQ9Wide(input) == Some(Text(Q9(n)))
    {
      ParsesNumeral(n);
    }
    if ParseDecimalQ9Wide(input).Some? {
      ParsedIsNumeral(input);
      ParsesNumeral(Parts(input));
    }
  }

  // ----- the Pyth mantissa -----

  /** A mantissa and an exponent as text. */
  function PythText(mantissa: int, exponent: int): string { SignedText(mantissa) + "e" + SignedText(exponent) }

  function MinusFor(i: int): string { if i < 0 then "-" else "" }

  function Size(i: int): nat { if i < 0 then -i else i }

  function PythNumeral(mantissa: int, exponent: int): Numeral {
    Numeral(MinusFor(mantissa), Text(Size(mantissa)), false, "",
            Some(Power('e', MinusFor(exponent), Text(Size(exponent)))))
  }

  lemma PythWritten(mantissa: int, exponent: int)
    ensures WellFormed(PythNumeral(mantissa, exponent))
    ensures Written(PythNumeral(mantissa, exponent)) == PythText(mantissa, exponent)
  {
    hide Text, SignedText, Mantissa, MinusFor;
    var n := PythNumeral(mantissa, exponent);
    SignedTextIs(mantissa);
    SignedTextIs(exponent);
    assert Mantissa(n) == SignedText(mantissa) by { PlainMantissa(n); }
    WrittenIs(n, SignedText(mantissa), n.exponent.value);
    Regrouped(SignedText(mantissa), ['e'], SignedText(exponent));
  }

  lemma SignedTextIs(i: int)
    ensures SignedText(i) == MinusFor(i) + Text(Size(i)) && IsSign(MinusFor(i))
  {
    hide Text;
  }

  lemma PlainMantissa(n: Numeral)
    requires !n.point && n.fraction == ""
    ensures Mantissa(n) == n.sign + n.integer
  {
    assert n.integer + "" + "" == n.integer;
  }

  lemma PythQ9(mantissa: nat, exponent: int)
    ensures WellFormed(PythNumeral(mantissa, exponent))
    ensures Q9(PythNumeral(mantissa, exponent)) == Floored(mantissa, exponent + 9)
  {
    hide Text, Floored, Number, Q9;
    var n := PythNumeral(mantissa, exponent);
    PythWritten(mantissa, exponent);
    Q9Is(n);
    TextNumber(mantissa);
    TextNumber(Size(exponent));
    assert n.integer + n.fraction == Text(mantissa);
  }

  /** Converting a Pyth mantissa and exponent succeeds exactly when parsing their text as a decimal
      gives a price that fits 64 bits, and with that price. */
  lemma PythAgreesWithText(mantissa: int, exponent: int, q9: int)
    requires -I64_MAX - 1 <= mantissa <= I64_MAX && -0x8000 <= exponent <= 0x7fff
    ensures PythMantissaToQ9(mantissa, exponent) == Some(q9) <==>
            0 < q9 <= I64_MAX && ParseDecimalQ9Wide(PythText(mantissa, exponent)) == Some(SignedText(q9))
  {
    hide Rescaled, ParseDecimalQ9Wide, Floored, Text, Q9, Number;
    var n := PythNumeral(mantissa, exponent);
    PythWritten(mantissa, exponent);
    ParsesNumeral(n);
    TextNumber(Size(mantissa));
    TextNumber(Size(exponent));
    assert n.integer + n.fraction == Text(Size(mantissa));
    if q9 > 0 { TextNumber(q9); }
    if mantissa > 0 {
      PythQ9(mantissa, exponent);
      RescaledIs(mantissa, exponent + 9, I64_MAX);
      var f := Floored(mantissa, exponent + 9);
      if f >= 1 { TextNumber(f); }
    } else {
      NotPositive(mantissa, exponent + 9);
      if mantissa == 0 { PythQ9(0, exponent); ZeroFloored(exponent + 9); } else { NegativeQ9(n); }
    }
  }

  lemma NotPositive(value: int, scale: int)
    requires value <= 0
    ensures var r := Rescaled(value, scale); r.Some? ==> r.value <= 0
  {
    hide PowerOfTen;
    var r := PowerOfTen(if scale >= 0 then scale else -scale);
    if r.Some? { NegativeProduct(value, r.value); }
  }

  lemma NegativeProduct(value: int, power: nat)
    requires value <= 0 && power >= 1
    ensures value * power <= 0 && Truncated(value, power) <= 0
  {
    if value < 0 { assert -value / power >= 0; }
  }
}
