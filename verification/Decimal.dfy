/** Exact conversion of provider decimals to integer millionths (crates/backend/src/decimal.rs).

    `ToMillionths` follows the source branch by branch; `DecimalToMillionths` is the same
    computation with the source's two checked loops. What the number *means* is stated
    independently, over a literal's digits, by `IsHalfUp`. */
module Decimal {
  import opened Wrappers
  import opened Numbers

  datatype DecimalError = Invalid | Negative | Overflow

  // ---------------------------------------------------------------- digits

  predicate IsDigit(c: char) {
    '0' <= c <= '9'
  }

  predicate AllDigits(s: string) {
    forall i | 0 <= i < |s| :: IsDigit(s[i])
  }

  function DigitValue(c: char): (d: nat)
    requires IsDigit(c)
    ensures d <= 9
  {
    (c as int) - ('0' as int)
  }

  /** The natural number a digit string denotes. */
  function Nat(s: string): nat
    requires AllDigits(s)
  {
    if s == "" then 0 else 10 * Nat(s[..|s| - 1]) + DigitValue(s[|s| - 1])
  }

  function Pow10(n: nat): (p: nat)
    ensures p >= 1
  {
    if n == 0 then 1 else 10 * Pow10(n - 1)
  }

  // ------------------------------------------------------ reference meaning

  datatype Sign = NoSign | Plus | Minus

  datatype Exponent = Exponent(upper: bool, sign: Sign, digits: string)

  /** A decimal as written, without a minus sign: `[+] whole [. fraction] [e exponent]`. */
  datatype Literal = Literal(plus: bool, whole: string, point: bool, fraction: string, exponent: Option<Exponent>)

  predicate WellFormed(l: Literal) {
    && AllDigits(l.whole)
    && AllDigits(l.fraction)
    && (!l.point ==> l.fraction == "")
    && (l.whole != "" || l.fraction != "")
    && (l.exponent.Some? ==> l.exponent.value.digits != "" && AllDigits(l.exponent.value.digits))
  }

  function RenderSign(s: Sign): string {
    match s
    case NoSign => ""
    case Plus => "+"
    case Minus => "-"
  }

  function RenderMantissa(l: Literal): string {
    l.whole + (if l.point then "." + l.fraction else "")
  }

  function RenderExponent(e: Exponent): string {
    RenderSign(e.sign) + e.digits
  }

  function RenderTail(e: Option<Exponent>): string {
    match e
    case None => ""
    case Some(e) => (if e.upper then "E" else "e") + RenderExponent(e)
  }

  function Render(l: Literal): string {
    (if l.plus then "+" else "") + (RenderMantissa(l) + RenderTail(l.exponent))
  }

  function ExponentValue(e: Option<Exponent>): int
    requires e.Some? ==> AllDigits(e.value.digits)
  {
    match e
    case None => 0
    case Some(e) => if e.sign == Minus then 0 - Nat(e.digits) else Nat(e.digits)
  }

  function Coefficient(l: Literal): nat
    requires WellFormed(l)
  {
    AppendDigits(l.whole, l.fraction);
    Nat(l.whole + l.fraction)
  }

  /** The literal denotes `Coefficient * 10^Scale` millionths. */
  function Scale(l: Literal): int
    requires WellFormed(l)
  {
    ExponentValue(l.exponent) + 6 - |l.fraction|
  }

  /** `v` is `n * 10^scale` rounded to the nearest integer, ties upwards:
      `v - 1/2 <= n * 10^scale < v + 1/2`. */
  ghost predicate IsHalfUp(v: int, n: nat, scale: int) {
    if scale >= 0 then
      v == n * Pow10(scale)
    else
      (2 * v - 1) * Pow10(-scale) <= 2 * n < (2 * v + 1) * Pow10(-scale)
  }

  // ------------------------------------------------------- the source's text

  /** Unicode `White_Space`, which `str::trim` removes. */
  predicate IsWhitespace(c: char) {
    var n := c as int;
    || 9 <= n <= 13 || n == 0x20 || n == 0x85 || n == 0xA0 || n == 0x1680
    || 0x2000 <= n <= 0x200A || n == 0x2028 || n == 0x2029 || n == 0x202F || n == 0x205F || n == 0x3000
  }

  function TrimStart(s: string): string {
    if s != "" && IsWhitespace(s[0]) then TrimStart(s[1..]) else s
  }

  function TrimEnd(s: string): string {
    if s != "" && IsWhitespace(s[|s| - 1]) then TrimEnd(s[..|s| - 1]) else s
  }

  function Trim(s: string): string {
    TrimEnd(TrimStart(s))
  }

  function FindExponent(s: string): (i: nat)
    ensures i <= |s|
    ensures forall k | 0 <= k < i :: s[k] != 'e' && s[k] != 'E'
    ensures i < |s| ==> s[i] == 'e' || s[i] == 'E'
  {
    if s == "" || s[0] == 'e' || s[0] == 'E' then 0 else 1 + FindExponent(s[1..])
  }

  function FindPoint(s: string): (i: nat)
    ensures i <= |s|
    ensures forall k | 0 <= k < i :: s[k] != '.'
    ensures i < |s| ==> s[i] == '.'
  {
    if s == "" || s[0] == '.' then 0 else 1 + FindPoint(s[1..])
  }

  function SkipZeros(s: string): (r: string)
    requires AllDigits(s)
    ensures AllDigits(r)
    ensures |r| <= |s|
    ensures r != "" ==> r[0] != '0'
  {
    if s != "" && s[0] == '0' then SkipZeros(s[1..]) else s
  }

  function Min(a: int, b: int): int {
    if a <= b then a else b
  }

  /** The source's fold: `saturating_mul(10)` then `saturating_add(digit)` on an `i64`. */
  function SaturatingFold(s: string): int
    requires AllDigits(s)
  {
    if s == "" then 0
    else Min(Min(SaturatingFold(s[..|s| - 1]) * 10, MAX_I64) + DigitValue(s[|s| - 1]), MAX_I64)
  }

  function ParseExponent(value: string): Result<int, DecimalError> {
    var negative := value != "" && value[0] == '-';
    var digits := if value != "" && (value[0] == '+' || value[0] == '-') then value[1..] else value;
    if digits == "" || !AllDigits(digits) then Err(Invalid)
    else if negative then Ok(-SaturatingFold(digits)) else Ok(SaturatingFold(digits))
  }

  function Checked(n: nat): Result<nat, DecimalError> {
    if n <= MAX_U64 then Ok(n) else Err(Overflow)
  }

  /** Place `digits` at `shift` decimal places and round. */
  function Place(digits: string, shift: int): Result<nat, DecimalError>
    requires digits != "" && AllDigits(digits)
  {
    if shift >= 0 then
      if |digits| + shift > 20 then Err(Overflow) else Checked(Nat(digits) * Pow10(shift))
    else
      var removed := -shift;
      if removed > |digits| then Ok(0)
      else
        var kept := |digits| - removed;
        Checked(Nat(digits[..kept]) + (if digits[kept] >= '5' then 1 else 0))
  }

  /** What the text work leaves behind: the two digit runs and the clamped exponent. */
  datatype Parts = Parts(whole: string, fraction: string, exponent: int)

  function ReadMantissa(mantissa: string, exponent: int): (r: Result<Parts, DecimalError>)
    ensures r.Ok? ==> AllDigits(r.value.whole + r.value.fraction)
  {
    var dot := FindPoint(mantissa);
    var whole := mantissa[..dot];
    var fraction := if dot < |mantissa| then mantissa[dot + 1..] else "";
    if (whole == "" && fraction == "") || !AllDigits(whole) || !AllDigits(fraction) then Err(Invalid)
    else
      AppendDigits(whole, fraction);
      Ok(Parts(whole, fraction, exponent))
  }

  function Unsigned(value: string): (r: Result<Parts, DecimalError>)
    ensures r.Ok? ==> AllDigits(r.value.whole + r.value.fraction)
  {
    var at := FindExponent(value);
    var exponent := if at < |value| then ParseExponent(value[at + 1..]) else Ok(0);
    if exponent.Err? then Err(exponent.error) else ReadMantissa(value[..at], exponent.value)
  }

  function StripPlus(text: string): string {
    if text != "" && text[0] == '+' then text[1..] else text
  }

  function Decompose(value: string): (r: Result<Parts, DecimalError>)
    ensures r.Ok? ==> AllDigits(r.value.whole + r.value.fraction)
  {
    var text := Trim(value);
    if text != "" && text[0] == '-' then Err(Negative)
    else Unsigned(StripPlus(text))
  }

  function PlaceParts(p: Parts): Result<nat, DecimalError>
    requires AllDigits(p.whole + p.fraction)
  {
    var digits := SkipZeros(p.whole + p.fraction);
    if digits == "" then Ok(0) else Place(digits, p.exponent + 6 - |p.fraction|)
  }

  function ToMillionths(value: string): Result<nat, DecimalError> {
    var parts := Decompose(value);
    if parts.Err? then Err(parts.error) else PlaceParts(parts.value)
  }

  // ------------------------------------------------------- the source's loops

  /** The digit loop: `checked_mul(10)` then `checked_add(digit)`. */
  method FoldDigits(digits: string) returns (r: Result<nat, DecimalError>)
    requires AllDigits(digits)
    ensures r == Checked(Nat(digits))
  {
    var result: nat := 0;
    assert digits[..0] == "";
    for i := 0 to |digits|
      invariant result == Nat(digits[..i]) <= MAX_U64
    {
      assert digits[..i + 1][..i] == digits[..i];
      PrefixAtMost(digits, i + 1);
      if result * 10 > MAX_U64 || result * 10 + DigitValue(digits[i]) > MAX_U64 {
        return Err(Overflow);
      }
      result := result * 10 + DigitValue(digits[i]);
    }
    assert digits[..|digits|] == digits;
    r := Ok(result);
  }

  /** The trailing-zero loop: one `checked_mul(10)` per place. */
  method AppendZeros(coefficient: nat, zeros: nat) returns (r: Result<nat, DecimalError>)
    requires coefficient <= MAX_U64
    ensures r == Checked(coefficient * Pow10(zeros))
  {
    var result := coefficient;
    for z := 0 to zeros
      invariant result == coefficient * Pow10(z) <= MAX_U64
    {
      ShiftOnce(coefficient, z);
      PowerMonotone(z + 1, zeros);
      MulMonotone(coefficient, Pow10(z + 1), Pow10(zeros));
      if result * 10 > MAX_U64 {
        return Err(Overflow);
      }
      result := result * 10;
    }
    r := Ok(result);
  }

  method PlaceDigits(digits: string, shift: int) returns (r: Result<nat, DecimalError>)
    requires digits != "" && AllDigits(digits)
    ensures r == Place(digits, shift)
  {
    var kept, trailingZeros, roundUp := |digits|, 0, 0;
    if shift >= 0 {
      if |digits| + shift > 20 {
        return Err(Overflow);
      }
      trailingZeros := shift;
    } else {
      if -shift > |digits| {
        return Ok(0);
      }
      kept := |digits| + shift;
      roundUp := if digits[kept] >= '5' then 1 else 0;
    }
    assert digits[..|digits|] == digits;
    r := FoldDigits(digits[..kept]);
    TimesPower(Nat(digits[..kept]), trailingZeros);
    if r.Err? { return; }
    r := AppendZeros(r.value, trailingZeros);
    if r.Err? { return; }
    assert Pow10(0) == 1;
    r := Checked(r.value + roundUp);
  }

  method DecimalToMillionths(value: string) returns (r: Result<nat, DecimalError>)
    ensures r == ToMillionths(value)
  {
    hide Decompose, Place, SkipZeros;
    var parts := Decompose(value);
    if parts.Err? {
      return Err(parts.error);
    }
    var digits := SkipZeros(parts.value.whole + parts.value.fraction);
    if digits == "" {
      return Ok(0);
    }
    r := PlaceDigits(digits, parts.value.exponent + 6 - |parts.value.fraction|);
  }

  // ------------------------------------------------------------ arithmetic

  lemma AppendDigits(a: string, b: string)
    ensures AllDigits(a + b) <==> AllDigits(a) && AllDigits(b)
  {
    if AllDigits(a + b) {
      forall i | 0 <= i < |a| ensures IsDigit(a[i]) { assert (a + b)[i] == a[i]; }
      forall i | 0 <= i < |b| ensures IsDigit(b[i]) { assert (a + b)[|a| + i] == b[i]; }
    }
  }

  lemma MulMonotone(a: nat, b: nat, c: nat)
    requires b <= c
    ensures a * b <= a * c
  {
  }

  lemma {:induction false} PowerMonotone(m: nat, n: nat)
    requires m <= n
    ensures Pow10(m) <= Pow10(n)
  {
    if m < n { PowerMonotone(m, n - 1); }
  }

  lemma ShiftOnce(c: nat, z: nat)
    ensures c * Pow10(z + 1) == 10 * (c * Pow10(z))
  {
    assert c * (10 * Pow10(z)) == 10 * (c * Pow10(z));
  }

  lemma {:induction false} PowerAdds(m: nat, n: nat)
    ensures Pow10(m + n) == Pow10(m) * Pow10(n)
  {
    if m > 0 {
      PowerAdds(m - 1, n);
      assert 10 * Pow10(m - 1) * Pow10(n) == 10 * (Pow10(m - 1) * Pow10(n));
    }
  }

  lemma TimesPower(n: nat, z: nat)
    ensures n * Pow10(z) >= n
  {
    MulMonotone(n, 1, Pow10(z));
  }

  /** A prefix of a digit string never denotes more than the whole. */
  lemma {:induction false} PrefixAtMost(s: string, k: nat)
    requires AllDigits(s) && k <= |s|
    ensures Nat(s[..k]) <= Nat(s)
  {
    if k < |s| {
      PrefixAtMost(s[..|s| - 1], k);
      assert s[..|s| - 1][..k] == s[..k];
    } else {
      assert s[..k] == s;
    }
  }

  lemma {:induction false} NatBound(s: string)
    requires AllDigits(s)
    ensures Nat(s) < Pow10(|s|)
  {
    if s != "" { NatBound(s[..|s| - 1]); }
  }

  lemma {:induction false} NatAppend(a: string, b: string)
    requires AllDigits(a) && AllDigits(b)
    ensures AllDigits(a + b)
    ensures Nat(a + b) == Nat(a) * Pow10(|b|) + Nat(b)
  {
    AppendDigits(a, b);
    if b == "" {
      assert a + b == a;
    } else {
      var c := b[..|b| - 1];
      NatAppend(a, c);
      assert (a + b)[..|a + b| - 1] == a + c;
      assert Nat(a) * Pow10(|b|) == 10 * (Nat(a) * Pow10(|c|)) by {
        assert Nat(a) * (10 * Pow10(|c|)) == 10 * (Nat(a) * Pow10(|c|));
      }
    }
  }

  /** A digit string without leading zeros is at least the power of ten of its width. */
  lemma LeadingDigit(s: string)
    requires AllDigits(s) && s != "" && s[0] != '0'
    ensures Nat(s) >= Pow10(|s| - 1)
  {
    assert s == s[..1] + s[1..];
    NatAppend(s[..1], s[1..]);
    assert Nat(s[..1]) == 10 * Nat(s[..1][..0]) + DigitValue(s[0]);
    assert DigitValue(s[0]) >= 1;
    MulMonotone(Pow10(|s| - 1), 1, Nat(s[..1]));
  }

  lemma {:induction false} SkipZerosKeepsValue(s: string)
    requires AllDigits(s)
    ensures Nat(SkipZeros(s)) == Nat(s)
  {
    if s != "" && s[0] == '0' {
      SkipZerosKeepsValue(s[1..]);
      assert s == s[..1] + s[1..];
      NatAppend(s[..1], s[1..]);
      assert Nat(s[..1]) == 10 * Nat(s[..1][..0]) + DigitValue(s[0]) == 0;
    }
  }

  lemma TwentyDigitsOverflow(n: nat)
    requires n >= 20
    ensures Pow10(n) > MAX_U64
  {
    PowerMonotone(20, n);
    assert Pow10(5) == 100000;
    PowerAdds(5, 5);
    PowerAdds(10, 10);
  }
}
