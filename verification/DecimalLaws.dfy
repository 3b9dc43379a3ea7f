/** Laws of the decimal conversion: exactness, harmless clamping, and which texts it accepts. */
module DecimalLaws {
  import opened Wrappers
  import opened Numbers
  import opened Decimal

  /** Rounding half up has at most one answer. */
  lemma HalfUpUnique(v: int, w: int, n: nat, scale: int)
    requires IsHalfUp(v, n, scale) && IsHalfUp(w, n, scale)
    ensures v == w
  {
    if scale < 0 {
      var p := Pow10(-scale);
      CancelFactor(2 * v - 1, 2 * w + 1, p);
      CancelFactor(2 * w - 1, 2 * v + 1, p);
    }
  }

  lemma CancelFactor(a: int, b: int, p: nat)
    requires a * p < b * p
    ensures a < b
  {
    if a >= b { OrderTimes(b, a, p); }
  }

  lemma OrderTimes(a: int, b: int, p: nat)
    requires a <= b
    ensures a * p <= b * p
  {
  }

  lemma {:induction false} SaturatingFoldClamps(s: string)
    requires AllDigits(s)
    ensures SaturatingFold(s) == Min(Nat(s), MAX_I64)
  {
    if s != "" { SaturatingFoldClamps(s[..|s| - 1]); }
  }

  /** `parse_exponent` returns the true exponent clamped to the magnitude of an `i64`, and
      rejects everything else. */
  lemma ExponentIsClamped(e: Exponent)
    requires e.digits != "" && AllDigits(e.digits)
    ensures ParseExponent(RenderExponent(e)) ==
            Ok(if e.sign == Minus then -Min(Nat(e.digits), MAX_I64) else Min(Nat(e.digits), MAX_I64))
  {
    SaturatingFoldClamps(e.digits);
    assert e.sign != NoSign ==> RenderExponent(e)[1..] == e.digits;
    assert e.sign == NoSign ==> RenderExponent(e) == e.digits;
  }

  lemma FirstDigit(s: string)
    requires s != "" && AllDigits(s)
    ensures Nat(s) == DigitValue(s[0]) * Pow10(|s| - 1) + Nat(s[1..])
  {
    assert s == s[..1] + s[1..];
    NatAppend(s[..1], s[1..]);
    assert s[..1][..0] == "";
    assert Nat(s[..1]) == 10 * Nat("") + DigitValue(s[0]);
  }

  lemma HalfOf(d: nat, p: nat, rest: nat)
    requires rest < p && d <= 9
    ensures if d >= 5 then 10 * p <= 2 * (d * p + rest) < 20 * p else 2 * (d * p + rest) < 10 * p
  {
    if d >= 5 { OrderTimes(5, d, p); OrderTimes(d, 9, p); } else { OrderTimes(d, 4, p); }
  }

  lemma TailHalf(tail: string)
    requires tail != "" && AllDigits(tail)
    ensures if tail[0] >= '5' then Pow10(|tail|) <= 2 * Nat(tail) < 2 * Pow10(|tail|)
            else 2 * Nat(tail) < Pow10(|tail|)
  {
    FirstDigit(tail);
    NatBound(tail[1..]);
    HalfOf(DigitValue(tail[0]), Pow10(|tail| - 1), Nat(tail[1..]));
  }

  ghost predicate IsConversion(r: Result<nat, DecimalError>, n: nat, scale: int) {
    if r.Ok? then r.value <= MAX_U64 && IsHalfUp(r.value, n, scale)
    else r.error == Overflow && forall v :: IsHalfUp(v, n, scale) ==> v > MAX_U64
  }

  lemma CheckedConverts(v: nat, n: nat, scale: int)
    requires IsHalfUp(v, n, scale)
    ensures IsConversion(Checked(v), n, scale)
  {
    forall w | IsHalfUp(w, n, scale) ensures w == v { HalfUpUnique(v, w, n, scale); }
  }

  /** The 20-digit cut-off rejects only values above 2^64-1. */
  lemma CutOffIsExact(digits: string, shift: nat)
    requires digits != "" && AllDigits(digits) && digits[0] != '0' && |digits| + shift > 20
    ensures Nat(digits) * Pow10(shift) > MAX_U64
  {
    LeadingDigit(digits);
    PowerAdds(|digits| - 1, shift);
    TwentyDigitsOverflow(|digits| - 1 + shift);
    OrderTimes(Pow10(|digits| - 1), Nat(digits), Pow10(shift));
  }

  lemma TooSmallIsZero(digits: string, removed: int)
    requires AllDigits(digits) && removed > |digits|
    ensures IsHalfUp(0, Nat(digits), -removed)
  {
    NatBound(digits);
    PowerMonotone(|digits| + 1, removed);
    assert Pow10(|digits| + 1) == 10 * Pow10(|digits|);
  }

  lemma DroppedDigitsRound(digits: string, removed: int)
    requires AllDigits(digits) && 0 < removed <= |digits|
    ensures var kept := |digits| - removed;
            IsHalfUp(Nat(digits[..kept]) + (if digits[kept] >= '5' then 1 else 0), Nat(digits), -removed)
  {
    var kept := |digits| - removed;
    var head, tail := digits[..kept], digits[kept..];
    assert digits == head + tail;
    NatAppend(head, tail);
    TailHalf(tail);
    RoundsHead(Nat(head), Nat(tail), Pow10(removed), digits[kept] >= '5');
  }

  /** Placing a coefficient is exact half-up rounding whenever the result fits a `u64`, and
      `Overflow` otherwise: no cut-off rejects a representable value. */
  lemma PlaceIsExact(digits: string, shift: int)
    requires digits != "" && AllDigits(digits) && digits[0] != '0'
    ensures IsConversion(Place(digits, shift), Nat(digits), shift)
  {
    if shift >= 0 {
      if |digits| + shift > 20 {
        CutOffIsExact(digits, shift);
      } else {
        CheckedConverts(Nat(digits) * Pow10(shift), Nat(digits), shift);
      }
    } else if -shift > |digits| {
      TooSmallIsZero(digits, -shift);
      CheckedConverts(0, Nat(digits), shift);
    } else {
      var kept := |digits| + shift;
      DroppedDigitsRound(digits, -shift);
      CheckedConverts(Nat(digits[..kept]) + (if digits[kept] >= '5' then 1 else 0), Nat(digits), shift);
    }
  }

  lemma RoundsHead(head: nat, tail: nat, p: nat, up: bool)
    requires if up then p <= 2 * tail < 2 * p else 2 * tail < p
    ensures var v := head + (if up then 1 else 0);
            (2 * v - 1) * p <= 2 * (head * p + tail) < (2 * v + 1) * p
  {
    assert (2 * head - 1) * p == 2 * (head * p) - p;
    assert (2 * head + 1) * p == 2 * (head * p) + p;
    assert (2 * head + 3) * p == 2 * (head * p) + 3 * p;
  }

  /** Beyond the digits' own width the exact shift no longer matters. */
  lemma FarShiftsAgree(digits: string, a: int, b: int)
    requires digits != "" && AllDigits(digits)
    requires (a > 20 && b > 20) || (a < -|digits| && b < -|digits|)
    ensures Place(digits, a) == Place(digits, b)
  {
  }

  // ---------------------------------------------------- reading literals back

  predicate MantissaChars(m: string) {
    forall i | 0 <= i < |m| :: IsDigit(m[i]) || m[i] == '.'
  }

  lemma MantissaReads(l: Literal, exponent: int)
    requires WellFormed(l)
    ensures ReadMantissa(RenderMantissa(l), exponent) == Ok(Parts(l.whole, l.fraction, exponent))
    ensures MantissaChars(RenderMantissa(l)) && RenderMantissa(l) != ""
  {
    var m := RenderMantissa(l);
    assert forall k | 0 <= k < |l.whole| :: m[k] == l.whole[k] && IsDigit(m[k]);
    if l.point {
      assert m[|l.whole|] == '.';
      assert FindPoint(m) == |l.whole|;
      assert m[|l.whole| + 1..] == l.fraction;
      forall k | 0 <= k < |m| ensures IsDigit(m[k]) || m[k] == '.' {
        if k > |l.whole| { assert m[k] == l.fraction[k - |l.whole| - 1]; }
      }
    } else {
      assert FindPoint(m) == |l.whole|;
    }
    assert m[..|l.whole|] == l.whole;
  }

  lemma ExponentStarts(m: string, tail: string)
    requires MantissaChars(m)
    requires tail != "" ==> tail[0] == 'e' || tail[0] == 'E'
    ensures FindExponent(m + tail) == |m|
    ensures (m + tail)[..|m|] == m
    ensures tail != "" ==> (m + tail)[|m| + 1..] == tail[1..]
  {
    var text := m + tail;
    assert forall k | 0 <= k < |m| :: text[k] == m[k];
    assert tail != "" ==> text[|m|] == tail[0];
    assert tail != "" ==> text[|m| + 1..] == tail[1..];
  }

  function Clamp(e: int): int {
    if e < 0 then -Min(-e, MAX_I64) else Min(e, MAX_I64)
  }

  lemma UnsignedSplits(m: string, tail: string, e: int)
    requires MantissaChars(m)
    requires tail == "" ==> e == 0
    requires tail != "" ==> (tail[0] == 'e' || tail[0] == 'E') && ParseExponent(tail[1..]) == Ok(e)
    ensures Unsigned(m + tail) == ReadMantissa(m, e)
  {
    ExponentStarts(m, tail);
  }

  lemma TailReads(e: Option<Exponent>)
    requires e.Some? ==> e.value.digits != "" && AllDigits(e.value.digits)
    ensures var tail := RenderTail(e);
            if tail == "" then Clamp(ExponentValue(e)) == 0
            else (tail[0] == 'e' || tail[0] == 'E') && ParseExponent(tail[1..]) == Ok(Clamp(ExponentValue(e)))
  {
    if e.Some? {
      assert RenderTail(e)[1..] == RenderExponent(e.value);
      ExponentIsClamped(e.value);
    }
  }

  /** The text split recovers a literal's digit runs and its clamped exponent. */
  lemma UnsignedReads(l: Literal)
    requires WellFormed(l)
    ensures Unsigned(RenderMantissa(l) + RenderTail(l.exponent)) ==
            Ok(Parts(l.whole, l.fraction, Clamp(ExponentValue(l.exponent))))
  {
    MantissaReads(l, Clamp(ExponentValue(l.exponent)));
    TailReads(l.exponent);
    UnsignedSplits(RenderMantissa(l), RenderTail(l.exponent), Clamp(ExponentValue(l.exponent)));
  }

  /** No character of a literal is white space, so trimming stops at its ends. */
  predicate Solid(s: string) {
    forall i | 0 <= i < |s| :: !IsWhitespace(s[i])
  }

  lemma SolidAppend(a: string, b: string)
    requires Solid(a) && Solid(b)
    ensures Solid(a + b)
  {
  }

  lemma DigitsAreSolid(s: string)
    requires MantissaChars(s)
    ensures Solid(s)
  {
  }

  lemma TailIsSolid(e: Option<Exponent>)
    requires e.Some? ==> AllDigits(e.value.digits)
    ensures Solid(RenderTail(e))
  {
    if e.Some? {
      DigitsAreSolid(e.value.digits);
      SolidAppend(RenderSign(e.value.sign), e.value.digits);
      SolidAppend(if e.value.upper then "E" else "e", RenderExponent(e.value));
    }
  }

  lemma LiteralChars(l: Literal)
    requires WellFormed(l)
    ensures Render(l) != "" && Solid(Render(l))
    ensures Render(l)[0] != '-'
    ensures StripPlus(Render(l)) == RenderMantissa(l) + RenderTail(l.exponent)
  {
    MantissaReads(l, 0);
    var m := RenderMantissa(l);
    DigitsAreSolid(m);
    TailIsSolid(l.exponent);
    SolidAppend(m, RenderTail(l.exponent));
    SolidAppend(if l.plus then "+" else "", m + RenderTail(l.exponent));
    assert Render(l)[0] == if l.plus then '+' else m[0];
    assert l.plus ==> Render(l)[1..] == m + RenderTail(l.exponent);
    assert !l.plus ==> Render(l) == m + RenderTail(l.exponent);
  }

  predicate Blank(s: string) {
    forall i | 0 <= i < |s| :: IsWhitespace(s[i])
  }

  lemma {:induction false} TrimStartStops(pad: string, s: string)
    requires Blank(pad)
    requires s != "" && !IsWhitespace(s[0])
    ensures TrimStart(pad + s) == s
  {
    if pad == "" {
      assert pad + s == s;
    } else {
      assert (pad + s)[1..] == pad[1..] + s;
      TrimStartStops(pad[1..], s);
    }
  }

  lemma {:induction false} TrimEndStops(s: string, pad: string)
    requires Blank(pad)
    requires s != "" && !IsWhitespace(s[|s| - 1])
    ensures TrimEnd(s + pad) == s
  {
    if pad == "" {
      assert s + pad == s;
    } else {
      assert (s + pad)[..|s + pad| - 1] == s + pad[..|pad| - 1];
      TrimEndStops(s, pad[..|pad| - 1]);
    }
  }

  /** Reading a padded literal yields exactly its digit runs and clamped exponent. */
  lemma DecomposeReads(before: string, l: Literal, after: string)
    requires WellFormed(l) && Blank(before) && Blank(after)
    ensures Decompose(before + Render(l) + after) ==
            Ok(Parts(l.whole, l.fraction, Clamp(ExponentValue(l.exponent))))
  {
    var text := Render(l);
    LiteralChars(l);
    assert before + text + after == before + (text + after);
    assert (text + after)[0] == text[0];
    TrimStartStops(before, text + after);
    TrimEndStops(text, after);
    UnsignedReads(l);
  }

  /** An exponent longer than an `i64` has at least nineteen digits. */
  lemma SaturationNeedsDigits(digits: string)
    requires AllDigits(digits) && Nat(digits) > MAX_I64
    ensures |digits| >= 19
  {
    NatBound(digits);
    EighteenDigitsFit();
    if |digits| < 19 { PowerMonotone(|digits|, 18); }
  }

  lemma EighteenDigitsFit()
    ensures Pow10(18) <= MAX_I64
  {
    assert Pow10(6) == 1000000;
    PowerAdds(6, 6);
    PowerAdds(12, 6);
  }

  /** Clamping the exponent never changes the answer for a literal shorter than 2^63 bytes. */
  lemma ClampingIsHarmless(l: Literal, digits: string)
    requires WellFormed(l) && |Render(l)| <= MAX_I64
    requires digits != "" && AllDigits(digits) && |digits| <= |l.whole| + |l.fraction|
    ensures Place(digits, Clamp(ExponentValue(l.exponent)) + 6 - |l.fraction|) == Place(digits, Scale(l))
  {
    var e := ExponentValue(l.exponent);
    if e > MAX_I64 || -e > MAX_I64 {
      SaturationNeedsDigits(l.exponent.value.digits);
      assert |Render(l)| >= |l.whole| + |l.fraction| + 20;
      FarShiftsAgree(digits, Clamp(e) + 6 - |l.fraction|, Scale(l));
    }
  }

  /** Main result. Any nonnegative decimal or scientific literal shorter than 2^63 bytes, in any
      white space, converts to the half-up rounding of its exact value in millionths when that is
      at most 2^64-1, and to `Overflow` exactly when it is not. */
  lemma ConversionIsExact(before: string, l: Literal, after: string)
    requires WellFormed(l) && |Render(l)| <= MAX_I64 && Blank(before) && Blank(after)
    ensures IsConversion(ToMillionths(before + Render(l) + after), Coefficient(l), Scale(l))
  {
    DecomposeReads(before, l, after);
    AppendDigits(l.whole, l.fraction);
    PartsConvert(l);
  }

  lemma PartsConvert(l: Literal)
    requires WellFormed(l) && |Render(l)| <= MAX_I64 && AllDigits(l.whole + l.fraction)
    ensures IsConversion(PlaceParts(Parts(l.whole, l.fraction, Clamp(ExponentValue(l.exponent)))),
                         Coefficient(l), Scale(l))
  {
    hide Place, Clamp;
    var digits := SkipZeros(l.whole + l.fraction);
    SkipZerosKeepsValue(l.whole + l.fraction);
    if digits == "" {
      ZeroIsHalfUp(Scale(l));
      CheckedConverts(0, 0, Scale(l));
    } else {
      ClampingIsHarmless(l, digits);
      PlaceIsExact(digits, Scale(l));
    }
  }

  lemma ZeroIsHalfUp(scale: int)
    ensures IsHalfUp(0, 0, scale)
  {
  }

  // -------------------------------------------------------- what is rejected

  /** Whether a text, after trimming, is some nonnegative literal. */
  ghost predicate IsLiteral(text: string) {
    exists l :: WellFormed(l) && Render(l) == text
  }

  /** An exponent the source reads is a rendered one. */
  lemma ExponentIsRendered(raw: string) returns (e: Exponent)
    requires ParseExponent(raw).Ok?
    ensures e.digits != "" && AllDigits(e.digits) && RenderExponent(e) == raw
  {
    if raw[0] == '+' {
      e := Exponent(false, Plus, raw[1..]);
    } else if raw[0] == '-' {
      e := Exponent(false, Minus, raw[1..]);
    } else {
      e := Exponent(false, NoSign, raw);
    }
  }

  lemma TailIsRendered(tail: string) returns (e: Option<Exponent>)
    requires tail != "" ==> (tail[0] == 'e' || tail[0] == 'E') && ParseExponent(tail[1..]).Ok?
    ensures RenderTail(e) == tail
    ensures e.Some? ==> e.value.digits != "" && AllDigits(e.value.digits)
  {
    e := None;
    if tail != "" {
      var read := ExponentIsRendered(tail[1..]);
      e := Some(read.(upper := tail[0] == 'E'));
      assert RenderExponent(e.value) == tail[1..];
      assert tail == tail[..1] + tail[1..];
    }
  }

  lemma MantissaIsRendered(m: string, plus: bool, e: Option<Exponent>) returns (l: Literal)
    requires ReadMantissa(m, 0).Ok?
    requires e.Some? ==> e.value.digits != "" && AllDigits(e.value.digits)
    ensures WellFormed(l) && RenderMantissa(l) == m && l.plus == plus && l.exponent == e
  {
    var dot := FindPoint(m);
    var point := dot < |m|;
    l := Literal(plus, m[..dot], point, if point then m[dot + 1..] else "", e);
    assert m == RenderMantissa(l);
  }

  lemma UnsignedReadsParts(value: string)
    requires Unsigned(value).Ok?
    ensures var at := FindExponent(value);
            && ReadMantissa(value[..at], 0).Ok?
            && (at < |value| ==> (value[at] == 'e' || value[at] == 'E') && ParseExponent(value[at + 1..]).Ok?)
  {
  }

  lemma UnsignedIsRendered(value: string, plus: bool) returns (l: Literal)
    requires Unsigned(value).Ok?
    ensures WellFormed(l) && l.plus == plus && RenderMantissa(l) + RenderTail(l.exponent) == value
  {
    hide *;
    UnsignedReadsParts(value);
    var at := FindExponent(value);
    var mantissa, tail := value[..at], value[at..];
    assert value == mantissa + tail;
    assert tail != "" ==> tail[0] == value[at] && tail[1..] == value[at + 1..];
    var e := TailIsRendered(tail);
    l := MantissaIsRendered(mantissa, plus, e);
  }

  /** A text the source reads as a number is a literal. */
  lemma AcceptedIsLiteral(text: string) returns (l: Literal)
    requires Unsigned(StripPlus(text)).Ok?
    ensures WellFormed(l) && Render(l) == text
  {
    hide Unsigned, RenderMantissa, RenderTail;
    l := UnsignedIsRendered(StripPlus(text), text != "" && text[0] == '+');
    assert l.plus ==> text == "+" + StripPlus(text);
    assert !l.plus ==> text == "" + StripPlus(text);
  }

  /** The error cases, exactly: a leading minus sign is `Negative`; otherwise the conversion is
      `Invalid` if and only if the trimmed text is no literal at all. */
  lemma RejectionIsExact(value: string)
    ensures ToMillionths(value) == Err(Negative) <==> Trim(value) != "" && Trim(value)[0] == '-'
    ensures ToMillionths(value) == Err(Invalid) <==>
            !(Trim(value) != "" && Trim(value)[0] == '-') && !IsLiteral(Trim(value))
  {
    var text := Trim(value);
    ErrorsAreInvalid(StripPlus(text));
    if Decompose(value).Ok? { NumbersOverflowAtMost(value); }
    if Unsigned(StripPlus(text)).Ok? {
      var l := AcceptedIsLiteral(text);
    } else if IsLiteral(text) {
      var l :| WellFormed(l) && Render(l) == text;
      LiteralChars(l);
      UnsignedReads(l);
    }
  }

  lemma ErrorsAreInvalid(value: string)
    ensures Unsigned(value).Err? ==> Unsigned(value).error == Invalid
  {
  }

  lemma NumbersOverflowAtMost(value: string)
    requires Decompose(value).Ok?
    ensures ToMillionths(value).Err? ==> ToMillionths(value).error == Overflow
  {
  }
}
