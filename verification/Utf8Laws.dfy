/** What `Utf8` scans, told by the encoding itself: characters are the encodings of Unicode scalar values, and a bad
    sequence is replaced as a whole up to where it stops being the start of one (section 3 of RFC 3629). */
module Utf8Laws {
  import opened Utf8

  // ------------------------------------------------------------- the encoding

  predicate IsScalar(cp: int) {
    0 <= cp < 0xD800 || 0xE000 <= cp <= 0x10FFFF
  }

  function Encode(cp: int): (s: seq<Byte>)
    requires IsScalar(cp)
    ensures s != []
  {
    if cp < 0x80 then [cp as Byte]
    else if cp < 0x800 then [(0xC0 + cp / 64) as Byte, Tail(cp)]
    else if cp < 0x10000 then [(0xE0 + cp / 4096) as Byte, Tail(cp / 64), Tail(cp)]
    else [(0xF0 + cp / 262144) as Byte, Tail(cp / 4096), Tail(cp / 64), Tail(cp)]
  }

  function Tail(n: nat): Byte {
    (0x80 + n % 64) as Byte
  }

  ghost predicate IsChar(s: seq<Byte>) {
    exists cp :: IsScalar(cp) && Encode(cp) == s
  }

  /** The start of some character, but not all of it. */
  ghost predicate IsStart(s: seq<Byte>) {
    s != [] && exists cp :: IsScalar(cp) && s < Encode(cp)
  }

  // ----------------------------------------------------------------- scanning

  function Decode(s: seq<Byte>): int
    requires s != [] && Scan(s).Char?
  {
    var a := s[0] as int;
    match Width(s[0])
    case 1 => a
    case 2 => (a - 0xC0) * 64 + (s[1] as int - 0x80)
    case 3 => (a - 0xE0) * 4096 + (s[1] as int - 0x80) * 64 + (s[2] as int - 0x80)
    case _ => (a - 0xF0) * 262144 + (s[1] as int - 0x80) * 4096 + (s[2] as int - 0x80) * 64 + (s[3] as int - 0x80)
  }

  lemma Digit(high: nat, low: nat)
    requires low < 64
    ensures (high * 64 + low) / 64 == high && (high * 64 + low) % 64 == low
  {
  }

  lemma DigitsAbove(n: nat)
    ensures n / 4096 == n / 64 / 64 && n / 262144 == n / 64 / 64 / 64
  {
  }

  /** Four base-64 digits read back. */
  lemma Digits(a: nat, b: nat, c: nat, d: nat)
    requires b < 64 && c < 64 && d < 64
    ensures var cp := a * 262144 + b * 4096 + c * 64 + d;
            && cp / 262144 == a && cp / 4096 == a * 64 + b && cp / 64 == (a * 64 + b) * 64 + c
            && cp / 4096 % 64 == b && cp / 64 % 64 == c && cp % 64 == d
  {
    DigitsAbove(a * 262144 + b * 4096 + c * 64 + d);
    Digit((a * 64 + b) * 64 + c, d);
    Digit(a * 64 + b, c);
    Digit(a, b);
  }

  lemma EncodeTwo(a: nat, b: nat)
    requires 2 <= a < 0x20 && b < 64
    ensures IsScalar(a * 64 + b) && Encode(a * 64 + b) == [(0xC0 + a) as Byte, (0x80 + b) as Byte]
  {
    Digits(0, 0, a, b);
  }

  lemma EncodeThree(a: nat, b: nat, c: nat)
    requires a < 0x10 && b < 64 && c < 64 && (a == 0 ==> 0x20 <= b) && (a == 0xD ==> b < 0x20)
    ensures IsScalar(a * 4096 + b * 64 + c)
    ensures Encode(a * 4096 + b * 64 + c) == [(0xE0 + a) as Byte, (0x80 + b) as Byte, (0x80 + c) as Byte]
  {
    Digits(0, a, b, c);
  }

  lemma EncodeFour(a: nat, b: nat, c: nat, d: nat)
    requires a <= 4 && b < 64 && c < 64 && d < 64 && (a == 0 ==> 0x10 <= b) && (a == 4 ==> b < 0x10)
    ensures IsScalar(a * 262144 + b * 4096 + c * 64 + d)
    ensures Encode(a * 262144 + b * 4096 + c * 64 + d) ==
            [(0xF0 + a) as Byte, (0x80 + b) as Byte, (0x80 + c) as Byte, (0x80 + d) as Byte]
  {
    Digits(a, b, c, d);
  }

  /** A scanned character is the encoding of the scalar value it decodes to. */
  lemma ScannedIsEncoded(s: seq<Byte>)
    requires s != [] && Scan(s).Char?
    ensures IsScalar(Decode(s)) && Encode(Decode(s)) == s[..Scan(s).len]
  {
    hide Encode, IsScalar;
    var a := s[0] as int;
    match Width(s[0])
    case 1 => One(s[0]);
    case 2 => EncodeTwo(a - 0xC0, s[1] as int - 0x80);
    case 3 => EncodeThree(a - 0xE0, s[1] as int - 0x80, s[2] as int - 0x80);
    case _ => EncodeFour(a - 0xF0, s[1] as int - 0x80, s[2] as int - 0x80, s[3] as int - 0x80);
  }

  lemma One(a: Byte)
    requires a < 0x80
    ensures IsScalar(a as int) && Encode(a as int) == [a]
  {
  }

  /** Every encoding is scanned as one character, and every start of one as cut short. */
  lemma EncodedIsScanned(cp: int)
    requires IsScalar(cp)
    ensures Scan(Encode(cp)) == Char(|Encode(cp)|)
  {
  }

  lemma StartIsCutShort(s: seq<Byte>)
    requires IsStart(s)
    ensures Scan(s).CutShort?
  {
    var cp :| IsScalar(cp) && s < Encode(cp);
    EncodedIsScanned(cp);
    var e := Encode(cp);
    assert forall i | 0 <= i < |s| :: s[i] == e[i];
  }

  /** Exactly the encodings are scanned as characters. */
  lemma CharsAreScannedExactly(s: seq<Byte>)
    requires s != []
    ensures Scan(s).Char? <==> exists n | 1 <= n <= |s| :: IsChar(s[..n])
    ensures Scan(s).Char? ==> IsChar(s[..Scan(s).len])
  {
    if Scan(s).Char? {
      ScannedIsEncoded(s);
      assert IsChar(s[..Scan(s).len]);
    } else if n :| 1 <= n <= |s| && IsChar(s[..n]) {
      var cp :| IsScalar(cp) && Encode(cp) == s[..n];
      EncodedIsScanned(cp);
      ScanPrefix(s[..n], s[n..]);
      assert s[..n] + s[n..] == s;
    }
  }

  /** Its first completion: the missing bytes are the least that may follow. */
  function Completed(s: seq<Byte>): seq<Byte>
    requires s != [] && Scan(s).CutShort?
  {
    if |s| > 1 then s + seq(Width(s[0]) - |s|, (i: nat) => 0x80)
    else
      var second := if s[0] == 0xE0 then 0xA0 else if s[0] == 0xF0 then 0x90 else 0x80;
      [s[0], second] + seq(Width(s[0]) - 2, (i: nat) => 0x80)
  }

  /** Exactly the starts of characters are scanned as cut short. */
  lemma StartsAreCutShortExactly(s: seq<Byte>)
    requires s != []
    ensures Scan(s).CutShort? <==> IsStart(s)
  {
    if Scan(s).CutShort? {
      var whole := Completed(s);
      assert s < whole && Scan(whole) == Char(|whole|);
      ScannedIsEncoded(whole);
      assert whole[..|whole|] == whole;
    } else if IsStart(s) {
      StartIsCutShort(s);
    }
  }

  /** What is bad is bad as a whole and no further: no character starts there, and the bytes replaced are the longest
      start of a character, or the one byte that starts none. */
  lemma BadIsMaximal(s: seq<Byte>)
    requires s != [] && Scan(s).Bad?
    ensures var n := Scan(s).len;
            && (forall k | 1 <= k <= |s| :: !IsChar(s[..k]))
            && (n == 1 || IsStart(s[..n]))
            && (forall k | n < k <= |s| :: !IsStart(s[..k]))
            && (n == 1 && |s| > 1 ==> !IsStart(s[..2]))
  {
    var n := Scan(s).len;
    CharsAreScannedExactly(s);
    if n > 1 { StartsAreCutShortExactly(s[..n]); }
    forall k | n < k <= |s| ensures !IsStart(s[..k]) {
      StartsAreCutShortExactly(s[..k]);
      assert Scan(s[..k]) == Scan(s);
    }
  }

  // ------------------------------------------------------------------ decoding

  /** One piece of a byte string before the bytes `rest`: a character, or bytes no character starts with, as many of
      them as still start one. */
  ghost predicate IsPiece(piece: seq<Byte>, rest: seq<Byte>) {
    && piece != []
    && (|| IsChar(piece)
        || (&& (forall k | 1 <= k <= |piece + rest| :: !IsChar((piece + rest)[..k]))
            && (|piece| == 1 || IsStart(piece))
            && (rest != [] ==> !IsStart(piece + rest[..1]))))
  }

  ghost function Shown(piece: seq<Byte>): seq<Byte> {
    if IsChar(piece) then piece else REPLACEMENT
  }

  /** `shown` shows `s` piece by piece. */
  ghost predicate Shows(s: seq<Byte>, shown: seq<Byte>)
    decreases |s|
  {
    if s == [] then shown == []
    else exists n | 1 <= n <= |s| ::
      && IsPiece(s[..n], s[n..]) && Shown(s[..n]) <= shown
      && Shows(s[n..], shown[|Shown(s[..n])|..])
  }

  /** Lossy decoding shows every character as it is and every bad piece as one replacement. */
  lemma {:induction false} LossyShowsEachPiece(s: seq<Byte>)
    ensures Shows(s, Lossy(s))
    decreases |s|
  {
    if s != [] {
      var n := PieceAt(s);
      LossyShowsEachPiece(s[n..]);
      var shown := Shown(s[..n]);
      assert Lossy(s) == shown + Lossy(s[n..]);
      assert Lossy(s)[|shown|..] == Lossy(s[n..]);
    }
  }

  lemma PieceAt(s: seq<Byte>) returns (n: nat)
    requires s != []
    ensures 1 <= n <= |s| && IsPiece(s[..n], s[n..])
    ensures Lossy(s) == Shown(s[..n]) + Lossy(s[n..])
  {
    CharsAreScannedExactly(s);
    StartsAreCutShortExactly(s);
    n := if Scan(s).CutShort? then |s| else Scan(s).len;
    assert s[..n] + s[n..] == s;
    if Scan(s).Bad? {
      BadIsMaximal(s);
      assert s[n..] != [] ==> s[..n] + s[n..][..1] == s[..n + 1];
    } else if Scan(s).CutShort? {
      assert s[..n] == s && s[n..] == [];
      assert REPLACEMENT + [] == REPLACEMENT;
    }
  }
}
