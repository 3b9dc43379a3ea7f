/** UTF-8 as `std::str::from_utf8` reads it (section 4 of RFC 3629). A Rust string is its bytes. */
module Utf8 {

  newtype Byte = n: int | 0 <= n < 0x100

  /** What the next bytes are: a whole character, a bad sequence of the given length
      (`error_len`), or a good start that the input cuts short (`error_len() == None`). */
  datatype Next = Char(len: nat) | Bad(len: nat) | CutShort

  predicate IsTail(b: Byte) {
    0x80 <= b <= 0xBF
  }

  predicate SecondOk(lead: Byte, b: Byte) {
    if lead == 0xE0 then 0xA0 <= b <= 0xBF
    else if lead == 0xED then 0x80 <= b <= 0x9F
    else if lead == 0xF0 then 0x90 <= b <= 0xBF
    else if lead == 0xF4 then 0x80 <= b <= 0x8F
    else IsTail(b)
  }

  function Width(lead: Byte): nat {
    if lead < 0x80 then 1
    else if 0xC2 <= lead <= 0xDF then 2
    else if 0xE0 <= lead <= 0xEF then 3
    else if 0xF0 <= lead <= 0xF4 then 4
    else 0
  }

  function Scan(s: seq<Byte>): (r: Next)
    requires s != []
    ensures r.Char? ==> 1 <= r.len <= |s| && r.len == Width(s[0]) <= 4
    ensures r.Bad? ==> 1 <= r.len <= |s|
    ensures r.CutShort? ==> |s| < Width(s[0])
  {
    var w := Width(s[0]);
    if w == 0 then Bad(1)
    else if w == 1 then Char(1)
    else if |s| == 1 then CutShort
    else if !SecondOk(s[0], s[1]) then Bad(1)
    else if w == 2 then Char(2)
    else if |s| == 2 then CutShort
    else if !IsTail(s[2]) then Bad(2)
    else if w == 3 then Char(3)
    else if |s| == 3 then CutShort
    else if !IsTail(s[3]) then Bad(3)
    else Char(4)
  }

  predicate ValidUtf8(s: seq<Byte>) {
    s == [] || (Scan(s).Char? && ValidUtf8(s[Scan(s).len..]))
  }

  /** `valid_up_to`: the length of the longest prefix of whole characters. */
  function ValidUpTo(s: seq<Byte>): (n: nat)
    ensures n <= |s|
  {
    if s == [] || !Scan(s).Char? then 0 else Scan(s).len + ValidUpTo(s[Scan(s).len..])
  }

  const REPLACEMENT: seq<Byte> := [0xEF, 0xBF, 0xBD]

  /** `String::from_utf8_lossy`: one U+FFFD for each bad or cut-short sequence. */
  function Lossy(s: seq<Byte>): seq<Byte> {
    if s == [] then []
    else match Scan(s)
      case Char(n) => s[..n] + Lossy(s[n..])
      case Bad(n) => REPLACEMENT + Lossy(s[n..])
      case CutShort => REPLACEMENT
  }

  predicate IsBoundary(s: seq<Byte>, i: nat)
    requires i <= |s|
  {
    i == 0 || i == |s| || !IsTail(s[i])
  }

  // ------------------------------------------------------------------ laws

  /** A character scans the same whatever follows it. */
  lemma ScanPrefix(a: seq<Byte>, b: seq<Byte>)
    requires a != [] && !Scan(a).CutShort?
    ensures Scan(a + b) == Scan(a)
  {
  }

  lemma {:induction false} ValidAppend(a: seq<Byte>, b: seq<Byte>)
    requires ValidUtf8(a)
    ensures ValidUtf8(a + b) <==> ValidUtf8(b)
  {
    if a == [] {
      assert a + b == b;
    } else {
      ScanPrefix(a, b);
      var n := Scan(a).len;
      assert (a + b)[n..] == a[n..] + b;
      ValidAppend(a[n..], b);
    }
  }

  lemma {:induction false} UpToIsValid(s: seq<Byte>)
    ensures ValidUtf8(s[..ValidUpTo(s)])
  {
    if s != [] && Scan(s).Char? {
      var n := Scan(s).len;
      UpToIsValid(s[n..]);
      var head := s[..ValidUpTo(s)];
      assert s == s[..n] + s[n..];
      assert head == s[..n] + s[n..][..ValidUpTo(s[n..])];
      ScanOne(s, n);
      ValidAppend(s[..n], s[n..][..ValidUpTo(s[n..])]);
    }
  }

  /** One whole character is valid on its own. */
  lemma ScanOne(s: seq<Byte>, n: nat)
    requires s != [] && Scan(s) == Char(n)
    ensures ValidUtf8(s[..n])
  {
    assert Scan(s[..n]) == Char(n);
    assert s[..n][n..] == [];
  }

  lemma {:induction false} ValidUpToAll(s: seq<Byte>)
    ensures ValidUtf8(s) <==> ValidUpTo(s) == |s|
  {
    if s != [] && Scan(s).Char? {
      ValidUpToAll(s[Scan(s).len..]);
    }
  }

  /** A prefix of valid text is whole characters followed by at most one cut-short character. */
  lemma {:induction false} PrefixOfValid(a: seq<Byte>, b: seq<Byte>)
    requires ValidUtf8(a + b)
    ensures var tail := a[ValidUpTo(a)..];
            tail == [] || Scan(tail).CutShort?
  {
    if a != [] {
      if Scan(a).CutShort? {
        assert a[0..] == a;
      } else {
        ScanPrefix(a, b);
        var n := Scan(a).len;
        assert (a + b)[n..] == a[n..] + b;
        PrefixOfValid(a[n..], b);
        assert a[ValidUpTo(a)..] == a[n..][ValidUpTo(a[n..])..];
      }
    }
  }

  lemma {:induction false} LossyOfValid(s: seq<Byte>)
    requires ValidUtf8(s)
    ensures Lossy(s) == s
  {
    if s != [] {
      LossyOfValid(s[Scan(s).len..]);
      assert s == s[..Scan(s).len] + s[Scan(s).len..];
    }
  }

  /** Lossy decoding always yields text. */
  lemma {:induction false} LossyIsValid(s: seq<Byte>)
    ensures ValidUtf8(Lossy(s))
  {
    if s != [] {
      ReplacementIsValid();
      match Scan(s) {
        case Char(n) =>
          LossyIsValid(s[n..]);
          ScanOne(s, n);
          ValidAppend(s[..n], Lossy(s[n..]));
        case Bad(n) =>
          LossyIsValid(s[n..]);
          ValidAppend(REPLACEMENT, Lossy(s[n..]));
        case CutShort =>
      }
    }
  }

  lemma ReplacementIsValid()
    ensures ValidUtf8(REPLACEMENT)
  {
    assert Scan(REPLACEMENT) == Char(3);
    assert REPLACEMENT[3..] == [];
  }

  /** Only the first byte of a character is not a tail byte. */
  lemma CharTails(s: seq<Byte>)
    requires s != [] && Scan(s).Char?
    ensures !IsTail(s[0])
    ensures forall i | 1 <= i < Scan(s).len :: IsTail(s[i])
  {
  }

  /** Text cut at a character boundary is text, and no cut is more than three bytes away. */
  lemma {:induction false} BoundaryCuts(s: seq<Byte>, i: nat)
    requires ValidUtf8(s) && i <= |s|
    ensures IsBoundary(s, i) ==> ValidUtf8(s[..i]) && ValidUtf8(s[i..])
    ensures exists k :: 0 <= k <= i && k + 3 >= i && IsBoundary(s, k)
  {
    if s == [] || i == 0 {
      assert s[..i] == [] && s[i..] == s;
      assert IsBoundary(s, 0);
    } else {
      CharTails(s);
      var n := Scan(s).len;
      if i < n {
        assert IsBoundary(s, 0);
      } else {
        BoundaryCuts(s[n..], i - n);
        var k :| 0 <= k <= i - n && k + 3 >= i - n && IsBoundary(s[n..], k);
        if s[n..] != [] && Scan(s[n..]).Char? { CharTails(s[n..]); }
        assert IsBoundary(s, n + k);
        if IsBoundary(s, i) {
          assert s[..i] == s[..n] + s[n..][..i - n];
          assert s[i..] == s[n..][i - n..];
          ScanOne(s, n);
          ValidAppend(s[..n], s[n..][..i - n]);
        }
      }
    }
  }
}
