/** Streaming secret redaction on byte sequences (crates/client/src/controller.rs): what one
    `push` settles, and why cutting the stream differently never changes the result. */
module Redaction {
  import opened Wrappers
  import opened Utf8

  /** `[REDACTED]` */
  const MARK: seq<Byte> := [0x5B, 0x52, 0x45, 0x44, 0x41, 0x43, 0x54, 0x45, 0x44, 0x5D]

  // ------------------------------------------------------ reference meaning

  predicate OccursAt(s: seq<Byte>, secret: seq<Byte>, k: int) {
    0 <= k && k + |secret| <= |s| && s[k..k + |secret|] == secret
  }

  ghost predicate IsFirst(s: seq<Byte>, secret: seq<Byte>, k: nat) {
    OccursAt(s, secret, k) && forall j | 0 <= j < k :: !OccursAt(s, secret, j)
  }

  /** The earliest occurrence. */
  ghost function Find(s: seq<Byte>, secret: seq<Byte>): (r: Option<nat>)
    ensures r.Some? ==> r.value + |secret| <= |s|
  {
    if k: nat :| IsFirst(s, secret, k) then Some(k) else None
  }

  /** Leftmost, non-overlapping replacement of the secret in a whole stream. */
  ghost function Redact(s: seq<Byte>, secret: seq<Byte>): seq<Byte>
    requires secret != []
    decreases |s|
  {
    var at := Find(s, secret);
    if at.None? then s
    else s[..at.value] + MARK + Redact(s[at.value + |secret|..], secret)
  }

  /** What follows the last replaced occurrence. */
  ghost function Residue(s: seq<Byte>, secret: seq<Byte>): seq<Byte>
    requires secret != []
    decreases |s|
  {
    var at := Find(s, secret);
    if at.None? then s else Residue(s[at.value + |secret|..], secret)
  }

  /** The last `n` bytes of `s` are a proper prefix of the secret. */
  predicate Overlaps(s: seq<Byte>, secret: seq<Byte>, n: nat) {
    n <= |s| && n < |secret| && s[|s| - n..] == secret[..n]
  }

  ghost predicate IsLongest(s: seq<Byte>, secret: seq<Byte>, n: nat) {
    Overlaps(s, secret, n) && forall k: nat | Overlaps(s, secret, k) :: k <= n
  }

  lemma {:induction false} LongestExists(s: seq<Byte>, secret: seq<Byte>, most: nat) returns (n: nat)
    requires secret != []
    requires forall k: nat | Overlaps(s, secret, k) :: k <= most
    ensures IsLongest(s, secret, n)
    decreases most
  {
    assert s[|s|..] == secret[..0];
    if Overlaps(s, secret, most) {
      n := most;
    } else {
      n := LongestExists(s, secret, most - 1);
    }
  }

  /** The longest suffix of `s` that is a proper prefix of the secret; zero always qualifies. */
  ghost function Overlap(s: seq<Byte>, secret: seq<Byte>): (r: nat)
    requires secret != []
    ensures r <= |s| && r < |secret|
  {
    assert exists n: nat :: IsLongest(s, secret, n) by {
      var n := LongestExists(s, secret, |s|);
    }
    var n: nat :| IsLongest(s, secret, n);
    n
  }

  // ------------------------------------------------------------- one push

  /** What the redaction loop moves out of `pending`, and what it keeps. */
  datatype Settled = Settled(out: seq<Byte>, keep: seq<Byte>)

  ghost function Settle(pending: seq<Byte>, secret: seq<Byte>, finish: bool): Settled
    requires secret != []
    decreases |pending|
  {
    var at := Find(pending, secret);
    if at.Some? then
      var rest := Settle(pending[at.value + |secret|..], secret, finish);
      Settled(pending[..at.value] + MARK + rest.out, rest.keep)
    else
      var count := if finish then |pending| else |pending| - Overlap(pending, secret);
      Settled(pending[..count], pending[count..])
  }

  // ---------------------------------------------------------------- search

  lemma {:induction false} FirstExists(s: seq<Byte>, secret: seq<Byte>, k: nat) returns (first: nat)
    requires OccursAt(s, secret, k)
    ensures first <= k && IsFirst(s, secret, first)
    decreases k
  {
    if j: nat :| j < k && OccursAt(s, secret, j) {
      first := FirstExists(s, secret, j);
    } else {
      first := k;
    }
  }

  lemma FindIsFirst(s: seq<Byte>, secret: seq<Byte>)
    ensures var r := Find(s, secret);
            if r.Some? then IsFirst(s, secret, r.value) else forall k: nat :: !OccursAt(s, secret, k)
  {
    if k: nat :| OccursAt(s, secret, k) {
      var first := FirstExists(s, secret, k);
    }
  }

  /** The first occurrence is the only one with nothing earlier. */
  lemma FindIs(s: seq<Byte>, secret: seq<Byte>, k: nat)
    requires IsFirst(s, secret, k)
    ensures Find(s, secret) == Some(k)
  {
    FindIsFirst(s, secret);
  }

  lemma OverlapIsLongest(s: seq<Byte>, secret: seq<Byte>)
    requires secret != []
    ensures IsLongest(s, secret, Overlap(s, secret))
  {
    var n := LongestExists(s, secret, |s|);
  }

  lemma OverlapIs(s: seq<Byte>, secret: seq<Byte>, n: nat)
    requires secret != [] && IsLongest(s, secret, n)
    ensures Overlap(s, secret) == n
  {
    OverlapIsLongest(s, secret);
  }

  // ------------------------------------------------- nothing starts too early

  /** An occurrence in `a + b` inside `a` is an occurrence in `a`, and the other way round. */
  lemma OccursInside(a: seq<Byte>, b: seq<Byte>, secret: seq<Byte>, k: nat)
    requires k + |secret| <= |a|
    ensures OccursAt(a + b, secret, k) <==> OccursAt(a, secret, k)
  {
    assert (a + b)[k..k + |secret|] == a[k..k + |secret|];
  }

  lemma OccursAfter(a: seq<Byte>, b: seq<Byte>, secret: seq<Byte>, k: nat)
    ensures OccursAt(a + b, secret, |a| + k) <==> OccursAt(b, secret, k)
  {
    if k + |secret| <= |b| {
      assert (a + b)[|a| + k..|a| + k + |secret|] == b[k..k + |secret|];
    }
  }

  /** Bytes ahead of the kept overlap cannot begin an occurrence, whatever arrives next. */
  lemma NoEarlyStart(p: seq<Byte>, x: seq<Byte>, secret: seq<Byte>, k: nat)
    requires secret != [] && Find(p, secret).None?
    requires k < |p| - Overlap(p, secret)
    ensures !OccursAt(p + x, secret, k)
  {
    FindIsFirst(p, secret);
    OverlapIsLongest(p, secret);
    if OccursAt(p + x, secret, k) {
      if k + |secret| <= |p| {
        OccursInside(p, x, secret, k);
      } else {
        var n := |p| - k;
        assert p[k..] == (p + x)[k..k + |secret|][..n];
        assert Overlaps(p, secret, n);
      }
    }
  }

  ghost predicate NoStart(s: seq<Byte>, secret: seq<Byte>, before: int) {
    forall k | 0 <= k < before :: !OccursAt(s, secret, k)
  }

  function Shift(n: nat, at: Option<nat>): Option<nat> {
    if at.None? then None else Some(n + at.value)
  }

  lemma FindShifts(a: seq<Byte>, y: seq<Byte>, secret: seq<Byte>)
    requires secret != [] && NoStart(a + y, secret, |a|)
    ensures Find(a + y, secret) == Shift(|a|, Find(y, secret))
  {
    FindIsFirst(y, secret);
    FindIsFirst(a + y, secret);
    var here, there := Find(y, secret), Find(a + y, secret);
    if here.Some? { OccursAfter(a, y, secret, here.value); }
    if there.Some? { OccursAfter(a, y, secret, there.value - |a|); }
  }

  lemma RedactFound(s: seq<Byte>, secret: seq<Byte>, at: nat)
    requires secret != [] && Find(s, secret) == Some(at)
    ensures Redact(s, secret) == s[..at] + MARK + Redact(s[at + |secret|..], secret)
  {
  }

  lemma Prepend(a: seq<Byte>, head: seq<Byte>, mark: seq<Byte>, tail: seq<Byte>)
    ensures (a + head) + mark + tail == a + (head + mark + tail)
  {
  }

  lemma SettledFound(a: seq<Byte>, y: seq<Byte>, secret: seq<Byte>, at: nat)
    requires secret != [] && Find(y, secret) == Some(at) && Find(a + y, secret) == Some(|a| + at)
    ensures Redact(a + y, secret) == a + Redact(y, secret)
  {
    hide *;
    SplitAt(a, y, at, |secret|);
    RedactFound(y, secret, at);
    RedactFound(a + y, secret, |a| + at);
    Prepend(a, y[..at], MARK, Redact(y[at + |secret|..], secret));
  }

  /** So a stream that begins with settled bytes redacts them to themselves. */
  lemma SettledPrefix(a: seq<Byte>, y: seq<Byte>, secret: seq<Byte>)
    requires secret != [] && NoStart(a + y, secret, |a|)
    ensures Redact(a + y, secret) == a + Redact(y, secret)
  {
    FindShifts(a, y, secret);
    var at := Find(y, secret);
    if at.Some? { SettledFound(a, y, secret, at.value); }
  }

  lemma SplitAt(a: seq<Byte>, y: seq<Byte>, k: nat, n: nat)
    requires k + n <= |y|
    ensures (a + y)[..|a| + k] == a + y[..k]
    ensures (a + y)[|a| + k + n..] == y[k + n..]
  {
  }

  /** A found occurrence stays the first one when more bytes arrive. */
  lemma FoundStays(p: seq<Byte>, x: seq<Byte>, secret: seq<Byte>)
    requires secret != [] && Find(p, secret).Some?
    ensures Find(p + x, secret) == Find(p, secret)
    ensures var at := Find(p, secret).value;
            (p + x)[..at] == p[..at] && (p + x)[at + |secret|..] == p[at + |secret|..] + x
  {
    FindIsFirst(p, secret);
    var at := Find(p, secret).value;
    forall j | 0 <= j <= at ensures OccursAt(p + x, secret, j) <==> OccursAt(p, secret, j) {
      OccursInside(p, x, secret, j);
    }
    FindIs(p + x, secret, at);
  }

  // ------------------------------------------------------------- main laws

  /** Settling a buffer and redacting the rest later is redacting everything at once. */
  lemma {:induction false} SettleIsRedaction(p: seq<Byte>, x: seq<Byte>, secret: seq<Byte>)
    requires secret != []
    ensures Redact(p + x, secret) ==
            Settle(p, secret, false).out + Redact(Settle(p, secret, false).keep + x, secret)
    decreases |p|
  {
    var at := Find(p, secret);
    if at.Some? {
      var rest := p[at.value + |secret|..];
      FoundStays(p, x, secret);
      SettleIsRedaction(rest, x, secret);
      var s := Settle(rest, secret, false);
      Associate(p[..at.value] + MARK, s.out, Redact(s.keep + x, secret));
    } else {
      UnfoundSettles(p, x, secret);
    }
  }

  lemma Associate(a: seq<Byte>, b: seq<Byte>, c: seq<Byte>)
    ensures a + (b + c) == a + b + c
  {
  }

  lemma UnfoundSettles(p: seq<Byte>, x: seq<Byte>, secret: seq<Byte>)
    requires secret != [] && Find(p, secret).None?
    ensures var cut := |p| - Overlap(p, secret);
            && p + x == p[..cut] + (p[cut..] + x)
            && NoStart(p + x, secret, cut)
            && Redact(p + x, secret) == p[..cut] + Redact(p[cut..] + x, secret)
  {
    var cut := |p| - Overlap(p, secret);
    assert p + x == p[..cut] + (p[cut..] + x);
    forall j | 0 <= j < cut ensures !OccursAt(p + x, secret, j) {
      NoEarlyStart(p, x, secret, j);
    }
    SettledPrefix(p[..cut], p[cut..] + x, secret);
  }

  /** The last push settles everything. */
  lemma {:induction false} FinishIsRedaction(p: seq<Byte>, secret: seq<Byte>)
    requires secret != []
    ensures Settle(p, secret, true) == Settled(Redact(p, secret), [])
    decreases |p|
  {
    var at := Find(p, secret);
    if at.Some? {
      FinishIsRedaction(p[at.value + |secret|..], secret);
    } else {
      assert p[..|p|] == p;
    }
  }

  /** Dropping bytes that begin no occurrence keeps the longest overlap of the residue. */
  lemma OverlapOfSuffix(a: seq<Byte>, k: seq<Byte>, x: seq<Byte>, secret: seq<Byte>)
    requires secret != []
    requires |k| == Overlap(a + k, secret)
    requires k == secret[..|k|]
    ensures Overlap(a + (k + x), secret) == Overlap(k + x, secret)
  {
    var whole, part := a + (k + x), k + x;
    OverlapIsLongest(whole, secret);
    OverlapIsLongest(part, secret);
    OverlapIsLongest(a + k, secret);
    forall n: nat | Overlaps(whole, secret, n) ensures Overlaps(part, secret, n) {
      if n > |part| {
        var m := n - |x|;
        assert (a + k)[|a + k| - m..] == whole[|whole| - n..][..m];
        assert Overlaps(a + k, secret, m);
      } else {
        assert whole[|whole| - n..] == part[|part| - n..];
      }
    }
    forall n: nat | Overlaps(part, secret, n) ensures Overlaps(whole, secret, n) {
      assert whole[|whole| - n..] == part[|part| - n..];
    }
  }

  lemma UnfoundResidue(p: seq<Byte>, x: seq<Byte>, secret: seq<Byte>)
    requires secret != [] && Find(p, secret).None?
    ensures var k := p[|p| - Overlap(p, secret)..];
            Overlap(Residue(p + x, secret), secret) == Overlap(Residue(k + x, secret), secret)
  {
    UnfoundSettles(p, x, secret);
    OverlapIsLongest(p, secret);
    var a, k := p[..|p| - Overlap(p, secret)], p[|p| - Overlap(p, secret)..];
    FindShifts(a, k + x, secret);
    var found := Find(k + x, secret);
    if found.Some? {
      SplitAt(a, k + x, found.value, |secret|);
    } else {
      assert p == a + k;
      OverlapOfSuffix(a, k, x, secret);
    }
  }

  /** What is kept determines how much any continuation will keep. */
  lemma {:induction false} SettleKeepsOverlap(p: seq<Byte>, x: seq<Byte>, secret: seq<Byte>)
    requires secret != []
    ensures Overlap(Residue(p + x, secret), secret) ==
            Overlap(Residue(Settle(p, secret, false).keep + x, secret), secret)
    decreases |p|
  {
    var at := Find(p, secret);
    if at.Some? {
      FoundStays(p, x, secret);
      SettleKeepsOverlap(p[at.value + |secret|..], x, secret);
    } else {
      UnfoundResidue(p, x, secret);
    }
  }

  /** The kept bytes are themselves the longest overlap of what remains unsettled. */
  lemma {:induction false} KeepIsOverlap(p: seq<Byte>, secret: seq<Byte>)
    requires secret != []
    ensures var keep := Settle(p, secret, false).keep;
            var residue := Residue(p, secret);
            |keep| == Overlap(residue, secret) && keep == residue[|residue| - |keep|..]
    decreases |p|
  {
    var at := Find(p, secret);
    if at.Some? {
      KeepIsOverlap(p[at.value + |secret|..], secret);
    }
  }

  // ------------------------------------------------------- redaction and text

  /** In valid text the secret occurs only between characters: cutting it out leaves text. */
  lemma {:induction false} OccursBetweenChars(s: seq<Byte>, secret: seq<Byte>, k: nat)
    requires secret != [] && ValidUtf8(secret) && ValidUtf8(s) && OccursAt(s, secret, k)
    ensures ValidUtf8(s[..k]) && ValidUtf8(s[k + |secret|..])
    decreases |s|
  {
    CharTails(secret);
    assert s[k] == s[k..k + |secret|][0] == secret[0];
    BoundaryCuts(s, k);
    assert s[k..] == secret + s[k + |secret|..];
    ValidAppend(secret, s[k + |secret|..]);
  }

  predicate Ascii(s: seq<Byte>) {
    forall i | 0 <= i < |s| :: s[i] < 0x80
  }

  lemma MarkIsValid(mark: seq<Byte>)
    requires mark == MARK
    ensures ValidUtf8(mark)
  {
    assert Ascii(mark);
    AsciiIsValid(mark);
  }

  lemma {:induction false} AsciiIsValid(s: seq<Byte>)
    requires Ascii(s)
    ensures ValidUtf8(s)
  {
    if s != [] {
      assert Scan(s) == Char(1);
      AsciiIsValid(s[1..]);
    }
  }

  /** Redacting valid text by a valid secret gives valid text. */
  lemma {:induction false} RedactIsValid(s: seq<Byte>, secret: seq<Byte>)
    requires secret != [] && ValidUtf8(secret) && ValidUtf8(s)
    ensures ValidUtf8(Redact(s, secret))
    decreases |s|
  {
    hide ValidUtf8, Find;
    var at := Find(s, secret);
    if at.Some? {
      FindIsFirst(s, secret);
      OccursBetweenChars(s, secret, at.value);
      var rest := s[at.value + |secret|..];
      RedactIsValid(rest, secret);
      MarkIsValid(MARK);
      ValidAppend(s[..at.value], MARK);
      ValidAppend(s[..at.value] + MARK, Redact(rest, secret));
    }
  }
}
