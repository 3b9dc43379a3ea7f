/** Output that is not text (crates/client/src/controller.rs). A buffer with a bad byte in it is decoded whole, even
    if its end is only the start of a character; here is exactly when that shows. */
module RawOutput {
  import opened Utf8
  import opened Redaction
  import opened RedactedOutput

  // --------------------------------------------------------- counting characters

  /** How many characters lossy decoding shows. */
  function Count(s: seq<Byte>): nat
    decreases |s|
  {
    if s == [] then 0
    else match Scan(s)
      case Char(n) => 1 + Count(s[n..])
      case Bad(n) => 1 + Count(s[n..])
      case CutShort => 1
  }

  lemma {:induction false} CountsShown(s: seq<Byte>)
    ensures Count(Lossy(s)) == Count(s)
    decreases |s|
  {
    if s != [] {
      match Scan(s)
      case Char(n) => ShowsOne(s[..n], Lossy(s[n..]), n); ScanOne(s, n); CountsShown(s[n..]);
      case Bad(n) => ShowsOne(REPLACEMENT, Lossy(s[n..]), 3); CountsShown(s[n..]);
      case CutShort => assert Scan(REPLACEMENT) == Char(3) && REPLACEMENT[3..] == [];
    }
  }

  lemma ShowsOne(c: seq<Byte>, rest: seq<Byte>, n: nat)
    requires c != [] && |c| == n && Scan(c) == Char(n)
    ensures Count(c + rest) == 1 + Count(rest)
  {
    ScanPrefix(c, rest);
    assert (c + rest)[n..] == rest;
  }

  /** The start of a character that a byte string ends with, if it does. */
  function Trailing(s: seq<Byte>): (t: seq<Byte>)
    ensures |t| <= |s|
    decreases |s|
  {
    if s == [] then []
    else match Scan(s)
      case Char(n) => Trailing(s[n..])
      case Bad(n) => Trailing(s[n..])
      case CutShort => s
  }

  /** Cutting here splits a character, or the bytes that one replacement stands for: `x` ends with the start of a
      character that `y` goes on with. */
  predicate Splits(x: seq<Byte>, y: seq<Byte>) {
    y != [] && Trailing(x) != [] && !Scan(Trailing(x) + y[..1]).Bad?
  }

  /** The bytes that continue a character are bad on their own, one by one. */
  lemma {:induction false} TailsCount(y: seq<Byte>, k: nat)
    requires k <= |y| && forall i | 0 <= i < k :: IsTail(y[i])
    ensures Count(y) == k + Count(y[k..])
    decreases k
  {
    if k > 0 {
      assert Scan(y) == Bad(1);
      TailsCount(y[1..], k - 1);
      assert y[1..][k - 1..] == y[k..];
    }
  }

  /** How a cut-short character goes on. */
  lemma GoesOn(x: seq<Byte>, y: seq<Byte>)
    requires x != [] && Scan(x).CutShort? && y != []
    ensures Scan(x + y[..1]).Bad? ==> Scan(x + y) == Bad(|x|)
    ensures !Scan(x + y[..1]).Bad? ==>
              var n := if Scan(x + y).CutShort? then |x + y| else Scan(x + y).len;
              n > |x| && forall i | 0 <= i < n - |x| :: IsTail(y[i])
  {
    var z := x + y;
    assert forall i | 0 <= i < |x| :: z[i] == x[i];
    assert forall i | 0 <= i < |y| :: z[|x| + i] == y[i];
    assert (x + y[..1])[|x|] == y[0];
  }

  /** Cut anywhere, the parts show at least as many characters as the whole, and exactly as many if nothing is
      split; then they show the same. */
  lemma {:induction false} CutCounts(x: seq<Byte>, y: seq<Byte>)
    ensures Count(x + y) <= Count(x) + Count(y)
    ensures Count(x + y) == Count(x) + Count(y) <==> !Splits(x, y)
    ensures !Splits(x, y) ==> Lossy(x + y) == Lossy(x) + Lossy(y)
    decreases |x|
  {
    if x == [] {
      assert x + y == y;
    } else if Scan(x).CutShort? {
      StartCounts(x, y);
    } else {
      ScanPrefix(x, y);
      var n := Scan(x).len;
      assert (x + y)[n..] == x[n..] + y;
      CutCounts(x[n..], y);
      if Scan(x).Char? { assert (x + y)[..n] == x[..n]; }
    }
  }

  lemma StartCounts(x: seq<Byte>, y: seq<Byte>)
    requires x != [] && Scan(x).CutShort?
    ensures Count(x + y) <= Count(x) + Count(y)
    ensures Count(x + y) == Count(x) + Count(y) <==> !Splits(x, y)
    ensures !Splits(x, y) ==> Lossy(x + y) == Lossy(x) + Lossy(y)
  {
    if y == [] {
      assert x + y == x;
    } else {
      GoesOn(x, y);
      if Splits(x, y) {
        var n := if Scan(x + y).CutShort? then |x + y| else Scan(x + y).len;
        TailsCount(y, n - |x|);
        assert (x + y)[n..] == y[n - |x|..];
      } else {
        assert (x + y)[|x|..] == y;
      }
    }
  }

  // ------------------------------------------------------------ lists of buffers

  /** What decoding one buffer after the other shows. */
  function Decoded(bs: seq<seq<Byte>>): seq<Byte> {
    if bs == [] then [] else Decoded(bs[..|bs| - 1]) + Lossy(bs[|bs| - 1])
  }

  predicate NothingSplit(bs: seq<seq<Byte>>) {
    forall i | 0 <= i < |bs| :: !Splits(Concat(bs[..i]), bs[i])
  }

  lemma NothingSplitBefore(bs: seq<seq<Byte>>)
    requires bs != []
    ensures var before, last := bs[..|bs| - 1], bs[|bs| - 1];
            NothingSplit(bs) <==> NothingSplit(before) && !Splits(Concat(before), last)
  {
    hide Splits, Concat;
    var before, n := bs[..|bs| - 1], |bs| - 1;
    forall i | 0 <= i < n ensures Splits(Concat(before[..i]), before[i]) <==> Splits(Concat(bs[..i]), bs[i]) {
      assert before[..i] == bs[..i];
    }
  }

  lemma {:induction false} DecodedIsText(bs: seq<seq<Byte>>)
    ensures ValidUtf8(Decoded(bs))
  {
    if bs != [] {
      DecodedIsText(bs[..|bs| - 1]);
      LossyIsValid(bs[|bs| - 1]);
      ValidAppend(Decoded(bs[..|bs| - 1]), Lossy(bs[|bs| - 1]));
    }
  }

  lemma {:induction false} TextSplitsNothing(x: seq<Byte>, y: seq<Byte>)
    requires ValidUtf8(x)
    ensures !Splits(x, y)
    decreases |x|
  {
    if x != [] { TextSplitsNothing(x[Scan(x).len..], y); }
  }

  /** Buffer by buffer, decoding shows what decoding everything at once shows if and only if no buffer ends in the
      middle of a character or of a bad sequence that the next bytes go on with. */
  lemma {:induction false} DecodedIsLossyExactly(bs: seq<seq<Byte>>)
    ensures Count(Concat(bs)) <= Count(Decoded(bs))
    ensures Count(Concat(bs)) == Count(Decoded(bs)) <==> NothingSplit(bs)
    ensures Decoded(bs) == Lossy(Concat(bs)) <==> NothingSplit(bs)
    decreases |bs|
  {
    hide Splits, Count, Lossy, Trailing;
    if bs == [] {
      Nothing();
    } else {
      var before, last := bs[..|bs| - 1], bs[|bs| - 1];
      DecodedIsLossyExactly(before);
      NothingSplitBefore(bs);
      CutCounts(Concat(before), last);
      DecodedIsText(before);
      TextSplitsNothing(Decoded(before), Lossy(last));
      CutCounts(Decoded(before), Lossy(last));
      CountsShown(last);
      CountsShown(Concat(bs));
    }
  }

  lemma Nothing()
    ensures Count([]) == 0 && Lossy([]) == []
  {
  }

  // ----------------------------------------------------------------- whole runs

  /** The buffer one push decodes. */
  ghost function Flushed(secret: seq<Byte>, st: State, bytes: seq<Byte>, finish: bool): seq<Byte>
    requires secret != []
  {
    var buffer := st.utf8 + Settle(st.pending + bytes, secret, finish).out;
    buffer[..Decodable(buffer, finish)]
  }

  ghost function Flushes(secret: seq<Byte>, chunks: seq<seq<Byte>>): seq<seq<Byte>>
    requires secret != []
  {
    if chunks == [] then []
    else
      var before := chunks[..|chunks| - 1];
      Flushes(secret, before) + [Flushed(secret, Run(secret, before).st, chunks[|chunks| - 1], false)]
  }

  lemma PushFlushes(secret: seq<Byte>, st: State, bytes: seq<Byte>, finish: bool)
    requires secret != []
    ensures var (next, chunk) := Pushed(secret, st, bytes, finish);
            && chunk == Lossy(Flushed(secret, st, bytes, finish))
            && Flushed(secret, st, bytes, finish) + next.utf8
               == st.utf8 + Settle(st.pending + bytes, secret, finish).out
            && (finish ==> next.utf8 == [])
  {
  }

  lemma ConcatMore(bs: seq<seq<Byte>>, b: seq<Byte>)
    ensures Concat(bs + [b]) == Concat(bs) + b && Decoded(bs + [b]) == Decoded(bs) + Lossy(b)
  {
    assert (bs + [b])[..|bs + [b]| - 1] == bs;
  }

  lemma {:induction false} RunFlushes(secret: seq<Byte>, chunks: seq<seq<Byte>>)
    requires secret != []
    ensures Run(secret, chunks).emitted == Decoded(Flushes(secret, chunks))
    ensures Concat(Flushes(secret, chunks)) + Run(secret, chunks).st.utf8 == Feed(secret, chunks).out
    decreases |chunks|
  {
    hide Pushed, Flushed, Settle;
    if chunks != [] {
      var before, b := chunks[..|chunks| - 1], chunks[|chunks| - 1];
      var st := Run(secret, before).st;
      RunFlushes(secret, before);
      RunFeeds(secret, before);
      PushFlushes(secret, st, b, false);
      ConcatMore(Flushes(secret, before), Flushed(secret, st, b, false));
      Regrouped(Concat(Flushes(secret, before)), st.utf8, Settle(st.pending + b, secret, false).out,
                Flushed(secret, st, b, false), Pushed(secret, st, b, false).0.utf8);
    }
  }

  lemma Regrouped(a: seq<Byte>, b: seq<Byte>, c: seq<Byte>, d: seq<Byte>, e: seq<Byte>)
    requires b + c == d + e
    ensures a + b + c == a + d + e
  {
    assert a + b + c == a + (b + c) && a + d + e == a + (d + e);
  }

  /** For any bytes whatever, any secret and any chunking: the emitted text is the redacted stream, lossily decoded
      at once, if and only if no push decoded the start of a character, or of one bad sequence, that the stream
      goes on with. */
  lemma EmittedIsLossyExactly(secret: seq<Byte>, chunks: seq<seq<Byte>>, last: seq<Byte>)
    requires secret != []
    ensures var bs := Flushes(secret, chunks) + [Flushed(secret, Run(secret, chunks).st, last, true)];
            && Concat(bs) == Redact(Concat(chunks) + last, secret)
            && (Finished(secret, chunks, last).emitted == Lossy(Redact(Concat(chunks) + last, secret)) <==>
                  NothingSplit(bs))
  {
    hide Pushed, Flushed, Settle, NothingSplit, Lossy;
    var st := Run(secret, chunks).st;
    var b := Flushed(secret, st, last, true);
    RunFlushes(secret, chunks);
    RunFeeds(secret, chunks);
    PushFlushes(secret, st, last, true);
    ReleasedIsRedaction(secret, chunks, last);
    ConcatMore(Flushes(secret, chunks), b);
    Regrouped(Concat(Flushes(secret, chunks)), st.utf8, Settle(st.pending + last, secret, true).out, b, []);
    DecodedIsLossyExactly(Flushes(secret, chunks) + [b]);
  }

  /** And what a push splits always comes behind a bad byte in the very buffer it decodes. */
  lemma OnlyBadBuffersSplit(secret: seq<Byte>, st: State, bytes: seq<Byte>)
    requires secret != [] && ValidUtf8(Flushed(secret, st, bytes, false))
    ensures Trailing(Flushed(secret, st, bytes, false)) == []
  {
    TextTrailsNothing(Flushed(secret, st, bytes, false));
  }

  lemma {:induction false} TextTrailsNothing(s: seq<Byte>)
    requires ValidUtf8(s)
    ensures Trailing(s) == []
    decreases |s|
  {
    if s != [] { TextTrailsNothing(s[Scan(s).len..]); }
  }

  lemma SettlesWithoutSecret(s: seq<Byte>, secret: seq<Byte>, finish: bool)
    requires |secret| == 1 && secret[0] !in s
    ensures Redact(s, secret) == s && Settle(s, secret, finish) == Settled(s, [])
  {
    FindIsFirst(s, secret);
    forall k: nat ensures !OccursAt(s, secret, k) {
      if k + 1 <= |s| { assert s[k..k + 1][0] == s[k]; }
    }
    assert Overlap(s, secret) == 0;
    assert s[..|s|] == s && s[|s|..] == [];
  }

  const BAD_AND_LEAD: seq<Byte> := [0xFF, 0xC3]
  const TAIL: seq<Byte> := [0xA9]

  lemma Decodings()
    ensures Decodable(BAD_AND_LEAD, false) == 2 && Decodable(TAIL, true) == 1
    ensures Lossy(BAD_AND_LEAD) == REPLACEMENT + REPLACEMENT && Lossy(TAIL) == REPLACEMENT
    ensures Lossy(BAD_AND_LEAD + TAIL) == REPLACEMENT + BAD_AND_LEAD[1..] + TAIL
  {
    assert BAD_AND_LEAD[1..] == [0xC3] && TAIL[1..] == [];
    assert Lossy([0xC3]) == REPLACEMENT;
    var whole := BAD_AND_LEAD + TAIL;
    assert whole[1..] == [0xC3, 0xA9];
    assert Scan([0xC3, 0xA9]) == Char(2);
    assert Lossy([0xC3, 0xA9]) == [0xC3, 0xA9] by { assert [0xC3, 0xA9][..2] + [] == [0xC3, 0xA9]; }
    assert Lossy(TAIL) == REPLACEMENT + Lossy(TAIL[1..]);
    assert REPLACEMENT + [] == REPLACEMENT;
  }

  /** A run that shows it: a bad byte and the first byte of a two-byte character come in one push, the second byte
      in the next. The character is lost. */
  lemma BadByteCostsTheNextCharacter(secret: seq<Byte>)
    requires |secret| == 1 && secret[0] < 0x80
    ensures Finished(secret, [BAD_AND_LEAD], TAIL).emitted == REPLACEMENT + REPLACEMENT + REPLACEMENT
    ensures Lossy(Redact(BAD_AND_LEAD + TAIL, secret)) == REPLACEMENT + BAD_AND_LEAD[1..] + TAIL
  {
    hide Lossy, Decodable, Settle, Redact;
    Decodings();
    SettlesWithoutSecret(BAD_AND_LEAD, secret, false);
    SettlesWithoutSecret(TAIL, secret, true);
    SettlesWithoutSecret(BAD_AND_LEAD + TAIL, secret, true);
    assert [BAD_AND_LEAD][..0] == [] && Run(secret, []) == Trace(State([], [], []), []);
    assert [] + BAD_AND_LEAD == BAD_AND_LEAD && [] + TAIL == TAIL;
    assert BAD_AND_LEAD[..2] == BAD_AND_LEAD && BAD_AND_LEAD[2..] == [] && TAIL[..1] == TAIL;
    var st := Run(secret, [BAD_AND_LEAD]);
    assert st.st.pending == [] && st.st.utf8 == [] && st.emitted == REPLACEMENT + REPLACEMENT;
  }
}
