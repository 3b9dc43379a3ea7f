/** The controller's output filter (crates/client/src/controller.rs): redaction, then incremental
    UTF-8 decoding, then bounded capture. `Push` is the source's method on its three buffers;
    `Pushed` is what one call computes; the laws below are about whole runs of calls. */
module RedactedOutput {
  import opened Wrappers
  import opened Utf8
  import opened Redaction

  const CAPTURE_LIMIT: nat := 65536

  datatype State = State(pending: seq<Byte>, utf8: seq<Byte>, captured: seq<Byte>)

  // ------------------------------------------------- what one push computes

  /** How many buffered bytes can be decoded now: all of them, unless more input may complete a
      character that the buffer cuts short. */
  function Decodable(buffer: seq<Byte>, finish: bool): (n: nat)
    ensures n <= |buffer|
  {
    var upTo := ValidUpTo(buffer);
    if upTo < |buffer| && !finish && Scan(buffer[upTo..]).CutShort? then upTo else |buffer|
  }

  /** The largest character boundary at or below `n`. */
  function BoundaryAtMost(chunk: seq<Byte>, n: nat): (k: nat)
    requires n <= |chunk|
    ensures k <= n && IsBoundary(chunk, k)
    ensures forall j | k < j <= n :: !IsBoundary(chunk, j)
  {
    if IsBoundary(chunk, n) then n else BoundaryAtMost(chunk, n - 1)
  }

  function Room(captured: seq<Byte>, chunk: seq<Byte>): (n: nat)
    ensures n <= |chunk|
  {
    if |captured| >= CAPTURE_LIMIT then 0
    else if CAPTURE_LIMIT - |captured| <= |chunk| then CAPTURE_LIMIT - |captured| else |chunk|
  }

  function Capture(captured: seq<Byte>, chunk: seq<Byte>): seq<Byte> {
    captured + chunk[..BoundaryAtMost(chunk, Room(captured, chunk))]
  }

  /** The new buffers, and the chunk emitted (empty when nothing is emitted). */
  ghost function Pushed(secret: seq<Byte>, st: State, bytes: seq<Byte>, finish: bool): (State, seq<Byte>)
    requires secret != []
  {
    var settled := Settle(st.pending + bytes, secret, finish);
    var buffer := st.utf8 + settled.out;
    var count := Decodable(buffer, finish);
    if count == 0 then (State(settled.keep, buffer, st.captured), [])
    else
      var chunk := Lossy(buffer[..count]);
      (State(settled.keep, buffer[count..], Capture(st.captured, chunk)), chunk)
  }

  // --------------------------------------------------------------- the class

  /** `windows(secret.len()).position(..)`. */
  method Position(pending: seq<Byte>, secret: seq<Byte>) returns (r: Option<nat>)
    ensures r == Find(pending, secret)
  {
    FindIsFirst(pending, secret);
    var index := 0;
    while index + |secret| <= |pending|
      invariant forall k | 0 <= k < index :: !OccursAt(pending, secret, k)
    {
      if OccursAt(pending, secret, index) {
        FindIs(pending, secret, index);
        return Some(index);
      }
      index := index + 1;
    }
    r := None;
  }

  /** `(1..min(secret.len(), pending.len() + 1)).rev().find(..).unwrap_or(0)`. */
  method KeepLength(pending: seq<Byte>, secret: seq<Byte>) returns (keep: nat)
    requires secret != []
    ensures keep == Overlap(pending, secret)
  {
    OverlapIsLongest(pending, secret);
    keep := if |secret| <= |pending| then |secret| - 1 else |pending|;
    while keep > 0
      invariant forall k: nat | Overlaps(pending, secret, k) :: k <= keep
    {
      if Overlaps(pending, secret, keep) {
        OverlapIs(pending, secret, keep);
        return;
      }
      keep := keep - 1;
    }
  }

  class RedactedOutput {
    const secret: seq<Byte>
    var pending: seq<Byte>
    var utf8: seq<Byte>
    var captured: seq<Byte>

    function Buffers(): State
      reads this
    {
      State(pending, utf8, captured)
    }

    constructor (secret: seq<Byte>)
      ensures this.secret == secret && Buffers() == State([], [], [])
    {
      this.secret := secret;
      pending, utf8, captured := [], [], [];
    }

    /** The redaction loop: settle `pending` into `utf8`. */
    method Settling(finish: bool)
      requires secret != []
      modifies this`pending, this`utf8
      ensures var settled := Settle(old(pending), secret, finish);
              utf8 == old(utf8) + settled.out && pending == settled.keep
    {
      while true
        invariant utf8 + Settle(pending, secret, finish).out == old(utf8) + Settle(old(pending), secret, finish).out
        invariant Settle(pending, secret, finish).keep == Settle(old(pending), secret, finish).keep
        decreases |pending|
      {
        var index := Position(pending, secret);
        if index.None? {
          break;
        }
        ghost var rest := Settle(pending[index.value + |secret|..], secret, finish).out;
        Regroup(utf8, pending[..index.value], MARK, rest);
        utf8 := utf8 + pending[..index.value] + MARK;
        pending := pending[index.value + |secret|..];
      }
      var count := |pending|;
      if !finish {
        var keep := KeepLength(pending, secret);
        count := |pending| - keep;
      }
      utf8 := utf8 + pending[..count];
      pending := pending[count..];
    }

    /** Append to the capture what fits, cut back to a character boundary. */
    method Capturing(chunk: seq<Byte>)
      requires |captured| <= CAPTURE_LIMIT
      modifies this`captured
      ensures captured == Capture(old(captured), chunk)
    {
      var room := CAPTURE_LIMIT - |captured|;
      var count: nat := if room <= |chunk| then room else |chunk|;
      while !IsBoundary(chunk, count)
        invariant count <= |chunk|
        invariant BoundaryAtMost(chunk, count) == BoundaryAtMost(chunk, Room(captured, chunk))
        decreases count
      {
        count := count - 1;
      }
      captured := captured + chunk[..count];
    }

    method Push(bytes: seq<Byte>, finish: bool) returns (emitted: seq<Byte>)
      requires secret != [] && |captured| <= CAPTURE_LIMIT
      modifies this
      ensures (Buffers(), emitted) == Pushed(secret, old(Buffers()), bytes, finish)
    {
      pending := pending + bytes;
      Settling(finish);
      var count := Decodable(utf8, finish);
      emitted := [];
      if count == 0 {
        return;
      }
      emitted := Lossy(utf8[..count]);
      utf8 := utf8[count..];
      Capturing(emitted);
    }
  }

  lemma Regroup(a: seq<Byte>, b: seq<Byte>, c: seq<Byte>, d: seq<Byte>)
    ensures a + (b + c + d) == a + b + c + d
  {
  }

  // ----------------------------------------------------------- runs of pushes

  function Concat(chunks: seq<seq<Byte>>): seq<Byte> {
    if chunks == [] then [] else Concat(chunks[..|chunks| - 1]) + chunks[|chunks| - 1]
  }

  /** The redaction buffer alone over a run of non-final pushes: bytes released so far, bytes kept. */
  ghost function Feed(secret: seq<Byte>, chunks: seq<seq<Byte>>): Settled
    requires secret != []
  {
    if chunks == [] then Settled([], [])
    else
      var before := Feed(secret, chunks[..|chunks| - 1]);
      var settled := Settle(before.keep + chunks[|chunks| - 1], secret, false);
      Settled(before.out + settled.out, settled.keep)
  }

  datatype Trace = Trace(st: State, emitted: seq<Byte>)

  /** All buffers and everything emitted, over the same run. */
  ghost function Run(secret: seq<Byte>, chunks: seq<seq<Byte>>): Trace
    requires secret != []
  {
    if chunks == [] then Trace(State([], [], []), [])
    else
      var before := Run(secret, chunks[..|chunks| - 1]);
      var (st, chunk) := Pushed(secret, before.st, chunks[|chunks| - 1], false);
      Trace(st, before.emitted + chunk)
  }

  ghost function Finished(secret: seq<Byte>, chunks: seq<seq<Byte>>, last: seq<Byte>): Trace
    requires secret != []
  {
    var before := Run(secret, chunks);
    var (st, chunk) := Pushed(secret, before.st, last, true);
    Trace(st, before.emitted + chunk)
  }

  /** However the stream was cut, what is released plus the redaction of what is kept with any
      continuation is the redaction of everything; and continuations overlap alike. */
  lemma {:induction false} FeedIsRedaction(secret: seq<Byte>, chunks: seq<seq<Byte>>, x: seq<Byte>)
    requires secret != []
    ensures Redact(Concat(chunks) + x, secret) ==
            Feed(secret, chunks).out + Redact(Feed(secret, chunks).keep + x, secret)
    ensures Overlap(Residue(Concat(chunks) + x, secret), secret) ==
            Overlap(Residue(Feed(secret, chunks).keep + x, secret), secret)
    decreases |chunks|
  {
    if chunks != [] {
      var before, b := chunks[..|chunks| - 1], chunks[|chunks| - 1];
      var kept := Feed(secret, before).keep;
      FeedIsRedaction(secret, before, b + x);
      Associate(Concat(before), b, x);
      Associate(kept, b, x);
      SettleIsRedaction(kept + b, x, secret);
      SettleKeepsOverlap(kept + b, x, secret);
      var settled := Settle(kept + b, secret, false);
      Associate(Feed(secret, before).out, settled.out, Redact(settled.keep + x, secret));
    }
  }

  /** Main result on bytes. For every nonempty secret and every way of cutting a stream, the bytes
      released through the last push are the leftmost non-overlapping redaction of the stream. */
  lemma ReleasedIsRedaction(secret: seq<Byte>, chunks: seq<seq<Byte>>, last: seq<Byte>)
    requires secret != []
    ensures var before := Feed(secret, chunks);
            var end := Settle(before.keep + last, secret, true);
            before.out + end.out == Redact(Concat(chunks) + last, secret) && end.keep == []
  {
    FeedIsRedaction(secret, chunks, last);
    FinishIsRedaction(Feed(secret, chunks).keep + last, secret);
  }

  /** A suffix of the right length that overlaps is the longest overlap. */
  lemma SameOverlap(residue: seq<Byte>, other: seq<Byte>, secret: seq<Byte>, kept: seq<Byte>)
    requires secret != [] && |kept| == Overlap(other, secret) == Overlap(residue, secret)
    requires kept == other[|other| - |kept|..]
    ensures IsLongest(residue, secret, |kept|) && kept == residue[|residue| - |kept|..]
  {
    OverlapIsLongest(residue, secret);
    OverlapIsLongest(other, secret);
  }

  lemma NothingYet(secret: seq<Byte>)
    requires secret != []
    ensures Residue([], secret) == [] && IsLongest([], secret, 0)
  {
    FindIsFirst([], secret);
    OverlapIsLongest([], secret);
  }

  /** Between pushes the kept bytes are exactly the longest suffix of the text since the last
      redaction that is a proper prefix of the secret: no more is withheld than must be. */
  lemma KeptIsLongestOverlap(secret: seq<Byte>, chunks: seq<seq<Byte>>)
    requires secret != []
    ensures var residue := Residue(Concat(chunks), secret);
            var kept := Feed(secret, chunks).keep;
            IsLongest(residue, secret, |kept|) && kept == residue[|residue| - |kept|..]
  {
    hide Residue, Overlap;
    if chunks == [] {
      NothingYet(secret);
    } else {
      var before, b := chunks[..|chunks| - 1], chunks[|chunks| - 1];
      var p := Feed(secret, before).keep + b;
      FeedIsRedaction(secret, before, b);
      KeepIsOverlap(p, secret);
      SameOverlap(Residue(Concat(chunks), secret), Residue(p, secret), secret, Feed(secret, chunks).keep);
    }
  }

  // --------------------------------------------------------------- decoding

  lemma {:induction false} RunFeeds(secret: seq<Byte>, chunks: seq<seq<Byte>>)
    requires secret != []
    ensures Run(secret, chunks).st.pending == Feed(secret, chunks).keep
    decreases |chunks|
  {
    if chunks != [] { RunFeeds(secret, chunks[..|chunks| - 1]); }
  }

  /** The decoder's standing state on a stream that can still become valid: everything released is
      emitted or buffered, and only a cut-short character is buffered. */
  ghost predicate Decoding(emitted: seq<Byte>, buffered: seq<Byte>, released: seq<Byte>) {
    && emitted + buffered == released
    && ValidUtf8(emitted)
    && (buffered == [] || Scan(buffered).CutShort?)
  }

  /** One decoding step on a buffer that is a prefix of valid text emits exactly its whole
      characters, unchanged. */
  lemma DecodeStep(emitted: seq<Byte>, buffer: seq<Byte>, rest: seq<Byte>)
    requires ValidUtf8(emitted) && ValidUtf8(emitted + buffer + rest)
    ensures var n := Decodable(buffer, false);
            && Lossy(buffer[..n]) == buffer[..n]
            && Decoding(emitted + buffer[..n], buffer[n..], emitted + buffer)
  {
    Associate(emitted, buffer, rest);
    ValidAppend(emitted, buffer + rest);
    PrefixOfValid(buffer, rest);
    UpToIsValid(buffer);
    ValidUpToAll(buffer);
    var n := Decodable(buffer, false);
    assert n == ValidUpTo(buffer);
    LossyOfValid(buffer[..n]);
    ValidAppend(emitted, buffer[..n]);
    assert buffer == buffer[..n] + buffer[n..];
    Associate(emitted, buffer[..n], buffer[n..]);
  }

  /** Pushing keeps the decoder's standing state. */
  lemma PushDecodes(secret: seq<Byte>, before: Trace, released: seq<Byte>, bytes: seq<Byte>, rest: seq<Byte>)
    requires secret != [] && Decoding(before.emitted, before.st.utf8, released)
    requires ValidUtf8(released + Settle(before.st.pending + bytes, secret, false).out + rest)
    ensures var (st, chunk) := Pushed(secret, before.st, bytes, false);
            Decoding(before.emitted + chunk, st.utf8, released + Settle(before.st.pending + bytes, secret, false).out)
  {
    var out := Settle(before.st.pending + bytes, secret, false).out;
    var buffer := before.st.utf8 + out;
    Associate(before.emitted, before.st.utf8, out);
    DecodeStep(before.emitted, buffer, rest);
    var n := Decodable(buffer, false);
    if n == 0 {
      assert before.emitted + [] == before.emitted;
      assert buffer[..0] == [] && buffer[0..] == buffer;
    }
  }

  lemma {:induction false} RunDecodes(secret: seq<Byte>, chunks: seq<seq<Byte>>, rest: seq<Byte>)
    requires secret != [] && ValidUtf8(secret) && ValidUtf8(Concat(chunks) + rest)
    ensures Decoding(Run(secret, chunks).emitted, Run(secret, chunks).st.utf8, Feed(secret, chunks).out)
    decreases |chunks|
  {
    if chunks == [] {
      assert Run(secret, chunks).emitted + [] == [];
    } else {
      var before, b := chunks[..|chunks| - 1], chunks[|chunks| - 1];
      Associate(Concat(before), b, rest);
      RunDecodes(secret, before, b + rest);
      RunFeeds(secret, before);
      FeedIsRedaction(secret, chunks, rest);
      RedactIsValid(Concat(chunks) + rest, secret);
      PushDecodes(secret, Run(secret, before), Feed(secret, before).out, b,
                  Redact(Feed(secret, chunks).keep + rest, secret));
    }
  }

  /** The last push decodes all that is left of a valid stream. */
  lemma FinishDecodes(secret: seq<Byte>, before: Trace, released: seq<Byte>, last: seq<Byte>)
    requires secret != [] && Decoding(before.emitted, before.st.utf8, released)
    requires ValidUtf8(released + Settle(before.st.pending + last, secret, true).out)
    ensures var (st, chunk) := Pushed(secret, before.st, last, true);
            && before.emitted + chunk == released + Settle(before.st.pending + last, secret, true).out
            && st.utf8 == []
  {
    var out := Settle(before.st.pending + last, secret, true).out;
    var buffer := before.st.utf8 + out;
    Associate(before.emitted, before.st.utf8, out);
    ValidAppend(before.emitted, buffer);
    ValidUpToAll(buffer);
    LossyOfValid(buffer);
    assert buffer[..|buffer|] == buffer && buffer[|buffer|..] == [];
  }

  /** Main result on text. For every valid UTF-8 stream and secret and every chunking, the emitted
      chunks concatenate to the whole-stream redaction, and nothing stays buffered. */
  lemma EmittedIsRedactedText(secret: seq<Byte>, chunks: seq<seq<Byte>>, last: seq<Byte>)
    requires secret != [] && ValidUtf8(secret) && ValidUtf8(Concat(chunks) + last)
    ensures var end := Finished(secret, chunks, last);
            && end.emitted == Redact(Concat(chunks) + last, secret)
            && end.st.pending == [] && end.st.utf8 == []
            && ValidUtf8(end.emitted)
  {
    RunDecodes(secret, chunks, last);
    RunFeeds(secret, chunks);
    ReleasedIsRedaction(secret, chunks, last);
    RedactIsValid(Concat(chunks) + last, secret);
    FinishDecodes(secret, Run(secret, chunks), Feed(secret, chunks).out, last);
  }

  // ---------------------------------------------------------------- capture

  /** The capture is bounded text; it is the emitted text while that fits, and otherwise within
      three bytes of the limit. */
  ghost predicate Capturing(captured: seq<Byte>, emitted: seq<Byte>) {
    && ValidUtf8(captured) && |captured| <= 65_536
    && (|emitted| <= 65_536 ==> captured == emitted)
    && (|emitted| > 65_536 ==> |captured| + 3 >= 65_536)
  }

  lemma CaptureKeeps(captured: seq<Byte>, emitted: seq<Byte>, chunk: seq<Byte>)
    requires Capturing(captured, emitted) && ValidUtf8(chunk)
    ensures Capturing(Capture(captured, chunk), emitted + chunk)
  {
    var n := Room(captured, chunk);
    var k := BoundaryAtMost(chunk, n);
    BoundaryCuts(chunk, k);
    BoundaryCuts(chunk, n);
    ValidAppend(captured, chunk[..k]);
    if |emitted + chunk| <= CAPTURE_LIMIT {
      assert n == |chunk| && k == n && chunk[..k] == chunk;
    }
  }

  lemma PushEmitsText(secret: seq<Byte>, st: State, bytes: seq<Byte>, finish: bool, emitted: seq<Byte>)
    requires secret != [] && Capturing(st.captured, emitted)
    ensures var (next, chunk) := Pushed(secret, st, bytes, finish);
            ValidUtf8(chunk) && Capturing(next.captured, emitted + chunk)
  {
    var buffer := st.utf8 + Settle(st.pending + bytes, secret, finish).out;
    var n := Decodable(buffer, finish);
    if n == 0 {
      assert emitted + [] == emitted;
    } else {
      LossyIsValid(buffer[..n]);
      CaptureKeeps(st.captured, emitted, Lossy(buffer[..n]));
    }
  }

  /** Main result on the capture, for any byte stream whatever, valid or not: every emitted chunk
      is text, and the capture stays bounded text that equals the emitted text while it fits. */
  lemma {:induction false} CaptureIsBounded(secret: seq<Byte>, chunks: seq<seq<Byte>>, last: seq<Byte>)
    requires secret != []
    ensures Capturing(Run(secret, chunks).st.captured, Run(secret, chunks).emitted)
    ensures ValidUtf8(Run(secret, chunks).emitted)
    ensures Capturing(Finished(secret, chunks, last).st.captured, Finished(secret, chunks, last).emitted)
    decreases |chunks|
  {
    if chunks != [] {
      var before, b := chunks[..|chunks| - 1], chunks[|chunks| - 1];
      CaptureIsBounded(secret, before, b);
      PushEmitsText(secret, Run(secret, before).st, b, false, Run(secret, before).emitted);
      var (st, chunk) := Pushed(secret, Run(secret, before).st, b, false);
      ValidAppend(Run(secret, before).emitted, chunk);
    }
    PushEmitsText(secret, Run(secret, chunks).st, last, true, Run(secret, chunks).emitted);
  }

  // ------------------------------------------- when the capture is a prefix

  /** The capture of a list of emitted chunks. */
  function CaptureAll(chunks: seq<seq<Byte>>): seq<Byte> {
    if chunks == [] then [] else Capture(CaptureAll(chunks[..|chunks| - 1]), chunks[|chunks| - 1])
  }

  /** The room the capture has left. */
  function Left(captured: seq<Byte>): int {
    CAPTURE_LIMIT - |captured|
  }

  /** The capture is what was emitted, or it stops before a character too wide for the room left. */
  predicate Stopped(captured: seq<Byte>, emitted: seq<Byte>) {
    && captured <= emitted && |captured| <= CAPTURE_LIMIT
    && (captured != emitted ==> Width(emitted[|captured|]) > Left(captured))
  }

  /** This chunk does not squeeze a character in behind one that was skipped. */
  predicate SqueezesNothing(captured: seq<Byte>, emitted: seq<Byte>, chunk: seq<Byte>) {
    chunk == [] || captured == emitted || Width(chunk[0]) > Left(captured)
  }

  /** The first character of a chunk that is skipped because it does not fit. */
  lemma SkippedIsWide(captured: seq<Byte>, chunk: seq<Byte>)
    requires ValidUtf8(chunk) && |captured| <= CAPTURE_LIMIT
    ensures var k := BoundaryAtMost(chunk, Room(captured, chunk));
            && (k < |chunk| ==> k + Width(chunk[k]) > Left(captured))
            && (chunk != [] && Width(chunk[0]) <= Left(captured) ==> k > 0)
  {
    var n := Room(captured, chunk);
    var k := BoundaryAtMost(chunk, n);
    if k < |chunk| {
      BoundaryCuts(chunk, k);
      ScanEnds(chunk, k);
    }
    if chunk != [] && Width(chunk[0]) <= Left(captured) { ScanEnds(chunk, 0); }
  }

  /** A character starting at a boundary ends at one. */
  lemma ScanEnds(chunk: seq<Byte>, k: nat)
    requires ValidUtf8(chunk) && k < |chunk| && IsBoundary(chunk, k)
    ensures k + Width(chunk[k]) <= |chunk| && Width(chunk[k]) >= 1 && IsBoundary(chunk, k + Width(chunk[k]))
  {
    BoundaryCuts(chunk, k);
    var rest := chunk[k..];
    var n := Scan(rest).len;
    if n < |rest| {
      CharTails(rest[n..]);
      assert rest[n..][0] == chunk[k + n];
    }
  }

  /** One chunk keeps the capture a prefix exactly if it squeezes nothing in. */
  lemma ChunkKeepsPrefixExactly(captured: seq<Byte>, emitted: seq<Byte>, chunk: seq<Byte>)
    requires ValidUtf8(chunk) && Stopped(captured, emitted)
    ensures Capture(captured, chunk) <= emitted + chunk <==> SqueezesNothing(captured, emitted, chunk)
    ensures SqueezesNothing(captured, emitted, chunk) ==> Stopped(Capture(captured, chunk), emitted + chunk)
  {
    var k := BoundaryAtMost(chunk, Room(captured, chunk));
    var after := Capture(captured, chunk);
    if chunk != [] {
      SkippedIsWide(captured, chunk);
      ScanEnds(chunk, 0);
      if captured == emitted {
        assert (emitted + chunk)[..|after|] == after;
      } else if Width(chunk[0]) > Left(captured) {
        assert k == 0 by { if k > 0 { NoBoundaryInside(chunk, k); } }
        assert after == captured;
      } else {
        assert after[|captured|] == chunk[0] && (emitted + chunk)[|captured|] == emitted[|captured|];
      }
    }
  }

  lemma NoBoundaryInside(chunk: seq<Byte>, k: nat)
    requires ValidUtf8(chunk) && 0 < k <= |chunk| && IsBoundary(chunk, k)
    ensures k >= Width(chunk[0])
  {
    CharTails(chunk);
  }

  /** Nothing repairs a capture that has departed from the output. */
  lemma DepartureIsFinal(captured: seq<Byte>, emitted: seq<Byte>, chunk: seq<Byte>)
    requires |captured| <= |emitted| && !(captured <= emitted)
    ensures !(Capture(captured, chunk) <= emitted + chunk)
  {
    var i :| 0 <= i < |captured| && captured[i] != emitted[i];
    assert Capture(captured, chunk)[i] == captured[i] && (emitted + chunk)[i] == emitted[i];
  }

  lemma {:induction false} CaptureIsShorter(chunks: seq<seq<Byte>>)
    ensures |CaptureAll(chunks)| <= |Concat(chunks)|
  {
    if chunks != [] { CaptureIsShorter(chunks[..|chunks| - 1]); }
  }

  predicate AllText(chunks: seq<seq<Byte>>) {
    forall i | 0 <= i < |chunks| :: ValidUtf8(chunks[i])
  }

  /** No chunk of the output squeezes a character in. */
  predicate NothingSqueezed(chunks: seq<seq<Byte>>) {
    forall i | 0 <= i < |chunks| :: SqueezesNothing(CaptureAll(chunks[..i]), Concat(chunks[..i]), chunks[i])
  }

  lemma NothingSqueezedBefore(chunks: seq<seq<Byte>>)
    requires chunks != []
    ensures var before, last := chunks[..|chunks| - 1], chunks[|chunks| - 1];
            NothingSqueezed(chunks) <==>
              NothingSqueezed(before) && SqueezesNothing(CaptureAll(before), Concat(before), last)
  {
    var before := chunks[..|chunks| - 1];
    forall i | 0 <= i < |before| ensures before[..i] == chunks[..i] && before[i] == chunks[i] {}
  }

  /** Whatever was emitted, the capture is a prefix of it if and only if, once a character did not fit,
      no later chunk started with one that did. */
  lemma {:induction false} CaptureIsPrefixExactly(chunks: seq<seq<Byte>>)
    requires AllText(chunks)
    ensures CaptureAll(chunks) <= Concat(chunks) <==> NothingSqueezed(chunks)
    ensures NothingSqueezed(chunks) ==> Stopped(CaptureAll(chunks), Concat(chunks))
    decreases |chunks|
  {
    hide Capture, SqueezesNothing;
    if chunks != [] {
      var before, last := chunks[..|chunks| - 1], chunks[|chunks| - 1];
      CaptureIsPrefixExactly(before);
      NothingSqueezedBefore(chunks);
      if NothingSqueezed(before) {
        ChunkKeepsPrefixExactly(CaptureAll(before), Concat(before), last);
      } else {
        CaptureIsShorter(before);
        DepartureIsFinal(CaptureAll(before), Concat(before), last);
      }
    }
  }

  /** The chunks a run of pushes emits, one per push. */
  ghost function Emissions(secret: seq<Byte>, chunks: seq<seq<Byte>>): (es: seq<seq<Byte>>)
    requires secret != []
    ensures |es| == |chunks|
  {
    if chunks == [] then []
    else
      var before := chunks[..|chunks| - 1];
      Emissions(secret, before) + [Pushed(secret, Run(secret, before).st, chunks[|chunks| - 1], false).1]
  }

  lemma EmptyIsNotCaptured(captured: seq<Byte>)
    ensures Capture(captured, []) == captured
  {
  }

  lemma {:induction false} RunCapturesEmissions(secret: seq<Byte>, chunks: seq<seq<Byte>>)
    requires secret != []
    ensures var es := Emissions(secret, chunks);
            && Run(secret, chunks).emitted == Concat(es) && Run(secret, chunks).st.captured == CaptureAll(es)
            && AllText(es)
    decreases |chunks|
  {
    hide Settle, Capture;
    if chunks != [] {
      var before, b := chunks[..|chunks| - 1], chunks[|chunks| - 1];
      RunCapturesEmissions(secret, before);
      PushedEmits(secret, Run(secret, before).st, b, false);
      var es := Emissions(secret, chunks);
      assert es[..|es| - 1] == Emissions(secret, before);
    }
  }

  lemma PushedEmits(secret: seq<Byte>, st: State, bytes: seq<Byte>, finish: bool)
    requires secret != []
    ensures var (next, chunk) := Pushed(secret, st, bytes, finish);
            ValidUtf8(chunk) && next.captured == Capture(st.captured, chunk)
  {
    hide Settle;
    var buffer := st.utf8 + Settle(st.pending + bytes, secret, finish).out;
    LossyIsValid(buffer[..Decodable(buffer, finish)]);
    EmptyIsNotCaptured(st.captured);
  }

  /** Main result on long output, for any bytes and any chunking: the final capture is a prefix of the
      emitted text if and only if no emitted chunk squeezed a character in behind a skipped one. */
  lemma FinalCaptureIsPrefixExactly(secret: seq<Byte>, chunks: seq<seq<Byte>>, last: seq<Byte>)
    requires secret != []
    ensures var end := Finished(secret, chunks, last);
            var es := Emissions(secret, chunks) + [Pushed(secret, Run(secret, chunks).st, last, true).1];
            && end.emitted == Concat(es) && end.st.captured == CaptureAll(es)
            && (end.st.captured <= end.emitted <==> NothingSqueezed(es))
  {
    hide Capture, Settle, SqueezesNothing;
    RunCapturesEmissions(secret, chunks);
    PushedEmits(secret, Run(secret, chunks).st, last, true);
    var es := Emissions(secret, chunks) + [Pushed(secret, Run(secret, chunks).st, last, true).1];
    assert es[..|es| - 1] == Emissions(secret, chunks);
    CaptureIsPrefixExactly(es);
  }

  /** One-byte characters always fit until the room is used up, so ASCII output is captured as a prefix. */
  lemma AsciiIsCapturedAsPrefix(chunks: seq<seq<Byte>>)
    requires forall i | 0 <= i < |chunks| :: Ascii(chunks[i])
    ensures CaptureAll(chunks) <= Concat(chunks)
    decreases |chunks|
  {
    hide Capture;
    forall i | 0 <= i < |chunks| ensures ValidUtf8(chunks[i]) { AsciiIsValid(chunks[i]); }
    if chunks != [] {
      var before, last := chunks[..|chunks| - 1], chunks[|chunks| - 1];
      AsciiIsCapturedAsPrefix(before);
      CaptureIsPrefixExactly(before);
      ChunkKeepsPrefixExactly(CaptureAll(before), Concat(before), last);
      ConcatIsAscii(before);
    }
  }

  lemma {:induction false} ConcatIsAscii(chunks: seq<seq<Byte>>)
    requires forall i | 0 <= i < |chunks| :: Ascii(chunks[i])
    ensures Ascii(Concat(chunks))
    decreases |chunks|
  {
    if chunks != [] { ConcatIsAscii(chunks[..|chunks| - 1]); }
  }

  /** A two-byte character met with one byte left, then a one-byte character: the output departs. */
  lemma CaptureSkipsWhatDoesNotFit(filler: seq<Byte>, wide: seq<Byte>, narrow: Byte)
    requires ValidUtf8(filler) && |filler| == CAPTURE_LIMIT - 1
    requires |wide| == 2 && Scan(wide) == Char(2) && narrow < 0x80
    ensures !(CaptureAll([filler, wide, [narrow]]) <= Concat([filler, wide, [narrow]]))
  {
    hide Capture, CaptureAll;
    var es := [filler, wide, [narrow]];
    assert ValidUtf8([narrow]) by { assert Scan([narrow]) == Char(1) && [narrow][1..] == []; }
    assert ValidUtf8(wide) by { assert wide[2..] == []; }
    WideIsSkipped(filler, wide);
    assert es[..2] == [filler, wide];
    assert !SqueezesNothing(CaptureAll(es[..2]), Concat(es[..2]), es[2]);
    CaptureIsPrefixExactly(es);
  }

  lemma WideIsSkipped(filler: seq<Byte>, wide: seq<Byte>)
    requires |filler| == CAPTURE_LIMIT - 1 && |wide| == 2 && Scan(wide) == Char(2)
    ensures CaptureAll([filler, wide]) == filler && Concat([filler, wide]) == filler + wide
  {
    FillerFits(filler);
    assert [filler, wide][..1] == [filler];
    assert Concat([filler]) == filler by { assert [filler][..0] == [] && [] + filler == filler; }
    assert Room(filler, wide) == 1 && BoundaryAtMost(wide, 1) == 0;
    assert filler + wide[..0] == filler;
  }

  lemma FillerFits(filler: seq<Byte>)
    requires |filler| < CAPTURE_LIMIT
    ensures CaptureAll([filler]) == filler
  {
    assert [filler][..0] == [];
    assert Room([], filler) == |filler|;
    assert [] + filler[..|filler|] == filler;
  }
}
