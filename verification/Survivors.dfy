/** Whether the filter does what it is for: no occurrence of the secret is left in its output
    (crates/client/src/controller.rs). Replacing the secret by the mark can put it together again, out of
    the mark and what stands beside it; exactly for which secrets is decided here. */
module Survivors {
  import opened Utf8
  import opened Redaction
  import opened RedactedOutput

  predicate Occurs(s: seq<Byte>, secret: seq<Byte>) {
    exists k :: 0 <= k <= |s| && OccursAt(s, secret, k)
  }

  /** The last `n` bytes of the mark are the first `n` of the secret. */
  predicate StartsInMark(secret: seq<Byte>, n: nat) {
    1 <= n <= |secret| && n <= |MARK| && MARK[|MARK| - n..] == secret[..n]
  }

  /** How far the secret from its byte `m` on and the mark can be compared. */
  function Reach(secret: seq<Byte>, m: nat): nat
    requires m <= |secret|
  {
    if |secret| - m <= |MARK| then |secret| - m else |MARK|
  }

  /** From its byte `m` on the secret agrees with the mark, as far as both go, and the secret just after
      its own first `m` bytes is where a search for it first finds it. */
  predicate RunsIntoMark(secret: seq<Byte>, m: nat) {
    && m < |secret| && secret[m..m + Reach(secret, m)] == MARK[..Reach(secret, m)]
    && OccursAt(secret[..m] + secret, secret, m)
    && forall j | 0 <= j < m :: !OccursAt(secret[..m] + secret, secret, j)
  }

  /** The secrets the filter cannot remove from every stream; decided from the secret alone. */
  predicate Clashes(secret: seq<Byte>) {
    || Occurs(MARK, secret)
    || (exists n :: 1 <= n <= |MARK| && StartsInMark(secret, n))
    || (exists m :: 0 <= m < |secret| && RunsIntoMark(secret, m))
  }

  // --------------------------------------------------- nothing else survives

  lemma SliceOfSlice(s: seq<Byte>, lo: nat, hi: nat, i: nat, j: nat)
    requires lo <= hi <= |s| && i <= j <= hi - lo
    ensures s[lo..hi][i..j] == s[lo + i..lo + j]
  {
    var part, direct := s[lo..hi][i..j], s[lo + i..lo + j];
    forall x | 0 <= x < j - i ensures part[x] == direct[x] {
      assert part[x] == s[lo..hi][i + x] == s[lo + i + x] && direct[x] == s[lo + i + x];
    }
    assert |part| == |direct|;
  }

  lemma DropTwice(s: seq<Byte>, m: nat, r: nat)
    requires m + r <= |s|
    ensures s[m..][..r] == s[m..m + r] && s[m..][r..] == s[m + r..]
  {
    assert s[m..][..r] == s[m..m + r] && s[m..][r..] == s[m + r..];
  }

  lemma SliceLeft(a: seq<Byte>, b: seq<Byte>, i: nat, j: nat)
    requires i <= j <= |a|
    ensures (a + b)[i..j] == a[i..j]
  {
  }

  lemma SliceRight(a: seq<Byte>, b: seq<Byte>, i: nat, j: nat)
    requires |a| <= i <= j <= |a| + |b|
    ensures (a + b)[i..j] == b[i - |a|..j - |a|]
  {
  }

  lemma OccursInPart(a: seq<Byte>, b: seq<Byte>, secret: seq<Byte>, k: nat)
    requires OccursAt(a + b, secret, k)
    ensures k + |secret| <= |a| ==> OccursAt(a, secret, k)
    ensures k >= |a| ==> OccursAt(b, secret, k - |a|)
  {
    if k + |secret| <= |a| { SliceLeft(a, b, k, k + |secret|); }
    if k >= |a| { SliceRight(a, b, k, k + |secret|); }
  }

  /** The bytes around the place where a kept text ends and the mark begins. */
  lemma AroundMark(s: seq<Byte>, secret: seq<Byte>, at: nat, tail: seq<Byte>, k: nat)
    requires at <= |s| && k < at < k + |secret|
    requires OccursAt(s[..at] + (MARK + tail), secret, k)
    ensures secret[..at - k] == s[k..at]
    ensures secret[at - k..at - k + Reach(secret, at - k)] == MARK[..Reach(secret, at - k)]
  {
    var m := at - k;
    var r := Reach(secret, m);
    var out := s[..at] + (MARK + tail);
    SliceOfSlice(out, k, k + |secret|, 0, m);
    SliceLeft(s[..at], MARK + tail, k, at);
    SliceOfSlice(s, 0, at, k, at);
    SliceOfSlice(out, k, k + |secret|, m, m + r);
    SliceRight(s[..at], MARK + tail, at, at + r);
    SliceLeft(MARK, tail, 0, r);
  }

  /** An occurrence that starts in kept text and runs into the mark that follows it. */
  lemma RunningIntoMark(s: seq<Byte>, secret: seq<Byte>, at: nat, tail: seq<Byte>, k: nat)
    requires secret != [] && IsFirst(s, secret, at) && k < at < k + |secret|
    requires OccursAt(s[..at] + (MARK + tail), secret, k)
    ensures RunsIntoMark(secret, at - k)
  {
    var m := at - k;
    AroundMark(s, secret, at, tail, k);
    var u := secret[..m] + secret;
    assert s[k..at + |secret|] == s[k..at] + s[at..at + |secret|] == u;
    SliceRight(secret[..m], secret, m, m + |secret|);
    forall j | 0 <= j < m ensures !OccursAt(u, secret, j) {
      SliceOfSlice(s, k, at + |secret|, j, j + |secret|);
      assert !OccursAt(s, secret, k + j);
    }
  }

  /** One that starts in the mark: it lies inside it, or runs out of it. */
  lemma StartingInMark(secret: seq<Byte>, tail: seq<Byte>, k: nat)
    requires secret != [] && k < |MARK| && OccursAt(MARK + tail, secret, k)
    ensures OccursAt(MARK, secret, k) || StartsInMark(secret, |MARK| - k)
  {
    OccursInPart(MARK, tail, secret, k);
    if k + |secret| > |MARK| {
      var n := |MARK| - k;
      SliceOfSlice(MARK + tail, k, k + |secret|, 0, n);
      SliceLeft(MARK, tail, k, |MARK|);
    }
  }

  lemma {:induction false} SurvivorClashes(s: seq<Byte>, secret: seq<Byte>, k: nat)
    requires secret != [] && OccursAt(Redact(s, secret), secret, k)
    ensures Clashes(secret)
    decreases |s|
  {
    hide RunsIntoMark, StartsInMark, OccursAt;
    FindIsFirst(s, secret);
    var found := Find(s, secret);
    if found.Some? {
      var at := found.value;
      var tail := Redact(s[at + |secret|..], secret);
      RedactFound(s, secret, at);
      assert Redact(s, secret) == s[..at] + (MARK + tail);
      OccursInPart(s[..at], MARK + tail, secret, k);
      if k + |secret| <= at {
        NothingBeforeFirst(s, secret, at, k);
      } else if k < at {
        RunningIntoMark(s, secret, at, tail, k);
        assert 0 <= at - k < |secret|;
      } else if k < at + |MARK| {
        StartingInMark(secret, tail, k - at);
      } else {
        OccursInPart(MARK, tail, secret, k - at);
        SurvivorClashes(s[at + |secret|..], secret, k - at - |MARK|);
      }
    }
  }

  lemma NothingBeforeFirst(s: seq<Byte>, secret: seq<Byte>, at: nat, k: nat)
    requires IsFirst(s, secret, at) && secret != [] && k + |secret| <= at
    ensures !OccursAt(s[..at], secret, k)
  {
    SliceOfSlice(s, 0, at, k, k + |secret|);
    assert !OccursAt(s, secret, k);
  }

  // ------------------------------------------------------ and these all do

  /** A text whose first replaced occurrence is after `before`, with less than a secret behind it. */
  lemma RedactOnce(before: seq<Byte>, secret: seq<Byte>, after: seq<Byte>)
    requires secret != [] && |after| < |secret|
    requires forall j | 0 <= j < |before| :: !OccursAt(before + secret, secret, j)
    ensures Redact(before + secret + after, secret) == before + MARK + after
  {
    var whole := before + secret;
    var s := whole + after;
    var at := |before|;
    SliceLeft(whole, after, at, at + |secret|);
    SliceRight(before, secret, at, at + |secret|);
    forall j | 0 <= j < at ensures !OccursAt(s, secret, j) {
      SliceLeft(whole, after, j, j + |secret|);
      assert !OccursAt(whole, secret, j);
    }
    FindIs(s, secret, at);
    RedactFound(s, secret, at);
    assert s[at + |secret|..] == after;
    SliceLeft(whole, after, 0, at);
    SliceLeft(before, secret, 0, at);
    TooShort(after, secret);
  }

  lemma TooShort(s: seq<Byte>, secret: seq<Byte>)
    requires |s| < |secret|
    ensures Redact(s, secret) == s
  {
    FindIsFirst(s, secret);
  }

  lemma PrefixOfSecretIsText(secret: seq<Byte>, n: nat)
    requires ValidUtf8(secret) && n <= |secret| && (n < |secret| ==> secret[n] < 0x80)
    ensures ValidUtf8(secret[..n]) && ValidUtf8(secret[n..])
  {
    BoundaryCuts(secret, n);
  }

  lemma MarkIsAscii(i: nat, j: nat)
    requires i <= j <= |MARK|
    ensures Ascii(MARK[i..j])
  {
    assert Ascii(MARK);
    forall k | 0 <= k < j - i ensures MARK[i..j][k] < 0x80 { assert MARK[i..j][k] == MARK[i + k]; }
  }

  lemma AsciiTo(secret: seq<Byte>, n: nat)
    requires ValidUtf8(secret) && n <= |secret| && Ascii(secret[..n])
    ensures ValidUtf8(secret[n..])
  {
    AsciiIsValid(secret[..n]);
    assert secret == secret[..n] + secret[n..];
    ValidAppend(secret[..n], secret[n..]);
  }

  lemma StartWitness(secret: seq<Byte>, n: nat) returns (s: seq<Byte>)
    requires secret != [] && StartsInMark(secret, n)
    ensures Occurs(Redact(s, secret), secret) && (ValidUtf8(secret) ==> ValidUtf8(s))
  {
    hide ValidUtf8, OccursAt;
    var after := secret[n..];
    s := secret + after;
    RedactOnce([], secret, after);
    assert [] + secret + after == s && [] + MARK + after == MARK + after;
    EndOfMark(secret, n);
    if ValidUtf8(secret) {
      MarkIsAscii(|MARK| - n, |MARK|);
      AsciiTo(secret, n);
      ValidAppend(secret, after);
    }
  }

  lemma EndOfMark(secret: seq<Byte>, n: nat)
    requires StartsInMark(secret, n)
    ensures OccursAt(MARK + secret[n..], secret, |MARK| - n)
  {
    var at := |MARK| - n;
    var out := MARK + secret[n..];
    assert out[at..at + |secret|] == out[at..|MARK|] + out[|MARK|..];
    SliceLeft(MARK, secret[n..], at, |MARK|);
    SliceRight(MARK, secret[n..], |MARK|, |out|);
    assert secret == secret[..n] + secret[n..];
  }

  lemma StartOfMark(secret: seq<Byte>, m: nat)
    requires RunsIntoMark(secret, m)
    ensures OccursAt(secret[..m] + MARK + secret[m + Reach(secret, m)..], secret, 0)
  {
    var r := Reach(secret, m);
    var before, after := secret[..m], secret[m + r..];
    assert secret == before + secret[m..m + r] + after;
    var out := before + MARK + after;
    if r == |MARK| {
      assert MARK[..r] == MARK;
      assert out[0..|secret|] == secret;
    } else {
      assert after == [] && out == before + MARK;
      assert out[0..|secret|] == before + MARK[..r];
    }
  }

  lemma RunWitness(secret: seq<Byte>, m: nat) returns (s: seq<Byte>)
    requires secret != [] && RunsIntoMark(secret, m)
    ensures Occurs(Redact(s, secret), secret) && (ValidUtf8(secret) ==> ValidUtf8(s))
  {
    var r := Reach(secret, m);
    var before, after := secret[..m], secret[m + r..];
    s := before + secret + after;
    RedactOnce(before, secret, after);
    StartOfMark(secret, m);
    if ValidUtf8(secret) {
      AroundIsText(secret, m);
      ValidAppend(before, secret);
      ValidAppend(before + secret, after);
    }
  }

  lemma MeetsMarkAt(secret: seq<Byte>, m: nat)
    requires RunsIntoMark(secret, m)
    ensures m < |secret| && secret[m] < 0x80 && secret[m..m + Reach(secret, m)] == MARK[0..Reach(secret, m)]
  {
    assert secret[m] == secret[m..m + Reach(secret, m)][0] == MARK[..Reach(secret, m)][0] == MARK[0];
  }

  lemma AfterMarkIsText(rest: seq<Byte>, r: nat)
    requires ValidUtf8(rest) && r <= |rest| && r <= |MARK| && rest[..r] == MARK[0..r]
    ensures ValidUtf8(rest[r..])
  {
    hide ValidUtf8;
    MarkIsAscii(0, r);
    AsciiTo(rest, r);
  }

  lemma AroundIsText(secret: seq<Byte>, m: nat)
    requires ValidUtf8(secret) && RunsIntoMark(secret, m)
    ensures ValidUtf8(secret[..m]) && ValidUtf8(secret[m + Reach(secret, m)..])
  {
    var r := Reach(secret, m);
    MeetsMarkAt(secret, m);
    hide RunsIntoMark, ValidUtf8, Ascii;
    PrefixOfSecretIsText(secret, m);
    DropTwice(secret, m, r);
    AfterMarkIsText(secret[m..], r);
  }

  lemma MarkWitness(secret: seq<Byte>, k: nat)
    requires secret != [] && OccursAt(MARK, secret, k)
    ensures Occurs(Redact(secret, secret), secret)
  {
    RedactOnce([], secret, []);
    assert [] + secret + [] == secret && [] + MARK + [] == MARK;
  }

  lemma ClashWitness(secret: seq<Byte>) returns (s: seq<Byte>)
    requires secret != [] && Clashes(secret)
    ensures Occurs(Redact(s, secret), secret) && (ValidUtf8(secret) ==> ValidUtf8(s))
  {
    if k: nat :| k <= |MARK| && OccursAt(MARK, secret, k) {
      MarkWitness(secret, k);
      s := secret;
    } else if n: nat :| StartsInMark(secret, n) {
      s := StartWitness(secret, n);
    } else {
      var m: nat :| RunsIntoMark(secret, m);
      s := RunWitness(secret, m);
    }
  }

  // ------------------------------------------------------------ main results

  /** Exactly which secrets can survive: some stream's redaction contains the secret if and only if the
      secret clashes with the mark. */
  lemma SurvivesExactlyIfItClashes(secret: seq<Byte>)
    requires secret != []
    ensures (exists s :: Occurs(Redact(s, secret), secret)) <==> Clashes(secret)
  {
    hide Clashes;
    if Clashes(secret) {
      var s := ClashWitness(secret);
      assert Occurs(Redact(s, secret), secret);
    }
    forall s | Occurs(Redact(s, secret), secret) ensures Clashes(secret) {
      var k: nat :| k <= |Redact(s, secret)| && OccursAt(Redact(s, secret), secret, k);
      SurvivorClashes(s, secret, k);
    }
  }

  /** The same for what a run of pushes emits: for a secret that does not clash no valid stream, however
      cut, leaves it in the output, and for one that does some valid stream does, however cut. */
  lemma EmittedIsCleanExactly(secret: seq<Byte>)
    requires secret != [] && ValidUtf8(secret)
    ensures !Clashes(secret) ==>
              forall chunks, last | ValidUtf8(Concat(chunks) + last) ::
                !Occurs(Finished(secret, chunks, last).emitted, secret)
    ensures Clashes(secret) ==>
              exists s :: ValidUtf8(s) && forall chunks, last | Concat(chunks) + last == s ::
                Occurs(Finished(secret, chunks, last).emitted, secret)
  {
    hide Clashes, Occurs;
    if Clashes(secret) {
      var s := ClashWitness(secret);
      forall chunks, last | Concat(chunks) + last == s ensures Occurs(Finished(secret, chunks, last).emitted, secret) {
        EmittedIsRedactedText(secret, chunks, last);
      }
    } else {
      SurvivesExactlyIfItClashes(secret);
      forall chunks, last | ValidUtf8(Concat(chunks) + last)
        ensures !Occurs(Finished(secret, chunks, last).emitted, secret)
      {
        EmittedIsRedactedText(secret, chunks, last);
      }
    }
  }

  /** In particular no secret without brackets survives that starts with a byte the mark has not: any
      `wss` or `https` endpoint without a bracket. */
  lemma OrdinarySecretsDoNotClash(secret: seq<Byte>)
    requires secret != [] && MARK[0] !in secret && secret[0] !in MARK
    ensures !Clashes(secret)
  {
    forall k: nat ensures OccursAt(MARK, secret, k) ==> secret[0] in MARK { InsideMark(secret, k); }
    forall n: nat ensures StartsInMark(secret, n) ==> secret[0] in MARK { EndsMark(secret, n); }
    forall m: nat ensures RunsIntoMark(secret, m) ==> MARK[0] in secret { MeetsMark(secret, m); }
  }

  lemma InsideMark(secret: seq<Byte>, k: nat)
    requires secret != []
    ensures OccursAt(MARK, secret, k) ==> secret[0] in MARK
  {
    if OccursAt(MARK, secret, k) { assert MARK[k..k + |secret|][0] == MARK[k]; }
  }

  lemma EndsMark(secret: seq<Byte>, n: nat)
    requires secret != []
    ensures StartsInMark(secret, n) ==> secret[0] in MARK
  {
    if StartsInMark(secret, n) { assert secret[..n][0] == MARK[|MARK| - n..][0] == MARK[|MARK| - n]; }
  }

  lemma MeetsMark(secret: seq<Byte>, m: nat)
    ensures RunsIntoMark(secret, m) ==> MARK[0] in secret
  {
    if RunsIntoMark(secret, m) {
      assert secret[m..m + Reach(secret, m)][0] == MARK[..Reach(secret, m)][0] == MARK[0];
    }
  }

  /** `]b` in the stream `]bb` is put together again from the mark's last byte. */
  lemma BracketedSecretSurvives()
    ensures var secret: seq<Byte> := [0x5D, 0x62];
            Redact([0x5D, 0x62, 0x62], secret) == MARK + [0x62] && Occurs(MARK + [0x62], secret)
  {
    var secret: seq<Byte> := [0x5D, 0x62];
    assert [] + secret == secret && secret[0..2] == secret;
    RedactOnce([], secret, [0x62]);
    assert [] + secret + [0x62] == [0x5D, 0x62, 0x62] && [] + MARK + [0x62] == MARK + [0x62];
    assert OccursAt(MARK + [0x62], secret, 9);
  }

  /** Overlapping the mark is not enough: `[a[` ends as the mark starts, but in any stream that would put
      it together the search finds it earlier. */
  lemma PeriodicSecretDoesNotClash()
    ensures var secret: seq<Byte> := [0x5B, 0x61, 0x5B]; secret[2..] == MARK[..1] && !Clashes(secret)
  {
    var secret: seq<Byte> := [0x5B, 0x61, 0x5B];
    forall k: nat ensures !OccursAt(MARK, secret, k) {
      if k + 3 <= |MARK| { assert MARK[k..k + 3][1] == MARK[k + 1]; }
    }
    forall n: nat ensures !StartsInMark(secret, n) {
      if 1 <= n <= 3 { assert MARK[|MARK| - n..][0] == MARK[|MARK| - n] && secret[..n][0] == secret[0]; }
    }
    assert secret[0..3][1] == 0x61 && MARK[..3][1] == 0x52;
    assert !RunsIntoMark(secret, 0);
    assert secret[1..3][0] == 0x61 && MARK[..2][0] == 0x5B;
    assert !RunsIntoMark(secret, 1);
    assert (secret[..2] + secret)[0..3] == secret;
    assert OccursAt(secret[..2] + secret, secret, 0);
    assert !RunsIntoMark(secret, 2);
  }
}
