/** CLI text patterns (crates/shared/src/filter.rs): the one-pass greedy matcher against the
    declarative meaning of `*`. Texts are already lower-cased; `str::find` on valid UTF-8 finds
    the same occurrences as a search over characters. */
module TextPattern {
  import opened Wrappers

  // ------------------------------------------------------ reference meaning

  /** `*` stands for any run of characters, everything else for itself. */
  ghost predicate Wild(p: string, c: string)
    decreases |p|
  {
    if p == "" then c == ""
    else if p[0] == '*' then exists k :: 0 <= k <= |c| && Wild(p[1..], c[k..])
    else c != "" && c[0] == p[0] && Wild(p[1..], c[1..])
  }

  /** What a stored pattern promises: `^text` matches any candidate with a prefix in the wildcard
      meaning of `text`; without the anchor the whole candidate must match. */
  ghost predicate Meaning(pattern: string, c: string) {
    if pattern != "" && pattern[0] == '^'
    then exists m :: 0 <= m <= |c| && Wild(pattern[1..], c[..m])
    else Wild(pattern, c)
  }

  // ------------------------------------------------------------- the source

  predicate OccursAt(c: string, part: string, k: int) {
    0 <= k && k + |part| <= |c| && c[k..k + |part|] == part
  }

  /** `candidate[from..].find(part)`, as an absolute position. */
  function FindFrom(c: string, part: string, from: nat): (r: Option<nat>)
    ensures r.Some? ==> from <= r.value && r.value + |part| <= |c|
    decreases |c| - from
  {
    if from + |part| > |c| then None
    else if OccursAt(c, part, from) then Some(from)
    else FindFrom(c, part, from + 1)
  }

  /** The search returns the earliest occurrence, or none exists. */
  lemma {:induction false} FindFromIsFirst(c: string, part: string, from: nat)
    ensures var r := FindFrom(c, part, from);
            if r.Some? then OccursAt(c, part, r.value) && forall k | from <= k < r.value :: !OccursAt(c, part, k)
            else forall k | from <= k :: !OccursAt(c, part, k)
    decreases |c| - from
  {
    if from + |part| <= |c| && !OccursAt(c, part, from) {
      FindFromIsFirst(c, part, from + 1);
    }
  }

  /** `pattern.split('*')`. */
  function Split(p: string): (segs: seq<string>)
    ensures |segs| >= 1
  {
    if p == "" then [""]
    else
      var rest := Split(p[1..]);
      if p[0] == '*' then [""] + rest else [[p[0]] + rest[0]] + rest[1..]
  }

  function NonEmpty(segs: seq<string>): seq<string> {
    if segs == [] then []
    else (if segs[0] == "" then [] else [segs[0]]) + NonEmpty(segs[1..])
  }

  /** Place the parts one after another, each at its earliest occurrence. */
  function Greedy(parts: seq<string>, c: string, from: nat): Option<nat> {
    if parts == [] then Some(from)
    else
      var found := FindFrom(c, parts[0], from);
      if found.None? then None else Greedy(parts[1..], c, found.value + |parts[0]|)
  }

  predicate Glob(pattern: string, c: string, prefixOnly: bool) {
    if '*' !in pattern then pattern == c
    else
      var parts := NonEmpty(Split(pattern));
      || parts == []
      || ((pattern[0] == '*' || FindFrom(c, parts[0], 0) == Some(0))
          && var end := Greedy(parts, c, 0);
             end.Some? && (prefixOnly || pattern[|pattern| - 1] == '*' || end.value == |c|))
  }

  predicate Matches(pattern: string, c: string) {
    if pattern != "" && pattern[0] == '^' then
      var prefix := pattern[1..];
      if '*' in prefix then Glob(prefix, c, true) else prefix <= c
    else
      Glob(pattern, c, false)
  }

  /** The source's loop, with its running `offset`. */
  method GlobMatches(pattern: string, candidate: string, prefixOnly: bool) returns (matched: bool)
    ensures matched == Glob(pattern, candidate, prefixOnly)
  {
    if '*' !in pattern {
      return pattern == candidate;
    }
    var startsWithWildcard := pattern[0] == '*';
    var endsWithWildcard := pattern[|pattern| - 1] == '*';
    var parts := NonEmpty(Split(pattern));
    if parts == [] {
      return true;
    }
    var offset: nat := 0;
    for index := 0 to |parts|
      invariant index == 0 ==> offset == 0
      invariant index > 0 && !startsWithWildcard ==> FindFrom(candidate, parts[0], 0) == Some(0)
      invariant Greedy(parts, candidate, 0) == Greedy(parts[index..], candidate, offset)
    {
      var found := FindFrom(candidate, parts[index], offset);
      assert parts[index..][1..] == parts[index + 1..];
      if found.None? {
        return false;
      }
      if index == 0 && !startsWithWildcard && found.value != 0 {
        return false;
      }
      offset := found.value + |parts[index]|;
    }
    matched := prefixOnly || endsWithWildcard || offset == |candidate|;
  }

  // --------------------------------------------- segments carry the meaning

  /** The first segment is anchored, the last must end the candidate, the rest float. */
  ghost predicate WildSegs(segs: seq<string>, c: string)
    requires |segs| >= 1
    decreases |segs|
  {
    if |segs| == 1 then c == segs[0]
    else segs[0] <= c && exists k :: |segs[0]| <= k <= |c| && WildSegs(segs[1..], c[k..])
  }

  /** The wildcard meaning of a pattern is the meaning of its segments. */
  lemma {:induction false} WildIsSegs(p: string, c: string)
    ensures Wild(p, c) == WildSegs(Split(p), c)
    decreases |p|
  {
    if p != "" {
      var rest := Split(p[1..]);
      if p[0] == '*' {
        assert Split(p)[1..] == rest;
        forall k | 0 <= k <= |c| ensures Wild(p[1..], c[k..]) == WildSegs(rest, c[k..]) {
          WildIsSegs(p[1..], c[k..]);
        }
      } else if c != "" && c[0] == p[0] {
        WildIsSegs(p[1..], c[1..]);
        ConsSegs(p[0], rest, c);
      }
    }
  }

  /** Prepending one literal character to the first segment. */
  lemma ConsSegs(x: char, segs: seq<string>, c: string)
    requires |segs| >= 1 && c != "" && c[0] == x
    ensures WildSegs([[x] + segs[0]] + segs[1..], c) == WildSegs(segs, c[1..])
  {
    var longer := [[x] + segs[0]] + segs[1..];
    assert c == [x] + c[1..];
    if |segs| > 1 {
      assert longer[1..] == segs[1..];
      assert longer[0] <= c <==> segs[0] <= c[1..];
      forall k | 1 <= k <= |c| ensures c[k..] == c[1..][k - 1..] {}
      if WildSegs(segs, c[1..]) {
        var k :| |segs[0]| <= k <= |c[1..]| && WildSegs(segs[1..], c[1..][k..]);
        assert c[k + 1..] == c[1..][k..];
      }
    }
  }

  // ------------------------------------------------- greedy placement is best

  /** The parts can be placed in order, without overlap, at or after `from`, ending by `limit`. */
  ghost predicate Placeable(parts: seq<string>, c: string, from: nat, limit: int)
    decreases |parts|
  {
    if parts == [] then from <= limit
    else exists k :: from <= k && OccursAt(c, parts[0], k) && Placeable(parts[1..], c, k + |parts[0]|, limit)
  }

  lemma {:induction false} PlaceableEarlier(parts: seq<string>, c: string, from: nat, later: nat, limit: int)
    requires from <= later && Placeable(parts, c, later, limit)
    ensures Placeable(parts, c, from, limit)
  {
  }

  /** Leftmost placement succeeds, within any limit, whenever any placement does. */
  lemma {:induction false} GreedyIsBest(parts: seq<string>, c: string, from: nat, limit: int)
    ensures Placeable(parts, c, from, limit) <==>
            Greedy(parts, c, from).Some? && Greedy(parts, c, from).value <= limit
    decreases |parts|
  {
    if parts != [] {
      var found := FindFrom(c, parts[0], from);
      FindFromIsFirst(c, parts[0], from);
      if found.Some? {
        var next := found.value + |parts[0]|;
        GreedyIsBest(parts[1..], c, next, limit);
        if Placeable(parts, c, from, limit) {
          var k :| from <= k && OccursAt(c, parts[0], k) && Placeable(parts[1..], c, k + |parts[0]|, limit);
          PlaceableEarlier(parts[1..], c, next, k + |parts[0]|, limit);
        }
      }
    }
  }

  lemma {:induction false} GreedyEnds(parts: seq<string>, c: string, from: nat)
    requires from <= |c| && Greedy(parts, c, from).Some?
    ensures from <= Greedy(parts, c, from).value <= |c|
    decreases |parts|
  {
    if parts != [] {
      GreedyEnds(parts[1..], c, FindFrom(c, parts[0], from).value + |parts[0]|);
    }
  }

  /** Placing one part first: the unfolding of `Greedy` the proofs below step by. */
  lemma GreedyCons(part: string, rest: seq<string>, c: string, from: nat)
    ensures Greedy([part] + rest, c, from) ==
            (var found := FindFrom(c, part, from);
             if found.None? then None else Greedy(rest, c, found.value + |part|))
  {
    assert ([part] + rest)[1..] == rest;
  }

  lemma EmptyPartMatches(c: string, from: nat)
    requires from <= |c|
    ensures FindFrom(c, "", from) == Some(from)
  {
    assert OccursAt(c, "", from);
  }

  /** Empty segments match on the spot, so dropping them changes nothing. */
  lemma {:induction false} DropEmpty(segs: seq<string>, c: string, from: nat)
    requires from <= |c|
    ensures Greedy(NonEmpty(segs), c, from) == Greedy(segs, c, from)
    decreases |segs|
  {
    if segs != [] {
      var rest := segs[1..];
      assert segs == [segs[0]] + rest;
      GreedyCons(segs[0], rest, c, from);
      if segs[0] == "" {
        EmptyPartMatches(c, from);
        assert NonEmpty(segs) == NonEmpty(rest);
        DropEmpty(rest, c, from);
      } else {
        GreedyCons(segs[0], NonEmpty(rest), c, from);
        var found := FindFrom(c, segs[0], from);
        if found.Some? { DropEmpty(rest, c, found.value + |segs[0]|); }
      }
    }
  }

  function ThenPlace(mid: Option<nat>, last: string, c: string): Option<nat> {
    if mid.None? then None
    else
      var found := FindFrom(c, last, mid.value);
      if found.None? then None else Some(found.value + |last|)
  }

  lemma {:induction false} GreedyAppend(a: seq<string>, last: string, c: string, from: nat)
    ensures Greedy(a + [last], c, from) == ThenPlace(Greedy(a, c, from), last, c)
    decreases |a|
  {
    if a == [] {
      assert a + [last] == [last] + [];
      GreedyCons(last, [], c, from);
    } else {
      assert a + [last] == [a[0]] + (a[1..] + [last]);
      GreedyCons(a[0], a[1..] + [last], c, from);
      var found := FindFrom(c, a[0], from);
      if found.Some? { GreedyAppend(a[1..], last, c, found.value + |a[0]|); }
    }
  }

  /** The meaning of the segments after the first, in terms of placements in the candidate. */
  lemma {:induction false} TailMeaning(heads: seq<string>, last: string, c: string, from: nat)
    requires from <= |c|
    ensures (exists k :: from <= k <= |c| && WildSegs(heads + [last], c[k..])) <==>
            |last| <= |c| && OccursAt(c, last, |c| - |last|) && Placeable(heads, c, from, |c| - |last|)
    decreases |heads|
  {
    var segs := heads + [last];
    if heads == [] {
      assert segs == [last];
      if |last| <= |c| && OccursAt(c, last, |c| - |last|) && from <= |c| - |last| {
        assert c[|c| - |last|..] == last;
        assert WildSegs(segs, c[|c| - |last|..]);
      }
    } else {
      assert segs[1..] == heads[1..] + [last] && segs[0] == heads[0];
      forall k | from <= k <= |c|
        ensures WildSegs(segs, c[k..]) <==>
                && OccursAt(c, heads[0], k) && |last| <= |c| && OccursAt(c, last, |c| - |last|)
                && Placeable(heads[1..], c, k + |heads[0]|, |c| - |last|)
      {
        StepMeaning(heads, last, c, k);
      }
    }
  }

  lemma {:induction false} StepMeaning(heads: seq<string>, last: string, c: string, k: nat)
    requires heads != [] && k <= |c|
    ensures WildSegs(heads + [last], c[k..]) <==>
            && OccursAt(c, heads[0], k) && |last| <= |c| && OccursAt(c, last, |c| - |last|)
            && Placeable(heads[1..], c, k + |heads[0]|, |c| - |last|)
    decreases |heads|, 0
  {
    var segs := heads + [last];
    var head := heads[0];
    assert segs[1..] == heads[1..] + [last] && segs[0] == head;
    assert head <= c[k..] <==> OccursAt(c, head, k) by {
      if head <= c[k..] { assert c[k..k + |head|] == c[k..][..|head|]; }
      if OccursAt(c, head, k) { assert c[k..][..|head|] == c[k..k + |head|]; }
    }
    if OccursAt(c, head, k) {
      TailMeaning(heads[1..], last, c, k + |head|);
      forall j | |head| <= j <= |c[k..]| ensures c[k..][j..] == c[k + j..] {}
      if exists i :: k + |head| <= i <= |c| && WildSegs(segs[1..], c[i..]) {
        var i :| k + |head| <= i <= |c| && WildSegs(segs[1..], c[i..]);
        assert c[k..][i - k..] == c[i..];
      }
    }
  }

  // ------------------------------------------------------------ the pattern

  lemma {:induction false} SplitShape(p: string)
    ensures |Split(p)| >= 2 <==> '*' in p
    ensures '*' !in p ==> Split(p) == [p]
    ensures p != "" ==> (Split(p)[0] == "" <==> p[0] == '*')
    ensures '*' in p ==> (Split(p)[|Split(p)| - 1] == "" <==> p[|p| - 1] == '*')
    decreases |p|
  {
    if p != "" {
      SplitShape(p[1..]);
      assert '*' in p <==> p[0] == '*' || '*' in p[1..];
      if '*' !in p {
        assert p == [p[0]] + p[1..];
      }
      if p[0] == '*' && '*' !in p[1..] {
        assert Split(p) == ["", p[1..]];
      }
    }
  }

  /** Whether the literal parts before the last place, and where they leave off. */
  function HeadsEnd(pattern: string, c: string): Option<nat>
    requires '*' in pattern
  {
    SplitShape(pattern);
    var segs := Split(pattern);
    if segs[0] <= c then Greedy(segs[1..|segs| - 1], c, |segs[0]|) else None
  }

  function LastPart(pattern: string): string {
    Split(pattern)[|Split(pattern)| - 1]
  }

  /** The wildcard meaning, read off a leftmost placement of all parts but the last. */
  lemma MeaningByHeads(pattern: string, c: string)
    requires '*' in pattern
    ensures Wild(pattern, c) <==>
            && HeadsEnd(pattern, c).Some?
            && HeadsEnd(pattern, c).value <= |c| - |LastPart(pattern)|
            && OccursAt(c, LastPart(pattern), |c| - |LastPart(pattern)|)
  {
    hide Split, Greedy, Placeable, Wild;
    SplitShape(pattern);
    WildIsSegs(pattern, c);
    var segs := Split(pattern);
    var middle, last := segs[1..|segs| - 1], LastPart(pattern);
    assert segs[1..] == middle + [last];
    if segs[0] <= c {
      TailMeaning(middle, last, c, |segs[0]|);
      GreedyIsBest(middle, c, |segs[0]|, |c| - |last|);
    }
  }

  lemma PrefixIsFirst(part: string, c: string)
    ensures FindFrom(c, part, 0) == Some(0) <==> part <= c
  {
    if part <= c { assert c[0..|part|] == part; }
    if OccursAt(c, part, 0) { assert c[..|part|] == c[0..|part|]; }
  }

  /** The greedy run over all segments, once the first is a prefix of the candidate. */
  lemma GreedyFromHeads(pattern: string, c: string)
    requires '*' in pattern && Split(pattern)[0] <= c
    ensures Greedy(NonEmpty(Split(pattern)), c, 0) == ThenPlace(HeadsEnd(pattern, c), LastPart(pattern), c)
  {
    SplitShape(pattern);
    var segs := Split(pattern);
    var middle := segs[1..|segs| - 1];
    DropEmpty(segs, c, 0);
    PrefixIsFirst(segs[0], c);
    assert segs == [segs[0]] + (middle + [LastPart(pattern)]);
    GreedyCons(segs[0], middle + [LastPart(pattern)], c, 0);
    GreedyAppend(middle, LastPart(pattern), c, |segs[0]|);
  }

  /** A pattern of stars only places trivially. */
  lemma StarsOnly(pattern: string, c: string)
    requires '*' in pattern && NonEmpty(Split(pattern)) == []
    ensures HeadsEnd(pattern, c) == Some(0) && LastPart(pattern) == ""
  {
    SplitShape(pattern);
    var segs := Split(pattern);
    AllEmpty(segs);
    AllEmptyGreedy(segs[1..|segs| - 1], c, 0);
  }

  lemma FirstPart(pattern: string)
    requires '*' in pattern && pattern[0] != '*'
    ensures NonEmpty(Split(pattern)) != [] && NonEmpty(Split(pattern))[0] == Split(pattern)[0]
  {
    SplitShape(pattern);
  }

  /** The matcher, read off the same placement: the last part goes to its earliest occurrence. */
  lemma GlobByHeads(pattern: string, c: string, prefixOnly: bool)
    requires '*' in pattern
    ensures Glob(pattern, c, prefixOnly) <==>
            && HeadsEnd(pattern, c).Some?
            && var found := FindFrom(c, LastPart(pattern), HeadsEnd(pattern, c).value);
               found.Some? && (prefixOnly || LastPart(pattern) == "" || found.value + |LastPart(pattern)| == |c|)
  {
    SplitShape(pattern);
    var first := Split(pattern)[0];
    PrefixIsFirst(first, c);
    if NonEmpty(Split(pattern)) == [] {
      StarsOnly(pattern, c);
      assert OccursAt(c, "", 0);
    } else {
      if pattern[0] != '*' { FirstPart(pattern); }
      if first <= c { GreedyFromHeads(pattern, c); }
    }
  }

  lemma {:induction false} AllEmpty(segs: seq<string>)
    requires NonEmpty(segs) == []
    ensures forall i | 0 <= i < |segs| :: segs[i] == ""
    decreases |segs|
  {
    if segs != [] {
      AllEmpty(segs[1..]);
      forall i | 0 <= i < |segs| ensures segs[i] == "" {
        if i > 0 { assert segs[i] == segs[1..][i - 1]; }
      }
    }
  }

  lemma {:induction false} AllEmptyGreedy(segs: seq<string>, c: string, from: nat)
    requires from <= |c| && forall i | 0 <= i < |segs| :: segs[i] == ""
    ensures Greedy(segs, c, from) == Some(from)
    decreases |segs|
  {
    if segs != [] {
      EmptyPartMatches(c, from);
      AllEmptyGreedy(segs[1..], c, from);
    }
  }

  // ------------------------------------------------------------ main results

  /** A pattern ending in `*` means exactly what the greedy matcher computes. */
  lemma OpenEndedIsExact(pattern: string, c: string)
    requires pattern != "" && pattern[|pattern| - 1] == '*'
    ensures Glob(pattern, c, false) == Wild(pattern, c)
  {
    SplitShape(pattern);
    MeaningByHeads(pattern, c);
    GlobByHeads(pattern, c, false);
    HeadsEndInside(pattern, c);
    if HeadsEnd(pattern, c).Some? { FindFromIsFirst(c, LastPart(pattern), HeadsEnd(pattern, c).value); }
  }

  lemma HeadsEndInside(pattern: string, c: string)
    requires '*' in pattern
    ensures HeadsEnd(pattern, c).Some? ==> HeadsEnd(pattern, c).value <= |c|
  {
    SplitShape(pattern);
    var segs := Split(pattern);
    if HeadsEnd(pattern, c).Some? { GreedyEnds(segs[1..|segs| - 1], c, |segs[0]|); }
  }

  /** Some occurrence of the last part, at or after the place the earlier parts leave off, ends
      before the candidate does, although the candidate also ends with that part. */
  predicate LastPartRepeats(pattern: string, c: string)
    requires '*' in pattern
  {
    var heads := HeadsEnd(pattern, c);
    && heads.Some?
    && heads.value <= |c| - |LastPart(pattern)|
    && OccursAt(c, LastPart(pattern), |c| - |LastPart(pattern)|)
    && exists k :: heads.value <= k < |c| - |LastPart(pattern)| && OccursAt(c, LastPart(pattern), k)
  }

  /** A pattern anchored at its end: always sound, and it departs from the wildcard meaning
      exactly when its last part repeats before the end of the candidate. */
  lemma EndAnchoredIsExactUnlessRepeated(pattern: string, c: string)
    requires '*' in pattern && pattern[|pattern| - 1] != '*'
    ensures Glob(pattern, c, false) ==> Wild(pattern, c)
    ensures Glob(pattern, c, false) == Wild(pattern, c) <==> !LastPartRepeats(pattern, c)
  {
    SplitShape(pattern);
    MeaningByHeads(pattern, c);
    GlobByHeads(pattern, c, false);
    HeadsEndInside(pattern, c);
    if HeadsEnd(pattern, c).Some? { FindFromIsFirst(c, LastPart(pattern), HeadsEnd(pattern, c).value); }
  }

  /** `a*b` means "starts with a, ends with b", yet the matcher rejects `abb`. */
  lemma RepeatedLastPartIsRejected()
    ensures Wild("a*b", "abb") && !Glob("a*b", "abb", false)
    ensures LastPartRepeats("a*b", "abb")
  {
    var p, c := "a*b", "abb";
    SplitShape("b");
    assert "*b"[1..] == "b" && p[1..] == "*b" && p[0] == 'a';
    assert Split("*b") == ["", "b"];
    assert ['a'] + "" == "a";
    assert Split(p) == ["a", "b"];
    assert "a" <= c;
    assert Split(p)[1..1] == [];
    assert OccursAt(c, "b", 1) && OccursAt(c, "b", 2);
    EndAnchoredIsExactUnlessRepeated(p, c);
    MeaningByHeads(p, c);
  }

  /** A prefix of the candidate matches `p` exactly when the whole candidate matches `p*`. */
  lemma {:induction false} PrefixMeaning(p: string, c: string)
    ensures (exists m :: 0 <= m <= |c| && Wild(p, c[..m])) <==> Wild(p + "*", c)
    decreases |p|
  {
    if p == "" {
      assert (p + "*")[1..] == "";
      assert Wild("", c[..0]);
      assert Wild((p + "*")[1..], c[|c|..]);
    } else {
      assert (p + "*")[1..] == p[1..] + "*";
      if p[0] == '*' {
        StarPrefixMeaning(p, c);
      } else if c != "" && c[0] == p[0] {
        PrefixMeaning(p[1..], c[1..]);
        forall m | 1 <= m <= |c| ensures c[..m][1..] == c[1..][..m - 1] && c[..m][0] == c[0] {}
        if Wild(p[1..] + "*", c[1..]) {
          var m :| 0 <= m <= |c[1..]| && Wild(p[1..], c[1..][..m]);
          assert c[..m + 1][1..] == c[1..][..m];
          assert Wild(p, c[..m + 1]);
        }
      } else {
        forall m | 0 <= m <= |c| ensures !Wild(p, c[..m]) {
          if m > 0 { assert c[..m][0] == c[0]; }
        }
      }
    }
  }

  lemma {:induction false} StarPrefixMeaning(p: string, c: string)
    requires p != "" && p[0] == '*'
    ensures (exists m :: 0 <= m <= |c| && Wild(p, c[..m])) <==> Wild(p + "*", c)
    decreases |p|, 0
  {
    assert (p + "*")[1..] == p[1..] + "*";
    if Wild(p + "*", c) {
      var k :| 0 <= k <= |c| && Wild(p[1..] + "*", c[k..]);
      PrefixMeaning(p[1..], c[k..]);
      var j :| 0 <= j <= |c[k..]| && Wild(p[1..], c[k..][..j]);
      assert c[..k + j][k..] == c[k..][..j];
      assert Wild(p, c[..k + j]);
    }
    if exists m :: 0 <= m <= |c| && Wild(p, c[..m]) {
      var m :| 0 <= m <= |c| && Wild(p, c[..m]);
      var k :| 0 <= k <= |c[..m]| && Wild(p[1..], c[..m][k..]);
      assert c[..m][k..] == c[k..][..m - k];
      PrefixMeaning(p[1..], c[k..]);
    }
  }

  lemma {:induction false} SplitSnocStar(p: string)
    ensures Split(p + "*") == Split(p) + [""]
    decreases |p|
  {
    if p == "" {
      assert (p + "*")[1..] == "";
    } else {
      SplitSnocStar(p[1..]);
      assert (p + "*")[1..] == p[1..] + "*";
    }
  }

  /** Prefix-only matching of `p` is full matching of `p*`. */
  lemma PrefixOnlyIsOpenEnded(p: string, c: string)
    requires '*' in p
    ensures Glob(p, c, true) == Glob(p + "*", c, false)
  {
    SplitShape(p);
    SplitSnocStar(p);
    var q := p + "*";
    assert '*' in q;
    GlobByHeads(p, c, true);
    GlobByHeads(q, c, false);
    HeadsEndInside(q, c);
    var segs := Split(p);
    assert Split(q)[1..|Split(q)| - 1] == segs[1..|segs| - 1] + [LastPart(p)];
    if segs[0] <= c {
      GreedyAppend(segs[1..|segs| - 1], LastPart(p), c, |segs[0]|);
    }
  }

  lemma LiteralPrefix(p: string, c: string)
    requires '*' !in p
    ensures Wild(p + "*", c) <==> p <= c
  {
    SplitShape(p);
    SplitSnocStar(p);
    WildIsSegs(p + "*", c);
    assert Split(p + "*") == [p, ""];
    if p <= c { assert WildSegs([p, ""][1..], c[|c|..]); }
  }

  /** Main result. Matching is sound for every stored pattern, and complete for `^`-anchored
      patterns, patterns ending in `*`, and patterns without `*`. */
  lemma MatchesIsSoundAndMostlyComplete(pattern: string, c: string)
    ensures Matches(pattern, c) ==> Meaning(pattern, c)
    ensures (pattern != "" && (pattern[0] == '^' || pattern[|pattern| - 1] == '*')) || '*' !in pattern ==>
              Matches(pattern, c) == Meaning(pattern, c)
  {
    if pattern != "" && pattern[0] == '^' {
      var prefix := pattern[1..];
      PrefixMeaning(prefix, c);
      if '*' in prefix {
        PrefixOnlyIsOpenEnded(prefix, c);
        OpenEndedIsExact(prefix + "*", c);
      } else {
        LiteralPrefix(prefix, c);
      }
    } else if '*' !in pattern {
      SplitShape(pattern);
      WildIsSegs(pattern, c);
    } else if pattern[|pattern| - 1] == '*' {
      OpenEndedIsExact(pattern, c);
    } else {
      EndAnchoredIsExactUnlessRepeated(pattern, c);
    }
  }
}
