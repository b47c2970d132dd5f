/** The clean-up half of the presence template engine: three rewrites that
    erase the seams empty tokens leave behind. Text is a sequence of code
    points. Each regular expression of the source is a scanner here; the
    lemmas named after it say which language it matches. */
module TemplateCleanup {

  // ---------------------------------------------------------------- alphabet

  /** What an empty token leaves behind for the clean-up to find. */
  const MARK: char := '\0'

  /** What `\s` matches. */
  predicate IsSpace(c: char) {
    c == '\t' || c == '\n' || c == '\U{000C}' || c == '\r' || c == ' '
  }

  /** The separators: hyphen, bar, bullet, middot. */
  predicate IsSep(c: char) {
    c == '-' || c == '|' || c == '\U{2022}' || c == '\U{00B7}'
  }

  /** Everything the clean-up may not touch. */
  predicate IsInk(c: char) {
    !IsSpace(c) && !IsSep(c) && c != MARK
  }

  // ---------------------------------------------------------------- scanners

  /** Length of the leading whitespace. */
  function Spaces(s: string): (n: nat)
    ensures n <= |s|
    ensures forall k :: 0 <= k < n ==> IsSpace(s[k])
    ensures n < |s| ==> !IsSpace(s[n])
  {
    if s != [] && IsSpace(s[0]) then 1 + Spaces(s[1..]) else 0
  }

  /** Whether the seam expression matches at the start of s. */
  predicate SeamAt(s: string) {
    var w := Spaces(s);
    w < |s| && s[w] == MARK
  }

  /** How far that match reaches: the mark and all whitespace around it. */
  function SeamEnd(s: string): (e: nat)
    requires SeamAt(s)
    ensures 0 < e <= |s|
  {
    var w := Spaces(s);
    w + 1 + Spaces(s[w + 1..])
  }

  /** Every seam becomes one space, or nothing at either end of the text. */
  function Collapse(s: string, atStart: bool): (r: string)
    ensures MARK !in r
    decreases |s|
  {
    if s == [] then []
    else if SeamAt(s) then
      var e := SeamEnd(s);
      (if atStart || e == |s| then [] else " ") + Collapse(s[e..], false)
    else
      [s[0]] + Collapse(s[1..], false)
  }

  /** The next character that is not whitespace is a separator. */
  predicate NextSep(s: string) {
    s != [] && (IsSep(s[0]) || (IsSpace(s[0]) && NextSep(s[1..])))
  }

  /** Length of the longest run of further separators, each with the
      whitespace before it, at the start of s. */
  function RunTail(s: string): (n: nat)
    ensures n <= |s|
    ensures n > 0 ==> IsSep(s[n - 1])
    ensures forall k :: 0 <= k < n ==> IsSpace(s[k]) || IsSep(s[k])
    ensures !NextSep(s[n..])
    decreases |s|
  {
    if !NextSep(s) then 0
    else
      assert s[1..][RunTail(s[1..])..] == s[1 + RunTail(s[1..])..];
      1 + RunTail(s[1..])
  }

  /** A run of separators keeps its first one only. */
  function Fold(s: string): (r: string)
    decreases |s|
  {
    if s == [] then []
    else if IsSep(s[0]) then [s[0]] + Fold(s[1 + RunTail(s[1..])..])
    else [s[0]] + Fold(s[1..])
  }

  predicate IsTrimmed(c: char) { IsSpace(c) || IsSep(c) }

  function TrimLeft(s: string): (r: string)
    ensures r == [] || !IsTrimmed(r[0])
  {
    if s != [] && IsTrimmed(s[0]) then TrimLeft(s[1..]) else s
  }

  function TrimRight(s: string): (r: string)
    ensures r <= s
    ensures r == [] || !IsTrimmed(r[|r| - 1])
  {
    if s != [] && IsTrimmed(s[|s| - 1]) then TrimRight(s[..|s| - 1]) else s
  }

  function Trim(s: string): string { TrimRight(TrimLeft(s)) }

  /** The whole clean-up, as the renderer runs it. */
  function Cleanup(s: string): string {
    Trim(Fold(Collapse(s, true)))
  }

  // ------------------------------------------------- the regexes' languages

  /** The language of the seam expression. */
  predicate IsSeam(w: string) {
    exists k :: 0 <= k < |w| && w[k] == MARK
      && forall i :: 0 <= i < |w| && i != k ==> IsSpace(w[i])
  }

  /** The language of the separator-run expression, a lone separator included. */
  predicate IsSepRun(w: string) {
    w != [] && IsSep(w[0]) && IsSep(w[|w| - 1])
      && forall i :: 0 <= i < |w| ==> IsTrimmed(w[i])
  }

  /** A seam is found exactly where some prefix is in its language, and the
      one taken is the longest. */
  lemma {:induction false} SeamIsLongestMatch(s: string)
    ensures SeamAt(s) <==> exists n :: 0 <= n <= |s| && IsSeam(s[..n])
    ensures SeamAt(s) ==> IsSeam(s[..SeamEnd(s)])
    ensures SeamAt(s) ==> forall n :: SeamEnd(s) < n <= |s| ==> !IsSeam(s[..n])
  {
    var w := Spaces(s);
    if SeamAt(s) {
      var e := SeamEnd(s);
      var tail := s[w + 1..];
      assert forall i :: w < i < e ==> s[i] == tail[i - w - 1];
      assert s[..e][w] == MARK;
      assert IsSeam(s[..e]);
      forall n | e < n <= |s| ensures !IsSeam(s[..n]) {
        assert s[..n][e] == tail[e - w - 1] && s[..n][w] == MARK;
      }
    }
    forall n | 0 <= n <= |s| && IsSeam(s[..n]) ensures SeamAt(s) {
      var k :| 0 <= k < n && s[..n][k] == MARK
        && forall i :: 0 <= i < n && i != k ==> IsSpace(s[..n][i]);
      assert k >= w;
    }
  }

  /** At a separator the run taken is in the language and is the longest. */
  lemma RunIsLongestMatch(s: string)
    requires s != [] && IsSep(s[0])
    ensures IsSepRun(s[..1 + RunTail(s[1..])])
    ensures forall n :: 1 + RunTail(s[1..]) < n <= |s| ==> !IsSepRun(s[..n])
  {
    hide RunTail, NextSep, IsSep, IsSpace;
    var t := RunTail(s[1..]);
    assert forall i :: 0 < i <= t ==> s[i] == s[1..][i - 1];
    forall n | 1 + t < n <= |s|
      ensures !IsSepRun(s[..n])
    {
      if IsSepRun(s[..n]) {
        var rest := s[1..][t..];
        assert forall i :: 0 <= i < n - 1 - t ==> rest[i] == s[..n][i + 1 + t];
        SepBehindSpaces(rest, n - 2 - t);
      }
    }
  }

  /** A separator reachable over whitespace and separators makes NextSep true. */
  lemma {:induction false} SepBehindSpaces(s: string, k: nat)
    requires k < |s| && IsSep(s[k])
    requires forall i :: 0 <= i < k ==> IsTrimmed(s[i])
    ensures NextSep(s)
    decreases k
  {
    if k > 0 && !IsSep(s[0]) {
      SepBehindSpaces(s[1..], k - 1);
    }
  }

  // ------------------------------------------------------------ normal forms

  /** Two separators with nothing but whitespace between them. */
  predicate SepPair(s: string, i: int, j: int) {
    0 <= i < j < |s| && IsSep(s[i]) && IsSep(s[j])
      && forall k :: i < k < j ==> IsSpace(s[k])
  }

  /** What a rendered line may look like. */
  ghost predicate NormalForm(s: string) {
    && MARK !in s
    && (forall i, j :: !SepPair(s, i, j))
    && (s == [] || (!IsTrimmed(s[0]) && !IsTrimmed(s[|s| - 1])))
  }

  /** No separator is followed by another: the recursive view of the middle
      clause of a normal form. */
  predicate PairFree(s: string) {
    s == [] || ((IsSep(s[0]) ==> !NextSep(s[1..])) && PairFree(s[1..]))
  }

  lemma {:induction false} NextSepMeaning(s: string)
    ensures NextSep(s) <==>
      exists j :: 0 <= j < |s| && IsSep(s[j]) && forall k :: 0 <= k < j ==> IsSpace(s[k])
  {
    if s != [] && !IsSep(s[0]) && IsSpace(s[0]) {
      var t := s[1..];
      NextSepMeaning(t);
      if NextSep(t) {
        var j :| 0 <= j < |t| && IsSep(t[j]) && forall k :: 0 <= k < j ==> IsSpace(t[k]);
        assert forall k :: 0 < k < j + 1 ==> s[k] == t[k - 1];
        assert IsSep(s[j + 1]);
      }
      if j :| 0 <= j < |s| && IsSep(s[j]) && forall k :: 0 <= k < j ==> IsSpace(s[k]) {
        assert j > 0;
        assert IsSep(t[j - 1]) && forall k :: 0 <= k < j - 1 ==> IsSpace(t[k]) by {
          assert forall k :: 0 <= k < j - 1 ==> t[k] == s[k + 1];
        }
      }
    }
  }

  lemma {:induction false} PairFreeMeaning(s: string)
    ensures PairFree(s) <==> forall i, j :: !SepPair(s, i, j)
  {
    if s != [] {
      var t := s[1..];
      PairFreeMeaning(t);
      NextSepMeaning(t);
      forall i, j | SepPair(t, i, j) ensures SepPair(s, i + 1, j + 1) {
        assert forall k :: i + 1 < k < j + 1 ==> s[k] == t[k - 1];
      }
      forall i, j | SepPair(s, i, j) ensures !PairFree(s) {
        if i > 0 {
          assert forall k :: i - 1 < k < j - 1 ==> t[k] == s[k + 1];
          assert SepPair(t, i - 1, j - 1);
        } else {
          assert forall k :: 0 <= k < j - 1 ==> t[k] == s[k + 1];
          assert IsSep(t[j - 1]);
        }
      }
      if IsSep(s[0]) && NextSep(t) {
        var j :| 0 <= j < |t| && IsSep(t[j]) && forall k :: 0 <= k < j ==> IsSpace(t[k]);
        assert forall k :: 0 < k < j + 1 ==> s[k] == t[k - 1];
        assert SepPair(s, 0, j + 1);
      }
    }
  }

  // --------------------------------------------- each rewrite reaches its goal

  lemma {:induction false} FoldKeepsNextSep(s: string)
    ensures NextSep(Fold(s)) == NextSep(s)
    decreases |s|
  {
    if s != [] && !IsSep(s[0]) {
      FoldKeepsNextSep(s[1..]);
      assert Fold(s)[1..] == Fold(s[1..]);
    }
  }

  lemma {:induction false} FoldIsPairFree(s: string)
    ensures PairFree(Fold(s))
    ensures MARK !in s ==> MARK !in Fold(s)
    decreases |s|
  {
    if s != [] {
      var rest := if IsSep(s[0]) then s[1..][RunTail(s[1..])..] else s[1..];
      assert IsSep(s[0]) ==> rest == s[1 + RunTail(s[1..])..];
      FoldIsPairFree(rest);
      FoldKeepsNextSep(rest);
      assert Fold(s)[1..] == Fold(rest);
    }
  }

  lemma {:induction false} PairFreeSlices(s: string, i: nat, j: nat)
    requires PairFree(s) && i <= j <= |s|
    ensures PairFree(s[i..j])
  {
    PairFreeMeaning(s);
    PairFreeMeaning(s[i..j]);
    forall a, b | SepPair(s[i..j], a, b) ensures SepPair(s, i + a, i + b) {
      assert forall k :: i + a < k < i + b ==> s[k] == s[i..j][k - i];
    }
  }

  /** Trimming takes a slice, so it cannot create what was absent. */
  lemma {:induction false} TrimLeftIsSuffix(s: string)
    ensures |TrimLeft(s)| <= |s| && TrimLeft(s) == s[|s| - |TrimLeft(s)|..]
  {
    if s != [] && IsTrimmed(s[0]) {
      TrimLeftIsSuffix(s[1..]);
    }
  }

  lemma {:induction false} TrimIsSlice(s: string) returns (i: nat, j: nat)
    ensures i <= j <= |s| && Trim(s) == s[i..j]
    ensures Trim(s) == [] || (!IsTrimmed(Trim(s)[0]) && !IsTrimmed(Trim(s)[|Trim(s)| - 1]))
  {
    TrimLeftIsSuffix(s);
    var l := TrimLeft(s);
    i := |s| - |l|;
    j := i + |TrimRight(l)|;
    assert TrimRight(l) == l[..|TrimRight(l)|];
  }

  /** Every rendered line is in normal form, whatever went in. */
  lemma CleanupReachesNormalForm(s: string)
    ensures NormalForm(Cleanup(s))
  {
    var f := Fold(Collapse(s, true));
    FoldIsPairFree(Collapse(s, true));
    var i, j := TrimIsSlice(f);
    PairFreeSlices(f, i, j);
    PairFreeMeaning(f[i..j]);
  }

  // ------------------------------------------ and leaves normal forms alone

  lemma {:induction false} CollapseWithoutMarks(s: string, atStart: bool)
    requires MARK !in s
    ensures Collapse(s, atStart) == s
    decreases |s|
  {
    if s != [] {
      CollapseWithoutMarks(s[1..], false);
    }
  }

  lemma {:induction false} FoldOfPairFree(s: string)
    requires PairFree(s)
    ensures Fold(s) == s
  {
    if s != [] {
      FoldOfPairFree(s[1..]);
    }
  }

  /** The fixpoints of the clean-up are exactly the normal forms. */
  lemma FixpointIffNormalForm(s: string)
    ensures Cleanup(s) == s <==> NormalForm(s)
  {
    CleanupReachesNormalForm(s);
    if NormalForm(s) {
      PairFreeMeaning(s);
      CollapseWithoutMarks(s, true);
      FoldOfPairFree(s);
    }
  }

  lemma CleanupIsIdempotent(s: string)
    ensures Cleanup(Cleanup(s)) == Cleanup(s)
  {
    CleanupReachesNormalForm(s);
    FixpointIffNormalForm(Cleanup(s));
  }

  // ------------------------------------------------------------ conservation

  /** The characters of s the clean-up may not touch, in order. */
  function Ink(s: string): string {
    if s == [] then [] else (if IsInk(s[0]) then [s[0]] else []) + Ink(s[1..])
  }

  lemma InkStep(s: string)
    requires s != []
    ensures Ink(s) == (if IsInk(s[0]) then [s[0]] else []) + Ink(s[1..])
  {
  }

  lemma {:induction false} InkOfConcat(a: string, b: string)
    ensures Ink(a + b) == Ink(a) + Ink(b)
  {
    if a == [] {
      assert a + b == b;
    } else {
      hide Ink, IsInk;
      assert (a + b)[1..] == a[1..] + b;
      InkOfConcat(a[1..], b);
      InkStep(a + b);
      InkStep(a);
      Regroup([], if IsInk(a[0]) then [a[0]] else [], Ink(a[1..]), Ink(b));
    }
  }

  lemma {:induction false} NoInk(s: string)
    requires forall k :: 0 <= k < |s| ==> !IsInk(s[k])
    ensures Ink(s) == []
  {
    if s != [] {
      NoInk(s[1..]);
    }
  }

  /** Dropping an inkless front loses no ink. */
  lemma {:induction false} InkAfter(s: string, i: nat)
    requires i <= |s|
    requires forall k :: 0 <= k < i ==> !IsInk(s[k])
    ensures Ink(s) == Ink(s[i..])
  {
    if i > 0 {
      InkAfter(s[1..], i - 1);
      assert s[1..][i - 1..] == s[i..];
    }
  }

  lemma SeamHasNoInk(s: string)
    requires SeamAt(s)
    ensures forall i :: 0 <= i < SeamEnd(s) ==> !IsInk(s[i])
  {
    var w := Spaces(s);
    assert forall i :: w < i < SeamEnd(s) ==> s[i] == s[w + 1..][i - w - 1];
  }

  lemma {:induction false} CollapseKeepsInk(s: string, atStart: bool)
    ensures Ink(Collapse(s, atStart)) == Ink(s)
    decreases |s|
  {
    if s == [] {
    } else if SeamAt(s) {
      var e := SeamEnd(s);
      CollapseKeepsInk(s[e..], false);
      InkOfConcat(if atStart || e == |s| then [] else " ", Collapse(s[e..], false));
      NoInk(if atStart || e == |s| then [] else " ");
      SeamHasNoInk(s);
      InkAfter(s, e);
    } else {
      CollapseKeepsInk(s[1..], false);
      InkOfConcat([s[0]], Collapse(s[1..], false));
    }
  }

  lemma {:induction false} FoldKeepsInk(s: string)
    ensures Ink(Fold(s)) == Ink(s)
    decreases |s|
  {
    if s != [] {
      var e := if IsSep(s[0]) then 1 + RunTail(s[1..]) else 1;
      FoldKeepsInk(s[e..]);
      InkOfConcat([s[0]], Fold(s[e..]));
      if IsSep(s[0]) {
        assert forall i :: 0 < i < e ==> s[i] == s[1..][i - 1];
        InkAfter(s, e);
      }
    }
  }

  lemma {:induction false} TrimLeftKeepsInk(s: string)
    ensures Ink(TrimLeft(s)) == Ink(s)
  {
    if s != [] && IsTrimmed(s[0]) {
      TrimLeftKeepsInk(s[1..]);
    }
  }

  lemma {:induction false} TrimRightKeepsInk(s: string)
    ensures Ink(TrimRight(s)) == Ink(s)
  {
    if s != [] && IsTrimmed(s[|s| - 1]) {
      TrimRightKeepsInk(s[..|s| - 1]);
      assert s == s[..|s| - 1] + [s[|s| - 1]];
      InkOfConcat(s[..|s| - 1], [s[|s| - 1]]);
    }
  }

  /** The clean-up moves only whitespace, separators and marks. */
  lemma CleanupKeepsInk(s: string)
    ensures Ink(Cleanup(s)) == Ink(s)
  {
    CollapseKeepsInk(s, true);
    var c := Collapse(s, true);
    FoldKeepsInk(c);
    TrimLeftKeepsInk(Fold(c));
    TrimRightKeepsInk(TrimLeft(Fold(c)));
  }

  // ------------------------------------------------- the rewriting equations

  /** A maximal seam in the middle of a line becomes one space, one at either
      end becomes nothing, and what follows is rewritten on its own. */
  lemma {:induction false} CollapseSeam(seam: string, rest: string, atStart: bool)
    requires IsSeam(seam)
    requires rest == [] || !IsSpace(rest[0])
    ensures Collapse(seam + rest, atStart)
         == (if atStart || rest == [] then [] else " ") + Collapse(rest, false)
  {
    var s := seam + rest;
    assert s[..|seam|] == seam;
    SeamIsLongestMatch(s);
    assert SeamEnd(s) == |seam| && s[|seam|..] == rest;
  }

  lemma PlainIsNoSeam(text: string, rest: string)
    requires MARK !in text && text != [] && !IsSpace(text[|text| - 1])
    ensures !SeamAt(text + rest)
  {
    var s := text + rest;
    var w := Spaces(s);
    assert s[|text| - 1] == text[|text| - 1];
    assert w < |text| && s[w] == text[w];
  }

  /** Text without marks that does not end in whitespace is copied. */
  lemma {:induction false} CollapsePlain(text: string, rest: string, atStart: bool)
    requires MARK !in text && text != [] && !IsSpace(text[|text| - 1])
    ensures Collapse(text + rest, atStart) == text + Collapse(rest, false)
    decreases |text|
  {
    hide SeamAt, SeamEnd, Spaces, Collapse;
    var s := text + rest;
    PlainIsNoSeam(text, rest);
    CollapseLiteral(s, atStart);
    if |text| == 1 {
      assert s[1..] == rest && text == [s[0]];
    } else {
      assert s[1..] == text[1..] + rest;
      CollapsePlain(text[1..], rest, false);
      assert [s[0]] + (text[1..] + Collapse(rest, false)) == text + Collapse(rest, false);
    }
  }

  /** Text without separators is copied. */
  lemma {:induction false} FoldPlain(text: string, rest: string)
    requires forall c :: c in text ==> !IsSep(c)
    ensures Fold(text + rest) == text + Fold(rest)
  {
    if text == [] {
      assert text + rest == rest;
    } else {
      assert text[0] in text && (text + rest)[1..] == text[1..] + rest;
      FoldPlain(text[1..], rest);
    }
  }

  /** A maximal separator run keeps its first separator and nothing else. */
  lemma {:induction false} FoldRun(run: string, rest: string)
    requires IsSepRun(run) && !NextSep(rest)
    ensures Fold(run + rest) == [run[0]] + Fold(rest)
  {
    var s := run + rest;
    assert s[..|run|] == run;
    RunIsLongestMatch(s);
    var e := 1 + RunTail(s[1..]);
    if e > |run| {
      assert s[e - 1] == s[1..][e - 2] && IsSep(rest[e - 1 - |run|]);
      assert forall i :: 0 <= i < e - |run| ==> rest[i] == s[1..][i + |run| - 1];
      SepBehindSpaces(rest, e - 1 - |run|);
    }
    assert e == |run| && s[e..] == rest;
  }

  /** Trimming takes both outer runs whole and nothing between them. */
  lemma {:induction false} TrimEnds(a: string, m: string, b: string)
    requires forall c :: c in a || c in b ==> IsTrimmed(c)
    requires m != [] && !IsTrimmed(m[0]) && !IsTrimmed(m[|m| - 1])
    ensures Trim(a + m + b) == m
  {
    if a != [] {
      assert (a + m + b)[1..] == a[1..] + m + b;
      TrimEnds(a[1..], m, b);
    } else if b != [] {
      assert a + m + b == m + b && TrimLeft(m + b) == m + b;
      assert (m + b)[..|m + b| - 1] == m + b[..|b| - 1];
      assert a + m + b[..|b| - 1] == m + b[..|b| - 1];
      TrimEnds(a, m, b[..|b| - 1]);
    } else {
      assert a + m + b == m;
    }
  }

  // ----------------------------------------------- the loop over the matches

  /** All seam matches from index i on, left to right, none overlapping. */
  function Seams(s: string, i: nat): (locs: seq<(nat, nat)>)
    requires i <= |s|
    ensures forall k :: 0 <= k < |locs| ==> i <= locs[k].0 < locs[k].1 <= |s|
    decreases |s| - i
  {
    if i == |s| then []
    else if SeamAt(s[i..]) then
      var e := i + SeamEnd(s[i..]);
      [(i, e)] + Seams(s, e)
    else Seams(s, i + 1)
  }

  /** Where the next seam from index i on starts, |s| when there is none. */
  function NextSeam(s: string, i: nat): (a: nat)
    requires i <= |s|
    ensures i <= a <= |s|
    ensures a < |s| ==> SeamAt(s[a..])
    decreases |s| - i
  {
    if i == |s| || SeamAt(s[i..]) then i else NextSeam(s, i + 1)
  }

  lemma {:induction false} SeamsFromNext(s: string, i: nat)
    requires i <= |s|
    ensures var a := NextSeam(s, i);
      Seams(s, i) == if a == |s| then [] else [(a, a + SeamEnd(s[a..]))] + Seams(s, a + SeamEnd(s[a..]))
    decreases |s| - i
  {
    hide SeamAt, SeamEnd, Spaces;
    if i < |s| && !SeamAt(s[i..]) {
      SeamsFromNext(s, i + 1);
    }
  }

  /** Text before the next seam is copied as it stands. */
  lemma {:induction false} CollapseUpToSeam(s: string, i: nat, atStart: bool)
    requires i <= |s|
    ensures var a := NextSeam(s, i);
      Collapse(s[i..], atStart) == s[i..a] + Collapse(s[a..], atStart && a == i)
    decreases |s| - i
  {
    hide SeamAt, SeamEnd, Spaces, Collapse;
    if i < |s| && !SeamAt(s[i..]) {
      CollapseUpToSeam(s, i + 1, false);
      var a := NextSeam(s, i + 1);
      CollapseLiteral(s[i..], atStart);
      assert s[i..][1..] == s[i + 1..];
      Regroup([], [s[i]], s[i + 1..a], Collapse(s[a..], false));
      assert [s[i]] + s[i + 1..a] == s[i..a];
    }
  }

  lemma CollapseLiteral(s: string, atStart: bool)
    requires s != [] && !SeamAt(s)
    ensures Collapse(s, atStart) == [s[0]] + Collapse(s[1..], false)
  {
  }

  /** One turn of the source's loop: what is written plus what is still to be
      rewritten stays the same text. */
  lemma CollapseOneSeam(s: string, prev: nat, start: nat, end: nat, b: string)
    requires prev <= start < end <= |s|
    requires Seams(s, prev) != [] && Seams(s, prev)[0] == (start, end)
    ensures b + Collapse(s[prev..], prev == 0)
         == b + s[prev..start] + Gap(s, start, end) + Collapse(s[end..], false)
    ensures Seams(s, prev)[1..] == Seams(s, end)
  {
    hide SeamAt, SeamEnd, Spaces, Seams, Collapse, NextSeam;
    SeamsFromNext(s, prev);
    CollapseUpToSeam(s, prev, prev == 0);
    CollapseAtSeam(s[start..], start == 0);
    assert s[start..][end - start..] == s[end..];
    Regroup(b, s[prev..start], Gap(s, start, end), Collapse(s[end..], false));
  }

  lemma CollapseAtSeam(s: string, atStart: bool)
    requires SeamAt(s)
    ensures Collapse(s, atStart)
         == (if atStart || SeamEnd(s) == |s| then [] else " ") + Collapse(s[SeamEnd(s)..], false)
  {
  }

  lemma Regroup(a: string, b: string, c: string, d: string)
    ensures a + (b + (c + d)) == a + b + c + d
  {
  }

  /** What the source writes for one seam. */
  function Gap(s: string, start: nat, end: nat): string {
    if start != 0 && end != |s| then " " else []
  }

  lemma CollapseAfterLastSeam(s: string, prev: nat)
    requires prev <= |s| && Seams(s, prev) == []
    ensures Collapse(s[prev..], prev == 0) == s[prev..]
  {
    hide SeamAt, SeamEnd, Spaces, Seams, Collapse;
    SeamsFromNext(s, prev);
    CollapseUpToSeam(s, prev, prev == 0);
    assert s[prev..|s|] == s[prev..] && s[|s|..] == [];
    assert Collapse([], true) == Collapse([], false) == [] by { CollapseOfEmpty(); }
  }

  lemma CollapseOfEmpty()
    ensures Collapse([], true) == Collapse([], false) == []
  {
  }

  /** The builder loop of the source computes the rewrite. */
  method CollapseSeams(s: string) returns (b: string)
    ensures b == Collapse(s, true)
  {
    hide SeamAt, SeamEnd, Spaces, Collapse, Seams, NextSeam;
    var locs := Seams(s, 0);
    assert s[0..] == s;
    if locs == [] {
      CollapseAfterLastSeam(s, 0);
      return s;
    }
    b := [];
    var prev := 0;
    for k := 0 to |locs|
      invariant prev <= |s| && locs[k..] == Seams(s, prev)
      invariant prev == 0 ==> k == 0
      invariant b + Collapse(s[prev..], prev == 0) == Collapse(s, true)
    {
      var (start, end) := locs[k];
      assert locs[k] == locs[k..][0] && locs[k..][1..] == locs[k + 1..];
      CollapseOneSeam(s, prev, start, end, b);
      b := b + s[prev..start];
      b := b + if start != 0 && end != |s| then " " else [];
      prev := end;
    }
    CollapseAfterLastSeam(s, prev);
    b := b + s[prev..];
  }
}
