/** Recent log lines: the backend's ring, and the viewer's tail that stitches
    a fetched history to the lines that arrived meanwhile. */
module LogLines {

  // ----------------------------------------------------------------- the ring

  const DEFAULT_RING_SIZE: nat := 500

  function TrimNewlines(s: string): (r: string)
    ensures r <= s && (r == [] || r[|r| - 1] != '\n')
    ensures forall k :: |r| <= k < |s| ==> s[k] == '\n'
  {
    if s != [] && s[|s| - 1] == '\n' then TrimNewlines(s[..|s| - 1]) else s
  }

  /** The last n lines, oldest first. */
  function LastLines(lines: seq<string>, n: nat): seq<string> {
    if |lines| <= n then lines else lines[|lines| - n..]
  }

  class Ring {
    var buf: array<string>
    var next: nat
    var full: bool
    /** Every line ever written. */
    ghost var written: seq<string>

    ghost predicate Valid() reads this, buf {
      && 0 < buf.Length && next < buf.Length
      && (full <==> |written| >= buf.Length)
      && (!full ==> next == |written|)
      && (forall k :: 0 <= k < next ==> buf[k] == written[|written| - next + k])
      && (full ==> forall k :: next <= k < buf.Length ==> buf[k] == written[|written| - next - buf.Length + k])
    }

    constructor (size: int)
      ensures Valid() && fresh(buf) && written == []
      ensures buf.Length == if size <= 0 then DEFAULT_RING_SIZE else size
    {
      var n: nat := if size <= 0 then DEFAULT_RING_SIZE else size;
      buf := new string[n](_ => "");
      next, full, written := 0, false, [];
    }

    method Write(p: string)
      requires Valid()
      modifies this`next, this`full, this`written, buf
      ensures Valid() && written == old(written) + [TrimNewlines(p)]
    {
      var line := TrimNewlines(p);
      WrapAround(next, buf.Length);
      buf[next] := line;
      next := (next + 1) % buf.Length;
      if next == 0 {
        full := true;
      }
      written := written + [line];
    }

    /** The ring holds the last lines written, as many as fit, oldest first. */
    method RecentLines() returns (lines: seq<string>)
      requires Valid()
      ensures lines == LastLines(written, buf.Length)
    {
      if !full {
        lines := buf[..next];
      } else {
        lines := buf[next..] + buf[..next];
      }
    }
  }

  lemma WrapAround(i: nat, size: nat)
    requires i < size
    ensures (i + 1) % size == if i + 1 == size then 0 else i + 1
  {
  }

  // ----------------------------------------------------------------- the tail

  const MAX_TAIL_LINES: nat := 2000

  function AppendLines(lines: seq<string>, more: seq<string>): seq<string> {
    if more == [] then lines else LastLines(lines + more, MAX_TAIL_LINES)
  }

  function AppendEach(lines: seq<string>, more: seq<string>): seq<string>
    decreases |more|
  {
    if more == [] then lines else AppendEach(AppendLines(lines, [more[0]]), more[1..])
  }

  /** Two batches are one batch. */
  lemma AppendTwice(lines: seq<string>, a: seq<string>, b: seq<string>)
    ensures AppendLines(AppendLines(lines, a), b) == AppendLines(lines, a + b)
  {
    if a == [] {
      assert a + b == b;
    } else if b == [] {
      assert a + b == a;
    } else {
      assert lines + a + b == lines + (a + b);
    }
  }

  /** A batch is its lines appended one by one. */
  lemma {:induction false} BatchIsOneByOne(lines: seq<string>, more: seq<string>)
    ensures AppendLines(lines, more) == AppendEach(lines, more)
    decreases |more|
  {
    if more != [] {
      AppendTwice(lines, [more[0]], more[1..]);
      assert [more[0]] + more[1..] == more;
      BatchIsOneByOne(AppendLines(lines, [more[0]]), more[1..]);
    }
  }

  /** The last k lines of history are the first k of pending. */
  predicate Overlaps(history: seq<string>, pending: seq<string>, k: nat) {
    k <= |history| && k <= |pending| && history[|history| - k..] == pending[..k]
  }

  ghost predicate NoLonger(history: seq<string>, pending: seq<string>, k: int) {
    forall j: nat :: j > k ==> !Overlaps(history, pending, j)
  }

  /** rest is pending without the longest head the history ends with. */
  ghost predicate Dropped(history: seq<string>, pending: seq<string>, rest: seq<string>) {
    exists k: nat :: Overlaps(history, pending, k) && NoLonger(history, pending, k) && rest == pending[k..]
  }

  method DropHistoryOverlap(history: seq<string>, pending: seq<string>) returns (rest: seq<string>)
    ensures Dropped(history, pending, rest)
  {
    var k := if |history| < |pending| then |history| else |pending|;
    while k > 0
      invariant 0 <= k <= |history| && k <= |pending|
      invariant NoLonger(history, pending, k)
    {
      if history[|history| - k..] == pending[..k] {
        assert Overlaps(history, pending, k);
        return pending[k..];
      }
      k := k - 1;
    }
    assert Overlaps(history, pending, 0) && pending[0..] == pending;
    return pending;
  }

  lemma SliceOfSlice<T>(log: seq<T>, lo: nat, hi: nat, i: nat, j: nat)
    requires lo <= hi <= |log| && i <= j <= hi - lo
    ensures log[lo..hi][i..j] == log[lo + i..lo + j]
  {
    forall x | 0 <= x < j - i
      ensures log[lo..hi][i..j][x] == log[lo + i..lo + j][x]
    {
    }
  }

  lemma SliceSplit<T>(log: seq<T>, lo: nat, mid: nat, hi: nat)
    requires lo <= mid <= hi <= |log|
    ensures log[lo..mid] + log[mid..hi] == log[lo..hi]
  {
  }

  /** The lines both sides saw are an overlap. */
  lemma TrueOverlap(log: seq<string>, c: nat, a: nat, s: nat, b: nat)
    requires c <= a <= s <= b <= |log|
    ensures Overlaps(log[c..s], log[a..b], s - a)
    ensures log[a..b][s - a..] == log[s..b]
  {
    SliceOfSlice(log, c, s, a - c, s - c);
    SliceOfSlice(log, a, b, 0, s - a);
    SliceOfSlice(log, a, b, s - a, b - a);
  }

  /** One log seen through a snapshot and a subscription that overlap: the
      stitch restores it exactly when no longer overlap exists by accident. */
  lemma StitchIsExact(log: seq<string>, c: nat, a: nat, s: nat, b: nat, rest: seq<string>)
    requires c <= a <= s <= b <= |log|
    requires Dropped(log[c..s], log[a..b], rest)
    ensures log[c..s] + rest == log[c..b] <==> NoLonger(log[c..s], log[a..b], s - a)
  {
    var history, pending := log[c..s], log[a..b];
    var k: nat :| Overlaps(history, pending, k) && NoLonger(history, pending, k) && rest == pending[k..];
    hide Overlaps;
    TrueOverlap(log, c, a, s, b);
    SliceSplit(log, c, s, b);
    if k != s - a {
      assert k > s - a && |history + rest| != |log[c..b]|;
    }
  }

  lemma OverlapStart(log: seq<string>, c: nat, a: nat, s: nat, b: nat, j: nat)
    requires c <= a <= s <= b <= |log| && j > 0
    requires Overlaps(log[c..s], log[a..b], j)
    ensures c <= s - j && log[s - j] == log[a]
  {
    assert log[c..s][|log[c..s]| - j..][0] == log[s - j];
    assert log[a..b][..j][0] == log[a];
  }

  /** Lines that never repeat leave no room for an accident. */
  lemma DistinctLinesStitch(log: seq<string>, c: nat, a: nat, s: nat, b: nat, rest: seq<string>)
    requires c <= a <= s <= b <= |log|
    requires forall i, j :: 0 <= i < j < |log| ==> log[i] != log[j]
    requires Dropped(log[c..s], log[a..b], rest)
    ensures log[c..s] + rest == log[c..b]
  {
    StitchIsExact(log, c, a, s, b, rest);
    forall j: nat | j > s - a ensures !Overlaps(log[c..s], log[a..b], j) {
      if Overlaps(log[c..s], log[a..b], j) {
        OverlapStart(log, c, a, s, b, j);
      }
    }
  }

  /** A line logged twice with the seam between the two is shown once. */
  lemma RepeatedLineIsLost(log: seq<string>, s: nat, rest: seq<string>)
    requires 0 < s < |log| && log[s - 1] == log[s]
    requires Dropped(log[s - 1..s], log[s..s + 1], rest)
    ensures log[s - 1..s] + rest != log[s - 1..s + 1]
  {
    StitchIsExact(log, s - 1, s, s, s + 1, rest);
    SliceOfSlice(log, s - 1, s, 0, 1);
    SliceOfSlice(log, s, s + 1, 0, 1);
    OneSlice(log, s - 1);
    OneSlice(log, s);
    assert Overlaps(log[s - 1..s], log[s..s + 1], 1);
  }

  lemma OneSlice<T>(log: seq<T>, i: nat)
    requires i < |log|
    ensures log[i..i + 1] == [log[i]]
  {
  }
}
