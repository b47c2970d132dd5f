/** The Riot Client's lockfile: one `name:pid:port:password:protocol` line,
    read while it may still be half written. A string is its bytes, one per
    character, so a truncation can also cut a UTF-8 sequence in two. */
module Lockfile {
  import opened Option
  import opened Decimal

  datatype Credentials = Credentials(name: string, pid: int, port: int, password: string, protocol: string)

  /** Partial is worth retrying, Malformed is not. */
  datatype Parsed = Ok(credentials: Credentials) | Partial | Malformed(fields: nat)

  const LOCKFILE_FIELDS: nat := 5

  // ------------------------------------------------------------- white space

  /** The UTF-8 forms of one white-space character, by width. */
  predicate OneByteSpace(a: char) { a == ' ' || '\t' <= a <= '\r' }

  predicate TwoByteSpace(a: char, b: char) { a == '\U{C2}' && (b == '\U{85}' || b == '\U{A0}') }

  predicate ThreeByteSpace(a: char, b: char, c: char) {
    || (a == '\U{E1}' && b == '\U{9A}' && c == '\U{80}')
    || (a == '\U{E2}' && b == '\U{80}'
        && ('\U{80}' <= c <= '\U{8A}' || c == '\U{A8}' || c == '\U{A9}' || c == '\U{AF}'))
    || (a == '\U{E2}' && b == '\U{81}' && c == '\U{9F}')
    || (a == '\U{E3}' && b == '\U{80}' && c == '\U{80}')
  }

  predicate IsSpace(s: string) {
    || (|s| == 1 && OneByteSpace(s[0]))
    || (|s| == 2 && TwoByteSpace(s[0], s[1]))
    || (|s| == 3 && ThreeByteSpace(s[0], s[1], s[2]))
  }

  /** The width of the white space s starts with, 0 for none. */
  function SpaceAtStart(s: string): (n: nat)
    ensures n <= |s|
  {
    if |s| >= 1 && OneByteSpace(s[0]) then 1
    else if |s| >= 2 && TwoByteSpace(s[0], s[1]) then 2
    else if |s| >= 3 && ThreeByteSpace(s[0], s[1], s[2]) then 3
    else 0
  }

  /** The width of the white space s ends with, 0 for none. */
  function SpaceAtEnd(s: string): (n: nat)
    ensures n <= |s|
  {
    var m := |s|;
    if m >= 1 && OneByteSpace(s[m - 1]) then 1
    else if m >= 2 && TwoByteSpace(s[m - 2], s[m - 1]) then 2
    else if m >= 3 && ThreeByteSpace(s[m - 3], s[m - 2], s[m - 1]) then 3
    else 0
  }

  function TrimLeft(s: string): (r: string)
    ensures |r| <= |s|
    decreases |s|
  {
    var n := SpaceAtStart(s);
    if n == 0 then s else TrimLeft(s[n..])
  }

  function TrimRight(s: string): (r: string)
    ensures r <= s
    decreases |s|
  {
    var n := SpaceAtEnd(s);
    if n == 0 then s else TrimRight(s[..|s| - n])
  }

  function Trim(s: string): string { TrimRight(TrimLeft(s)) }

  /** The one width at which s starts with white space, if there is any. */
  lemma SpaceAtStartMeaning(s: string, k: nat)
    requires k <= |s|
    ensures IsSpace(s[..k]) <==> k > 0 && SpaceAtStart(s) == k
  {
    assert forall i :: 0 <= i < k ==> s[..k][i] == s[i];
  }

  /** The one width at which s ends with white space, if there is any. */
  lemma SpaceAtEndMeaning(s: string, k: nat)
    requires k <= |s|
    ensures IsSpace(s[|s| - k..]) <==> k > 0 && SpaceAtEnd(s) == k
  {
    var m, last := |s|, s[|s| - k..];
    assert forall i :: 0 <= i < k ==> last[i] == s[m - k + i];
  }

  /** White space and nothing else. */
  predicate Blank(s: string)
    decreases |s|
  {
    s == "" || exists k :: 0 < k <= |s| && IsSpace(s[..k]) && Blank(s[k..])
  }

  lemma {:induction false} BlankConcat(a: string, b: string)
    requires Blank(a) && Blank(b)
    ensures Blank(a + b)
    decreases |a|
  {
    hide IsSpace;
    if a == "" {
      assert a + b == b;
    } else {
      var k :| 0 < k <= |a| && IsSpace(a[..k]) && Blank(a[k..]);
      BlankConcat(a[k..], b);
      assert (a + b)[..k] == a[..k] && (a + b)[k..] == a[k..] + b;
    }
  }

  lemma BlankSpace(s: string)
    requires IsSpace(s)
    ensures Blank(s)
  {
    hide IsSpace;
    assert s[..|s|] == s && s[|s|..] == "";
    assert |s| > 0 by {
      SpaceBytes(s);
    }
    assert Blank(s[|s|..]);
  }

  lemma {:induction false} TrimLeftDropsBlanks(s: string)
    ensures Blank(s[..|s| - |TrimLeft(s)|])
    decreases |s|
  {
    hide IsSpace, SpaceAtStart, Blank;
    var n := SpaceAtStart(s);
    TrimLeftStep(s);
    if n > 0 {
      SpaceAtStartMeaning(s, n);
      BlankSpace(s[..n]);
      TrimLeftDropsBlanks(s[n..]);
      var m := |s[n..]| - |TrimLeft(s[n..])|;
      BlankConcat(s[..n], s[n..][..m]);
      assert s[..n] + s[n..][..m] == s[..n + m];
    } else {
      EmptyIsBlank(s[..0]);
    }
  }

  lemma EmptyIsBlank(s: string)
    requires s == ""
    ensures Blank(s)
  {
  }

  lemma {:induction false} TrimRightDropsBlanks(s: string)
    ensures Blank(s[|TrimRight(s)|..]) && SpaceAtEnd(TrimRight(s)) == 0
    decreases |s|
  {
    hide IsSpace, SpaceAtEnd, Blank;
    var n := SpaceAtEnd(s);
    if n > 0 {
      var front, space := s[..|s| - n], s[|s| - n..];
      SpaceAtEndMeaning(s, n);
      BlankSpace(space);
      TrimRightDropsBlanks(front);
      BlankConcat(front[|TrimRight(front)|..], space);
      assert s[|TrimRight(s)|..] == front[|TrimRight(front)|..] + space;
    } else {
      EmptyIsBlank(s[|s|..]);
    }
  }

  /** No white space at either end. */
  ghost predicate Tight(s: string) {
    forall k :: 0 <= k <= |s| ==> !IsSpace(s[..k]) && !IsSpace(s[|s| - k..])
  }

  lemma TightEnds(body: string, line: string)
    requires line <= body && SpaceAtStart(body) == 0 && SpaceAtEnd(line) == 0
    ensures Tight(line)
  {
    hide IsSpace, SpaceAtStart, SpaceAtEnd;
    forall k | 0 <= k <= |line|
      ensures !IsSpace(line[..k]) && !IsSpace(line[|line| - k..])
    {
      SpaceAtEndMeaning(line, k);
      assert line[..k] == body[..k];
      SpaceAtStartMeaning(body, k);
    }
  }

  /** Trimming drops white space at both ends, all of it and nothing else. */
  lemma TrimMeaning(s: string) returns (lead: string, trail: string)
    ensures s == lead + Trim(s) + trail && Blank(lead) && Blank(trail)
    ensures Tight(Trim(s))
  {
    hide IsSpace, SpaceAtStart, SpaceAtEnd, Blank, TrimLeft, TrimRight, Tight;
    var body := TrimLeft(s);
    var line := TrimRight(body);
    lead, trail := s[..|s| - |body|], body[|line|..];
    TrimLeftDropsBlanks(s);
    TrimLeftMeaning(s);
    TrimRightDropsBlanks(body);
    TightEnds(body, line);
    assert s == lead + body && body == line + trail;
  }

  /** Trimming stops at the first byte that starts no white space. */
  lemma {:induction false} TrimLeftMeaning(s: string)
    ensures TrimLeft(s) == s[|s| - |TrimLeft(s)|..]
    ensures SpaceAtStart(TrimLeft(s)) == 0
    decreases |s|
  {
    hide SpaceAtStart;
    var n := SpaceAtStart(s);
    if n > 0 {
      TrimLeftMeaning(s[n..]);
    }
  }

  // ------------------------------------------------------------------ fields

  function Join(parts: seq<string>): string
    requires parts != []
  {
    if |parts| == 1 then parts[0] else Join(parts[..|parts| - 1]) + ":" + parts[|parts| - 1]
  }

  /** The fields between the colons. */
  function Split(s: string): (parts: seq<string>)
    ensures parts != []
    ensures forall i :: 0 <= i < |parts| ==> ':' !in parts[i]
  {
    if s == [] then [""]
    else
      var before, c := Split(s[..|s| - 1]), s[|s| - 1];
      if c == ':' then before + [""]
      else before[..|before| - 1] + [before[|before| - 1] + [c]]
  }

  function Parse(data: string): Parsed {
    var line := Trim(data);
    if line == "" then Partial
    else
      var parts := Split(line);
      if |parts| > LOCKFILE_FIELDS then Malformed(|parts|)
      else if |parts| < LOCKFILE_FIELDS then Partial
      else FromFields(parts)
  }

  function FromFields(parts: seq<string>): Parsed
    requires |parts| == LOCKFILE_FIELDS
  {
    if exists i :: 0 <= i < |parts| && parts[i] == "" then Partial
    else
      var pid, port := Atoi(parts[1]), Atoi(parts[2]);
      if pid.None? || port.None? then Partial
      else if parts[4] != "http" && parts[4] != "https" then Partial
      else Ok(Credentials(parts[0], pid.value, port.value, parts[3], parts[4]))
  }

  function Fields(c: Credentials): (parts: seq<string>)
    ensures |parts| == LOCKFILE_FIELDS
  {
    [c.name, Itoa(c.pid), Itoa(c.port), c.password, c.protocol]
  }

  function Print(c: Credentials): string { Join(Fields(c)) }

  // --------------------------------------------------------- split and join

  lemma JoinExtends(parts: seq<string>, last: string)
    requires parts != []
    ensures Join(parts + [last]) == Join(parts) + ":" + last
  {
    assert (parts + [last])[..|parts|] == parts;
  }

  lemma Regroup(a: string, b: string, c: string)
    ensures (a + b) + c == a + (b + c)
  {
  }

  lemma JoinGrows(init: seq<string>, last: string, c: char)
    ensures Join(init + [last + [c]]) == Join(init + [last]) + [c]
  {
    if init == [] {
      assert init + [last + [c]] == [last + [c]] && init + [last] == [last];
    } else {
      hide Join;
      JoinExtends(init, last);
      JoinExtends(init, last + [c]);
      Regroup(Join(init) + ":", last, [c]);
    }
  }

  /** Splitting loses nothing. */
  lemma {:induction false} JoinOfSplit(s: string)
    ensures Join(Split(s)) == s
  {
    if s != "" {
      hide Join;
      var init, c := s[..|s| - 1], s[|s| - 1];
      var before := Split(init);
      JoinOfSplit(init);
      assert s == init + [c];
      if c == ':' {
        JoinExtends(before, "");
        assert init + ":" + "" == init + [c];
      } else {
        var kept, last := before[..|before| - 1], before[|before| - 1];
        assert before == kept + [last];
        JoinGrows(kept, last, c);
      }
    }
  }

  lemma {:induction false} SplitExtends(s: string, field: string)
    requires ':' !in field
    ensures Split(s + ":" + field) == Split(s) + [field]
  {
    var whole := s + ":" + field;
    if field == "" {
      assert whole[..|whole| - 1] == s;
    } else {
      var init := field[..|field| - 1];
      SplitExtends(s, init);
      assert whole[..|whole| - 1] == s + ":" + init;
      assert field == init + [field[|field| - 1]];
    }
  }

  lemma {:induction false} SplitOfPlain(field: string)
    requires ':' !in field
    ensures Split(field) == [field]
  {
    if field != "" {
      SplitOfPlain(field[..|field| - 1]);
      assert field == field[..|field| - 1] + [field[|field| - 1]];
    }
  }

  lemma OneMoreField(init: seq<string>, last: string)
    requires init != [] && Split(Join(init)) == init && ':' !in last
    ensures Split(Join(init + [last])) == init + [last]
  {
    hide Split, Join;
    JoinExtends(init, last);
    SplitExtends(Join(init), last);
  }

  /** No field holds a colon. */
  predicate PlainFields(parts: seq<string>) {
    forall i :: 0 <= i < |parts| ==> ':' !in parts[i]
  }

  lemma OneField(field: string)
    requires ':' !in field
    ensures Split(Join([field])) == [field]
  {
    hide Split;
    SplitOfPlain(field);
  }

  lemma FrontAndLast(parts: seq<string>) returns (init: seq<string>, last: string)
    requires parts != [] && PlainFields(parts)
    ensures parts == init + [last] && |init| < |parts|
    ensures PlainFields(init) && ':' !in last
  {
    init, last := parts[..|parts| - 1], parts[|parts| - 1];
  }

  /** Fields free of colons come back. */
  lemma {:induction false} SplitOfJoin(parts: seq<string>)
    requires parts != [] && PlainFields(parts)
    ensures Split(Join(parts)) == parts
    decreases |parts|
  {
    hide Split, Join, PlainFields;
    var init, last := FrontAndLast(parts);
    if init == [] {
      OneField(last);
      assert parts == [last];
    } else {
      SplitOfJoin(init);
      OneMoreField(init, last);
    }
  }

  /** What a cut does to a list of fields: some are gone, the last one left
      may be shortened. */
  predicate CutFields(cut: seq<string>, whole: seq<string>) {
    && 0 < |cut| <= |whole|
    && (forall i :: 0 <= i < |cut| - 1 ==> cut[i] == whole[i])
    && cut[|cut| - 1] <= whole[|cut| - 1]
  }

  lemma CutGrows(cut: seq<string>, whole: seq<string>, c: char)
    requires CutFields(cut, whole)
    ensures CutFields(cut, whole + [""])
    ensures CutFields(cut, whole[..|whole| - 1] + [whole[|whole| - 1] + [c]])
  {
    var last := whole[|whole| - 1];
    assert last <= last + [c];
  }

  lemma SplitStep(s: string)
    requires s != ""
    ensures
      var before, c := Split(s[..|s| - 1]), s[|s| - 1];
      Split(s) == if c == ':' then before + [""] else before[..|before| - 1] + [before[|before| - 1] + [c]]
  {
  }

  lemma {:induction false} SplitOfCut(s: string, n: nat)
    requires n <= |s|
    ensures CutFields(Split(s[..n]), Split(s))
  {
    if n == |s| {
      assert s[..n] == s;
    } else {
      hide Split, CutFields;
      var init := s[..|s| - 1];
      SplitOfCut(init, n);
      SplitStep(s);
      assert init[..n] == s[..n];
      CutGrows(Split(s[..n]), Split(init), s[|s| - 1]);
    }
  }

  lemma {:induction false} SplitOfTail(s: string, tail: string)
    requires ':' !in tail
    ensures
      var parts := Split(s);
      Split(s + tail) == parts[..|parts| - 1] + [parts[|parts| - 1] + tail]
  {
    var parts := Split(s);
    var front, last := parts[..|parts| - 1], parts[|parts| - 1];
    if tail == "" {
      assert s + tail == s && last + tail == last;
    } else {
      var init, c := tail[..|tail| - 1], tail[|tail| - 1];
      assert tail == init + [c];
      SplitOfTail(s, init);
      hide Split;
      LongerTail(s, init, c, front, last);
      Regroup(last, init, [c]);
      Regroup(s, init, [c]);
    }
  }

  lemma LongerTail(s: string, init: string, c: char, front: seq<string>, last: string)
    requires c != ':' && Split(s + init) == front + [last + init]
    ensures Split(s + init + [c]) == front + [last + init + [c]]
  {
    var whole := s + init + [c];
    assert whole[..|whole| - 1] == s + init;
    SplitStep(whole);
  }

  // -------------------------------------------------------- trimming a prefix

  /** A cut before the first visible byte leaves no colon to split at; a later
      cut trims like the whole. */
  lemma {:induction false} TrimLeftOfCut(data: string, n: nat)
    requires n <= |data|
    ensures
      var blank := |data| - |TrimLeft(data)|;
      if n <= blank then ':' !in TrimLeft(data[..n])
      else TrimLeft(data[..n]) == TrimLeft(data)[..n - blank]
    decreases |data|
  {
    hide IsSpace, SpaceAtStart, TrimLeft;
    var k := SpaceAtStart(data);
    TrimLeftStep(data);
    if k == 0 {
      UncutStart(data, n);
    } else if n < k {
      BrokenSpace(data, n);
    } else {
      SpaceSurvives(data, n);
      TrimLeftStep(data[..n]);
      var rest := data[k..];
      assert TrimLeft(data[..n]) == TrimLeft(rest[..n - k]);
      TrimLeftOfCut(rest, n - k);
    }
  }

  lemma TrimLeftStep(s: string)
    ensures
      var k := SpaceAtStart(s);
      TrimLeft(s) == if k == 0 then s else TrimLeft(s[k..])
  {
  }

  lemma SpaceSurvives(data: string, n: nat)
    requires SpaceAtStart(data) <= n <= |data|
    ensures
      var k := SpaceAtStart(data);
      k > 0 ==> SpaceAtStart(data[..n]) == k && data[..n][k..] == data[k..][..n - k]
  {
    var k := SpaceAtStart(data);
    if k > 0 {
      assert data[..n][..k] == data[..k];
      SpaceAtStartMeaning(data, k);
      SpaceAtStartMeaning(data[..n], k);
      assert data[..n][k..] == data[k..][..n - k];
    }
  }

  lemma UncutStart(data: string, n: nat)
    requires n <= |data| && SpaceAtStart(data) == 0
    ensures TrimLeft(data[..n]) == data[..n]
  {
    hide IsSpace, SpaceAtStart;
    var cut := data[..n];
    var k := SpaceAtStart(cut);
    assert cut[..k] == data[..k];
    SpaceAtStartMeaning(cut, k);
    SpaceAtStartMeaning(data, k);
  }

  lemma BrokenSpace(data: string, n: nat)
    requires n < SpaceAtStart(data)
    ensures TrimLeft(data[..n]) == data[..n] && ':' !in data[..n]
  {
    hide IsSpace, SpaceAtStart;
    var cut, k := data[..n], SpaceAtStart(data);
    SpaceAtStartMeaning(data, k);
    SpaceBytes(data[..k]);
    assert forall i :: 0 <= i < n ==> cut[i] == data[..k][i];
    var j := SpaceAtStart(cut);
    assert cut[..j] == data[..j];
    SpaceAtStartMeaning(cut, j);
    SpaceAtStartMeaning(data, j);
  }

  lemma SpaceBytes(s: string)
    requires IsSpace(s)
    ensures s != "" && ':' !in s && s[0] != 's'
  {
  }

  /** What is trimmed off the end holds no colon and does not start with the
      letter that turns http into https. */
  lemma {:induction false} TrimmedTail(s: string)
    ensures
      var tail := s[|TrimRight(s)|..];
      ':' !in tail && (tail != "" ==> tail[0] != 's')
    decreases |s|
  {
    hide IsSpace, SpaceAtEnd;
    var n := SpaceAtEnd(s);
    if n > 0 {
      var init, space := s[..|s| - n], s[|s| - n..];
      SpaceAtEndMeaning(s, n);
      SpaceBytes(space);
      TrimmedTail(init);
      assert s[|TrimRight(s)|..] == init[|TrimRight(init)|..] + space;
    }
  }

  // ---------------------------------------------------------- main theorems

  /** The fields of a truncated file against those of the whole file. */
  ghost predicate Truncated(cut: seq<string>, whole: seq<string>) {
    || |cut| == 1
    || CutFields(cut, whole)
    || (0 < |cut| == |whole|
        && (forall i :: 0 <= i < |cut| - 1 ==> cut[i] == whole[i])
        && whole[|whole| - 1] < cut[|cut| - 1]
        && cut[|cut| - 1][|whole[|whole| - 1]|] != 's')
  }

  lemma TruncatedFields(data: string, n: nat)
    requires n <= |data|
    ensures Truncated(Split(Trim(data[..n])), Split(Trim(data)))
  {
    hide IsSpace, SpaceAtStart, SpaceAtEnd, TrimLeft, TrimRight, Split, CutFields, Truncated;
    TrimLeftOfCut(data, n);
    var body := TrimLeft(data);
    var cut := Trim(data[..n]);
    if n <= |data| - |body| {
      SplitOfPlain(cut);
      AloneIsTruncated(Split(cut), Split(Trim(data)));
    } else {
      LineOfCut(body, cut);
    }
  }

  lemma AloneIsTruncated(cut: seq<string>, whole: seq<string>)
    requires |cut| == 1
    ensures Truncated(cut, whole)
  {
  }

  lemma LineOfCut(body: string, cut: string)
    requires cut <= body
    ensures Truncated(Split(cut), Split(TrimRight(body)))
  {
    hide IsSpace, SpaceAtEnd, TrimRight, Split;
    var line := TrimRight(body);
    TrimmedTail(body);
    if |cut| <= |line| {
      assert cut == line[..|cut|];
      SplitOfCut(line, |cut|);
    } else {
      var tail := cut[|line|..];
      assert cut == line + tail && tail[0] == body[|line|..][0];
      assert forall i :: 0 <= i < |tail| ==> tail[i] == body[|line|..][i];
      SplitOfTail(line, tail);
      var fields := Split(line);
      var last := fields[|fields| - 1];
      assert last < last + tail && (last + tail)[|last|] == tail[0];
    }
  }

  /** Only the colon count makes a file malformed. */
  lemma ParseMeaning(data: string)
    ensures Parse(data).Malformed? <==> |Split(Trim(data))| > LOCKFILE_FIELDS
    ensures Parse(data).Ok? ==> |Split(Trim(data))| == LOCKFILE_FIELDS && Parse(data) == FromFields(Split(Trim(data)))
    ensures |Split(Trim(data))| == LOCKFILE_FIELDS ==> Parse(data) == FromFields(Split(Trim(data)))
    ensures |Split(Trim(data))| < LOCKFILE_FIELDS ==> Parse(data) == Partial
  {
  }

  /** Truncating a file never turns it into a malformed one. */
  lemma TruncationIsNeverMalformed(data: string, n: nat)
    requires n <= |data| && !Parse(data).Malformed?
    ensures !Parse(data[..n]).Malformed?
  {
    TruncatedFields(data, n);
    ParseMeaning(data);
    ParseMeaning(data[..n]);
  }

  /** Any truncation of an accepted file is retried, read as the same
      credentials, or read as the same ones over plain http. */
  lemma TruncationIsRetriedOrPlaintext(data: string, n: nat)
    requires n <= |data| && Parse(data).Ok?
    ensures
      var c := Parse(data).credentials;
      Parse(data[..n]) in {Partial, Ok(c), Ok(c.(protocol := "http"))}
  {
    hide Split, Trim, Parse, FromFields;
    TruncatedFields(data, n);
    ParseMeaning(data);
    ParseMeaning(data[..n]);
    var cut, whole := Split(Trim(data[..n])), Split(Trim(data));
    if |cut| == LOCKFILE_FIELDS {
      CutCredentials(cut, whole);
    }
  }

  lemma CutCredentials(cut: seq<string>, whole: seq<string>)
    requires |cut| == LOCKFILE_FIELDS == |whole| && Truncated(cut, whole) && FromFields(whole).Ok?
    ensures
      var c := FromFields(whole).credentials;
      FromFields(cut) in {Partial, Ok(c), Ok(c.(protocol := "http"))}
  {
    hide Atoi;
    var l, w := cut[4], whole[4];
    if l == "http" || l == "https" {
      if |l| == |w| {
        assert l == w;
      } else if |l| < |w| {
        assert l == "http";
      } else {
        assert false;
      }
    }
  }

  predicate WellFormed(c: Credentials) {
    && c.name != "" && ':' !in c.name && SpaceAtStart(c.name) == 0
    && c.password != "" && ':' !in c.password
    && InInt64(c.pid) && InInt64(c.port)
    && (c.protocol == "http" || c.protocol == "https")
  }

  lemma NoColonInNumbers(n: int)
    ensures ':' !in Itoa(n)
  {
    var digits := NatText(if n < 0 then -n else n);
    assert forall k :: 0 <= k < |digits| ==> IsDigit(digits[k]);
  }

  /** A printed line: its first field, a colon, and a last field at its end. */
  lemma PrintedLine(c: Credentials)
    ensures c.name + ":" <= Print(c)
    ensures |c.protocol| < |Print(c)| && Print(c)[|Print(c)| - |c.protocol|..] == c.protocol
  {
    hide Itoa;
    var parts := Fields(c);
    var two := parts[..4][..3][..2];
    assert two == [c.name, parts[1]] && two[..1] == [c.name];
    assert Join(two) == c.name + ":" + parts[1];
    assert Join(parts[..4][..3]) == Join(two) + ":" + parts[2];
    assert Join(parts[..4]) == Join(parts[..4][..3]) + ":" + parts[3];
    assert Print(c) == Join(parts[..4]) + ":" + c.protocol;
  }

  /** No white space around a well-formed line, so trimming leaves it alone. */
  lemma PrintedIsTrimmed(c: Credentials)
    requires WellFormed(c)
    ensures Trim(Print(c)) == Print(c)
  {
    hide Print;
    PrintedLine(c);
    var line := Print(c);
    NameStartsTheLine(c.name, line);
    assert line[|line| - 1] == c.protocol[|c.protocol| - 1];
    assert SpaceAtEnd(line) == 0;
  }

  lemma NameStartsTheLine(name: string, line: string)
    requires name != "" && name + ":" <= line
    ensures SpaceAtStart(line) == 0 <==> SpaceAtStart(name) == 0
  {
    hide SpaceAtStart;
    var k, j := SpaceAtStart(line), SpaceAtStart(name);
    SpaceAtStartMeaning(line, k);
    SpaceAtStartMeaning(name, j);
    if j > 0 {
      assert name[..j] == line[..j];
      SpaceAtStartMeaning(line, j);
    }
    if k > 0 {
      SpaceBytes(line[..k]);
      assert line[|name|] == ':';
      assert forall i :: 0 <= i < k ==> line[..k][i] == line[i];
      assert name[..k] == line[..k];
      SpaceAtStartMeaning(name, k);
    }
  }

  lemma PrintedFields(c: Credentials)
    requires WellFormed(c)
    ensures Split(Trim(Print(c))) == Fields(c) && FromFields(Fields(c)) == Ok(c)
  {
    hide Itoa, Atoi, Trim, Join;
    PrintedIsTrimmed(c);
    NoColonInNumbers(c.pid);
    NoColonInNumbers(c.port);
    SplitOfJoin(Fields(c));
    AtoiOfItoa(c.pid);
    AtoiOfItoa(c.port);
  }

  /** Whatever is parsed is well formed. */
  lemma ParsedIsWellFormed(data: string)
    requires Parse(data).Ok?
    ensures WellFormed(Parse(data).credentials)
  {
    hide IsSpace, SpaceAtStart, SpaceAtEnd, TrimLeft, TrimRight, Join, Split;
    ParseMeaning(data);
    var body := TrimLeft(data);
    var line := TrimRight(body);
    var parts := Split(line);
    var name := parts[0];
    JoinOfSplit(line);
    FirstField(parts);
    TrimLeftMeaning(data);
    NameStartsTheLine(name, body);
  }

  lemma {:induction false} FirstField(parts: seq<string>)
    requires |parts| > 1
    ensures parts[0] + ":" <= Join(parts)
  {
    var init := parts[..|parts| - 1];
    if |parts| > 2 {
      FirstField(init);
    }
  }

  /** Printing then parsing returns exactly the well-formed credentials. */
  lemma RoundTrip(c: Credentials)
    ensures Parse(Print(c)) == Ok(c) <==> WellFormed(c)
  {
    hide Print, Trim, Split, WellFormed, FromFields;
    if WellFormed(c) {
      PrintedFields(c);
      ParseMeaning(Print(c));
    } else if Parse(Print(c)) == Ok(c) {
      ParsedIsWellFormed(Print(c));
    }
  }

  /** Of a printed line only the whole reads as its credentials; one byte
      short of https it reads as plain http, and any other cut is retried. */
  lemma TruncationOfPrinted(c: Credentials, n: nat)
    requires WellFormed(c) && n <= |Print(c)|
    ensures Parse(Print(c)[..n]) ==
            if n == |Print(c)| then Ok(c)
            else if n == |Print(c)| - 1 && c.protocol == "https" then Ok(c.(protocol := "http"))
            else Partial
  {
    hide Print, Trim, Split, FromFields, Parse, WellFormed;
    var line := Print(c);
    RoundTrip(c);
    if n == |line| {
      assert line[..n] == line;
    } else if n == |line| - 1 && c.protocol == "https" {
      ShorterScheme(c);
      RoundTrip(c.(protocol := "http"));
    } else {
      TruncationIsRetriedOrPlaintext(line, n);
      if Parse(line[..n]).Ok? {
        AcceptedCut(c, n);
      }
    }
  }

  lemma ShorterScheme(c: Credentials)
    requires WellFormed(c) && c.protocol == "https"
    ensures |Print(c)| > 0 && Print(c.(protocol := "http")) == Print(c)[..|Print(c)| - 1]
    ensures WellFormed(c.(protocol := "http"))
  {
    hide Itoa, SpaceAtStart;
    var d := c.(protocol := "http");
    assert Fields(d)[..4] == Fields(c)[..4];
    assert "https" == "http" + "s";
  }

  lemma AcceptedCut(c: Credentials, n: nat)
    requires WellFormed(c) && n <= |Print(c)| && Parse(Print(c)[..n]).Ok?
    ensures n == |Print(c)| || (n == |Print(c)| - 1 && c.protocol == "https")
  {
    hide Trim, Split, FromFields, Parse, WellFormed, Itoa;
    var line := Print(c);
    TruncatedFields(line, n);
    PrintedFields(c);
    ParseMeaning(line[..n]);
    var cut, whole := Split(Trim(line[..n])), Fields(c);
    CutCredentials(cut, whole);
    LastFieldOfCut(cut, whole);
    assert cut[..4] == whole[..4];
    JoinOfSplit(Trim(line[..n]));
    TrimShrinks(line[..n]);
  }

  lemma TrimShrinks(s: string)
    ensures |Trim(s)| <= |s|
  {
  }

  lemma LastFieldOfCut(cut: seq<string>, whole: seq<string>)
    requires |cut| == LOCKFILE_FIELDS == |whole| && Truncated(cut, whole)
    requires FromFields(whole).Ok? && FromFields(cut).Ok?
    ensures forall i :: 0 <= i < 4 ==> cut[i] == whole[i]
    ensures cut[4] == whole[4] || (cut[4] == "http" && whole[4] == "https")
  {
    hide Atoi;
  }
}
