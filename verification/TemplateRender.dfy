/** The substitution half of the template engine: a template is cut into
    literal characters and tokens in one pass, known tokens are replaced by
    their values, and the outcome is cleaned up once. */
module TemplateRender {
  import opened Option
  import opened TemplateCleanup

  type Data = map<string, string>

  /** A context's vocabulary and its built-in two lines. */
  datatype Context = Context(known: set<string>, details: string, state: string)

  datatype Piece = Lit(c: char) | Tok(name: string)

  // ----------------------------------------------------------------- parsing

  predicate IsLetter(c: char) { 'a' <= c <= 'z' || 'A' <= c <= 'Z' }

  predicate IsNameChar(c: char) { IsLetter(c) || '0' <= c <= '9' || c == '_' }

  predicate ValidName(n: string) {
    n != [] && IsLetter(n[0]) && forall k :: 0 <= k < |n| ==> IsNameChar(n[k])
  }

  function NameLen(s: string): (n: nat)
    ensures n <= |s|
    ensures forall k :: 0 <= k < n ==> IsNameChar(s[k])
    ensures n < |s| ==> !IsNameChar(s[n])
  {
    if s != [] && IsNameChar(s[0]) then 1 + NameLen(s[1..]) else 0
  }

  /** Length of the token s starts with, 0 when it starts with none. */
  function TokenAt(s: string): (n: nat)
    ensures n <= |s|
    ensures n > 0 ==> n >= 3 && s[0] == '{' && s[n - 1] == '}' && ValidName(s[1..n - 1])
  {
    if s != [] && s[0] == '{' then
      var n := NameLen(s[1..]);
      if n > 0 && IsLetter(s[1]) && 1 + n < |s| && s[1 + n] == '}' then n + 2 else 0
    else 0
  }

  function Parse(s: string): (ps: seq<Piece>) {
    if s == [] then []
    else
      var n := TokenAt(s);
      if n > 0 then [Tok(s[1..n - 1])] + Parse(s[n..]) else [Lit(s[0])] + Parse(s[1..])
  }

  /** How a token is written. */
  function Token(n: string): string { "{" + n + "}" }

  function PrintPiece(p: Piece): string {
    match p
    case Lit(c) => [c]
    case Tok(n) => "{" + n + "}"
  }

  function Print(ps: seq<Piece>): string {
    if ps == [] then [] else PrintPiece(ps[0]) + Print(ps[1..])
  }

  /** A decomposition the expression engine could have produced: every token
      is well formed and no literal starts a token it overlooked. */
  predicate Canonical(ps: seq<Piece>) {
    ps == []
    || (&& Canonical(ps[1..])
        && match ps[0]
           case Lit(_) => TokenAt(Print(ps)) == 0
           case Tok(n) => ValidName(n))
  }

  /** The token language, independent of the scanner that finds it. */
  lemma {:induction false} TokenAtMeaning(name: string, rest: string)
    requires ValidName(name)
    ensures TokenAt("{" + name + "}" + rest) == |name| + 2
  {
    var s := "{" + name + "}" + rest;
    var n := NameLen(s[1..]);
    assert forall k :: 0 <= k < |name| ==> s[1..][k] == name[k];
    assert s[1..][|name|] == '}' && !IsNameChar('}');
    assert n == |name|;
  }

  lemma PrintCons(p: Piece, ps: seq<Piece>)
    ensures Print([p] + ps) == PrintPiece(p) + Print(ps)
  {
    assert ([p] + ps)[1..] == ps;
  }

  lemma TokenText(s: string)
    requires TokenAt(s) > 0
    ensures PrintPiece(Tok(s[1..TokenAt(s) - 1])) == s[..TokenAt(s)]
  {
    hide NameLen;
  }

  /** Printing the parts gives the template back. */
  lemma {:induction false} ParsePrints(s: string)
    ensures Print(Parse(s)) == s
    decreases |s|
  {
    hide TokenAt, PrintPiece, Print;
    if s == [] {
      assert Print([]) == [] by { PrintOfNothing(); }
    } else {
      var n := TokenAt(s);
      if n > 0 {
        ParsePrints(s[n..]);
        PrintCons(Tok(s[1..n - 1]), Parse(s[n..]));
        TokenText(s);
        assert s == s[..n] + s[n..];
      } else {
        ParsePrints(s[1..]);
        PrintCons(Lit(s[0]), Parse(s[1..]));
        PrintOfLiteral(s[0]);
        assert s == [s[0]] + s[1..];
      }
    }
  }

  lemma PrintOfNothing()
    ensures Print([]) == []
  {
  }

  lemma PrintOfLiteral(c: char)
    ensures PrintPiece(Lit(c)) == [c]
  {
  }

  /** The decomposition the scanner finds is canonical. */
  lemma {:induction false} ParseIsCanonical(s: string)
    ensures Canonical(Parse(s))
    decreases |s|
  {
    hide TokenAt, Print, ValidName;
    if s != [] {
      ParsePrints(s);
      var n := TokenAt(s);
      ParseIsCanonical(if n > 0 then s[n..] else s[1..]);
      assert Parse(s)[1..] == Parse(if n > 0 then s[n..] else s[1..]);
    }
  }

  /** No other canonical decomposition prints to the same template. */
  lemma {:induction false} DecompositionIsUnique(ps: seq<Piece>)
    requires Canonical(ps)
    ensures Parse(Print(ps)) == ps
  {
    hide TokenAt, Print, ValidName;
    if ps == [] {
      PrintOfNothing();
    } else {
      var rest := Print(ps[1..]);
      DecompositionIsUnique(ps[1..]);
      assert ps == [ps[0]] + ps[1..];
      PrintCons(ps[0], ps[1..]);
      match ps[0]
      case Lit(c) =>
        assert Print(ps)[1..] == rest;
      case Tok(n) =>
        TokenAtMeaning(n, rest);
        assert Print(ps)[1..|n| + 1] == n && Print(ps)[|n| + 2..] == rest;
    }
  }

  // ------------------------------------------------------------ substitution

  /** A missing value and an empty one are the same thing. */
  function Lookup(d: Data, n: string): string {
    if n in d then d[n] else []
  }

  function Expand(known: set<string>, d: Data, p: Piece): string {
    match p
    case Lit(c) => [c]
    case Tok(n) =>
      if n !in known then "{" + n + "}"
      else if Lookup(d, n) != [] then Lookup(d, n)
      else [MARK]
  }

  function ExpandAll(known: set<string>, d: Data, ps: seq<Piece>): string {
    if ps == [] then [] else Expand(known, d, ps[0]) + ExpandAll(known, d, ps[1..])
  }

  /** The names of ps that are not in known, repeats and all. */
  function Strangers(known: set<string>, ps: seq<Piece>): seq<string> {
    if ps == [] then []
    else (if ps[0].Tok? && ps[0].name !in known then [ps[0].name] else []) + Strangers(known, ps[1..])
  }

  /** Keeps the first occurrence of each name. */
  function Dedup(ns: seq<string>): (r: seq<string>)
    ensures forall n :: n in r <==> n in ns
  {
    if ns == [] then []
    else
      var r := Dedup(ns[..|ns| - 1]);
      if ns[|ns| - 1] in r then r else r + [ns[|ns| - 1]]
  }

  function Rendered(ctx: Context, tmpl: string, d: Data): string {
    Cleanup(ExpandAll(ctx.known, d, Parse(tmpl)))
  }

  function Unknown(ctx: Context, tmpl: string): seq<string> {
    Dedup(Strangers(ctx.known, Parse(tmpl)))
  }

  function Chosen(override: string, default: string): string {
    if override != "" then override else default
  }

  function RenderedPair(ctx: Context, details: string, state: string, d: Data): (string, string) {
    (Rendered(ctx, Chosen(details, ctx.details), d), Rendered(ctx, Chosen(state, ctx.state), d))
  }

  lemma {:induction false} ExpandConcat(known: set<string>, d: Data, a: seq<Piece>, b: seq<Piece>)
    ensures ExpandAll(known, d, a + b) == ExpandAll(known, d, a) + ExpandAll(known, d, b)
  {
    if a == [] {
      assert a + b == b;
    } else {
      assert (a + b)[1..] == a[1..] + b;
      ExpandConcat(known, d, a[1..], b);
    }
  }

  lemma {:induction false} StrangersConcat(known: set<string>, a: seq<Piece>, b: seq<Piece>)
    ensures Strangers(known, a + b) == Strangers(known, a) + Strangers(known, b)
  {
    if a == [] {
      assert a + b == b;
    } else {
      assert (a + b)[1..] == a[1..] + b;
      StrangersConcat(known, a[1..], b);
    }
  }

  /** One more piece: what the source's callback appends for it. */
  lemma OneMorePiece(known: set<string>, d: Data, a: seq<Piece>, p: Piece)
    ensures ExpandAll(known, d, a + [p]) == ExpandAll(known, d, a) + Expand(known, d, p)
    ensures Strangers(known, a + [p])
         == if p.Tok? && p.name !in known then Strangers(known, a) + [p.name] else Strangers(known, a)
  {
    ExpandConcat(known, d, a, [p]);
    StrangersConcat(known, a, [p]);
  }

  /** A known token's value lands in the line untouched, whatever braces it
      holds: the text on both sides is what it would be without it. */
  lemma ValueIsNotRescanned(known: set<string>, d: Data, a: seq<Piece>, n: string, b: seq<Piece>)
    requires n in known && Lookup(d, n) != []
    ensures ExpandAll(known, d, a + [Tok(n)] + b) == ExpandAll(known, d, a) + d[n] + ExpandAll(known, d, b)
  {
    hide ExpandAll;
    ExpandConcat(known, d, a + [Tok(n)], b);
    OneMorePiece(known, d, a, Tok(n));
  }

  /** An unknown token stays as it was typed; a known one without a value
      leaves a mark for the clean-up. */
  lemma TokenWithoutValue(known: set<string>, d: Data, a: seq<Piece>, n: string, b: seq<Piece>)
    requires n in known ==> n !in d || d[n] == ""
    ensures ExpandAll(known, d, a + [Tok(n)] + b)
         == ExpandAll(known, d, a) + (if n in known then [MARK] else "{" + n + "}") + ExpandAll(known, d, b)
  {
    hide ExpandAll;
    ExpandConcat(known, d, a + [Tok(n)], b);
    OneMorePiece(known, d, a, Tok(n));
  }

  lemma {:induction false} NothingKnown(known: set<string>, d: Data, ps: seq<Piece>)
    requires forall i :: 0 <= i < |ps| ==> ps[i].Lit? || ps[i].name !in known
    ensures ExpandAll(known, d, ps) == Print(ps)
  {
    if ps != [] {
      hide ExpandAll, Print;
      var p, rest := ps[0], ps[1..];
      assert ps == [p] + rest;
      NothingKnown(known, d, rest);
      ExpandFirst(known, d, p, rest);
      PrintCons(p, rest);
    } else {
      PrintOfNothing();
    }
  }

  /** A template without known tokens is only cleaned up. */
  lemma StrangersStayLiteral(ctx: Context, tmpl: string, d: Data)
    requires forall n :: n in ctx.known ==> Tok(n) !in Parse(tmpl)
    ensures Rendered(ctx, tmpl, d) == Cleanup(tmpl)
  {
    hide Parse, Print, Cleanup, ExpandAll;
    var ps := Parse(tmpl);
    forall i | 0 <= i < |ps|
      ensures ps[i].Lit? || ps[i].name !in ctx.known
    {
      assert ps[i].Tok? ==> ps[i] == Tok(ps[i].name);
    }
    NothingKnown(ctx.known, d, ps);
    ParsePrints(tmpl);
  }

  /** What the substitution makes of a template, before the clean-up. */
  function Substituted(known: set<string>, d: Data, tmpl: string): string {
    ExpandAll(known, d, Parse(tmpl))
  }

  lemma {:induction false} SubstituteLiteral(known: set<string>, d: Data, text: string, rest: string)
    requires '{' !in text
    ensures Substituted(known, d, text + rest) == text + Substituted(known, d, rest)
  {
    if text == "" {
      assert text + rest == rest;
    } else {
      var s := text + rest;
      assert s[1..] == text[1..] + rest;
      SubstituteLiteral(known, d, text[1..], rest);
      hide ExpandAll, Parse;
      FirstOfParse(s);
      ExpandFirst(known, d, Lit(text[0]), Parse(s[1..]));
      assert text == [text[0]] + text[1..];
    }
  }

  lemma FirstOfParse(s: string)
    requires s != ""
    ensures s[0] != '{' ==> Parse(s) == [Lit(s[0])] + Parse(s[1..])
  {
  }

  lemma ExpandFirst(known: set<string>, d: Data, p: Piece, ps: seq<Piece>)
    ensures ExpandAll(known, d, [p] + ps) == Expand(known, d, p) + ExpandAll(known, d, ps)
  {
    assert ([p] + ps)[1..] == ps;
  }

  lemma SubstituteToken(known: set<string>, d: Data, n: string, rest: string)
    requires ValidName(n)
    ensures Substituted(known, d, "{" + n + "}" + rest) == Expand(known, d, Tok(n)) + Substituted(known, d, rest)
  {
    hide ExpandAll, Expand, TokenAt, ValidName;
    var s := "{" + n + "}" + rest;
    TokenAtMeaning(n, rest);
    assert s[1..|n| + 1] == n && s[|n| + 2..] == rest;
    ExpandFirst(known, d, Tok(n), Parse(rest));
  }

  /** Substitution goes through a line piece by piece. */
  lemma SubstituteOne(known: set<string>, d: Data, lead: string, n: string)
    requires '{' !in lead && ValidName(n)
    ensures Substituted(known, d, lead + Token(n)) == lead + Expand(known, d, Tok(n))
  {
    hide Substituted, ValidName, Expand;
    NothingToSubstitute(known, d);
    SubstituteLiteral(known, d, lead, Token(n));
    SubstituteToken(known, d, n, "");
    assert "{" + n + "}" + "" == Token(n);
    assert Expand(known, d, Tok(n)) + "" == Expand(known, d, Tok(n));
  }

  lemma SubstituteTwo(known: set<string>, d: Data, lead: string, n: string, mid: string, m: string)
    requires '{' !in lead && '{' !in mid && ValidName(n) && ValidName(m)
    ensures Substituted(known, d, lead + Token(n) + mid + Token(m))
         == lead + Expand(known, d, Tok(n)) + mid + Expand(known, d, Tok(m))
  {
    hide Substituted, ValidName, Expand;
    var tail := mid + Token(m);
    SubstituteOne(known, d, mid, m);
    SubstituteLiteral(known, d, lead, Token(n) + tail);
    SubstituteToken(known, d, n, tail);
    assert lead + Token(n) + mid + Token(m) == lead + (Token(n) + tail);
    Regroup(lead, Expand(known, d, Tok(n)), mid, Expand(known, d, Tok(m)));
  }

  lemma SubstituteNone(known: set<string>, d: Data, text: string)
    requires '{' !in text
    ensures Substituted(known, d, text) == text
  {
    hide Substituted;
    NothingToSubstitute(known, d);
    SubstituteLiteral(known, d, text, "");
    assert text + "" == text;
  }

  lemma NothingToSubstitute(known: set<string>, d: Data)
    ensures Substituted(known, d, "") == ""
  {
  }

  /** A user's template is rendered wherever there is one, the built-in line
      only where there is none. */
  lemma OverrideWins(ctx: Context, override: string, other: string, d: Data)
    ensures RenderedPair(ctx, override, other, d).0
         == if override == "" then Rendered(ctx, ctx.details, d) else Rendered(ctx, override, d)
    ensures RenderedPair(ctx, other, override, d).1
         == if override == "" then Rendered(ctx, ctx.state, d) else Rendered(ctx, override, d)
  {
  }

  lemma {:induction false} ExpandPiecewise(known: set<string>, d: Data, e: Data, ps: seq<Piece>)
    requires forall p :: p in ps ==> Expand(known, d, p) == Expand(known, e, p)
    ensures ExpandAll(known, d, ps) == ExpandAll(known, e, ps)
  {
    hide Expand;
    if ps != [] {
      assert ps[0] in ps;
      assert forall p :: p in ps[1..] ==> p in ps;
      ExpandPiecewise(known, d, e, ps[1..]);
    }
  }

  /** Rendering reads the data at known tokens that occur, and nowhere else. */
  lemma RenderReadsOnly(ctx: Context, tmpl: string, d: Data, e: Data)
    requires forall n :: n in ctx.known && Tok(n) in Parse(tmpl) ==> Lookup(d, n) == Lookup(e, n)
    ensures Rendered(ctx, tmpl, d) == Rendered(ctx, tmpl, e)
  {
    var ps := Parse(tmpl);
    forall p | p in ps ensures Expand(ctx.known, d, p) == Expand(ctx.known, e, p) {
      assert p.Tok? ==> p == Tok(p.name);
    }
    ExpandPiecewise(ctx.known, d, e, ps);
  }

  /** Whatever the template and the data, the line comes out in normal form. */
  lemma RenderedIsNormal(ctx: Context, tmpl: string, d: Data)
    ensures NormalForm(Rendered(ctx, tmpl, d))
  {
    CleanupReachesNormalForm(ExpandAll(ctx.known, d, Parse(tmpl)));
  }

  lemma FirstLiteral(s: string)
    requires s != "" && s[0] != '{'
    ensures Lit(s[0]) in Parse(s)
  {
    assert TokenAt(s) == 0;
    assert Parse(s)[0] == Lit(s[0]);
  }

  lemma {:induction false} LiteralIsExpanded(known: set<string>, d: Data, ps: seq<Piece>, c: char)
    requires Lit(c) in ps
    ensures c in ExpandAll(known, d, ps)
  {
    if ps[0] == Lit(c) {
      assert Expand(known, d, ps[0]) == [c];
    } else {
      LiteralIsExpanded(known, d, ps[1..], c);
    }
  }

  lemma {:induction false} InkMeaning(s: string, c: char)
    ensures c in Ink(s) <==> c in s && IsInk(c)
  {
    if s != [] {
      InkMeaning(s[1..], c);
      assert s == [s[0]] + s[1..];
    }
  }

  /** A literal character the author typed is in the line whatever the tokens
      resolve to, so an anchored line never renders to nothing. */
  lemma AnchorStays(ctx: Context, tmpl: string, d: Data, c: char)
    requires IsInk(c) && Lit(c) in Parse(tmpl)
    ensures c in Rendered(ctx, tmpl, d)
  {
    hide Parse, ExpandAll, Cleanup, Ink;
    var out := ExpandAll(ctx.known, d, Parse(tmpl));
    LiteralIsExpanded(ctx.known, d, Parse(tmpl), c);
    InkMeaning(out, c);
    CleanupKeepsInk(out);
    InkMeaning(Cleanup(out), c);
  }

  /** A line that is one token reads as its value, cleaned up; an empty or
      missing one leaves nothing. */
  lemma OneTokenLine(ctx: Context, n: string, d: Data)
    requires ValidName(n) && n in ctx.known
    ensures Rendered(ctx, "{" + n + "}", d) == Cleanup(Lookup(d, n))
  {
    hide TokenAt, Print, Cleanup;
    var ps := [Tok(n)];
    assert ps == [Tok(n)] + [] && ps[1..] == [];
    PrintCons(Tok(n), []);
    PrintOfNothing();
    assert Print(ps) == "{" + n + "}";
    assert Canonical([]) && Canonical(ps);
    DecompositionIsUnique(ps);
    assert ExpandAll(ctx.known, d, []) == [];
    assert ExpandAll(ctx.known, d, ps) == Expand(ctx.known, d, Tok(n));
    CleanupOfMark();
  }

  lemma CleanupOfMark()
    ensures Cleanup([MARK]) == Cleanup([]) == []
  {
    var seam := [MARK];
    assert seam[0] == MARK && IsSeam(seam) && seam + [] == seam;
    CollapseSeam(seam, [], true);
    CollapseOfEmpty();
  }

  // ------------------------------------------------------------ the warnings

  /** Where n first occurs. */
  function FirstAt(ns: seq<string>, n: string): (i: nat)
    requires n in ns
    ensures i < |ns| && ns[i] == n && n !in ns[..i]
  {
    if ns[0] == n then 0
    else
      assert n in ns[1..];
      var i := FirstAt(ns[1..], n);
      assert ns[..i + 1] == [ns[0]] + ns[1..][..i];
      i + 1
  }

  /** Warnings come once each, in the order their tokens first appear. */
  lemma {:induction false} DedupKeepsFirstOrder(ns: seq<string>, i: nat, j: nat)
    requires i < j < |Dedup(ns)|
    ensures Dedup(ns)[i] in ns && Dedup(ns)[j] in ns
    ensures FirstAt(ns, Dedup(ns)[i]) < FirstAt(ns, Dedup(ns)[j])
  {
    var r := Dedup(ns);
    var front := ns[..|ns| - 1];
    var p := Dedup(front);
    FirstOfLonger(front, ns[|ns| - 1]);
    assert ns == front + [ns[|ns| - 1]];
    if j < |p| {
      DedupKeepsFirstOrder(front, i, j);
    } else {
      assert r == p + [ns[|ns| - 1]] && r[i] == p[i] && p[i] in front;
      assert r[j] !in front;
    }
  }

  lemma {:induction false} FirstAtIs(ns: seq<string>, n: string, i: nat)
    requires i < |ns| && ns[i] == n && n !in ns[..i]
    ensures FirstAt(ns, n) == i
  {
    if i > 0 {
      assert ns[0] in ns[..i];
      assert ns[1..][..i - 1] == ns[..i][1..];
      FirstAtIs(ns[1..], n, i - 1);
    }
  }

  lemma {:induction false} StrangersMeaning(known: set<string>, ps: seq<Piece>)
    ensures forall n :: n in Strangers(known, ps) <==> n !in known && Tok(n) in ps
  {
    if ps != [] {
      StrangersMeaning(known, ps[1..]);
      assert ps == [ps[0]] + ps[1..];
    }
  }

  /** The warnings are exactly the unknown token names of the template, each
      once and in order of first appearance. */
  lemma UnknownIsExact(ctx: Context, tmpl: string)
    ensures forall n :: n in Unknown(ctx, tmpl) <==> n !in ctx.known && Tok(n) in Parse(tmpl)
    ensures forall i, j :: 0 <= i < j < |Unknown(ctx, tmpl)| ==>
      var ns := Strangers(ctx.known, Parse(tmpl));
      FirstAt(ns, Unknown(ctx, tmpl)[i]) < FirstAt(ns, Unknown(ctx, tmpl)[j])
  {
    var ns := Strangers(ctx.known, Parse(tmpl));
    StrangersMeaning(ctx.known, Parse(tmpl));
    forall i, j | 0 <= i < j < |Dedup(ns)|
      ensures FirstAt(ns, Dedup(ns)[i]) < FirstAt(ns, Dedup(ns)[j])
    {
      DedupKeepsFirstOrder(ns, i, j);
    }
  }

  lemma FirstOfLonger(ns: seq<string>, last: string)
    ensures forall n :: n in ns ==> FirstAt(ns + [last], n) == FirstAt(ns, n)
  {
    forall n | n in ns ensures FirstAt(ns + [last], n) == FirstAt(ns, n) {
      var i := FirstAt(ns, n);
      assert (ns + [last])[..i] == ns[..i];
      FirstAtIs(ns + [last], n, i);
    }
  }

  lemma DedupOneMore(ns: seq<string>, n: string)
    ensures Dedup(ns + [n]) == if n in ns then Dedup(ns) else Dedup(ns) + [n]
  {
    assert (ns + [n])[..|ns|] == ns;
  }

  // ---------------------------------------------------------------- methods

  lemma EmptyLists(known: set<string>, d: Data)
    ensures ExpandAll(known, d, []) == [] && Strangers(known, []) == [] && Dedup([]) == []
  {
  }

  /** The source's render loop: one callback per token, gathering unknown
      names as it goes. */
  method Render(ctx: Context, tmpl: string, d: Data) returns (line: string, unknown: seq<string>)
    ensures line == Rendered(ctx, tmpl, d)
    ensures unknown == Unknown(ctx, tmpl)
  {
    hide Parse, ExpandAll, Strangers, Dedup, Trim, Fold, Collapse, Expand;
    var ps := Parse(tmpl);
    EmptyLists(ctx.known, d);
    var out: string := [];
    var seen: set<string> := {};
    unknown := [];
    for k := 0 to |ps|
      invariant out == ExpandAll(ctx.known, d, ps[..k])
      invariant unknown == Dedup(Strangers(ctx.known, ps[..k]))
      invariant forall n :: n in seen <==> n in unknown
    {
      assert ps[..k + 1] == ps[..k] + [ps[k]];
      OneMorePiece(ctx.known, d, ps[..k], ps[k]);
      if ps[k].Tok? && ps[k].name !in ctx.known {
        DedupOneMore(Strangers(ctx.known, ps[..k]), ps[k].name);
        if ps[k].name !in seen {
          seen := seen + {ps[k].name};
          unknown := unknown + [ps[k].name];
        }
      }
      out := out + Expand(ctx.known, d, ps[k]);
    }
    assert ps[..|ps|] == ps;
    var collapsed := CollapseSeams(out);
    line := Trim(Fold(collapsed));
  }

  /** Both lines of a presence, with the warnings of both deduplicated. */
  method RenderPair(ctx: Context, overrideDetails: string, overrideState: string, d: Data)
    returns (details: string, state: string, warnings: seq<string>)
    ensures (details, state) == RenderedPair(ctx, overrideDetails, overrideState, d)
    ensures overrideDetails != "" ==> details == Rendered(ctx, overrideDetails, d)
    ensures overrideDetails == "" ==> details == Rendered(ctx, ctx.details, d)
    ensures overrideState != "" ==> state == Rendered(ctx, overrideState, d)
    ensures overrideState == "" ==> state == Rendered(ctx, ctx.state, d)
    ensures warnings == Dedup(Unknown(ctx, if overrideDetails != "" then overrideDetails else ctx.details)
                              + Unknown(ctx, if overrideState != "" then overrideState else ctx.state))
  {
    hide Rendered, Unknown, Dedup;
    assert Dedup([]) == [] by { EmptyLists({}, map[]); }
    var dw, sw;
    details, dw := Render(ctx, Chosen(overrideDetails, ctx.details), d);
    state, sw := Render(ctx, Chosen(overrideState, ctx.state), d);
    var names := dw + sw;
    var seen: set<string> := {};
    warnings := [];
    for k := 0 to |names|
      invariant warnings == Dedup(names[..k])
      invariant forall n :: n in seen <==> n in warnings
    {
      assert names[..k + 1] == names[..k] + [names[k]];
      DedupOneMore(names[..k], names[k]);
      if names[k] !in seen {
        seen := seen + {names[k]};
        warnings := warnings + [names[k]];
      }
    }
    assert names[..|names|] == names;
  }
}
