/** Template rendering (internal/dispatch/template.go). */
module Template {
  import opened Json
  import opened Options
  import Money
  import Filter

  // ----- The placeholder grammar -----

  predicate IsLower(c: char) { 'a' <= c <= 'z' }

  predicate IsPathChar(c: char) { IsLower(c) || c == '_' || c == '.' }

  /** Dot-separated non-empty segments of lower-case letters and underscores, the first starting with a letter. */
  predicate IsPath(p: string) {
    && p != "" && IsLower(p[0]) && p[|p| - 1] != '.'
    && (forall i :: 0 <= i < |p| ==> IsPathChar(p[i]))
    && (forall i :: 0 < i < |p| && p[i - 1] == '.' ==> p[i] != '.')
  }

  /** A hint is absent ("") or made of lower-case letters. */
  predicate IsHint(h: string) { forall i :: 0 <= i < |h| ==> IsLower(h[i]) }

  datatype Hole = Hole(path: string, hint: string) {
    predicate Valid() { IsPath(path) && IsHint(hint) }

    /** How the placeholder is written. */
    function Text(): string { "{{" + path + (if hint == "" then "" else ":" + hint) + "}}" }
  }

  /** A placeholder is written at position `i` of `s`. */
  predicate Starts(s: string, i: nat, h: Hole) { h.Valid() && i <= |s| && h.Text() <= s[i..] }

  // ----- Matching -----

  /** How many characters from `i` on satisfy `f`. */
  function Span(s: string, i: nat, f: char -> bool): (n: nat)
    requires i <= |s|
    ensures i + n <= |s| && (forall j :: i <= j < i + n ==> f(s[j])) && (i + n < |s| ==> !f(s[i + n]))
    decreases |s| - i
  {
    if i < |s| && f(s[i]) then 1 + Span(s, i + 1, f) else 0
  }

  predicate At(s: string, i: nat, c: char) { i < |s| && s[i] == c }

  /** The placeholder at position `i`, found in one pass: the longest run of path characters, then perhaps a hint. */
  function MatchAt(s: string, i: nat): Option<Hole>
  {
    if !(At(s, i, '{') && At(s, i + 1, '{')) then None else
    var n := Span(s, i + 2, IsPathChar);
    var path, j := s[i + 2..i + 2 + n], i + 2 + n;
    if !IsPath(path) then None
    else if At(s, j, '}') && At(s, j + 1, '}') then Some(Hole(path, ""))
    else if At(s, j, ':') then
      var k := Span(s, j + 1, IsLower);
      if k > 0 && At(s, j + 1 + k, '}') && At(s, j + 2 + k, '}') then Some(Hole(path, s[j + 1..j + 1 + k])) else None
    else None
  }

  lemma MatchIsSound(s: string, i: nat)
    requires MatchAt(s, i).Some?
    ensures Starts(s, i, MatchAt(s, i).value)
  {
  }

  /** Where the path of a placeholder lies, and what follows it. */
  lemma PathAt(s: string, i: nat, h: Hole)
    requires Starts(s, i, h)
    ensures var n := |h.path|;
            && At(s, i, '{') && At(s, i + 1, '{') && i + 2 + n < |s| && s[i + 2..i + 2 + n] == h.path
            && At(s, i + 2 + n, if h.hint == "" then '}' else ':') && (h.hint == "" ==> At(s, i + 3 + n, '}'))
  {
  }

  /** Where its hint lies. */
  lemma HintAt(s: string, i: nat, h: Hole)
    requires Starts(s, i, h) && h.hint != ""
    ensures var a, k := i + 3 + |h.path|, |h.hint|;
            a + k < |s| && s[a..a + k] == h.hint && At(s, a + k, '}') && At(s, a + k + 1, '}')
  {
  }

  /** A part made of `f` characters and followed by another one is the whole run. */
  lemma PartSpans(s: string, i: nat, part: string, f: char -> bool)
    requires i + |part| < |s| && s[i..i + |part|] == part && (forall j :: 0 <= j < |part| ==> f(part[j]))
             && !f(s[i + |part|])
    ensures Span(s, i, f) == |part|
  {
  }

  lemma MatchPlain(s: string, i: nat, path: string)
    requires At(s, i, '{') && At(s, i + 1, '{') && Span(s, i + 2, IsPathChar) == |path|
             && s[i + 2..i + 2 + |path|] == path && IsPath(path)
    requires At(s, i + 2 + |path|, '}') && At(s, i + 3 + |path|, '}')
    ensures MatchAt(s, i) == Some(Hole(path, ""))
  {
  }

  lemma MatchHinted(s: string, i: nat, path: string, hint: string)
    requires At(s, i, '{') && At(s, i + 1, '{') && Span(s, i + 2, IsPathChar) == |path|
             && s[i + 2..i + 2 + |path|] == path && IsPath(path)
    requires var a := i + 3 + |path|;
             At(s, a - 1, ':') && a + |hint| <= |s| && Span(s, a, IsLower) == |hint| && s[a..a + |hint|] == hint
               && hint != ""
             && At(s, a + |hint|, '}') && At(s, a + |hint| + 1, '}')
    ensures MatchAt(s, i) == Some(Hole(path, hint))
  {
    hide IsPathChar, Span, IsPath;
  }

  lemma ClassesDiffer(h: Hole)
    requires h.Valid()
    ensures IsPath(h.path) && (forall j :: 0 <= j < |h.path| ==> IsPathChar(h.path[j]))
            && (forall j :: 0 <= j < |h.hint| ==> IsLower(h.hint[j]))
    ensures !IsPathChar('}') && !IsPathChar(':') && !IsLower('}')
  {
  }

  lemma PlainIsFound(s: string, i: nat, h: Hole)
    requires Starts(s, i, h) && h.hint == ""
    ensures MatchAt(s, i) == Some(h)
  {
    PathAt(s, i, h);
    ClassesDiffer(h);
    hide *;
    PartSpans(s, i + 2, h.path, IsPathChar);
    MatchPlain(s, i, h.path);
  }

  lemma HintedIsFound(s: string, i: nat, h: Hole)
    requires Starts(s, i, h) && h.hint != ""
    ensures MatchAt(s, i) == Some(h)
  {
    hide IsLower, IsPathChar, Span, IsPath, IsHint;
    PathAt(s, i, h);
    HintAt(s, i, h);
    ClassesDiffer(h);
    hide *;
    PartSpans(s, i + 2, h.path, IsPathChar);
    PartSpans(s, i + 3 + |h.path|, h.hint, IsLower);
    MatchHinted(s, i, h.path, h.hint);
  }

  /** The grammar is unambiguous and the match finds what is there. */
  lemma MatchIsComplete(s: string, i: nat, h: Hole)
    requires Starts(s, i, h)
    ensures MatchAt(s, i) == Some(h)
  {
    hide *;
    if h.hint == "" { PlainIsFound(s, i, h); } else { HintedIsFound(s, i, h); }
  }

  // ----- Splitting a text into placeholders and other characters -----

  datatype Token = Char(c: char) | Fill(h: Hole) {
    function Text(): string { if Char? then [c] else h.Text() }
  }

  function Unparse(tokens: seq<Token>): string {
    if tokens == [] then "" else tokens[0].Text() + Unparse(tokens[1..])
  }

  /** Every placeholder is taken where it is first met: no placeholder starts at a character left alone. */
  predicate Leftmost(tokens: seq<Token>)
    decreases |tokens|
  {
    tokens != [] ==>
      && (tokens[0].Char? ==> MatchAt(Unparse(tokens), 0).None?)
      && (tokens[0].Fill? ==> tokens[0].h.Valid())
      && Leftmost(tokens[1..])
  }

  /** The left-to-right scan. */
  function Tokens(s: string): seq<Token>
    decreases |s|
  {
    if s == "" then []
    else
      var h := MatchAt(s, 0);
      if h.None? then [Char(s[0])] + Tokens(s[1..])
      else
        assert |h.value.Text()| <= |s| by { MatchIsSound(s, 0); }
        [Fill(h.value)] + Tokens(s[|h.value.Text()|..])
  }

  lemma UnparseCons(t: Token, tokens: seq<Token>)
    ensures Unparse([t] + tokens) == t.Text() + Unparse(tokens)
  {
  }

  /** The scan splits the text without loss, takes placeholders leftmost, and no other split does. */
  lemma {:induction false} TokensAreLeftmost(s: string)
    ensures Unparse(Tokens(s)) == s && Leftmost(Tokens(s))
    decreases |s|
  {
    if s != "" {
      var h := MatchAt(s, 0);
      if h.None? {
        TokensAreLeftmost(s[1..]);
        UnparseCons(Char(s[0]), Tokens(s[1..]));
        assert [s[0]] + s[1..] == s;
        assert Tokens(s)[1..] == Tokens(s[1..]);
      } else {
        MatchIsSound(s, 0);
        var n := |h.value.Text()|;
        TokensAreLeftmost(s[n..]);
        UnparseCons(Fill(h.value), Tokens(s[n..]));
        assert s[0..] == s && h.value.Text() + s[n..] == s;
        assert Tokens(s)[1..] == Tokens(s[n..]);
      }
    }
  }

  lemma {:induction false} LeftmostIsUnique(tokens: seq<Token>)
    requires Leftmost(tokens)
    ensures Tokens(Unparse(tokens)) == tokens
    decreases |tokens|
  {
    if tokens != [] {
      var t, rest := tokens[0], Unparse(tokens[1..]);
      LeftmostIsUnique(tokens[1..]);
      assert Unparse(tokens) == t.Text() + rest;
      FrontToken(t, rest);
      hide MatchAt, Tokens, Unparse, Token.Text;
      assert tokens == [t] + tokens[1..];
    }
  }

  lemma FrontToken(t: Token, rest: string)
    requires if t.Char? then MatchAt(t.Text() + rest, 0).None? else t.h.Valid()
    ensures Tokens(t.Text() + rest) == [t] + Tokens(rest)
  {
    var s := t.Text() + rest;
    assert s[|t.Text()|..] == rest;
    if t.Fill? {
      assert s[0..] == s && t.h.Text() <= s;
      MatchIsComplete(s, 0, t.h);
    }
    hide MatchAt, Hole.Valid, Starts, Hole.Text;
  }

  // ----- Resolving and formatting -----

  datatype Context = Context(trait_: Obj, window: Obj, realtor: Obj, outcome: Obj) {
    function Section(name: string): Option<Obj> {
      match name
      case "trait" => Some(trait_)
      case "window" => Some(window)
      case "realtor" => Some(realtor)
      case "outcome" => Some(outcome)
      case _ => None
    }
  }

  /** What formatting takes from the Go libraries. */
  datatype Printer = Printer(show: Value -> string, percent: real -> string, overflow: int -> Money.Int64)

  function Walk(v: Value, segments: seq<string>): Option<Value>
    decreases |segments|
  {
    if segments == [] then Some(v)
    else if v.Map? && segments[0] in v.o.m then Walk(v.o.m[segments[0]], segments[1..])
    else None
  }

  /** The value at a dotted path; a missing section, segment or a null means there is none. */
  function Resolve(ctx: Context, path: string): Option<Value> {
    var parts := Filter.SplitN(path, 2);
    if |parts| < 2 || ctx.Section(parts[0]).None? then None else
    var v := Walk(Map(ctx.Section(parts[0]).value), Filter.SplitN(parts[1], |parts[1]| + 1));
    if v == Some(Null) then None else v
  }

  function FormatValue(pr: Printer, v: Value, hint: string): string {
    var f := if v.Num? then v.n else 0.0;
    if hint == "pct" then pr.percent(f * 100.0)
    else if hint == "money" then Money.FormatInt(Money.ToInt64(Money.Round(f), pr.overflow))
    else pr.show(v)
  }

  // ----- Strings -----

  function FillText(h: Hole, ctx: Context, pr: Printer): string {
    var v := Resolve(ctx, h.path);
    if v.None? then "n/a" else FormatValue(pr, v.value, h.hint)
  }

  function RenderTokens(tokens: seq<Token>, ctx: Context, pr: Printer): string {
    if tokens == [] then ""
    else (if tokens[0].Char? then [tokens[0].c]
      else FillText(tokens[0].h, ctx, pr)) + RenderTokens(tokens[1..], ctx, pr)
  }

  function RenderedString(s: string, ctx: Context, pr: Printer): string { RenderTokens(Tokens(s), ctx, pr) }

  /** The paths of a text's placeholders. */
  function PathsIn(s: string): set<string> { set i | 0 <= i < |Tokens(s)| && Tokens(s)[i].Fill? :: Tokens(s)[i].h.path }

  function Unresolved(paths: set<string>, ctx: Context): set<string> { set p | p in paths && Resolve(ctx, p).None? }

  lemma StartsShift(s: string, i: nat)
    requires i <= |s|
    ensures MatchAt(s, i) == MatchAt(s[i..], 0)
  {
    assert s[i..][0..] == s[i..];
    if MatchAt(s, i).Some? {
      MatchIsSound(s, i);
      MatchIsComplete(s[i..], 0, MatchAt(s, i).value);
    } else if MatchAt(s[i..], 0).Some? {
      MatchIsSound(s[i..], 0);
      MatchIsComplete(s, i, MatchAt(s[i..], 0).value);
    }
  }

  /** One step of the scan, past a character left alone. */
  lemma ScanChar(s: string, i: nat, ctx: Context, pr: Printer)
    requires i < |s| && MatchAt(s, i).None?
    ensures RenderedString(s[i..], ctx, pr) == [s[i]] + RenderedString(s[i + 1..], ctx, pr)
    ensures PathsIn(s[i..]) == PathsIn(s[i + 1..])
  {
    StartsShift(s, i);
    var here, tail := s[i..], s[i + 1..];
    assert here[1..] == tail && here[0] == s[i];
    CharThen(here, ctx, pr);
  }

  lemma CharThen(here: string, ctx: Context, pr: Printer)
    requires here != "" && MatchAt(here, 0).None?
    ensures RenderedString(here, ctx, pr) == [here[0]] + RenderedString(here[1..], ctx, pr)
    ensures PathsIn(here) == PathsIn(here[1..])
  {
  }

  /** One step of the scan, past a placeholder. */
  lemma ScanHole(s: string, i: nat, h: Hole, ctx: Context, pr: Printer)
    requires i < |s| && MatchAt(s, i) == Some(h)
    ensures i + |h.Text()| <= |s| && RenderedString(s[i..], ctx, pr) ==
            FillText(h, ctx, pr) + RenderedString(s[i + |h.Text()|..], ctx, pr)
    ensures PathsIn(s[i..]) == {h.path} + PathsIn(s[i + |h.Text()|..])
  {
    StartsShift(s, i);
    MatchIsSound(s, i);
    var here, tail, n := s[i..], s[i + |h.Text()|..], |h.Text()|;
    assert here[n..] == tail;
    hide RenderedString, PathsIn, MatchAt, FillText, Hole.Text;
    HoleThen(here, h, ctx, pr);
  }

  lemma HoleThen(here: string, h: Hole, ctx: Context, pr: Printer)
    requires here != "" && MatchAt(here, 0) == Some(h) && |h.Text()| <= |here|
    ensures RenderedString(here, ctx, pr) == FillText(h, ctx, pr) + RenderedString(here[|h.Text()|..], ctx, pr)
    ensures PathsIn(here) == {h.path} + PathsIn(here[|h.Text()|..])
  {
  }

  /** One left-to-right pass; text put in is not looked at again. */
  method RenderString(s: string, ctx: Context, pr: Printer, missing: set<string>) returns (out: string,
                      missing': set<string>)
    ensures out == RenderedString(s, ctx, pr)
    ensures missing' == missing + Unresolved(PathsIn(s), ctx)
  {
    hide RenderedString, PathsIn, MatchAt, FillText, Resolve;
    out, missing' := "", missing;
    var i := 0;
    assert s[0..] == s;
    while i < |s|
      invariant i <= |s|
      invariant out + RenderedString(s[i..], ctx, pr) == RenderedString(s, ctx, pr)
      invariant missing' + Unresolved(PathsIn(s[i..]), ctx) == missing + Unresolved(PathsIn(s), ctx)
    {
      var h := MatchAt(s, i);
      if h.None? {
        ScanChar(s, i, ctx, pr);
        out, i := out + [s[i]], i + 1;
      } else {
        ScanHole(s, i, h.value, ctx, pr);
        if Resolve(ctx, h.value.path).None? { missing' := missing' + {h.value.path}; }
        out, i := out + FillText(h.value, ctx, pr), i + |h.value.Text()|;
      }
    }
    EmptyText(s[i..], ctx, pr);
  }

  lemma EmptyText(s: string, ctx: Context, pr: Printer)
    requires s == ""
    ensures RenderedString(s, ctx, pr) == "" && PathsIn(s) == {}
  {
  }
}
