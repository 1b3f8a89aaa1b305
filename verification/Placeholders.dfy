/** What is put in for a placeholder: where its path leads and how the value is written (resolvePath and formatValue in
    internal/dispatch/template.go). */
module Placeholders {
  import opened Json
  import opened Options
  import opened Filter
  import opened Template
  import Money

  /** Following the segments, one map key each, through nested maps from `from` ends at `v`. */
  ghost predicate Leads(from: Value, segments: seq<string>, v: Value) {
    exists vs: seq<Value> :: Chain(vs, segments) && vs[0] == from && vs[|segments|] == v
  }

  predicate Chain(vs: seq<Value>, segments: seq<string>) {
    && |vs| == |segments| + 1
    && forall i :: 0 <= i < |segments| ==>
         vs[i].Map? && segments[i] in vs[i].o.m && vs[i + 1] == vs[i].o.m[segments[i]]
  }

  /** The four names a path can begin with, and the data each stands for. */
  predicate IsSection(ctx: Context, name: string, o: Obj) {
    || (name == "trait" && o == ctx.trait_)
    || (name == "window" && o == ctx.window)
    || (name == "realtor" && o == ctx.realtor)
    || (name == "outcome" && o == ctx.outcome)
  }

  predicate DotFree(segments: seq<string>) { forall i :: 0 <= i < |segments| ==> '.' !in segments[i] }

  // ----- Splitting a path -----

  lemma JoinLength(segments: seq<string>)
    ensures |segments| <= |Join(segments)| + 1
  {
  }

  lemma SplitWhole(s: string, n: nat)
    requires n > 0 && '.' !in s
    ensures SplitN(s, n) == [s]
  {
    assert IndexOf(s, '.') == |s|;
  }

  lemma SplitStep(a: string, x: string, n: nat)
    requires n > 1 && '.' !in a
    ensures SplitN(a + "." + x, n) == [a] + SplitN(x, n - 1)
  {
    var s := a + "." + x;
    var i := IndexOf(s, '.');
    assert s[|a|] == '.' && i < |s|;
    assert s == s[..i] + "." + s[i + 1..];
    FirstDot(s[..i], s[i + 1..], a, x);
  }

  lemma JoinCons(head: string, tail: seq<string>)
    ensures Join([head] + tail) == if tail == [] then head else head + "." + Join(tail)
  {
    assert ([head] + tail)[1..] == tail;
  }

  lemma {:induction false} SplitJoined(segments: seq<string>, n: nat)
    requires segments != [] && DotFree(segments) && n >= |segments|
    ensures SplitN(Join(segments), n) == segments
    decreases |segments|
  {
    hide SplitN, Join;
    var head, tail := segments[0], segments[1..];
    assert segments == [head] + tail;
    JoinCons(head, tail);
    if tail == [] {
      SplitWhole(head, n);
    } else {
      SplitJoined(tail, n - 1);
      SplitStep(head, Join(tail), n);
    }
  }

  lemma {:induction false} MoreRoom(s: string, n: nat)
    requires n > |s|
    ensures SplitN(s, n) == SplitN(s, |s| + 1)
    decreases |s|
  {
    hide SplitN;
    var i := IndexOf(s, '.');
    if i == |s| {
      SplitWhole(s, n);
      SplitWhole(s, |s| + 1);
    } else {
      var a, x := s[..i], s[i + 1..];
      assert s == a + "." + x;
      SplitStep(a, x, n);
      SplitStep(a, x, |s| + 1);
      MoreRoom(x, n - 1);
      MoreRoom(x, |s|);
    }
  }

  /** With room for every part, no part has a dot in it. */
  lemma {:induction false} ManyParts(s: string)
    ensures DotFree(SplitN(s, |s| + 1))
    decreases |s|
  {
    hide SplitN;
    var i := IndexOf(s, '.');
    if i == |s| {
      SplitWhole(s, |s| + 1);
    } else {
      var a, x := s[..i], s[i + 1..];
      assert s == a + "." + x;
      SplitStep(a, x, |s| + 1);
      MoreRoom(x, |s|);
      ManyParts(x);
    }
  }

  lemma SplitPath(name: string, segments: seq<string>)
    requires '.' !in name && segments != [] && DotFree(segments)
    ensures var rest := Join(segments);
            SplitN(name + "." + rest, 2) == [name, rest] && SplitN(rest, |rest| + 1) == segments
  {
    var rest := Join(segments);
    assert SplitN(rest, 1) == [rest] by { assert rest[..|rest|] == rest; }
    hide SplitN, Join;
    SplitStep(name, rest, 2);
    JoinLength(segments);
    SplitJoined(segments, |rest| + 1);
  }

  // ----- Following a path -----

  lemma ChainMore(from: Value, vs: seq<Value>, segments: seq<string>)
    requires segments != [] && Chain(vs, segments[1..]) && from.Map? && segments[0] in from.o.m
             && vs[0] == from.o.m[segments[0]]
    ensures Chain([from] + vs, segments)
  {
  }

  lemma ChainLess(vs: seq<Value>, segments: seq<string>)
    requires segments != [] && Chain(vs, segments)
    ensures Chain(vs[1..], segments[1..])
  {
  }

  /** Leading somewhere by one segment more. */
  lemma LeadsStep(from: Value, segments: seq<string>, v: Value)
    requires segments != []
    ensures Leads(from, segments, v) <==>
              from.Map? && segments[0] in from.o.m && Leads(from.o.m[segments[0]], segments[1..], v)
  {
    if Leads(from, segments, v) {
      var vs: seq<Value> :| Chain(vs, segments) && vs[0] == from && vs[|segments|] == v;
      ChainLess(vs, segments);
      assert vs[1..][|segments| - 1] == v;
    }
    if from.Map? && segments[0] in from.o.m && Leads(from.o.m[segments[0]], segments[1..], v) {
      var vs: seq<Value> :| Chain(vs, segments[1..]) && vs[0] == from.o.m[segments[0]] && vs[|segments| - 1] == v;
      ChainMore(from, vs, segments);
      assert ([from] + vs)[|segments|] == v;
    }
  }

  lemma LeadsNowhere(from: Value, v: Value)
    ensures Leads(from, [], v) <==> from == v
  {
    if from == v { assert Chain([from], []); }
  }

  lemma {:induction false} WalkLeads(from: Value, segments: seq<string>, v: Value)
    ensures Walk(from, segments) == Some(v) <==> Leads(from, segments, v)
    decreases |segments|
  {
    hide Leads;
    if segments == [] {
      LeadsNowhere(from, v);
    } else {
      LeadsStep(from, segments, v);
      if from.Map? && segments[0] in from.o.m { WalkLeads(from.o.m[segments[0]], segments[1..], v); }
    }
  }

  lemma SectionOf(ctx: Context, name: string, o: Obj)
    requires IsSection(ctx, name, o)
    ensures ctx.Section(name) == Some(o) && '.' !in name
  {
  }

  lemma SectionIs(ctx: Context, name: string)
    requires ctx.Section(name).Some?
    ensures IsSection(ctx, name, ctx.Section(name).value)
  {
  }

  /** A path through one of the sections resolves to `v` exactly if following its segments through that section's nested
      maps ends at `v`, and `v` is not null. */
  lemma ResolvesIff(ctx: Context, name: string, o: Obj, segments: seq<string>, v: Value)
    requires IsSection(ctx, name, o) && segments != [] && DotFree(segments)
    ensures Resolve(ctx, name + "." + Join(segments)) == Some(v) <==> v != Null && Leads(Map(o), segments, v)
  {
    SectionOf(ctx, name, o);
    hide SplitN, Join, Walk, Leads, IsSection, Context.Section;
    SplitPath(name, segments);
    WalkLeads(Map(o), segments, v);
  }

  /** Only such paths resolve. */
  lemma ResolvedHasForm(ctx: Context, path: string) returns (name: string, o: Obj, segments: seq<string>)
    requires Resolve(ctx, path).Some?
    ensures IsSection(ctx, name, o) && segments != [] && DotFree(segments) && path == name + "." + Join(segments)
  {
    var parts := SplitN(path, 2);
    assert path == parts[0] + "." + parts[1] by { assert parts[1..] == [parts[1]]; }
    hide Walk, IsSection, Context.Section;
    name, o := parts[0], ctx.Section(parts[0]).value;
    SectionIs(ctx, name);
    segments := SplitN(parts[1], |parts[1]| + 1);
    ManyParts(parts[1]);
  }

  /** Contexts that agree on one section agree on every path through it. */
  lemma SectionDecides(ctx: Context, ctx': Context, name: string, o: Obj, segments: seq<string>)
    requires IsSection(ctx, name, o) && IsSection(ctx', name, o) && segments != [] && DotFree(segments)
    ensures Resolve(ctx, name + "." + Join(segments)) == Resolve(ctx', name + "." + Join(segments))
  {
    var path := name + "." + Join(segments);
    hide Resolve, Join, Leads;
    if Resolve(ctx, path).Some? {
      ResolvesIff(ctx, name, o, segments, Resolve(ctx, path).value);
      ResolvesIff(ctx', name, o, segments, Resolve(ctx, path).value);
    } else if Resolve(ctx', path).Some? {
      ResolvesIff(ctx, name, o, segments, Resolve(ctx', path).value);
      ResolvesIff(ctx', name, o, segments, Resolve(ctx', path).value);
    }
  }

  // ----- What is put in -----

  lemma HoleAlone(h: Hole, ctx: Context, pr: Printer)
    requires h.Valid()
    ensures RenderedString(h.Text(), ctx, pr) == FillText(h, ctx, pr) && PathsIn(h.Text()) == {h.path}
  {
    FrontToken(Fill(h), "");
    assert h.Text() + "" == h.Text() && Tokens("") == [];
    assert RenderTokens([Fill(h)], ctx, pr) == FillText(h, ctx, pr) + RenderTokens([Fill(h)][1..], ctx, pr);
    hide MatchAt, FillText, Resolve, Hole.Valid, Hole.Text;
    assert Tokens(h.Text()) == [Fill(h)];
    assert PathsIn(h.Text()) == {h.path} by { assert Tokens(h.Text())[0] == Fill(h); }
  }

  /** What is written for a placeholder whose path leads through a section to `v`: the value itself without a known
      hint, the amount in dollars for "money", and the percentage of a hundred times the number for "pct", anything but
      a number counting as 0. Nothing is reported missing. */
  lemma PlaceholderBecomes(ctx: Context, pr: Printer, name: string, o: Obj, segments: seq<string>, hint: string,
                           v: Value)
    requires IsSection(ctx, name, o) && segments != [] && DotFree(segments) && Leads(Map(o), segments, v) && v != Null
    requires Hole(name + "." + Join(segments), hint).Valid()
    ensures var text, number := Hole(name + "." + Join(segments), hint).Text(), if v.Num? then v.n else 0.0;
            && (hint != "pct" && hint != "money" ==> RenderedString(text, ctx, pr) == pr.show(v))
            && (hint == "pct" ==> RenderedString(text, ctx, pr) == pr.percent(100.0 * number))
            && (hint == "money" ==>
                  RenderedString(text, ctx, pr) == Money.FormatInt(Money.ToInt64(Money.Round(number), pr.overflow)))
            && Unresolved(PathsIn(text), ctx) == {}
  {
    var h := Hole(name + "." + Join(segments), hint);
    ResolvesIff(ctx, name, o, segments, v);
    HoleAlone(h, ctx, pr);
    hide RenderedString, PathsIn, Resolve, Leads, Join, IsSection, Hole.Valid, Hole.Text, Money.FormatInt, Money.Round;
  }

  /** A placeholder whose path leads nowhere, or to null, becomes "n/a" and its path is reported. */
  lemma MissingBecomes(ctx: Context, pr: Printer, name: string, o: Obj, segments: seq<string>, hint: string)
    requires IsSection(ctx, name, o) && segments != [] && DotFree(segments)
    requires forall v :: Leads(Map(o), segments, v) ==> v == Null
    requires Hole(name + "." + Join(segments), hint).Valid()
    ensures var h := Hole(name + "." + Join(segments), hint);
            RenderedString(h.Text(), ctx, pr) == "n/a" && Unresolved(PathsIn(h.Text()), ctx) == {h.path}
  {
    var h := Hole(name + "." + Join(segments), hint);
    if Resolve(ctx, h.path).Some? { ResolvesIff(ctx, name, o, segments, Resolve(ctx, h.path).value); }
    HoleAlone(h, ctx, pr);
    hide RenderedString, PathsIn, Resolve, Leads, Join, IsSection, Hole.Valid, Hole.Text;
  }
}
