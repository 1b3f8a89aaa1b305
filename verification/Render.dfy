/** Rendering whole value trees (Render, renderMap and renderValue in internal/dispatch/template.go). */
module Render {
  import opened Json
  import opened Options
  import opened Template

  /** Strings are rendered wherever maps and lists lead; everything else passes through. */
  function Rendered(v: Value, ctx: Context, pr: Printer): Value {
    match v
    case Str(s) => Str(RenderedString(s, ctx, pr))
    case Map(o) => Map(Obj(map k | k in o.m :: Rendered(o.m[k], ctx, pr)))
    case List(items) => List(seq(|items|, i requires 0 <= i < |items| => Rendered(items[i], ctx, pr)))
    case MapList(objs) =>
      List(seq(|objs|, i requires 0 <= i < |objs| =>
        Map(Obj(map k | k in objs[i].m :: Rendered(objs[i].m[k], ctx, pr)))))
    case _ => v
  }

  function RenderedMap(o: Obj, ctx: Context, pr: Printer): Obj { Obj(map k | k in o.m :: Rendered(o.m[k], ctx, pr)) }

  /** Every placeholder path a rendering meets. */
  function Paths(v: Value): set<string> {
    match v
    case Str(s) => PathsIn(s)
    case Map(o) => KeyPaths(o, o.m.Keys)
    case List(items) => ListPaths(items, |items|)
    case MapList(objs) => ObjPaths(objs, |objs|)
    case _ => {}
  }

  function KeyPaths(o: Obj, keys: set<string>): set<string>
    requires keys <= o.m.Keys
    decreases o
  {
    set k, p | k in keys && p in Paths(o.m[k]) :: p
  }

  function ListPaths(items: seq<Value>, n: nat): set<string>
    requires n <= |items|
    decreases items
  {
    set i, p | 0 <= i < n && p in Paths(items[i]) :: p
  }

  function ObjPaths(objs: seq<Obj>, n: nat): set<string>
    requires n <= |objs|
    decreases objs
  {
    set i, p | 0 <= i < n && p in KeyPaths(objs[i], objs[i].m.Keys) :: p
  }

  lemma KeyPathsStep(o: Obj, keys: set<string>, k: string, ctx: Context)
    requires keys <= o.m.Keys && k in o.m
    ensures Unresolved(KeyPaths(o, keys + {k}), ctx) ==
            Unresolved(KeyPaths(o, keys), ctx) + Unresolved(Paths(o.m[k]), ctx)
  {
  }

  lemma ListPathsStep(items: seq<Value>, n: nat, ctx: Context)
    requires n < |items|
    ensures Unresolved(ListPaths(items, n + 1), ctx) ==
            Unresolved(ListPaths(items, n), ctx) + Unresolved(Paths(items[n]), ctx)
  {
  }

  lemma ObjPathsStep(objs: seq<Obj>, n: nat, ctx: Context)
    requires n < |objs|
    ensures Unresolved(ObjPaths(objs, n + 1), ctx) ==
            Unresolved(ObjPaths(objs, n), ctx) + Unresolved(KeyPaths(objs[n], objs[n].m.Keys), ctx)
  {
  }

  // ----- The methods -----

  method RenderMap(o: Obj, ctx: Context, pr: Printer, missing: set<string>) returns (out: Obj, missing': set<string>)
    ensures out == RenderedMap(o, ctx, pr)
    ensures missing' == missing + Unresolved(KeyPaths(o, o.m.Keys), ctx)
    decreases o
  {
    hide Rendered, Paths, Resolve;
    var m: map<string, Value> := map[];
    missing' := missing;
    var todo := o.m.Keys;
    assert KeyPaths(o, {}) == {};
    while todo != {}
      invariant todo <= o.m.Keys && m.Keys == o.m.Keys - todo
      invariant forall k :: k in m ==> m[k] == Rendered(o.m[k], ctx, pr)
      invariant missing' == missing + Unresolved(KeyPaths(o, o.m.Keys - todo), ctx)
    {
      var k :| k in todo;
      KeyPathsStep(o, o.m.Keys - todo, k, ctx);
      assert o.m.Keys - (todo - {k}) == (o.m.Keys - todo) + {k};
      var v;
      v, missing' := RenderValue(o.m[k], ctx, pr, missing');
      m, todo := m[k := v], todo - {k};
    }
    assert o.m.Keys - todo == o.m.Keys;
    out := Obj(m);
  }

  method RenderList(items: seq<Value>, ctx: Context, pr: Printer, missing: set<string>) returns (list: seq<Value>,
                    missing': set<string>)
    ensures |list| == |items| && forall j :: 0 <= j < |items| ==> list[j] == Rendered(items[j], ctx, pr)
    ensures missing' == missing + Unresolved(ListPaths(items, |items|), ctx)
    decreases items
  {
    hide Rendered, Paths, Resolve;
    list, missing' := [], missing;
    assert ListPaths(items, 0) == {};
    for i := 0 to |items|
      invariant |list| == i && forall j :: 0 <= j < i ==> list[j] == Rendered(items[j], ctx, pr)
      invariant missing' == missing + Unresolved(ListPaths(items, i), ctx)
    {
      ListPathsStep(items, i, ctx);
      var r; r, missing' := RenderValue(items[i], ctx, pr, missing');
      list := list + [r];
    }
  }

  method RenderMapList(objs: seq<Obj>, ctx: Context, pr: Printer, missing: set<string>) returns (list: seq<Value>,
                       missing': set<string>)
    ensures |list| == |objs| && forall j :: 0 <= j < |objs| ==> list[j] == Map(RenderedMap(objs[j], ctx, pr))
    ensures missing' == missing + Unresolved(ObjPaths(objs, |objs|), ctx)
    decreases objs
  {
    hide RenderedMap, KeyPaths, Resolve;
    list, missing' := [], missing;
    assert ObjPaths(objs, 0) == {};
    for i := 0 to |objs|
      invariant |list| == i && forall j :: 0 <= j < i ==> list[j] == Map(RenderedMap(objs[j], ctx, pr))
      invariant missing' == missing + Unresolved(ObjPaths(objs, i), ctx)
    {
      ObjPathsStep(objs, i, ctx);
      var r; r, missing' := RenderMap(objs[i], ctx, pr, missing');
      list := list + [Map(r)];
    }
  }

  method RenderValue(v: Value, ctx: Context, pr: Printer, missing: set<string>) returns (out: Value,
                     missing': set<string>)
    ensures out == Rendered(v, ctx, pr)
    ensures missing' == missing + Unresolved(Paths(v), ctx)
    decreases v
  {
    match v {
      case Str(s) =>
        var r; r, missing' := RenderString(s, ctx, pr, missing);
        out := Str(r);
      case Map(o) =>
        var r; r, missing' := RenderMap(o, ctx, pr, missing);
        out := Map(r);
      case List(items) =>
        var list; list, missing' := RenderList(items, ctx, pr, missing);
        assert list == Rendered(v, ctx, pr).items;
        out := List(list);
      case MapList(objs) =>
        var list; list, missing' := RenderMapList(objs, ctx, pr, missing);
        assert list == Rendered(v, ctx, pr).items;
        out := List(list);
      case _ => out, missing' := v, missing;
    }
  }

  // ----- Which strings are reached -----

  /** One step down a tree: to a key of a map or a place in a list. */
  datatype Down = Key(k: string) | Item(i: nat)

  /** What the steps lead to, through maps and lists of both kinds. */
  function Reach(v: Value, steps: seq<Down>): Option<Value>
    decreases |steps|
  {
    if steps == [] then Some(v) else
    var d, rest := steps[0], steps[1..];
    if v.Map? && d.Key? && d.k in v.o.m then Reach(v.o.m[d.k], rest)
    else if v.List? && d.Item? && d.i < |v.items| then Reach(v.items[d.i], rest)
    else if v.MapList? && d.Item? && d.i < |v.objs| then Reach(Map(v.objs[d.i]), rest)
    else None
  }

  /** Rendering can be looked at one place at a time: every string reached is rendered, and what is neither reached nor
      a string is not. */
  lemma {:induction false} RenderedAt(v: Value, ctx: Context, pr: Printer, steps: seq<Down>)
    ensures Reach(Rendered(v, ctx, pr), steps) ==
            match Reach(v, steps) { case None => None case Some(w) => Some(Rendered(w, ctx, pr)) }
    decreases |steps|
  {
    if steps != [] {
      var d, rest := steps[0], steps[1..];
      hide RenderedString;
      if v.Map? && d.Key? && d.k in v.o.m { RenderedAt(v.o.m[d.k], ctx, pr, rest); }
      else if v.List? && d.Item? && d.i < |v.items| { RenderedAt(v.items[d.i], ctx, pr, rest); }
      else if v.MapList? && d.Item? && d.i < |v.objs| { RenderedAt(Map(v.objs[d.i]), ctx, pr, rest); }
    }
  }

  lemma StringRendered(v: Value, ctx: Context, pr: Printer, steps: seq<Down>, s: string)
    requires Reach(v, steps) == Some(Str(s))
    ensures Reach(Rendered(v, ctx, pr), steps) == Some(Str(RenderedString(s, ctx, pr)))
  {
    RenderedAt(v, ctx, pr, steps);
  }

  /** Some string that is reached has a placeholder with this path. */
  ghost predicate Met(v: Value, p: string) { exists steps, s :: Reach(v, steps) == Some(Str(s)) && p in PathsIn(s) }

  lemma {:induction false} PathReached(v: Value, steps: seq<Down>, s: string, p: string)
    requires Reach(v, steps) == Some(Str(s)) && p in PathsIn(s)
    ensures p in Paths(v)
    decreases |steps|
  {
    if steps != [] {
      var d, rest := steps[0], steps[1..];
      hide PathsIn;
      if v.Map? && d.Key? && d.k in v.o.m { PathReached(v.o.m[d.k], rest, s, p); }
      else if v.List? && d.Item? && d.i < |v.items| { PathReached(v.items[d.i], rest, s, p); }
      else { PathReached(Map(v.objs[d.i]), rest, s, p); }
    }
  }

  lemma {:induction false} PathFound(v: Value, p: string) returns (steps: seq<Down>, s: string)
    requires p in Paths(v)
    ensures Reach(v, steps) == Some(Str(s)) && p in PathsIn(s)
    decreases v
  {
    hide PathsIn;
    match v
    case Str(text) => steps, s := [], text;
    case Map(o) =>
      var k :| k in o.m && p in Paths(o.m[k]);
      steps, s := PathFound(o.m[k], p);
      steps := [Key(k)] + steps;
    case List(items) =>
      var i: nat :| i < |items| && p in Paths(items[i]);
      steps, s := PathFound(items[i], p);
      steps := [Item(i)] + steps;
    case MapList(objs) =>
      var i: nat :| i < |objs| && p in KeyPaths(objs[i], objs[i].m.Keys);
      var k :| k in objs[i].m && p in Paths(objs[i].m[k]);
      steps, s := PathFound(objs[i].m[k], p);
      assert ([Key(k)] + steps)[1..] == steps;
      steps := [Item(i)] + ([Key(k)] + steps);
  }

  /** The paths a rendering meets are those of the placeholders in the strings it reaches. */
  lemma PathsAreReached(v: Value, p: string)
    ensures p in Paths(v) <==> Met(v, p)
  {
    hide Paths, Reach, PathsIn;
    if p in Paths(v) { var steps, s := PathFound(v, p); }
    if steps, s :| Reach(v, steps) == Some(Str(s)) && p in PathsIn(s) { PathReached(v, steps, s, p); }
  }

  // ----- The whole tree -----

  /** The rendered tree, and the paths that could not be resolved, each reported once, in some order. */
  method Render(parsed: Obj, ctx: Context, pr: Printer) returns (out: Obj, missingPaths: seq<string>)
    ensures Map(out) == Rendered(Map(parsed), ctx, pr)
    ensures forall steps, s :: Reach(Map(parsed), steps) == Some(Str(s)) ==>
              Reach(Map(out), steps) == Some(Str(RenderedString(s, ctx, pr)))
    ensures forall p :: p in missingPaths <==> Met(Map(parsed), p) && Resolve(ctx, p).None?
    ensures forall i, j :: 0 <= i < j < |missingPaths| ==> missingPaths[i] != missingPaths[j]
  {
    var missing;
    out, missing := RenderMap(parsed, ctx, pr, {});
    missingPaths := [];
    var todo := missing;
    while todo != {}
      invariant todo <= missing && forall p :: p in missingPaths <==> p in missing && p !in todo
      invariant forall i, j :: 0 <= i < j < |missingPaths| ==> missingPaths[i] != missingPaths[j]
    {
      var p :| p in todo;
      missingPaths, todo := missingPaths + [p], todo - {p};
    }
    assert forall p :: p in missingPaths <==> p in Paths(Map(parsed)) && Resolve(ctx, p).None?;
    hide Rendered, Paths, Reach, Resolve, PathsIn, RenderedString, Met;
    forall steps, s | Reach(Map(parsed), steps) == Some(Str(s))
      ensures Reach(Map(out), steps) == Some(Str(RenderedString(s, ctx, pr)))
    {
      StringRendered(Map(parsed), ctx, pr, steps, s);
    }
    forall p ensures p in Paths(Map(parsed)) <==> Met(Map(parsed), p) { PathsAreReached(Map(parsed), p); }
  }

  // ----- What rendering keeps -----

  /** Same maps with the same keys, same lists with the same lengths, and everything but strings unchanged. */
  ghost predicate SameShape(v: Value, v': Value) {
    match v
    case Str(_) => v'.Str?
    case Map(o) => v'.Map? && v'.o.m.Keys == o.m.Keys && forall k :: k in o.m ==> SameShape(o.m[k], v'.o.m[k])
    case List(items) => v'.List? && |v'.items| == |items| && forall i :: 0 <= i < |items| ==>
      SameShape(items[i], v'.items[i])
    case MapList(objs) =>
      v'.List? && |v'.items| == |objs| && forall i :: 0 <= i < |objs| ==>
        v'.items[i].Map? && v'.items[i].o.m.Keys == objs[i].m.Keys && forall k :: k in objs[i].m ==>
          SameShape(objs[i].m[k], v'.items[i].o.m[k])
    case _ => v' == v
  }

  lemma {:induction false} RenderKeepsShape(v: Value, ctx: Context, pr: Printer)
    ensures SameShape(v, Rendered(v, ctx, pr))
  {
    match v
    case Map(o) =>
      forall k | k in o.m ensures SameShape(o.m[k], Rendered(o.m[k], ctx, pr)) {
        RenderKeepsShape(o.m[k], ctx, pr);
      }
    case List(items) =>
      forall i | 0 <= i < |items|
        ensures SameShape(items[i], Rendered(items[i], ctx, pr))
      {
        RenderKeepsShape(items[i], ctx, pr);
      }
    case MapList(objs) =>
      forall i, k | 0 <= i < |objs| && k in objs[i].m ensures SameShape(objs[i].m[k], Rendered(objs[i].m[k], ctx, pr)) {
        RenderKeepsShape(objs[i].m[k], ctx, pr);
      }
    case _ =>
  }

  ghost predicate NoPlaceholder(s: string) { forall i: nat, h :: !Starts(s, i, h) }

  /** No string that rendering reaches has a placeholder anywhere in it. */
  ghost predicate Plain(v: Value) {
    match v
    case Str(s) => NoPlaceholder(s)
    case Map(o) => forall k :: k in o.m ==> Plain(o.m[k])
    case List(items) => forall i :: 0 <= i < |items| ==> Plain(items[i])
    case MapList(objs) => forall i, k :: 0 <= i < |objs| && k in objs[i].m ==> Plain(objs[i].m[k])
    case _ => true
  }

  /** The tree has no list in the typed form, which rendering rewrites to a plain list. */
  ghost predicate Untyped(v: Value) {
    match v
    case Map(o) => forall k :: k in o.m ==> Untyped(o.m[k])
    case List(items) => forall i :: 0 <= i < |items| ==> Untyped(items[i])
    case MapList(_) => false
    case _ => true
  }

  lemma {:induction false} PlainTextUnchanged(s: string, ctx: Context, pr: Printer)
    requires NoPlaceholder(s)
    ensures RenderedString(s, ctx, pr) == s && PathsIn(s) == {}
    decreases |s|
  {
    if s == "" {
      EmptyText(s, ctx, pr);
    } else {
      if MatchAt(s, 0).Some? { MatchIsSound(s, 0); }
      TailHasNone(s);
      ScanChar(s, 0, ctx, pr);
      hide RenderedString, PathsIn, MatchAt, NoPlaceholder;
      assert s[0..] == s && [s[0]] + s[1..] == s;
      PlainTextUnchanged(s[1..], ctx, pr);
    }
  }

  lemma TailHasNone(s: string)
    requires NoPlaceholder(s) && s != ""
    ensures NoPlaceholder(s[1..])
  {
    forall i: nat, h ensures !Starts(s[1..], i, h) {
      assert !Starts(s, i + 1, h);
      if i + 1 <= |s| { assert s[1..][i..] == s[i + 1..]; }
    }
  }

  /** A placeholder-free tree has no path to miss, and rendering returns it unchanged exactly when it has no list in the
      typed form. */
  lemma {:induction false} RenderPlainIsIdentity(v: Value, ctx: Context, pr: Printer)
    requires Plain(v)
    ensures Paths(v) == {} && (Rendered(v, ctx, pr) == v <==> Untyped(v))
  {
    match v
    case Str(s) => PlainTextUnchanged(s, ctx, pr);
    case Map(o) =>
      forall k | k in o.m ensures Paths(o.m[k]) == {} && (Rendered(o.m[k], ctx, pr) == o.m[k] <==> Untyped(o.m[k])) {
        RenderPlainIsIdentity(o.m[k], ctx, pr);
      }
      PlainMap(o, ctx, pr);
    case List(items) =>
      forall i | 0 <= i < |items|
        ensures Paths(items[i]) == {} && (Rendered(items[i], ctx, pr) == items[i] <==> Untyped(items[i]))
      {
        RenderPlainIsIdentity(items[i], ctx, pr);
      }
      PlainList(items, ctx, pr);
    case MapList(objs) =>
      forall i, k | 0 <= i < |objs| && k in objs[i].m ensures Paths(objs[i].m[k]) == {} {
        RenderPlainIsIdentity(objs[i].m[k], ctx, pr);
      }
      PlainObjs(objs);
    case _ =>
  }

  lemma PlainObjs(objs: seq<Obj>)
    requires forall i, k :: 0 <= i < |objs| && k in objs[i].m ==> Paths(objs[i].m[k]) == {}
    ensures Paths(MapList(objs)) == {}
  {
    forall i | 0 <= i < |objs| ensures KeyPaths(objs[i], objs[i].m.Keys) == {} { }
  }

  lemma PlainMap(o: Obj, ctx: Context, pr: Printer)
    requires forall k :: k in o.m ==> Paths(o.m[k]) == {} && (Rendered(o.m[k], ctx, pr) == o.m[k] <==> Untyped(o.m[k]))
    ensures Paths(Map(o)) == {} && (Rendered(Map(o), ctx, pr) == Map(o) <==> Untyped(Map(o)))
  {
  }

  lemma PlainList(items: seq<Value>, ctx: Context, pr: Printer)
    requires forall i :: 0 <= i < |items| ==>
               Paths(items[i]) == {} && (Rendered(items[i], ctx, pr) == items[i] <==> Untyped(items[i]))
    ensures Paths(List(items)) == {} && (Rendered(List(items), ctx, pr) == List(items) <==> Untyped(List(items)))
  {
  }
}
