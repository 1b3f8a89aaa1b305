/** Compiling condition specs to expressions and back (internal/rules/loader.go).

    Go ranges over a map in any order, so compiling a spec with several keys may give any of several trees. `Compiled`
    says which trees those are; errors are modelled as `None`. */
module Loader {
  import opened Json
  import opened Options
  import opened Snapshots
  import opened Predicates
  import opened Expr

  predicate IsLogical(key: string) { key == "all" || key == "any" || key == "not" }

  // ----- Shapes of arguments -----

  function SpecOf(v: Value): (r: Option<Obj>)
    ensures r.Some? ==> (v decreases to r.value)
  {
    match v
    case Map(o) => Some(o)
    case AnyMap(o, otherKeys) => if otherKeys then None else Some(o)
    case _ => None
  }

  /** The child specs of an "all" or "any" value, in either list shape. */
  function Specs(v: Value): (r: Option<seq<Obj>>)
    ensures r.Some? ==> forall i :: 0 <= i < |r.value| ==> (v decreases to r.value[i])
  {
    match v
    case MapList(objs) => Some(objs)
    case List(items) =>
      if forall i :: 0 <= i < |items| ==> SpecOf(items[i]).Some? then
        Some(seq(|items|, i requires 0 <= i < |items| => SpecOf(items[i]).value))
      else None
    case _ => None
  }

  function NormalizeArgs(v: Value): Option<Obj> {
    match v
    case Null => Some(EMPTY_OBJ)
    case Map(_) => SpecOf(v)
    case AnyMap(_, _) => SpecOf(v)
    case _ => Some(Obj(map["value" := v]))
  }

  /** A single named predicate. */
  function Leaf(env: Env, name: string, v: Value): Option<Expr> {
    var args := NormalizeArgs(v);
    if args.None? then None else
    var test := BuildTest(env, name, args.value);
    if test.None? then None else Some(Pred(name, args.value, test, UsesTimeName(name)))
  }

  /** Shorthand arguments: no value stands for no arguments, a map with other keys than strings is an error, and
      anything but a map stands for that value under "value". */
  lemma Shorthand(env: Env, name: string, v: Value)
    ensures v.Null? ==> Leaf(env, name, v) == Leaf(env, name, Map(EMPTY_OBJ))
    ensures v.AnyMap? ==> Leaf(env, name, v) == if v.otherKeys then None else Leaf(env, name, Map(v.strKeyed))
    ensures !v.Null? && !v.Map? && !v.AnyMap? ==> Leaf(env, name, v) == Leaf(env, name, Map(Obj(map["value" := v])))
  {
    hide BuildTest;
  }

  // ----- What a spec means -----

  predicate Only(spec: Obj, key: string) { key in spec.m && |spec.m| == 1 }

  /** A spec is well formed. */
  ghost predicate Compiles(env: Env, spec: Obj)
    decreases spec
  {
    if Only(spec, "all") then
      var items := Specs(spec.m["all"]);
      items.Some? && forall i :: 0 <= i < |items.value| ==> Compiles(env, items.value[i])
    else if Only(spec, "any") then
      var items := Specs(spec.m["any"]);
      items.Some? && forall i :: 0 <= i < |items.value| ==> Compiles(env, items.value[i])
    else if Only(spec, "not") then
      var inner := SpecOf(spec.m["not"]);
      inner.Some? && Compiles(env, inner.value)
    else forall k :: k in spec.m ==> !IsLogical(k) && Leaf(env, k, spec.m[k]).Some?
  }

  ghost predicate LeafHolds(env: Env, name: string, v: Value, s: Snapshot, now: int) {
    Leaf(env, name, v).Some? && RunTest(env, Leaf(env, name, v).value.fn.value, s, now)
  }

  /** What a spec says of a window, read directly off the spec: all children, some child, not the child, or every
      predicate it names. */
  ghost predicate Holds(env: Env, spec: Obj, s: Snapshot, now: int)
    decreases spec
  {
    if Only(spec, "all") then
      var items := Specs(spec.m["all"]);
      items.Some? && forall i :: 0 <= i < |items.value| ==> Holds(env, items.value[i], s, now)
    else if Only(spec, "any") then
      var items := Specs(spec.m["any"]);
      items.Some? && exists i :: 0 <= i < |items.value| && Holds(env, items.value[i], s, now)
    else if Only(spec, "not") then
      var inner := SpecOf(spec.m["not"]);
      inner.Some? && !Holds(env, inner.value, s, now)
    else forall k :: k in spec.m ==> LeafHolds(env, k, spec.m[k], s, now)
  }

  /** A spec mentions the clock. */
  ghost predicate MentionsTime(spec: Obj)
    decreases spec
  {
    if Only(spec, "all") then
      var items := Specs(spec.m["all"]);
      items.Some? && exists i :: 0 <= i < |items.value| && MentionsTime(items.value[i])
    else if Only(spec, "any") then
      var items := Specs(spec.m["any"]);
      items.Some? && exists i :: 0 <= i < |items.value| && MentionsTime(items.value[i])
    else if Only(spec, "not") then
      var inner := SpecOf(spec.m["not"]);
      inner.Some? && MentionsTime(inner.value)
    else IDLE_SECONDS in spec.m
  }

  // ----- Which trees a spec compiles to -----

  ghost predicate HasLeaf(leaves: seq<Expr>, k: string) {
    exists i :: 0 <= i < |leaves| && leaves[i].Pred? && leaves[i].name == k
  }

  /** `leaves` are the predicates of `m`, each once, in some order. */
  ghost predicate LeavesOf(env: Env, m: map<string, Value>, leaves: seq<Expr>) {
    && (forall i :: 0 <= i < |leaves| ==>
          leaves[i].Pred? && leaves[i].name in m && Leaf(env, leaves[i].name, m[leaves[i].name]) == Some(leaves[i]))
    && (forall i, j :: 0 <= i < j < |leaves| ==> leaves[i].Pred? && leaves[j].Pred? && leaves[i].name != leaves[j].name)
    && (forall k :: k in m ==> HasLeaf(leaves, k))
  }

  ghost predicate AllCompiled(env: Env, v: Value, es: seq<Expr>)
    decreases v, 0
  {
    var items := Specs(v);
    items.Some? && |es| == |items.value| && forall i :: 0 <= i < |es| ==> Compiled(env, items.value[i], es[i])
  }

  /** `e` is a tree that compiling `spec` may give. */
  ghost predicate Compiled(env: Env, spec: Obj, e: Expr)
    decreases spec, 1
  {
    if Only(spec, "all") then e.AllOf? && AllCompiled(env, spec.m["all"], e.children)
    else if Only(spec, "any") then e.AnyOf? && AllCompiled(env, spec.m["any"], e.children)
    else if Only(spec, "not") then
      var inner := SpecOf(spec.m["not"]);
      inner.Some? && e.Not? && e.child.Some? && Compiled(env, inner.value, e.child.value)
    else
      && (forall k :: k in spec.m ==> !IsLogical(k))
      && if |spec.m| == 1 then forall k :: k in spec.m ==> Leaf(env, k, spec.m[k]) == Some(e)
         else e.AllOf? && LeavesOf(env, spec.m, e.children)
  }

  // ----- The compiler -----

  method ToSpecSlice(v: Value) returns (r: Option<seq<Obj>>)
    ensures r == Specs(v)
  {
    match v {
      case MapList(objs) => r := Some(objs);
      case List(items) =>
        var out: seq<Obj> := [];
        for i := 0 to |items|
          invariant |out| == i && forall j :: 0 <= j < i ==> SpecOf(items[j]) == Some(out[j])
        {
          var m := SpecOf(items[i]);
          if m.None? { return None; }
          out := out + [m.value];
        }
        assert forall j :: 0 <= j < |items| ==> SpecOf(items[j]).Some?;
        assert out == Specs(v).value;
        r := Some(out);
      case _ => r := None;
    }
  }

  method BuildExpr(env: Env, spec: Obj) returns (r: Option<Expr>)
    ensures r.Some? <==> Compiles(env, spec)
    ensures r.Some? ==> Compiled(env, spec, r.value)
    decreases spec, 1
  {
    if |spec.m| == 0 { return Some(AllOf([])); }
    if |spec.m| == 1 {
      var k :| k in spec.m;
      assert spec.m.Keys == {k} by { OneKey(spec.m, k); }
      match k {
        case "all" =>
          var children := BuildList(env, spec.m[k]);
          r := if children.Some? then Some(AllOf(children.value)) else None;
        case "any" =>
          var children := BuildList(env, spec.m[k]);
          r := if children.Some? then Some(AnyOf(children.value)) else None;
        case "not" => r := BuildNot(env, spec.m[k]);
        case _ => r := Leaf(env, k, spec.m[k]);
      }
      return;
    }
    r := BuildConjunction(env, spec.m);
  }

  lemma OneKey(m: map<string, Value>, k: string)
    requires k in m && |m| == 1
    ensures m.Keys == {k}
  {
    assert |m.Keys - {k}| == 0;
  }

  /** The children of an "all" or "any". */
  method BuildList(env: Env, v: Value) returns (r: Option<seq<Expr>>)
    ensures r.Some? <==> Specs(v).Some? && forall i :: 0 <= i < |Specs(v).value| ==> Compiles(env, Specs(v).value[i])
    ensures r.Some? ==> AllCompiled(env, v, r.value)
    decreases v, 0
  {
    var items := ToSpecSlice(v);
    if items.None? { return None; }
    var out: seq<Expr> := [];
    for i := 0 to |items.value|
      invariant |out| == i && forall j :: 0 <= j < i ==>
                Compiles(env, items.value[j]) && Compiled(env, items.value[j], out[j])
    {
      var child := BuildExpr(env, items.value[i]);
      if child.None? { return None; }
      out := out + [child.value];
    }
    r := Some(out);
  }

  method BuildNot(env: Env, v: Value) returns (r: Option<Expr>)
    ensures r.Some? <==> SpecOf(v).Some? && Compiles(env, SpecOf(v).value)
    ensures r.Some? ==> r.value.Not? && r.value.child.Some? && Compiled(env, SpecOf(v).value, r.value.child.value)
    decreases v, 0
  {
    var inner := SpecOf(v);
    if inner.None? { return None; }
    var child := BuildExpr(env, inner.value);
    r := if child.Some? then Some(Not(Some(child.value))) else None;
  }

  /** Several keys: an implicit conjunction, in the order the map happens to be ranged over. */
  method BuildConjunction(env: Env, m: map<string, Value>) returns (r: Option<Expr>)
    ensures r.Some? <==> forall k :: k in m ==> !IsLogical(k) && Leaf(env, k, m[k]).Some?
    ensures r.Some? ==> r.value.AllOf? && LeavesOf(env, m, r.value.children)
  {
    hide LeavesOf, Leaf, IsLogical;
    var leaves: seq<Expr> := [];
    var todo := m.Keys;
    NoLeaves(env);
    assert (map k | k in m && k !in todo :: m[k]) == map[];
    while todo != {}
      invariant todo <= m.Keys
      invariant forall k :: k in m.Keys - todo ==> !IsLogical(k) && Leaf(env, k, m[k]).Some?
      invariant LeavesOf(env, map k | k in m && k !in todo :: m[k], leaves)
    {
      var k :| k in todo;
      if IsLogical(k) { return None; }
      var leaf := Leaf(env, k, m[k]);
      if leaf.None? { return None; }
      ghost var before := map x | x in m && x !in todo :: m[x];
      todo := todo - {k};
      AddLeaf(env, before, leaves, k, m[k], leaf.value);
      assert (map x | x in m && x !in todo :: m[x]) == before[k := m[k]];
      leaves := leaves + [leaf.value];
    }
    assert (map x | x in m && x !in todo :: m[x]) == m;
    r := Some(AllOf(leaves));
  }

  lemma NoLeaves(env: Env)
    ensures LeavesOf(env, map[], [])
  {
  }

  lemma AddLeaf(env: Env, m: map<string, Value>, leaves: seq<Expr>, k: string, v: Value, leaf: Expr)
    requires LeavesOf(env, m, leaves) && k !in m && Leaf(env, k, v) == Some(leaf)
    ensures LeavesOf(env, m[k := v], leaves + [leaf])
  {
    assert leaf.Pred? && leaf.name == k;
    hide Leaf, HasLeaf;
    var all := leaves + [leaf];
    var m' := m[k := v];
    forall i | 0 <= i < |all|
      ensures all[i].Pred? && all[i].name in m' && Leaf(env, all[i].name, m'[all[i].name]) == Some(all[i])
    {
      if i < |leaves| { assert all[i] == leaves[i] && leaves[i].name != k; } else { assert all[i] == leaf; }
    }
    forall i, j | 0 <= i < j < |all| ensures all[i].Pred? && all[j].Pred? && all[i].name != all[j].name {
      assert all[i] == leaves[i] && (j < |leaves| ==> all[j] == leaves[j]) && (j == |leaves| ==> all[j] == leaf);
    }
    forall x | x in m[k := v] ensures HasLeaf(all, x) { LeafStays(leaves, leaf, x); }
  }

  lemma LeafStays(leaves: seq<Expr>, leaf: Expr, x: string)
    requires HasLeaf(leaves, x) || (leaf.Pred? && leaf.name == x)
    ensures HasLeaf(leaves + [leaf], x)
  {
    var all := leaves + [leaf];
    if leaf.Pred? && leaf.name == x {
      assert all[|leaves|] == leaf;
    } else {
      var i :| 0 <= i < |leaves| && leaves[i].Pred? && leaves[i].name == x;
      assert all[i] == leaves[i];
    }
  }
}
