/** Compiling preserves meaning, in whatever order maps are ranged over, and can be undone. */
module LoaderMeaning {
  import opened Json
  import opened Options
  import opened Snapshots
  import Window
  import opened Predicates
  import opened Expr
  import opened Loader

  // ----- Meaning -----

  ghost predicate Means(env: Env, spec: Obj, e: Expr, s: Snapshot, now: int) {
    && Eval(e, env, s, now) == Holds(env, spec, s, now) && UsesTime(e) == MentionsTime(spec)
    && Wired(e, env) && Compiles(env, spec)
  }

  ghost predicate ListMeans(env: Env, v: Value, es: seq<Expr>, s: Snapshot, now: int) {
    && Specs(v).Some? && |es| == |Specs(v).value|
    && forall i :: 0 <= i < |es| ==> Means(env, Specs(v).value[i], es[i], s, now)
  }

  lemma AllMeans(env: Env, spec: Obj, es: seq<Expr>, s: Snapshot, now: int)
    requires Only(spec, "all") && ListMeans(env, spec.m["all"], es, s, now)
    ensures Means(env, spec, AllOf(es), s, now)
  {
    hide Specs;
  }

  lemma AnyMeans(env: Env, spec: Obj, es: seq<Expr>, s: Snapshot, now: int)
    requires Only(spec, "any") && ListMeans(env, spec.m["any"], es, s, now)
    ensures Means(env, spec, AnyOf(es), s, now)
  {
    OneKey(spec.m, "any");
    hide Specs;
  }

  lemma NotMeans(env: Env, spec: Obj, e: Expr, s: Snapshot, now: int)
    requires Only(spec, "not") && SpecOf(spec.m["not"]).Some? && Means(env, SpecOf(spec.m["not"]).value, e, s, now)
    ensures Means(env, spec, Not(Some(e)), s, now)
  {
    OneKey(spec.m, "not");
    hide SpecOf;
  }

  /** A spec of one predicate. */
  lemma OneReads(env: Env, spec: Obj, k: string, s: Snapshot, now: int)
    requires spec.m.Keys == {k} && !IsLogical(k)
    ensures Holds(env, spec, s, now) <==> LeafHolds(env, k, spec.m[k], s, now)
    ensures MentionsTime(spec) <==> k == IDLE_SECONDS
    ensures Compiles(env, spec) <==> Leaf(env, k, spec.m[k]).Some?
  {
    assert forall x :: x in spec.m <==> x == k;
    assert !Only(spec, "all") && !Only(spec, "any") && !Only(spec, "not");
    hide LeafHolds, Leaf, Specs, SpecOf, Only;
  }

  lemma OneMeans(env: Env, spec: Obj, k: string, e: Expr, s: Snapshot, now: int)
    requires spec.m.Keys == {k} && !IsLogical(k) && Leaf(env, k, spec.m[k]) == Some(e)
    ensures Means(env, spec, e, s, now)
  {
    LeafMeans(env, k, spec.m[k], e);
    OneReads(env, spec, k, s, now);
    hide Leaf, Eval, LeafHolds, UsesTime, Wired, Holds, MentionsTime, Compiles, IsLogical;
  }

  lemma SeveralMean(env: Env, spec: Obj, es: seq<Expr>, s: Snapshot, now: int)
    requires |spec.m| != 1 && (forall k :: k in spec.m ==> !IsLogical(k)) && LeavesOf(env, spec.m, es)
    ensures Means(env, spec, AllOf(es), s, now)
  {
    LeavesMean(env, spec, es, s, now);
    SeveralReads(env, spec, s, now);
    AllOfReads(env, es, s, now);
    hide LeavesOf, LeafHolds, Leaf, Holds, MentionsTime, Compiles, IsLogical, Eval, UsesTime, Wired;
  }

  lemma AllOfReads(env: Env, es: seq<Expr>, s: Snapshot, now: int)
    ensures Eval(AllOf(es), env, s, now) <==> forall i :: 0 <= i < |es| ==> Eval(es[i], env, s, now)
    ensures UsesTime(AllOf(es)) <==> exists i :: 0 <= i < |es| && UsesTime(es[i])
    ensures Wired(AllOf(es), env) <==> forall i :: 0 <= i < |es| ==> Wired(es[i], env)
  {
  }

  /** A spec of several keys read as the list of its predicates. */
  lemma SeveralReads(env: Env, spec: Obj, s: Snapshot, now: int)
    requires |spec.m| != 1
    ensures Holds(env, spec, s, now) <==> forall k :: k in spec.m ==> LeafHolds(env, k, spec.m[k], s, now)
    ensures MentionsTime(spec) <==> IDLE_SECONDS in spec.m
    ensures Compiles(env, spec) <==> forall k :: k in spec.m ==> !IsLogical(k) && Leaf(env, k, spec.m[k]).Some?
  {
    assert !Only(spec, "all") && !Only(spec, "any") && !Only(spec, "not");
    hide LeafHolds, Leaf, IsLogical, Specs, SpecOf, Only;
  }

  lemma {:induction false} CompiledMeansAs(env: Env, spec: Obj, e: Expr, s: Snapshot, now: int)
    requires Compiled(env, spec, e)
    ensures Means(env, spec, e, s, now)
    decreases spec
  {
    hide Means, ListMeans, Specs, SpecOf, LeavesOf, Leaf;
    if Only(spec, "all") {
      ChildrenMean(env, spec.m["all"], e.children, s, now);
      AllMeans(env, spec, e.children, s, now);
    } else if Only(spec, "any") {
      ChildrenMean(env, spec.m["any"], e.children, s, now);
      AnyMeans(env, spec, e.children, s, now);
    } else if Only(spec, "not") {
      CompiledMeansAs(env, SpecOf(spec.m["not"]).value, e.child.value, s, now);
      NotMeans(env, spec, e.child.value, s, now);
    } else if |spec.m| == 1 {
      var k :| k in spec.m;
      OneKey(spec.m, k);
      OneMeans(env, spec, k, e, s, now);
    } else {
      SeveralMean(env, spec, e.children, s, now);
    }
  }

  lemma {:induction false} ChildrenMean(env: Env, v: Value, es: seq<Expr>, s: Snapshot, now: int)
    requires AllCompiled(env, v, es)
    ensures ListMeans(env, v, es, s, now)
    decreases v
  {
    hide Means;
    forall i | 0 <= i < |es| ensures Means(env, Specs(v).value[i], es[i], s, now) {
      CompiledMeansAs(env, Specs(v).value[i], es[i], s, now);
    }
  }

  /** A compiled tree evaluates to what its spec says, and uses time exactly when the spec mentions it. */
  lemma CompiledMeans(env: Env, spec: Obj, e: Expr, s: Snapshot, now: int)
    requires Compiled(env, spec, e)
    ensures Eval(e, env, s, now) == Holds(env, spec, s, now)
    ensures UsesTime(e) == MentionsTime(spec)
    ensures Wired(e, env) && Compiles(env, spec)
  {
    CompiledMeansAs(env, spec, e, s, now);
    hide Compiled, Eval, Holds, UsesTime, MentionsTime, Wired, Compiles;
  }

  lemma LeafMeans(env: Env, name: string, v: Value, e: Expr)
    requires Leaf(env, name, v) == Some(e)
    ensures Wired(e, env) && e.Pred? && e.name == name && UsesTime(e) == (name == IDLE_SECONDS)
    ensures forall s, now :: Eval(e, env, s, now) == LeafHolds(env, name, v, s, now)
  {
  }

  lemma LeavesMean(env: Env, spec: Obj, leaves: seq<Expr>, s: Snapshot, now: int)
    requires LeavesOf(env, spec.m, leaves)
    ensures (forall i :: 0 <= i < |leaves| ==> Eval(leaves[i], env, s, now)) <==>
            (forall k :: k in spec.m ==> LeafHolds(env, k, spec.m[k], s, now))
    ensures (exists i :: 0 <= i < |leaves| && UsesTime(leaves[i])) <==> IDLE_SECONDS in spec.m
    ensures forall i :: 0 <= i < |leaves| ==> Wired(leaves[i], env)
    ensures forall k :: k in spec.m ==> Leaf(env, k, spec.m[k]).Some?
  {
    forall i | 0 <= i < |leaves|
      ensures Eval(leaves[i], env, s, now) == LeafHolds(env, leaves[i].name, spec.m[leaves[i].name], s, now)
              && UsesTime(leaves[i]) == (leaves[i].name == IDLE_SECONDS) && Wired(leaves[i], env)
    {
      LeafMeans(env, leaves[i].name, spec.m[leaves[i].name], leaves[i]);
    }
  }

  /** A spec that compiles has a tree. */
  lemma {:induction false} CompilesToSomething(env: Env, spec: Obj) returns (e: Expr)
    requires Compiles(env, spec)
    ensures Compiled(env, spec, e)
    decreases spec, 1
  {
    if Only(spec, "all") {
      var es := CompileItems(env, spec.m["all"]);
      e := AllOf(es);
    } else if Only(spec, "any") {
      var es := CompileItems(env, spec.m["any"]);
      e := AnyOf(es);
    } else if Only(spec, "not") {
      var inner := CompilesToSomething(env, SpecOf(spec.m["not"]).value);
      e := Not(Some(inner));
    } else if |spec.m| == 1 {
      var k :| k in spec.m;
      OneKey(spec.m, k);
      e := Leaf(env, k, spec.m[k]).value;
    } else {
      var es := CompileLeaves(env, spec.m);
      e := AllOf(es);
    }
  }

  lemma {:induction false} CompileItems(env: Env, v: Value) returns (es: seq<Expr>)
    requires Specs(v).Some? && forall i :: 0 <= i < |Specs(v).value| ==> Compiles(env, Specs(v).value[i])
    ensures AllCompiled(env, v, es)
    decreases v, 0
  {
    var items := Specs(v).value;
    es := [];
    for i := 0 to |items|
      invariant |es| == i && forall j :: 0 <= j < i ==> Compiled(env, items[j], es[j])
    {
      var e := CompilesToSomething(env, items[i]);
      es := es + [e];
    }
  }

  lemma {:induction false} CompileLeaves(env: Env, m: map<string, Value>) returns (leaves: seq<Expr>)
    requires forall k :: k in m ==> Leaf(env, k, m[k]).Some?
    ensures LeavesOf(env, m, leaves)
    decreases |m|
  {
    hide Leaf, LeavesOf;
    if m == map[] {
      leaves := [];
      NoLeaves(env);
    } else {
      var k :| k in m;
      var rest := m - {k};
      var others := CompileLeaves(env, rest);
      AddLeaf(env, rest, others, k, m[k], Leaf(env, k, m[k]).value);
      assert rest[k := m[k]] == m;
      leaves := others + [Leaf(env, k, m[k]).value];
    }
  }

  lemma NoLeaves(env: Env)
    ensures LeavesOf(env, map[], [])
  {
  }

  /** Range order never matters: two trees of one spec agree on every window at every time, and on using time. */
  lemma OrderIndependent(env: Env, spec: Obj, e1: Expr, e2: Expr, s: Snapshot, now: int)
    requires Compiled(env, spec, e1) && Compiled(env, spec, e2)
    ensures Eval(e1, env, s, now) == Eval(e2, env, s, now) && UsesTime(e1) == UsesTime(e2)
  {
    CompiledMeans(env, spec, e1, s, now);
    CompiledMeans(env, spec, e2, s, now);
  }

  // ----- Several keys are a conjunction -----

  function Part(m: map<string, Value>, k: string): Obj
    requires k in m
  {
    Obj(map[k := m[k]])
  }

  /** The "all" of the one-key parts of `m`, listed in the order `keys`. */
  function Conjunction(m: map<string, Value>, keys: seq<string>): Obj
    requires forall k :: k in keys <==> k in m
  {
    Obj(map["all" := List(seq(|keys|, i requires 0 <= i < |keys| => assert keys[i] in keys; Map(Part(m, keys[i]))))])
  }

  lemma PartMeans(env: Env, m: map<string, Value>, k: string, s: Snapshot, now: int)
    requires k in m && !IsLogical(k)
    ensures Compiles(env, Part(m, k)) <==> Leaf(env, k, m[k]).Some?
    ensures Holds(env, Part(m, k), s, now) <==> LeafHolds(env, k, m[k], s, now)
  {
    OneReads(env, Part(m, k), k, s, now);
    hide Holds, Compiles, Leaf, LeafHolds, IsLogical;
  }

  lemma ConjunctionItems(m: map<string, Value>, keys: seq<string>)
    requires forall k :: k in keys <==> k in m
    ensures var c := Conjunction(m, keys);
            && Only(c, "all") && Specs(c.m["all"]).Some? && |Specs(c.m["all"]).value| == |keys|
            && forall i :: 0 <= i < |keys| ==> keys[i] in m && Specs(c.m["all"]).value[i] == Part(m, keys[i])
  {
  }

  lemma ConjunctionCompiles(env: Env, m: map<string, Value>, keys: seq<string>)
    requires (forall k :: k in keys <==> k in m) && forall k :: k in m ==> !IsLogical(k)
    ensures Compiles(env, Conjunction(m, keys)) <==> forall k :: k in m ==> Leaf(env, k, m[k]).Some?
  {
    ConjunctionItems(m, keys);
    forall k | k in m ensures Compiles(env, Part(m, k)) <==> Leaf(env, k, m[k]).Some? {
      PartMeans(env, m, k, Take(Window.NewWin("", 0)), 0);
    }
    hide Leaf, Conjunction, Part, Specs;
  }

  lemma ConjunctionHolds(env: Env, m: map<string, Value>, keys: seq<string>, s: Snapshot, now: int)
    requires (forall k :: k in keys <==> k in m) && forall k :: k in m ==> !IsLogical(k)
    ensures Holds(env, Conjunction(m, keys), s, now) <==> forall k :: k in m ==> LeafHolds(env, k, m[k], s, now)
  {
    ConjunctionItems(m, keys);
    forall k | k in m ensures Holds(env, Part(m, k), s, now) <==> LeafHolds(env, k, m[k], s, now) {
      PartMeans(env, m, k, s, now);
    }
    hide LeafHolds, Conjunction, Part, Specs;
  }

  /** A spec with several keys compiles exactly when none of them is logical and the list of its one-key parts compiles,
      and then the two mean the same. */
  lemma SeveralKeysAreConjunction(env: Env, spec: Obj, keys: seq<string>, s: Snapshot, now: int)
    requires |spec.m| > 1 && forall k :: k in keys <==> k in spec.m
    ensures Compiles(env, spec) <==>
            (forall k :: k in spec.m ==> !IsLogical(k)) && Compiles(env, Conjunction(spec.m, keys))
    ensures Compiles(env, spec) ==> Holds(env, spec, s, now) == Holds(env, Conjunction(spec.m, keys), s, now)
  {
    SeveralReads(env, spec, s, now);
    hide Conjunction, LeafHolds, Leaf, IsLogical, Compiles, Holds;
    if forall k :: k in spec.m ==> !IsLogical(k) {
      ConjunctionCompiles(env, spec.m, keys);
      ConjunctionHolds(env, spec.m, keys, s, now);
    }
  }

  // ----- Round trip -----

  function MarshalSpec(e: Expr): Option<Obj> {
    match e
    case AllOf(children) =>
      var items := MarshalAll(children);
      if items.None? then None else Some(Obj(map["all" := MapList(items.value)]))
    case AnyOf(children) =>
      var items := MarshalAll(children);
      if items.None? then None else Some(Obj(map["any" := MapList(items.value)]))
    case Not(child) =>
      if child.None? then None else
      var inner := MarshalSpec(child.value);
      if inner.None? then None else Some(Obj(map["not" := Map(inner.value)]))
    case Pred(name, args, _, _) => Some(Obj(map[name := Map(args)]))
  }

  function MarshalAll(es: seq<Expr>): (r: Option<seq<Obj>>)
    ensures r.Some? <==> forall i :: 0 <= i < |es| ==> MarshalSpec(es[i]).Some?
    ensures r.Some? ==> |r.value| == |es| && forall i :: 0 <= i < |es| ==> MarshalSpec(es[i]) == Some(r.value[i])
  {
    if es == [] then Some([]) else
    var first, rest := MarshalSpec(es[0]), MarshalAll(es[1..]);
    assert forall i :: 0 <= i < |es[1..]| ==> es[1..][i] == es[i + 1];
    assert forall i :: 0 < i < |es| ==> es[i] == es[1..][i - 1];
    if first.None? || rest.None? then None else Some([first.value] + rest.value)
  }

  /** `spec` writes `e` down; its lists may have either shape, as before or after a trip through JSON text. */
  ghost predicate Writes(spec: Obj, e: Expr)
    decreases e
  {
    match e
    case AllOf(children) =>
      Only(spec, "all") && Specs(spec.m["all"]).Some? &&
      var items := Specs(spec.m["all"]).value;
      |items| == |children| && forall i :: 0 <= i < |children| ==> Writes(items[i], children[i])
    case AnyOf(children) =>
      Only(spec, "any") && Specs(spec.m["any"]).Some? &&
      var items := Specs(spec.m["any"]).value;
      |items| == |children| && forall i :: 0 <= i < |children| ==> Writes(items[i], children[i])
    case Not(child) => child.Some? && Only(spec, "not") && SpecOf(spec.m["not"]).Some?
      && Writes(SpecOf(spec.m["not"]).value, child.value)
    case Pred(name, args, _, _) => Only(spec, name) && SpecOf(spec.m[name]) == Some(args)
  }

  /** Marshalling fails only at a missing child, so never on what the loader built. */
  lemma {:induction false} MarshalWrites(e: Expr, env: Env)
    requires Wired(e, env)
    ensures MarshalSpec(e).Some? && Writes(MarshalSpec(e).value, e)
  {
    match e
    case AllOf(children) =>
      forall i | 0 <= i < |children|
        ensures MarshalSpec(children[i]).Some? && Writes(MarshalSpec(children[i]).value, children[i])
      {
        MarshalWrites(children[i], env);
      }
      assert Only(MarshalSpec(e).value, "all");
    case AnyOf(children) =>
      forall i | 0 <= i < |children|
        ensures MarshalSpec(children[i]).Some? && Writes(MarshalSpec(children[i]).value, children[i])
      {
        MarshalWrites(children[i], env);
      }
      assert Only(MarshalSpec(e).value, "any");
    case Not(child) =>
      MarshalWrites(child.value, env);
      assert Only(MarshalSpec(e).value, "not");
    case Pred(name, _, _, _) => assert Only(MarshalSpec(e).value, name);
  }

  /** Compiling what was written gives back the same tree, and nothing else. */
  lemma {:induction false} WrittenRebuilds(spec: Obj, e: Expr, env: Env, e': Expr)
    requires Wired(e, env) && Writes(spec, e)
    ensures Compiled(env, spec, e') <==> e' == e
  {
    hide Specs, SpecOf, LeavesOf, Leaf;
    match e
    case AllOf(children) =>
      var items := Specs(spec.m["all"]).value;
      forall i, x | 0 <= i < |children| ensures Compiled(env, items[i], x) <==> x == children[i] {
        WrittenRebuilds(items[i], children[i], env, x);
      }
      if e'.AllOf? { ChildrenRebuild(env, spec.m["all"], children, e'.children); }
    case AnyOf(children) =>
      KeyIs(spec, "any", "all");
      var items := Specs(spec.m["any"]).value;
      forall i, x | 0 <= i < |children| ensures Compiled(env, items[i], x) <==> x == children[i] {
        WrittenRebuilds(items[i], children[i], env, x);
      }
      if e'.AnyOf? { ChildrenRebuild(env, spec.m["any"], children, e'.children); }
    case Not(child) =>
      KeyIs(spec, "not", "all"); KeyIs(spec, "not", "any");
      if e'.Not? && e'.child.Some? { WrittenRebuilds(SpecOf(spec.m["not"]).value, child.value, env, e'.child.value); }
    case Pred(_, _, _, _) => LeafRebuilds(spec, e, env, e');
  }

  lemma LeafRebuilds(spec: Obj, e: Expr, env: Env, e': Expr)
    requires e.Pred? && Wired(e, env) && Writes(spec, e)
    ensures Compiled(env, spec, e') <==> e' == e
  {
    OnlyIdleUsesTime(env, e.name, e.args);
    OneKey(spec.m, e.name);
    assert Leaf(env, e.name, spec.m[e.name]) == Some(e);
    hide BuildTest, Leaf, LeavesOf, AllCompiled;
  }

  lemma KeyIs(spec: Obj, key: string, other: string)
    requires Only(spec, key) && other != key
    ensures !Only(spec, other)
  {
    OneKey(spec.m, key);
  }

  lemma ChildrenRebuild(env: Env, v: Value, es: seq<Expr>, es': seq<Expr>)
    requires Specs(v).Some? && |Specs(v).value| == |es|
    requires forall i, x :: 0 <= i < |es| ==> (Compiled(env, Specs(v).value[i], x) <==> x == es[i])
    ensures AllCompiled(env, v, es') <==> es' == es
  {
  }

  /** Round trip: whatever the loader built can be marshalled, and unmarshalling rebuilds exactly that tree. */
  lemma RoundTrip(env: Env, spec: Obj, e: Expr)
    requires Compiled(env, spec, e)
    ensures MarshalSpec(e).Some?
    ensures forall e' :: Compiled(env, MarshalSpec(e).value, e') <==> e' == e
  {
    CompiledMeans(env, spec, e, Take(Window.NewWin("", 0)), 0);
    MarshalWrites(e, env);
    forall e'
      ensures Compiled(env, MarshalSpec(e).value, e') <==> e' == e
    {
      WrittenRebuilds(MarshalSpec(e).value, e, env, e');
    }
  }
}
