/** The onboarding wizard's edits to rule specs (internal/api/handlers_onboarding.go). */
module Wizard {
  import opened Json
  import opened Options
  import opened Window
  import opened Snapshots
  import opened Predicates
  import opened Expr
  import opened Loader
  import opened LoaderMeaning

  // ----- Lists of specs, in either shape -----

  function Length(v: Value): nat {
    match v case List(items) => |items| case MapList(objs) => |objs| case _ => 0
  }

  /** Item `i` when it is a string-keyed map. */
  function Item(v: Value, i: nat): (r: Option<Obj>)
    requires i < Length(v)
    ensures r.Some? ==> (v decreases to r.value)
  {
    match v
    case List(items) => if items[i].Map? then Some(items[i].o) else None
    case MapList(objs) => Some(objs[i])
  }

  function Put(v: Value, i: nat, o: Obj): Value
    requires i < Length(v)
  {
    match v case List(items) => List(items[i := Map(o)]) case MapList(objs) => MapList(objs[i := o])
  }

  lemma PutSpecs(v: Value, i: nat, o: Obj)
    requires i < Length(v) && Item(v, i).Some? && Specs(v).Some?
    ensures |Specs(v).value| == Length(v) && Specs(v).value[i] == Item(v, i).value
    ensures Specs(Put(v, i, o)) == Some(Specs(v).value[i := o])
  {
    if v.List? {
      var after := v.items[i := Map(o)];
      assert forall j :: 0 <= j < |after| ==> SpecOf(after[j]) == Some(Specs(v).value[i := o][j]);
      assert Specs(List(after)).value == Specs(v).value[i := o];
    }
  }

  // ----- The idle threshold -----

  /** An idle predicate can be reached by going down "all" lists. */
  ghost predicate ReachesIdle(spec: Obj)
    decreases spec, 2
  {
    IDLE_SECONDS in spec.m || ("all" in spec.m && ListReaches(spec.m["all"]))
  }

  ghost predicate ListReaches(v: Value)
    decreases v, 1
  {
    exists i: nat :: i < Length(v) && ItemReaches(v, i)
  }

  ghost predicate ItemReaches(v: Value, i: nat)
    requires i < Length(v)
    decreases v, 0
  {
    Item(v, i).Some? && ReachesIdle(Item(v, i).value)
  }

  /** The first item of `v`, from `i` on, that reaches an idle predicate. */
  ghost function First(v: Value, i: nat): (k: nat)
    requires exists j: nat :: i <= j < Length(v) && ItemReaches(v, j)
    ensures i <= k < Length(v) && ItemReaches(v, k) && forall j: nat :: i <= j < k ==> !ItemReaches(v, j)
    decreases Length(v) - i
  {
    if ItemReaches(v, i) then i else First(v, i + 1)
  }

  function AtLeast(o: Obj, x: real): Obj { Obj(o.m[">=" := Num(x)]) }

  /** The value of an idle predicate with its ">=" set; anything but a map is replaced. */
  function SetAtLeast(v: Value, x: real): Value {
    match v
    case Map(o) => Map(AtLeast(o, x))
    case AnyMap(o, otherKeys) => AnyMap(AtLeast(o, x), otherKeys)
    case _ => Map(AtLeast(EMPTY_OBJ, x))
  }

  function WithKey(spec: Obj, key: string, v: Value): Obj { Obj(spec.m[key := v]) }

  /** The spec with the first idle predicate it reaches set to `x`. */
  ghost function IdleSet(spec: Obj, x: real): Obj
    requires ReachesIdle(spec)
    decreases spec
  {
    if IDLE_SECONDS in spec.m then WithKey(spec, IDLE_SECONDS, SetAtLeast(spec.m[IDLE_SECONDS], x))
    else
      var v := spec.m["all"];
      assert ListReaches(v); assert exists j: nat :: j < Length(v) && ItemReaches(v, j);
      var i := First(v, 0);
      WithKey(spec, "all", Put(v, i, IdleSet(Item(v, i).value, x)))
  }

  /** The recursive search, which writes into the maps it visits; on failure nothing has been written. */
  method SetIdleSecondsInAll(spec: Obj, x: real) returns (spec': Obj, ok: bool)
    ensures ok <==> ReachesIdle(spec)
    ensures spec' == if ok then IdleSet(spec, x) else spec
    decreases spec
  {
    if IDLE_SECONDS in spec.m {
      return WithKey(spec, IDLE_SECONDS, SetAtLeast(spec.m[IDLE_SECONDS], x)), true;
    }
    if "all" in spec.m {
      var list := spec.m["all"];
      for i := 0 to Length(list)
        invariant list == spec.m["all"]
        invariant forall j: nat :: j < i ==> !ItemReaches(list, j)
      {
        var item := Item(list, i);
        if item.Some? {
          var m, found := SetIdleSecondsInAll(item.value, x);
          if found {
            assert ItemReaches(list, i) && First(list, 0) == i;
            return WithKey(spec, "all", Put(list, i, m)), true;
          }
          list := Put(list, i, m);
        }
      }
      assert !ListReaches(list);
    }
    return spec, false;
  }

  // ----- The rewrite commutes with compilation -----

  ghost predicate OneChildSet(env: Env, es: seq<Expr>, es': seq<Expr>, x: real, i: nat)
    decreases es, 0
  {
    && i < |es| == |es'| && es' == es[i := es'[i]] && OneLeafSet(env, es[i], es'[i], x)
  }

  /** `e'` is `e` with the ">=" argument of exactly one idle leaf set to `x`. */
  ghost predicate OneLeafSet(env: Env, e: Expr, e': Expr, x: real)
    decreases e, 1
  {
    match e
    case Pred(name, args, _, _) => name == IDLE_SECONDS && Leaf(env, name, Map(AtLeast(args, x))) == Some(e')
    case AllOf(children) => e'.AllOf? && exists i :: OneChildSet(env, children, e'.children, x, i)
    case _ => false
  }

  /** An operator that takes precedence over ">=". */
  predicate Overrides(args: Obj) {
    ("op" in args.m && args.m["op"].Str?) || "==" in args.m || "!=" in args.m || ">" in args.m
  }

  /** The new threshold counts unless an argument overrides ">="; then the test stays what it was. */
  lemma ThresholdTakesEffectIff(env: Env, args: Obj, x: real)
    ensures BuildTest(env, IDLE_SECONDS, AtLeast(args, x)) ==
              if Overrides(args) then BuildTest(env, IDLE_SECONDS, args)
                else Some(IdleSeconds(Comparison(">=", Num(x))))
    ensures BuildTest(env, IDLE_SECONDS, AtLeast(args, x)).Some?
  {
    OverridesIff(args, x);
    hide ExtractOpValue, AtLeast, Overrides;
  }

  lemma OverridesIff(args: Obj, x: real)
    ensures ExtractOpValue(AtLeast(args, x)) == if Overrides(args) then ExtractOpValue(args)
            else Some(Comparison(">=", Num(x)))
    ensures ExtractOpValue(AtLeast(args, x)).Some?
  {
    var after := AtLeast(args, x);
    assert OPERATORS[0] == "==" && OPERATORS[1] == "!=" && OPERATORS[2] == ">" && OPERATORS[3] == ">=";
    assert forall o :: o != ">=" ==> (o in after.m <==> o in args.m) && (o in args.m ==> after.m[o] == args.m[o]);
  }

  lemma ScalarIdleFails(env: Env, v: Value)
    ensures Leaf(env, IDLE_SECONDS, v).Some? ==> SpecOf(v).Some?
  {
  }

  /** The value of a compiled idle predicate and the same value rewritten. */
  lemma IdleLeafSet(env: Env, v: Value, x: real) returns (e: Expr, e': Expr)
    requires Leaf(env, IDLE_SECONDS, v).Some?
    ensures Leaf(env, IDLE_SECONDS, v) == Some(e) && Leaf(env, IDLE_SECONDS, SetAtLeast(v, x)) == Some(e')
    ensures e.Pred? && e'.Pred? && e.name == IDLE_SECONDS == e'.name && OneLeafSet(env, e, e', x)
  {
    ScalarIdleFails(env, v);
    hide BuildTest;
    e := Leaf(env, IDLE_SECONDS, v).value;
    ThresholdTakesEffectIff(env, e.args, x);
    e' := Leaf(env, IDLE_SECONDS, SetAtLeast(v, x)).value;
  }

  lemma SwapLeaf(env: Env, m: map<string, Value>, leaves: seq<Expr>, i: nat, v: Value, leaf: Expr)
    requires LeavesOf(env, m, leaves) && i < |leaves| && leaf.Pred? && leaf.name == leaves[i].name
    requires Leaf(env, leaf.name, v) == Some(leaf)
    ensures LeavesOf(env, m[leaf.name := v], leaves[i := leaf])
  {
    hide Leaf;
    var after := leaves[i := leaf];
    forall k | k in m ensures HasLeaf(after, k) {
      var j :| 0 <= j < |leaves| && leaves[j].Pred? && leaves[j].name == k;
      assert after[j].Pred? && after[j].name == k;
    }
  }

  /** Compiling the rewritten spec gives the original's tree with exactly one leaf's threshold replaced. */
  lemma {:induction false} RewriteCommutes(env: Env, spec: Obj, e: Expr, x: real) returns (e': Expr)
    requires ReachesIdle(spec) && Compiled(env, spec, e)
    ensures Compiled(env, IdleSet(spec, x), e') && OneLeafSet(env, e, e', x)
    decreases spec
  {
    if IDLE_SECONDS in spec.m {
      e' := CommutesAtLeaf(env, spec, e, x);
    } else {
      var v := spec.m["all"];
      assert ListReaches(v); assert exists j: nat :: j < Length(v) && ItemReaches(v, j);
      var i := First(v, 0);
      var items := Specs(v).value;
      PutSpecs(v, i, IdleSet(items[i], x));
      var child := RewriteCommutes(env, items[i], e.children[i], x);
      e' := AllOf(e.children[i := child]);
      CommutesInList(env, spec, e, x, i, IdleSet(items[i], x), child);
    }
  }

  lemma CommutesAtLeaf(env: Env, spec: Obj, e: Expr, x: real) returns (e': Expr)
    requires IDLE_SECONDS in spec.m && Compiled(env, spec, e)
    ensures Compiled(env, WithKey(spec, IDLE_SECONDS, SetAtLeast(spec.m[IDLE_SECONDS], x)), e')
      && OneLeafSet(env, e, e', x)
  {
    var v, spec' := spec.m[IDLE_SECONDS], WithKey(spec, IDLE_SECONDS, SetAtLeast(spec.m[IDLE_SECONDS], x));
    assert spec'.m.Keys == spec.m.Keys;
    NotOnly(spec, IDLE_SECONDS);
    NotOnly(spec', IDLE_SECONDS);
    SameSize(spec.m, spec'.m);
    if |spec.m| == 1 {
      OneKey(spec.m, IDLE_SECONDS);
      var leaf;
      leaf, e' := IdleLeafSet(env, v, x);
    } else {
      var i: nat :| i < |e.children| && e.children[i].Pred? && e.children[i].name == IDLE_SECONDS;
      var leaf, leaf' := IdleLeafSet(env, v, x);
      SwapLeaf(env, spec.m, e.children, i, SetAtLeast(v, x), leaf');
      e' := AllOf(e.children[i := leaf']);
      hide SetAtLeast, Leaf, LeavesOf;
      OneChild(env, e.children, i, leaf', x);
    }
  }

  lemma OneChild(env: Env, es: seq<Expr>, i: nat, child: Expr, x: real)
    requires i < |es| && OneLeafSet(env, es[i], child, x)
    ensures OneLeafSet(env, AllOf(es), AllOf(es[i := child]), x)
  {
    var es' := es[i := child];
    assert es'[i] == child && es' == es[i := es'[i]];
    assert OneChildSet(env, es, es', x, i);
    assert AllOf(es).children == es && AllOf(es').children == es';
  }

  lemma NotOnly(spec: Obj, key: string)
    requires key in spec.m && !IsLogical(key)
    ensures !Only(spec, "all") && !Only(spec, "any") && !Only(spec, "not")
  {
    if |spec.m| == 1 { OneKey(spec.m, key); }
  }

  lemma SameSize(m: map<string, Value>, m': map<string, Value>)
    requires m.Keys == m'.Keys
    ensures |m| == |m'|
  {
  }

  lemma CommutesInList(env: Env, spec: Obj, e: Expr, x: real, i: nat, o: Obj, child: Expr)
    requires Only(spec, "all") && e.AllOf? && AllCompiled(env, spec.m["all"], e.children)
    requires i < Length(spec.m["all"]) && i < |e.children| && Item(spec.m["all"], i).Some?
    requires Compiled(env, o, child) && OneLeafSet(env, e.children[i], child, x)
    ensures var spec' := WithKey(spec, "all", Put(spec.m["all"], i, o)); var e' := AllOf(e.children[i := child]);
            Compiled(env, spec', e') && OneLeafSet(env, e, e', x)
  {
    var spec' := WithKey(spec, "all", Put(spec.m["all"], i, o));
    PutSpecs(spec.m["all"], i, o);
    assert spec'.m.Keys == spec.m.Keys;
    SameSize(spec.m, spec'.m);
    assert AllCompiled(env, spec'.m["all"], e.children[i := child]);
    OneChild(env, e.children, i, child, x);
  }

  // ----- Raising the threshold -----

  /** What an idle predicate with a rewritten threshold says. */
  lemma IdleLeafReads(env: Env, v: Value, x: real, args: Obj, s: Snapshot, now: int)
    requires args == match v case Map(o) => o case AnyMap(o, _) => o case _ => EMPTY_OBJ
    ensures LeafHolds(env, IDLE_SECONDS, SetAtLeast(v, x), s, now) <==>
              !(v.AnyMap? && v.otherKeys)
              && var t := BuildTest(env, IDLE_SECONDS, AtLeast(args, x)); t.Some? && RunTest(env, t.value, s, now)
  {
    hide BuildTest, RunTest, AtLeast;
  }

  lemma IdleLeafMonotone(env: Env, v: Value, low: real, high: real, s: Snapshot, now: int)
    requires low <= high && LeafHolds(env, IDLE_SECONDS, SetAtLeast(v, high), s, now)
    ensures LeafHolds(env, IDLE_SECONDS, SetAtLeast(v, low), s, now)
  {
    var args := match v case Map(o) => o case AnyMap(o, _) => o case _ => EMPTY_OBJ;
    hide *;
    IdleLeafReads(env, v, low, args, s, now);
    IdleLeafReads(env, v, high, args, s, now);
    IdleTestMonotone(env, low, high, s, now);
    ThresholdTakesEffectIff(env, args, low);
    ThresholdTakesEffectIff(env, args, high);
  }

  lemma IdleTestMonotone(env: Env, low: real, high: real, s: Snapshot, now: int)
    requires low <= high
    ensures RunTest(env, IdleSeconds(Comparison(">=", Num(high))), s, now) ==>
            RunTest(env, IdleSeconds(Comparison(">=", Num(low))), s, now)
  {
  }

  /** A larger threshold never makes a rule true where a smaller one leaves it false. */
  lemma {:induction false} ThresholdMonotone(env: Env, spec: Obj, low: real, high: real, s: Snapshot, now: int)
    requires ReachesIdle(spec) && low <= high && Holds(env, IdleSet(spec, high), s, now)
    ensures Holds(env, IdleSet(spec, low), s, now)
    decreases spec
  {
    if IDLE_SECONDS in spec.m {
      MonotoneAtLeaf(env, spec, low, high, s, now);
    } else {
      var v := spec.m["all"];
      var i := First(v, 0);
      if Holds(env, IdleSet(Item(v, i).value, high), s, now) {
        ThresholdMonotone(env, Item(v, i).value, low, high, s, now);
      }
      MonotoneInList(env, spec, i, IdleSet(Item(v, i).value, low), IdleSet(Item(v, i).value, high), s, now);
    }
  }

  lemma MonotoneAtLeaf(env: Env, spec: Obj, low: real, high: real, s: Snapshot, now: int)
    requires IDLE_SECONDS in spec.m && low <= high
    requires Holds(env, WithKey(spec, IDLE_SECONDS, SetAtLeast(spec.m[IDLE_SECONDS], high)), s, now)
    ensures Holds(env, WithKey(spec, IDLE_SECONDS, SetAtLeast(spec.m[IDLE_SECONDS], low)), s, now)
  {
    var v := spec.m[IDLE_SECONDS];
    var lower, higher := WithKey(spec, IDLE_SECONDS, SetAtLeast(v, low)),
        WithKey(spec, IDLE_SECONDS, SetAtLeast(v, high));
    NotOnly(lower, IDLE_SECONDS);
    NotOnly(higher, IDLE_SECONDS);
    hide LeafHolds;
    forall k | k in lower.m ensures LeafHolds(env, k, lower.m[k], s, now) {
      assert k in higher.m && LeafHolds(env, k, higher.m[k], s, now);
      if k == IDLE_SECONDS { IdleLeafMonotone(env, v, low, high, s, now); }
    }
  }

  lemma MonotoneInList(env: Env, spec: Obj, i: nat, low: Obj, high: Obj, s: Snapshot, now: int)
    requires "all" in spec.m && i < Length(spec.m["all"]) && Item(spec.m["all"], i).Some?
    requires Holds(env, high, s, now) ==> Holds(env, low, s, now)
    requires Holds(env, WithKey(spec, "all", Put(spec.m["all"], i, high)), s, now)
    ensures Holds(env, WithKey(spec, "all", Put(spec.m["all"], i, low)), s, now)
  {
    var v := spec.m["all"];
    var lower, higher := WithKey(spec, "all", Put(v, i, low)), WithKey(spec, "all", Put(v, i, high));
    assert lower.m.Keys == higher.m.Keys;
    SameSize(lower.m, higher.m);
    if Only(higher, "all") {
      SpecsOfPut(v, i, low, high);
      assert Specs(v).Some?;
      PutSpecs(v, i, low);
      PutSpecs(v, i, high);
      var highs, lows := Specs(Put(v, i, high)).value, Specs(Put(v, i, low)).value;
      forall j | 0 <= j < |lows| ensures Holds(env, lows[j], s, now) { assert Holds(env, highs[j], s, now); }
    } else {
      NoSuchPredicate(env, higher, s, now);
    }
  }

  lemma SpecsOfPut(v: Value, i: nat, low: Obj, high: Obj)
    requires i < Length(v) && Item(v, i).Some? && Specs(Put(v, i, high)).Some?
    ensures Specs(v).Some?
  {
    if v.List? {
      var after := v.items[i := Map(high)];
      assert forall j :: 0 <= j < |v.items| && j != i ==> after[j] == v.items[j];
    }
  }

  /** A spec that uses "all" beside other keys holds of nothing. */
  lemma NoSuchPredicate(env: Env, spec: Obj, s: Snapshot, now: int)
    requires "all" in spec.m && !Only(spec, "all")
    ensures !Holds(env, spec, s, now)
  {
    assert BuildTest(env, "all", EMPTY_OBJ).None?;
    assert !LeafHolds(env, "all", spec.m["all"], s, now);
  }

  // ----- Finding the rule in a document -----

  function RuleList(doc: Obj): seq<Value> {
    if "rules" in doc.m && doc.m["rules"].List? then doc.m["rules"].items else []
  }

  /** A list entry is a rule of this name; a missing or odd name counts as "". */
  predicate IsRule(v: Value, name: string) {
    v.Map? && (if "name" in v.o.m && v.o.m["name"].Str? then v.o.m["name"].s else "") == name
  }

  predicate FirstNamed(doc: Obj, name: string, i: nat) {
    i < |RuleList(doc)| && IsRule(RuleList(doc)[i], name) && forall j: nat :: j < i ==> !IsRule(RuleList(doc)[j], name)
  }

  function WhenOf(rule: Value): Option<Obj> {
    if rule.Map? && "when" in rule.o.m && rule.o.m["when"].Map? then Some(rule.o.m["when"].o) else None
  }

  /** Entry `i` is the first rule of that name and has a condition. */
  predicate NamedWhen(doc: Obj, name: string, i: nat) { FirstNamed(doc, name, i) && WhenOf(RuleList(doc)[i]).Some? }

  function When(doc: Obj, i: nat): Obj
    requires i < |RuleList(doc)| && WhenOf(RuleList(doc)[i]).Some?
  {
    WhenOf(RuleList(doc)[i]).value
  }

  /** The document with the condition of its rule `i` replaced. */
  function SetWhen(doc: Obj, i: nat, when: Obj): Obj
    requires i < |RuleList(doc)| && RuleList(doc)[i].Map?
  {
    WithKey(doc, "rules", List(RuleList(doc)[i := Map(WithKey(RuleList(doc)[i].o, "when", Map(when)))]))
  }

  method FindRule(doc: Obj, name: string) returns (r: Option<nat>)
    ensures r.Some? ==> FirstNamed(doc, name, r.value)
    ensures r.None? ==> forall i: nat :: !FirstNamed(doc, name, i)
  {
    var rules := RuleList(doc);
    for i := 0 to |rules|
      invariant forall j: nat :: j < i ==> !IsRule(rules[j], name)
    {
      if IsRule(rules[i], name) { return Some(i); }
    }
    return None;
  }

  /** Sets the idle threshold of the first rule of that name. It succeeds exactly when that rule has a condition that
      reaches an idle predicate; then only that condition changes, and otherwise nothing does. */
  method SetRuleIdleSeconds(doc: Obj, name: string, x: real) returns (doc': Obj, ok: bool, ghost at: nat)
    ensures ok ==>
              NamedWhen(doc, name, at) && ReachesIdle(When(doc, at))
              && doc' == SetWhen(doc, at, IdleSet(When(doc, at), x))
    ensures !ok ==> doc' == doc && forall i: nat :: NamedWhen(doc, name, i) ==> !ReachesIdle(When(doc, i))
  {
    doc', ok, at := doc, false, 0;
    var i := FindRule(doc, name);
    if i.None? { return; }
    at := i.value;
    assert forall j: nat :: FirstNamed(doc, name, j) ==> j == at;
    var when := WhenOf(RuleList(doc)[i.value]);
    if when.None? { return; }
    var when', found := SetIdleSecondsInAll(when.value, x);
    if !found { return; }
    doc', ok := SetWhen(doc, i.value, when'), true;
  }

  /** `m'` has the keys of `m` and perhaps `key`, and every other key has the value it had. */
  ghost predicate SameBut(m: map<string, Value>, m': map<string, Value>, key: string) {
    m'.Keys == m.Keys + {key} && forall k :: k in m && k != key ==> m'[k] == m[k]
  }

  /** Only the condition of that rule changes: not the other rules nor their order, nor any other key of the rule or of
      the document. */
  lemma SetWhenReads(doc: Obj, i: nat, when: Obj)
    requires i < |RuleList(doc)| && RuleList(doc)[i].Map?
    ensures var doc' := SetWhen(doc, i, when);
            var rules, rules' := RuleList(doc), RuleList(doc');
            && SameBut(doc.m, doc'.m, "rules") && |rules'| == |rules| && WhenOf(rules'[i]) == Some(when)
            && SameBut(rules[i].o.m, rules'[i].o.m, "when")
            && forall j :: 0 <= j < |rules| && j != i ==> rules'[j] == rules[j]
  {
  }

  /** The rewritten document compiles to the same rules, but for one leaf of the rule that was named; every other key of
      that rule and of the document keeps its value. */
  lemma RewrittenRuleCommutes(env: Env, doc: Obj, name: string, i: nat, e: Expr, x: real) returns (e': Expr)
    requires NamedWhen(doc, name, i) && ReachesIdle(When(doc, i)) && Compiled(env, When(doc, i), e)
    ensures var doc' := SetWhen(doc, i, IdleSet(When(doc, i), x));
            var rules, rules' := RuleList(doc), RuleList(doc');
            && SameBut(doc.m, doc'.m, "rules") && |rules'| == |rules|
            && (forall j :: 0 <= j < |rules| && j != i ==> rules'[j] == rules[j])
            && rules'[i].Map? && SameBut(rules[i].o.m, rules'[i].o.m, "when")
            && WhenOf(rules'[i]).Some? && Compiled(env, WhenOf(rules'[i]).value, e') && OneLeafSet(env, e, e', x)
  {
    var when := When(doc, i);
    SetWhenReads(doc, i, IdleSet(when, x));
    e' := RewriteCommutes(env, when, e, x);
    hide SetWhen, IdleSet, Compiled, OneLeafSet, ReachesIdle;
  }

  // ----- The error-event list -----

  function EventSpec(name: string): Obj { Obj(map["window.has_event_name" := Str(name)]) }

  function WithErrorEvents(when: Obj, names: seq<string>): Obj {
    WithKey(when, "any", List(seq(|names|, i requires 0 <= i < |names| => Map(EventSpec(names[i])))))
  }

  method SetOnboardingErroredEvents(doc: Obj, names: seq<string>) returns (doc': Obj, ok: bool, ghost at: nat)
    ensures ok ==>
              NamedWhen(doc, "onboarding_errored", at)
              && doc' == SetWhen(doc, at, WithErrorEvents(When(doc, at), names))
    ensures !ok ==> doc' == doc && forall i: nat :: !NamedWhen(doc, "onboarding_errored", i)
  {
    doc', ok, at := doc, false, 0;
    var i := FindRule(doc, "onboarding_errored");
    if i.None? { return; }
    at := i.value;
    assert forall j: nat :: FirstNamed(doc, "onboarding_errored", j) ==> j == at;
    var when := WhenOf(RuleList(doc)[i.value]);
    if when.None? { return; }
    var list: seq<Value> := [];
    for k := 0 to |names|
      invariant |list| == k && forall j :: 0 <= j < k ==> list[j] == Map(EventSpec(names[j]))
    {
      list := list + [Map(EventSpec(names[k]))];
    }
    assert list == WithErrorEvents(when.value, names).m["any"].items;
    doc', ok := SetWhen(doc, i.value, WithKey(when.value, "any", List(list))), true;
  }

  lemma EventSpecMeans(env: Env, name: string, s: Snapshot, now: int)
    ensures Compiles(env, EventSpec(name)) && (Holds(env, EventSpec(name), s, now) <==> Get(s.nameCount, name) > 0)
  {
    var spec := EventSpec(name);
    assert spec.m.Keys == {"window.has_event_name"};
    assert Leaf(env, "window.has_event_name", Str(name)).Some?;
    assert LeafHolds(env, "window.has_event_name", Str(name), s, now) <==> Get(s.nameCount, name) > 0;
  }

  /** The rebuilt condition compiles exactly when it has no key beside "any", and then asks whether any of the chosen
      events has been seen. */
  lemma ErrorEventsCompileIff(env: Env, when: Obj, names: seq<string>, s: Snapshot, now: int)
    ensures Compiles(env, WithErrorEvents(when, names)) <==> when.m.Keys <= {"any"}
    ensures when.m.Keys <= {"any"} ==>
              (Holds(env, WithErrorEvents(when, names), s, now) <==>
                exists i :: 0 <= i < |names| && Get(s.nameCount, names[i]) > 0)
  {
    var spec := WithErrorEvents(when, names);
    assert spec.m.Keys == when.m.Keys + {"any"};
    if when.m.Keys <= {"any"} {
      hide EventSpec, WithErrorEvents, Get, Compiles, Holds;
      EventSpecs(when, names);
      AnyOfEvents(env, spec, names, s, now);
    } else {
      hide EventSpec, WithErrorEvents, Holds;
      if Only(spec, "any") { OneKey(spec.m, "any"); }
      if Only(spec, "all") { OneKey(spec.m, "all"); }
      if Only(spec, "not") { OneKey(spec.m, "not"); }
    }
  }

  lemma AnyOfEvents(env: Env, spec: Obj, names: seq<string>, s: Snapshot, now: int)
    requires spec.m.Keys == {"any"} && Specs(spec.m["any"]).Some?
    requires var items := Specs(spec.m["any"]).value;
             |items| == |names| && forall i :: 0 <= i < |names| ==> items[i] == EventSpec(names[i])
    ensures Compiles(env, spec)
    ensures Holds(env, spec, s, now) <==> exists i :: 0 <= i < |names| && Get(s.nameCount, names[i]) > 0
  {
    assert |spec.m| == |spec.m.Keys| == 1 && Only(spec, "any") && !Only(spec, "all");
    var items := Specs(spec.m["any"]).value;
    forall i | 0 <= i < |items|
      ensures Compiles(env, items[i]) && (Holds(env, items[i], s, now) <==> Get(s.nameCount, names[i]) > 0)
    {
      EventSpecMeans(env, names[i], s, now);
    }
    hide EventSpec, Get, Specs;
  }

  lemma EventSpecs(when: Obj, names: seq<string>)
    ensures var items := Specs(WithErrorEvents(when, names).m["any"]);
            items.Some? && |items.value| == |names| && forall i :: 0 <= i < |names| ==>
              items.value[i] == EventSpec(names[i])
  {
  }
}
