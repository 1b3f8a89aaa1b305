/** Compiled rule conditions (internal/rules/expr.go). */
module Expr {
  import opened Json
  import opened Options
  import opened Snapshots
  import opened Predicates

  /** `None` stands for Go's nil child and nil predicate function. */
  datatype Expr =
    | AllOf(children: seq<Expr>)
    | AnyOf(children: seq<Expr>)
    | Not(child: Option<Expr>)
    | Pred(name: string, args: Obj, fn: Option<Test>, usesTime: bool)

  function Eval(e: Expr, env: Env, s: Snapshot, now: int): bool {
    match e
    case AllOf(children) => EvalAll(children, env, s, now)
    case AnyOf(children) => EvalAny(children, env, s, now)
    case Not(child) => child.Some? && !Eval(child.value, env, s, now)
    case Pred(_, _, fn, _) => fn.Some? && RunTest(env, fn.value, s, now)
  }

  function EvalAll(es: seq<Expr>, env: Env, s: Snapshot, now: int): (r: bool)
    ensures r <==> forall i :: 0 <= i < |es| ==> Eval(es[i], env, s, now)
  {
    if es == [] then true else
    var r := Eval(es[0], env, s, now) && EvalAll(es[1..], env, s, now);
    assert forall i :: 0 <= i < |es[1..]| ==> es[1..][i] == es[i + 1];
    assert forall i :: 0 < i < |es| ==> es[i] == es[1..][i - 1];
    r
  }

  function EvalAny(es: seq<Expr>, env: Env, s: Snapshot, now: int): (r: bool)
    ensures r <==> exists i :: 0 <= i < |es| && Eval(es[i], env, s, now)
  {
    if es == [] then false else
    var r := Eval(es[0], env, s, now) || EvalAny(es[1..], env, s, now);
    assert forall i :: 0 <= i < |es[1..]| ==> es[1..][i] == es[i + 1];
    assert forall i :: 0 < i < |es| ==> es[i] == es[1..][i - 1];
    r
  }

  function UsesTime(e: Expr): bool {
    match e
    case AllOf(children) => AnyUsesTime(children)
    case AnyOf(children) => AnyUsesTime(children)
    case Not(child) => child.Some? && UsesTime(child.value)
    case Pred(_, _, _, usesTime) => usesTime
  }

  function AnyUsesTime(es: seq<Expr>): (r: bool)
    ensures r <==> exists i :: 0 <= i < |es| && UsesTime(es[i])
  {
    if es == [] then false else
    var r := UsesTime(es[0]) || AnyUsesTime(es[1..]);
    assert forall i :: 0 <= i < |es[1..]| ==> es[1..][i] == es[i + 1];
    assert forall i :: 0 < i < |es| ==> es[i] == es[1..][i - 1];
    r
  }

  // ----- Expressions as the loader builds them -----

  /** Every leaf holds the test its name and arguments build, no child is missing. */
  ghost predicate Wired(e: Expr, env: Env) {
    match e
    case AllOf(children) => forall i :: 0 <= i < |children| ==> Wired(children[i], env)
    case AnyOf(children) => forall i :: 0 <= i < |children| ==> Wired(children[i], env)
    case Not(child) => child.Some? && Wired(child.value, env)
    case Pred(name, args, fn, usesTime) =>
      fn.Some? && fn == BuildTest(env, name, args) && usesTime == UsesTimeName(name)
  }

  /** The tick path may skip an expression that does not use time: its verdict never changes on a fixed window. */
  lemma {:induction false} TimelessIsConstant(e: Expr, env: Env, s: Snapshot, now: int, later: int)
    requires Wired(e, env) && !UsesTime(e)
    ensures Eval(e, env, s, now) == Eval(e, env, s, later)
  {
    match e
    case AllOf(children) =>
      forall i | 0 <= i < |children| ensures Eval(children[i], env, s, now) == Eval(children[i], env, s, later) {
        TimelessIsConstant(children[i], env, s, now, later);
      }
    case AnyOf(children) =>
      forall i | 0 <= i < |children| ensures Eval(children[i], env, s, now) == Eval(children[i], env, s, later) {
        TimelessIsConstant(children[i], env, s, now, later);
      }
    case Not(child) => TimelessIsConstant(child.value, env, s, now, later);
    case Pred(name, args, _, _) => OnlyIdleUsesTime(env, name, args);
  }

  /** Conjunctions and disjunctions whose idle leaves are at-least tests; anything timeless may sit anywhere. */
  ghost predicate Ripening(e: Expr) {
    match e
    case AllOf(children) => forall i :: 0 <= i < |children| ==> Ripening(children[i])
    case AnyOf(children) => forall i :: 0 <= i < |children| ==> Ripening(children[i])
    case Not(child) => child.Some? ==> !UsesTime(child.value)
    case Pred(_, _, fn, _) => fn.Some? && fn.value.IdleSeconds? ==> AtLeastOp(fn.value.cmp.op)
  }

  /** On a silent window such a verdict, once true, stays true. */
  lemma {:induction false} RipeStays(e: Expr, env: Env, s: Snapshot, earlier: int, later: int)
    requires Wired(e, env) && Ripening(e) && earlier <= later && Eval(e, env, s, earlier)
    ensures Eval(e, env, s, later)
  {
    match e
    case AllOf(children) =>
      forall i | 0 <= i < |children| ensures Eval(children[i], env, s, later) {
        RipeStays(children[i], env, s, earlier, later);
      }
    case AnyOf(children) =>
      var i :| 0 <= i < |children| && Eval(children[i], env, s, earlier);
      RipeStays(children[i], env, s, earlier, later);
    case Not(child) => TimelessIsConstant(child.value, env, s, earlier, later);
    case Pred(_, _, fn, _) =>
      if fn.value.IdleSeconds? { IdleTestStays(env, fn.value.cmp, s, earlier, later); }
  }

  /** The idle figure a snapshot carries plays no part in a verdict. */
  lemma {:induction false} IdleFigureUnread(e: Expr, env: Env, s: Snapshot, figure: int, now: int)
    ensures Eval(e, env, s.(idleSeconds := figure), now) == Eval(e, env, s, now)
  {
    var s' := s.(idleSeconds := figure);
    match e
    case AllOf(children) =>
      forall i | 0 <= i < |children| ensures Eval(children[i], env, s', now) == Eval(children[i], env, s, now) {
        IdleFigureUnread(children[i], env, s, figure, now);
      }
    case AnyOf(children) =>
      forall i | 0 <= i < |children| ensures Eval(children[i], env, s', now) == Eval(children[i], env, s, now) {
        IdleFigureUnread(children[i], env, s, figure, now);
      }
    case Not(child) => if child.Some? { IdleFigureUnread(child.value, env, s, figure, now); }
    case Pred(_, _, fn, _) => if fn.Some? { assert s'.IdleFor(now) == s.IdleFor(now); }
  }
}
