/** The predicates a rule can test on a window (internal/rules/predicates.go). */
module Predicates {
  import opened Json
  import opened Options
  import opened Window
  import opened Snapshots

  /** What the rules take from the Go libraries: whether a pattern compiles, whether it matches a text, and how a value
      prints. */
  datatype Env = Env(compiles: string -> bool, matches: (string, string) -> bool, sprint: Value -> string)

  // ----- Operators -----

  function EqualAny(env: Env, a: Value, b: Value): bool {
    if a.Null? || b.Null? then a == b
    else if a.Num? && b.Num? then a.n == b.n
    else if a.Str? && b.Str? then a.s == b.s
    else if a.Bool? && b.Bool? then a.b == b.b
    else env.sprint(a) == env.sprint(b)
  }

  function ApplyOp(env: Env, op: string, lhs: Value, rhs: Value): bool {
    if op in ["==", "eq"] then EqualAny(env, lhs, rhs)
    else if op in ["!=", "ne"] then !EqualAny(env, lhs, rhs)
    else if op in [">", "gt"] then lhs.Num? && rhs.Num? && lhs.n > rhs.n
    else if op in [">=", "gte"] then lhs.Num? && rhs.Num? && lhs.n >= rhs.n
    else if op in ["<", "lt"] then lhs.Num? && rhs.Num? && lhs.n < rhs.n
    else if op in ["<=", "lte"] then lhs.Num? && rhs.Num? && lhs.n <= rhs.n
    else if op == "in" then rhs.List? && exists i :: 0 <= i < |rhs.items| && EqualAny(env, lhs, rhs.items[i])
    else op == "matches" && lhs.Str? && rhs.Str? && env.compiles(rhs.s) && env.matches(rhs.s, lhs.s)
  }

  const OPERATORS: seq<string> := ["==", "!=", ">", ">=", "<", "<=", "in", "matches", "eq", "ne", "gt", "gte", "lt",
    "lte"]

  const LONG_NAMES := [("eq", "=="), ("ne", "!="), ("gt", ">"), ("gte", ">="), ("lt", "<"), ("lte", "<=")]

  /** Equality is reflexive and symmetric across all kinds of value; it is sameness on two scalars of one kind, and
      printing alike on values of different kinds other than null. */
  lemma EqualityLaws(env: Env, a: Value, b: Value)
    ensures ApplyOp(env, "==", a, a) && ApplyOp(env, "==", a, b) == ApplyOp(env, "==", b, a)
    ensures a.Null? || (a.Num? && b.Num?) || (a.Str? && b.Str?) || (a.Bool? && b.Bool?) ==>
            (ApplyOp(env, "==", a, b) <==> a == b)
    ensures !a.Null? && !b.Null? && !(a.Num? && b.Num?) && !(a.Str? && b.Str?) && !(a.Bool? && b.Bool?) ==>
              (ApplyOp(env, "==", a, b) <==> env.sprint(a) == env.sprint(b))
    ensures ApplyOp(env, "!=", a, b) == !ApplyOp(env, "==", a, b)
  {
  }

  /** Both names of an operator mean the same. */
  lemma NamesAgree(env: Env, i: nat, a: Value, b: Value)
    requires i < |LONG_NAMES|
    ensures ApplyOp(env, LONG_NAMES[i].0, a, b) == ApplyOp(env, LONG_NAMES[i].1, a, b)
  {
    hide EqualAny;
  }

  /** Of two numbers exactly one of less, equal and greater holds; and an ordering is the negation of its converse
      exactly on numbers, since it fails on anything else. */
  lemma OrderingLaws(env: Env, a: Value, b: Value)
    ensures var less, same, more := ApplyOp(env, "<", a, b), ApplyOp(env, "==", a, b), ApplyOp(env, ">", a, b);
            && (a.Num? && b.Num? ==> (less || same || more) && !(less && same) && !(same && more) && !(less && more))
            && (ApplyOp(env, ">=", a, b) == !less <==> a.Num? && b.Num?)
            && (ApplyOp(env, "<=", a, b) == !more <==> a.Num? && b.Num?)
            && less == ApplyOp(env, ">", b, a)
  {
    assert a.Num? && b.Num? ==> EqualAny(env, a, b) == (a.n == b.n);
    hide EqualAny;
  }

  /** Membership is equality with some item, and no operator but the listed ones holds of anything. */
  lemma MembershipLaws(env: Env, op: string, a: Value, items: seq<Value>, b: Value)
    ensures ApplyOp(env, "in", a, List(items)) <==> exists x :: x in items && ApplyOp(env, "==", a, x)
    ensures op !in OPERATORS ==> !ApplyOp(env, op, a, b)
  {
    if x :| x in items && ApplyOp(env, "==", a, x) {
      var i :| 0 <= i < |items| && items[i] == x;
      assert EqualAny(env, a, items[i]);
    }
    if i :| 0 <= i < |items| && EqualAny(env, a, items[i]) {
      assert items[i] in items && ApplyOp(env, "==", a, items[i]);
    }
  }

  /** A match holds exactly of two strings of which the right one is a pattern that compiles and matches the left one.
      */
  lemma MatchLaw(env: Env, a: Value, b: Value)
    ensures ApplyOp(env, "matches", a, b) <==>
              exists text, pattern :: a == Str(text) && b == Str(pattern) && env.compiles(pattern)
                && env.matches(pattern, text)
  {
    hide EqualAny;
    if a.Str? && b.Str? { assert a == Str(a.s) && b == Str(b.s); }
  }

  /** An operator and its right-hand side. */
  datatype Comparison = Comparison(op: string, rhs: Value)

  /** The first of `ops` that is a key of `args`. */
  function FirstOperator(args: Obj, ops: seq<string>): (r: Option<Comparison>)
    ensures r.None? <==> forall i :: 0 <= i < |ops| ==> ops[i] !in args.m
    ensures r.Some? ==> r.value.op in args.m && args.m[r.value.op] == r.value.rhs
    ensures r.Some? ==> exists i :: 0 <= i < |ops| && ops[i] == r.value.op && forall j :: 0 <= j < i ==>
            ops[j] !in args.m
  {
    if ops == [] then None
    else if ops[0] in args.m then Some(Comparison(ops[0], args.m[ops[0]]))
    else
      var r := FirstOperator(args, ops[1..]);
      assert r.Some? ==> forall i :: 0 <= i < |ops[1..]| ==> ops[1..][i] == ops[i + 1];
      r
  }

  /** A string under "op" names the operator; otherwise the first operator key counts. */
  function ExtractOpValue(args: Obj): Option<Comparison> {
    if "op" in args.m && args.m["op"].Str? then
      Some(Comparison(args.m["op"].s, if "value" in args.m then args.m["value"] else Null))
    else FirstOperator(args, OPERATORS)
  }

  /** The explicit form {"op": o, "value": x} and the inline form {o: x} say the same, whatever other arguments
      accompany them. */
  lemma ExplicitMeansInline(others: map<string, Value>, o: string, x: Value)
    requires o in OPERATORS && "op" !in others && forall p :: p in OPERATORS ==> p !in others
    ensures ExtractOpValue(Obj(others["op" := Str(o)]["value" := x])) == Some(Comparison(o, x))
    ensures ExtractOpValue(Obj(others[o := x])) == Some(Comparison(o, x))
  {
  }

  /** The explicit form takes any text for its operator, compares with null when it gives no value, and goes before any
      operator key. */
  lemma ExplicitFirst(args: Obj, op: string)
    requires "op" in args.m && args.m["op"] == Str(op)
    ensures exists cmp :: ExtractOpValue(args) == Some(cmp) && cmp.op == op
              && ("value" in args.m ==> cmp.rhs == args.m["value"]) && ("value" !in args.m ==> cmp.rhs == Null)
  {
    assert ExtractOpValue(args).Some?;
  }

  // ----- The compiled tests -----

  /** What a predicate's builder leaves behind for evaluation. */
  datatype Test =
    | EventCount(cmp: Comparison)
    | CountOfType(typ: string, cmp: Comparison)
    | CountOfName(name: string, cmp: Comparison)
    | IdleSeconds(cmp: Comparison)
    | HasType(typ: string)
    | HasName(name: string)
    | PathMatches(pattern: string)
    | HasProperty(key: string)
    | PropertyValue(key: string, cmp: Comparison)
    | DistinctPaths(threshold: real)
    | HasError
    | TraitKnown(key: string)
    | TraitValue(key: string, cmp: Comparison)

  function Compare(env: Env, lhs: Value, cmp: Comparison): bool { ApplyOp(env, cmp.op, lhs, cmp.rhs) }

  function IdleSecs(s: Snapshot, now: int): real { s.IdleFor(now) as real / NANOS_PER_SECOND as real }

  function RunTest(env: Env, t: Test, s: Snapshot, now: int): bool {
    match t
    case EventCount(cmp) => Compare(env, Num(s.eventCount as real), cmp)
    case CountOfType(typ, cmp) => Compare(env, Num(Get(s.typeCount, typ) as real), cmp)
    case CountOfName(name, cmp) => Compare(env, Num(Get(s.nameCount, name) as real), cmp)
    case IdleSeconds(cmp) => Compare(env, Num(IdleSecs(s, now)), cmp)
    case HasType(typ) => Get(s.typeCount, typ) > 0
    case HasName(name) => Get(s.nameCount, name) > 0
    case PathMatches(pattern) => exists path :: path in s.paths && env.matches(pattern, path)
    case HasProperty(key) => key in s.propLast
    case PropertyValue(key, cmp) => key in s.propLast && Compare(env, s.propLast[key], cmp)
    case DistinctPaths(threshold) => |s.paths| as real >= threshold
    case HasError => s.hasError
    case TraitKnown(key) => key in s.traits
    case TraitValue(key, cmp) => key in s.traits && Compare(env, s.traits[key], cmp)
  }

  // ----- Builders -----

  function RequireString(args: Obj, key: string): Option<string> {
    if key in args.m && args.m[key].Str? then Some(args.m[key].s) else None
  }

  /** A string under "value", or failing that under "path". */
  function ValueOrPath(args: Obj): Option<string> { RequireString(args, "value").Or(RequireString(args, "path")) }

  const REGISTRY: set<string> := {
    "window.event_count", "window.event_count_of_type", "window.event_count_of_name", "window.idle_seconds",
    "window.has_event_type", "window.has_event_name", "window.event_path_matches", "window.has_property",
    "window.property_value", "window.distinct_paths_at_least", "window.has_error_event",
    "window.session_event_count", "traits.known", "traits.value"}

  const IDLE_SECONDS := "window.idle_seconds"

  predicate UsesTimeName(name: string) { name == IDLE_SECONDS }

  /** The registered builder of `name`, applied to `args`. */
  function BuildTest(env: Env, name: string, args: Obj): Option<Test> {
    var cmp := ExtractOpValue(args);
    match name
    case "window.event_count" => if cmp.Some? then Some(EventCount(cmp.value)) else None
    case "window.session_event_count" => if cmp.Some? then Some(EventCount(cmp.value)) else None
    case "window.idle_seconds" => if cmp.Some? then Some(IdleSeconds(cmp.value)) else None
    case "window.event_count_of_type" =>
      var typ := RequireString(args, "type");
      if typ.Some? && cmp.Some? then Some(CountOfType(typ.value, cmp.value)) else None
    case "window.event_count_of_name" =>
      var name := RequireString(args, "name");
      if name.Some? && cmp.Some? then Some(CountOfName(name.value, cmp.value)) else None
    case "window.property_value" =>
      var path := RequireString(args, "path");
      if path.Some? && cmp.Some? then Some(PropertyValue(path.value, cmp.value)) else None
    case "traits.value" =>
      var path := RequireString(args, "path");
      if path.Some? && cmp.Some? then Some(TraitValue(path.value, cmp.value)) else None
    case "window.has_event_type" =>
      var typ := RequireString(args, "value"); if typ.Some? then Some(HasType(typ.value)) else None
    case "window.has_event_name" =>
      var name := RequireString(args, "value"); if name.Some? then Some(HasName(name.value)) else None
    case "window.event_path_matches" =>
      var pattern := RequireString(args, "value");
      if pattern.Some? && env.compiles(pattern.value) then Some(PathMatches(pattern.value)) else None
    case "window.has_property" =>
      var key := ValueOrPath(args); if key.Some? then Some(HasProperty(key.value)) else None
    case "traits.known" =>
      var key := ValueOrPath(args); if key.Some? then Some(TraitKnown(key.value)) else None
    case "window.distinct_paths_at_least" =>
      if "value" in args.m && args.m["value"].Num? then Some(DistinctPaths(args.m["value"].n)) else None
    case "window.has_error_event" => Some(HasError)
    case _ => None
  }

  lemma OnlyIdleUsesTime(env: Env, name: string, args: Obj)
    requires BuildTest(env, name, args).Some?
    ensures name in REGISTRY && (BuildTest(env, name, args).value.IdleSeconds? <==> UsesTimeName(name))
  {
  }

  // ----- Idle comparisons -----

  predicate AtLeastOp(op: string) { op in [">=", "gte", ">", "gt"] }

  /** Once an at-least test on idle time holds of a silent window it keeps holding. */
  lemma IdleTestStays(env: Env, cmp: Comparison, s: Snapshot, earlier: int, later: int)
    requires AtLeastOp(cmp.op) && earlier <= later && RunTest(env, IdleSeconds(cmp), s, earlier)
    ensures RunTest(env, IdleSeconds(cmp), s, later)
  {
  }
}
