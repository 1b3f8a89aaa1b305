/** What a rule says of a user's event history: windows, snapshots and predicates put together. */
module Verdicts {
  import opened Json
  import opened Options
  import opened Event
  import opened Window
  import opened WindowSummary
  import opened Snapshots
  import opened Predicates
  import opened Expr
  import opened Loader

  /** How many arrivals have the non-empty key `k`. */
  function CountIn(h: seq<Arrival>, key: Arrival -> string, k: string): nat {
    if k == "" then 0 else Occurrences(h, key, k)
  }

  ghost predicate Timed(h: seq<Arrival>) { forall i :: 0 <= i < |h| ==> h[i].Time() != 0 }

  /** Nanoseconds since the latest arrival, never negative; zero while there is none. */
  function Silence(h: seq<Arrival>, now: int): nat {
    if h == [] || now < Latest(h) then 0 else now - Latest(h)
  }

  ghost function PathsOf(h: seq<Arrival>): set<string> {
    set i | 0 <= i < |h| && h[i].event.path != "" :: h[i].event.path
  }

  ghost predicate EndsIn(s: string, tail: string) { exists front :: s == front + tail }

  ghost predicate ErrorOccurred(h: seq<Arrival>) { exists i :: 0 <= i < |h| && EndsIn(h[i].event.name, "Error") }

  /** A predicate stated on the history itself. */
  ghost predicate HistoryTest(env: Env, t: Test, h: seq<Arrival>, now: int) {
    match t
    case EventCount(cmp) => Compare(env, Num(|h| as real), cmp)
    case CountOfType(typ, cmp) => Compare(env, Num(CountIn(h, TypeOf(), typ) as real), cmp)
    case CountOfName(name, cmp) => Compare(env, Num(CountIn(h, NameOf(), name) as real), cmp)
    case IdleSeconds(cmp) => Compare(env, Num(Silence(h, now) as real / NANOS_PER_SECOND as real), cmp)
    case HasType(typ) => typ != "" && exists i :: 0 <= i < |h| && h[i].event.typ == typ
    case HasName(name) => name != "" && exists i :: 0 <= i < |h| && h[i].event.name == name
    case PathMatches(pattern) =>
      exists i :: 0 <= i < |h| && h[i].event.path != "" && env.matches(pattern, h[i].event.path)
    case HasProperty(key) => key in PROPERTY_TRACK_KEYS && exists i :: 0 <= i < |h| && key in h[i].Props()
    case PropertyValue(key, cmp) =>
      key in PROPERTY_TRACK_KEYS && LastSome(h, Prop(key)).Some? && Compare(env, LastSome(h, Prop(key)).value, cmp)
    case DistinctPaths(threshold) => |PathsOf(h)| as real >= threshold
    case HasError => ErrorOccurred(h)
    case TraitKnown(key) =>
      exists i :: 0 <= i < |h| && (IdentifyTrait(key)(h[i]).Some? || key in h[i].event.contextTraits.m)
    case TraitValue(key, cmp) =>
      var v := LastSome(h, IdentifyTrait(key)).Or(FirstSome(h, ContextTrait(key)));
      v.Some? && Compare(env, v.value, cmp)
  }

  ghost predicate HistoryVerdict(e: Expr, env: Env, h: seq<Arrival>, now: int) {
    match e
    case AllOf(children) => forall i :: 0 <= i < |children| ==> HistoryVerdict(children[i], env, h, now)
    case AnyOf(children) => exists i :: 0 <= i < |children| && HistoryVerdict(children[i], env, h, now)
    case Not(child) => child.Some? && !HistoryVerdict(child.value, env, h, now)
    case Pred(_, _, fn, _) => fn.Some? && HistoryTest(env, fn.value, h, now)
  }

  lemma {:induction false} OccursIff(h: seq<Arrival>, key: Arrival -> string, k: string)
    ensures Occurrences(h, key, k) > 0 <==> exists i :: 0 <= i < |h| && key(h[i]) == k
  {
    if h != [] {
      var init := h[..|h| - 1];
      OccursIff(init, key, k);
      if i :| 0 <= i < |h| && key(h[i]) == k { if i < |init| { assert key(init[i]) == k; } }
      if i :| 0 <= i < |init| && key(init[i]) == k { assert key(h[i]) == k; }
    }
  }

  lemma TallyGet(m: map<string, nat>, h: seq<Arrival>, key: Arrival -> string, k: string)
    requires IsTally(m, h, key)
    ensures Get(m, k) == CountIn(h, key, k) && (k in m <==> k != "" && exists i :: 0 <= i < |h| && key(h[i]) == k)
  {
    OccursIff(h, key, k);
  }

  lemma TallyKeys(m: map<string, nat>, h: seq<Arrival>)
    requires IsTally(m, h, PathOf())
    ensures m.Keys == PathsOf(h)
  {
    forall k ensures k in m <==> k in PathsOf(h) {
      TallyGet(m, h, PathOf(), k);
      if i :| 0 <= i < |h| && PathOf()(h[i]) == k && k != "" { assert h[i].event.path == k; }
    }
  }

  /** Counting tests see the frequencies of the history. */
  lemma CountTests(env: Env, t: Test, id: string, t0: int, h: seq<Arrival>, now: int)
    requires t.EventCount? || t.CountOfType? || t.CountOfName? || t.HasType? || t.HasName? || t.PathMatches?
             || t.DistinctPaths?
    ensures RunTest(env, t, Take(Fold(NewWin(id, t0), h)), now) == HistoryTest(env, t, h, now)
  {
    CountsAreFrequencies(id, t0, h);
    var w := Fold(NewWin(id, t0), h);
    hide Fold, IsTally, Compare, PathsOf;
    match t
    case CountOfType(typ, _) => TallyGet(w.typeCount, h, TypeOf(), typ);
    case CountOfName(name, _) => TallyGet(w.nameCount, h, NameOf(), name);
    case HasType(typ) => TallyGet(w.typeCount, h, TypeOf(), typ); OccursIff(h, TypeOf(), typ);
    case HasName(name) => TallyGet(w.nameCount, h, NameOf(), name); OccursIff(h, NameOf(), name);
    case PathMatches(pattern) => PathTest(env, w, h, pattern);
    case DistinctPaths(_) => TallyKeys(w.paths, h); assert |w.paths| == |w.paths.Keys|;
    case EventCount(_) =>
  }

  lemma PathTest(env: Env, w: Win, h: seq<Arrival>, pattern: string)
    requires IsTally(w.paths, h, PathOf())
    ensures (exists path :: path in w.paths && env.matches(pattern, path)) <==>
            exists i :: 0 <= i < |h| && h[i].event.path != "" && env.matches(pattern, h[i].event.path)
  {
    TallyKeys(w.paths, h);
  }

  /** Value tests see the last, or first, value the history carries. */
  lemma PropertyTests(env: Env, t: Test, id: string, t0: int, h: seq<Arrival>, now: int)
    requires t.HasProperty? || t.PropertyValue?
    ensures RunTest(env, t, Take(Fold(NewWin(id, t0), h)), now) == HistoryTest(env, t, h, now)
  {
    hide Fold, Compare, LastSome, MaxSome, Prop, NumProp;
    TrackedValues(id, t0, h, t.key);
    SomePropIff(h, t.key);
  }

  lemma SomePropIff(h: seq<Arrival>, key: string)
    ensures LastSome(h, Prop(key)).Some? <==> exists i :: 0 <= i < |h| && key in h[i].Props()
  {
  }

  lemma SomeTraitIff(h: seq<Arrival>, key: string)
    ensures LastSome(h, IdentifyTrait(key)).Or(FirstSome(h, ContextTrait(key))).Some? <==>
            exists i :: 0 <= i < |h| && (IdentifyTrait(key)(h[i]).Some? || key in h[i].event.contextTraits.m)
  {
  }

  lemma TraitTests(env: Env, t: Test, id: string, t0: int, h: seq<Arrival>, now: int)
    requires t.TraitKnown? || t.TraitValue?
    ensures RunTest(env, t, Take(Fold(NewWin(id, t0), h)), now) == HistoryTest(env, t, h, now)
  {
    hide Fold, Compare, LastSome, FirstSome, IdentifyTrait, ContextTrait;
    TraitValues(id, t0, h, t.key);
    SomeTraitIff(h, t.key);
  }

  lemma IdleTests(env: Env, t: Test, id: string, t0: int, h: seq<Arrival>, now: int)
    requires t.IdleSeconds? && Timed(h)
    ensures RunTest(env, t, Take(Fold(NewWin(id, t0), h)), now) == HistoryTest(env, t, h, now)
  {
    assert Take(Fold(NewWin(id, t0), h)).IdleFor(now) == Silence(h, now) by {
      if h != [] { SeenExtremes(id, t0, h); SomeTime(h); hide Fold; }
    }
    hide Compare, Fold, Take, Silence;
  }

  lemma ErrorTests(env: Env, t: Test, id: string, t0: int, h: seq<Arrival>, now: int)
    requires t.HasError?
    ensures RunTest(env, t, Take(Fold(NewWin(id, t0), h)), now) == HistoryTest(env, t, h, now)
  {
    LatestPayloads(id, t0, h);
    SomeErrorIff(h);
    hide Fold, ErrorOf, LastSome, ErrorOccurred;
  }

  lemma ErrorNameIff(e: Event)
    ensures e.HasErrorEventName() <==> EndsIn(e.name, "Error")
  {
    if e.HasErrorEventName() { assert e.name == e.name[..|e.name| - 5] + "Error"; }
  }

  lemma SomeErrorIff(h: seq<Arrival>)
    ensures LastSome(h, ErrorOf()).Some? <==> ErrorOccurred(h)
  {
    forall i | 0 <= i < |h| ensures ErrorOf()(h[i]).Some? <==> EndsIn(h[i].event.name, "Error") {
      ErrorNameIff(h[i].event);
    }
    hide NewEventRef, EndsIn;
  }

  lemma SomeTime(h: seq<Arrival>)
    requires h != [] && Timed(h)
    ensures Latest(h) != 0
  {
  }

  lemma TestIsOnHistory(t: Test, env: Env, id: string, t0: int, h: seq<Arrival>, now: int)
    requires Timed(h)
    ensures RunTest(env, t, Take(Fold(NewWin(id, t0), h)), now) == HistoryTest(env, t, h, now)
  {
    hide RunTest, HistoryTest, Fold, Take;
    if t.IdleSeconds? { IdleTests(env, t, id, t0, h, now); }
    else if t.HasError? { ErrorTests(env, t, id, t0, h, now); }
    else if t.HasProperty? || t.PropertyValue? { PropertyTests(env, t, id, t0, h, now); }
    else if t.TraitKnown? || t.TraitValue? { TraitTests(env, t, id, t0, h, now); }
    else { CountTests(env, t, id, t0, h, now); }
  }

  /** End to end: evaluating a condition on the snapshot of a window is the condition read on the events the window has
      seen since it was created. */
  lemma {:induction false} VerdictIsOnHistory(e: Expr, env: Env, id: string, t0: int, h: seq<Arrival>, now: int)
    requires Timed(h)
    ensures Eval(e, env, Take(Fold(NewWin(id, t0), h)), now) == HistoryVerdict(e, env, h, now)
  {
    var s := Take(Fold(NewWin(id, t0), h));
    match e
    case AllOf(children) =>
      forall i | 0 <= i < |children|
        ensures Eval(children[i], env, s, now) == HistoryVerdict(children[i], env, h, now)
      {
        VerdictIsOnHistory(children[i], env, id, t0, h, now);
      }
      hide HistoryTest, Fold, Take;
    case AnyOf(children) =>
      forall i | 0 <= i < |children|
        ensures Eval(children[i], env, s, now) == HistoryVerdict(children[i], env, h, now)
      {
        VerdictIsOnHistory(children[i], env, id, t0, h, now);
      }
      hide HistoryTest, Fold, Take;
    case Not(child) => if child.Some? { VerdictIsOnHistory(child.value, env, id, t0, h, now); }
    case Pred(_, _, fn, _) =>
      hide RunTest, HistoryTest, Fold, Take;
      if fn.Some? { TestIsOnHistory(fn.value, env, id, t0, h, now); }
  }

  // ----- Specs read on the history -----

  /** The predicate `name` with value `v` compiles to the test `t`. */
  predicate Says(env: Env, name: string, v: Value,
                 t: Test) { Leaf(env, name, v).Some? && Leaf(env, name, v).value.fn == Some(t) }

  /** A predicate of a spec holds of a window exactly when its test holds of the history. */
  lemma SpecIsOnHistory(env: Env, name: string, v: Value, t: Test, id: string, t0: int, h: seq<Arrival>, now: int)
    requires Timed(h) && Says(env, name, v, t)
    ensures LeafHolds(env, name, v, Take(Fold(NewWin(id, t0), h)), now) == HistoryTest(env, t, h, now)
  {
    hide RunTest, HistoryTest, Fold, Take, Leaf;
    TestIsOnHistory(t, env, id, t0, h, now);
  }

  /** The predicates that compare, and the argument that says what they compare. */
  const COMPARED: map<string, string> := map[
    "window.event_count" := "", "window.session_event_count" := "", "window.idle_seconds" := "",
    "window.event_count_of_type" := "type", "window.event_count_of_name" := "name",
    "window.property_value" := "path", "traits.value" := "path"]

  function Others(arg: string, key: string): map<string, Value> { if arg == "" then map[] else map[arg := Str(key)] }

  /** The two ways to write a comparison: the operator as a key, or spelled out. */
  function CompareArgs(others: map<string, Value>, op: string, x: Value, explicit: bool): (v: Value)
    ensures v.Map?
  {
    Map(Obj(if explicit then others["op" := Str(op)]["value" := x] else others[op := x]))
  }

  /** What the predicate `name` about `key` compares, if the history has it. */
  ghost function HistoryValue(name: string, key: string, h: seq<Arrival>, now: int): Option<Value> {
    match name
    case "window.event_count" => Some(Num(|h| as real))
    case "window.session_event_count" => Some(Num(|h| as real))
    case "window.idle_seconds" => Some(Num(Silence(h, now) as real / NANOS_PER_SECOND as real))
    case "window.event_count_of_type" => Some(Num(CountIn(h, TypeOf(), key) as real))
    case "window.event_count_of_name" => Some(Num(CountIn(h, NameOf(), key) as real))
    case "window.property_value" => if key in PROPERTY_TRACK_KEYS then LastSome(h, Prop(key)) else None
    case "traits.value" => LastSome(h, IdentifyTrait(key)).Or(FirstSome(h, ContextTrait(key)))
    case _ => None
  }

  function CompareTest(name: string, key: string, cmp: Comparison): Test {
    match name
    case "window.idle_seconds" => IdleSeconds(cmp)
    case "window.event_count_of_type" => CountOfType(key, cmp)
    case "window.event_count_of_name" => CountOfName(key, cmp)
    case "window.property_value" => PropertyValue(key, cmp)
    case "traits.value" => TraitValue(key, cmp)
    case _ => EventCount(cmp)
  }

  lemma ArgsCompare(arg: string, key: string, op: string, x: Value, explicit: bool)
    requires arg in ["", "type", "name", "path"] && op in OPERATORS
    ensures ExtractOpValue(CompareArgs(Others(arg, key), op, x, explicit).o) == Some(Comparison(op, x))
  {
    var others := Others(arg, key);
    assert "op" !in others && forall p :: p in OPERATORS ==> p !in others;
    hide ExtractOpValue;
    ExplicitMeansInline(others, op, x);
  }

  lemma ArgKept(arg: string, key: string, op: string, x: Value, explicit: bool)
    requires arg in ["type", "name", "path"] && op in OPERATORS
    ensures RequireString(CompareArgs(Others(arg, key), op, x, explicit).o, arg) == Some(key)
  {
  }

  lemma CompareBuilds(env: Env, name: string, key: string, cmp: Comparison, args: Obj)
    requires name in COMPARED && ExtractOpValue(args) == Some(cmp)
    requires COMPARED[name] != "" ==> RequireString(args, COMPARED[name]) == Some(key)
    ensures BuildTest(env, name, args) == Some(CompareTest(name, key, cmp))
  {
    hide ExtractOpValue, RequireString;
  }

  lemma BuiltSays(env: Env, name: string, args: Obj, t: Test)
    requires BuildTest(env, name, args) == Some(t)
    ensures Says(env, name, Map(args), t)
  {
    hide BuildTest;
  }

  lemma ArgNames(name: string)
    requires name in COMPARED
    ensures COMPARED[name] in ["", "type", "name", "path"]
  {
  }

  lemma CompareSays(env: Env, name: string, key: string, op: string, x: Value, explicit: bool)
    requires name in COMPARED && op in OPERATORS
    ensures Says(env, name, CompareArgs(Others(COMPARED[name], key), op, x, explicit),
            CompareTest(name, key, Comparison(op, x)))
  {
    ArgNames(name);
    ArgsSay(env, name, COMPARED[name], key, op, x, explicit);
  }

  lemma ArgsSay(env: Env, name: string, arg: string, key: string, op: string, x: Value, explicit: bool)
    requires name in COMPARED && COMPARED[name] == arg && arg in ["", "type", "name", "path"] && op in OPERATORS
    ensures Says(env, name, CompareArgs(Others(arg, key), op, x, explicit), CompareTest(name, key, Comparison(op, x)))
  {
    var args := CompareArgs(Others(arg, key), op, x, explicit).o;
    hide *;
    ArgsCompare(arg, key, op, x, explicit);
    if arg != "" { ArgKept(arg, key, op, x, explicit); }
    CompareBuilds(env, name, key, Comparison(op, x), args);
    BuiltSays(env, name, args, CompareTest(name, key, Comparison(op, x)));
  }

  lemma CompareMeans(env: Env, name: string, key: string, op: string, x: Value, h: seq<Arrival>, now: int)
    requires name in COMPARED
    ensures var lhs := HistoryValue(name, key, h, now);
            HistoryTest(env, CompareTest(name, key, Comparison(op, x)), h, now) <==>
              lhs.Some? && ApplyOp(env, op, lhs.value, x)
  {
    hide ApplyOp, LastSome, FirstSome, Silence, CountIn;
  }

  /** Every comparing predicate, with every operator and in both ways of writing it, compares the quantity of the event
      history that its name says. */
  lemma ComparisonSpecs(env: Env, name: string, key: string, op: string, x: Value, explicit: bool, id: string, t0: int,
                        h: seq<Arrival>, now: int)
    requires name in COMPARED && op in OPERATORS && Timed(h)
    ensures var v, lhs := CompareArgs(Others(COMPARED[name], key), op, x, explicit), HistoryValue(name, key, h, now);
            LeafHolds(env, name, v, Take(Fold(NewWin(id, t0), h)), now) <==> lhs.Some? && ApplyOp(env, op, lhs.value, x)
  {
    var v, t := CompareArgs(Others(COMPARED[name], key), op, x, explicit), CompareTest(name, key, Comparison(op, x));
    CompareSays(env, name, key, op, x, explicit);
    CompareMeans(env, name, key, op, x, h, now);
    hide *;
    SpecIsOnHistory(env, name, v, t, id, t0, h, now);
  }

  /** The predicates that ask whether something occurred, with the arguments under which they take it. */
  const PRESENCE: map<string, set<string>> := map[
    "window.has_event_type" := {"value"}, "window.has_event_name" := {"value"},
      "window.event_path_matches" := {"value"},
    "window.has_property" := {"value", "path"}, "traits.known" := {"value", "path"}]

  /** The value alone, or a string under "value", or failing that one under "path" if the predicate takes it there;
      whatever other arguments come with it. */
  predicate Asks(name: string, key: string, v: Value) {
    name in PRESENCE && (v == Str(key) || (v.Map? && Names(v.o.m, PRESENCE[name], key)))
  }

  predicate Names(args: map<string, Value>, taken: set<string>, key: string) {
    if "value" in args && args["value"].Str? then args["value"].s == key
    else "path" in taken && "path" in args && args["path"] == Str(key)
  }

  ghost predicate Occurred(env: Env, name: string, key: string, h: seq<Arrival>) {
    match name
    case "window.has_event_type" => key != "" && exists i :: 0 <= i < |h| && h[i].event.typ == key
    case "window.has_event_name" => key != "" && exists i :: 0 <= i < |h| && h[i].event.name == key
    case "window.event_path_matches" =>
      env.compiles(key) && exists i :: 0 <= i < |h| && h[i].event.path != "" && env.matches(key, h[i].event.path)
    case "window.has_property" => key in PROPERTY_TRACK_KEYS && exists i :: 0 <= i < |h| && key in h[i].Props()
    case "traits.known" =>
      exists i :: 0 <= i < |h| && (IdentifyTrait(key)(h[i]).Some? || key in h[i].event.contextTraits.m)
    case _ => false
  }

  function PresenceTest(name: string, key: string): Test {
    match name
    case "window.has_event_type" => HasType(key)
    case "window.has_event_name" => HasName(key)
    case "window.event_path_matches" => PathMatches(key)
    case "window.has_property" => HasProperty(key)
    case _ => TraitKnown(key)
  }

  lemma AskedTest(env: Env, name: string, key: string, v: Value)
    requires Asks(name, key, v)
    ensures if name != "window.event_path_matches" || env.compiles(key) then Says(env, name, v, PresenceTest(name, key))
            else Leaf(env, name, v).None?
  {
    hide ExtractOpValue;
  }

  /** Every presence predicate, however its argument is written, holds exactly when the event history has what it asks
      for; a path pattern that does not compile holds of nothing. */
  lemma PresenceSpecs(env: Env, name: string, key: string, v: Value, id: string, t0: int, h: seq<Arrival>, now: int)
    requires Asks(name, key, v) && Timed(h)
    ensures LeafHolds(env, name, v, Take(Fold(NewWin(id, t0), h)), now) <==> Occurred(env, name, key, h)
  {
    AskedTest(env, name, key, v);
    hide Fold, Take, Leaf, Says, Asks;
    if name != "window.event_path_matches" || env.compiles(key) {
      SpecIsOnHistory(env, name, v, PresenceTest(name, key), id, t0, h, now);
      PresenceMeans(env, name, key, h, now);
    }
  }

  lemma PresenceMeans(env: Env, name: string, key: string, h: seq<Arrival>, now: int)
    requires name in PRESENCE && (name != "window.event_path_matches" || env.compiles(key))
    ensures HistoryTest(env, PresenceTest(name, key), h, now) <==> Occurred(env, name, key, h)
  {
  }

  lemma PathsAndErrorsBuild(env: Env, args: Obj, n: real)
    ensures BuildTest(env, "window.has_error_event", args) == Some(HasError)
    ensures "value" in args.m && args.m["value"] == Num(n) ==>
              BuildTest(env, "window.distinct_paths_at_least", args) == Some(DistinctPaths(n))
  {
    hide ExtractOpValue, RequireString, ValueOrPath;
  }

  /** At least `n` distinct paths, in either form. */
  lemma PathCountSpecs(env: Env, n: real, v: Value, id: string, t0: int, h: seq<Arrival>, now: int)
    requires Timed(h) && (v == Num(n) || (v.Map? && "value" in v.o.m && v.o.m["value"] == Num(n)))
    ensures LeafHolds(env, "window.distinct_paths_at_least", v, Take(Fold(NewWin(id, t0), h)), now) <==>
            |PathsOf(h)| as real >= n
  {
    PathsAndErrorsBuild(env, NormalizeArgs(v).value, n);
    hide BuildTest;
    assert Says(env, "window.distinct_paths_at_least", v, DistinctPaths(n));
    hide *;
    SpecIsOnHistory(env, "window.distinct_paths_at_least", v, DistinctPaths(n), id, t0, h, now);
    PathCountMeans(env, n, h, now);
  }

  lemma PathCountMeans(env: Env, n: real, h: seq<Arrival>, now: int)
    ensures HistoryTest(env, DistinctPaths(n), h, now) <==> |PathsOf(h)| as real >= n
  {
  }

  /** An error event, whatever the arguments. */
  lemma ErrorSpec(env: Env, v: Value, id: string, t0: int, h: seq<Arrival>, now: int)
    requires Timed(h) && NormalizeArgs(v).Some?
    ensures LeafHolds(env, "window.has_error_event", v, Take(Fold(NewWin(id, t0), h)), now) <==> ErrorOccurred(h)
  {
    PathsAndErrorsBuild(env, NormalizeArgs(v).value, 0.0);
    hide BuildTest;
    assert Says(env, "window.has_error_event", v, HasError);
    hide *;
    SpecIsOnHistory(env, "window.has_error_event", v, HasError, id, t0, h, now);
    ErrorMeans(env, h, now);
  }

  lemma ErrorMeans(env: Env, h: seq<Arrival>, now: int)
    ensures HistoryTest(env, HasError, h, now) <==> ErrorOccurred(h)
  {
  }
}
