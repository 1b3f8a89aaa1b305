/** Cooldown spacing over whole runs of the engine. */
module Cooldown {
  import opened Options
  import opened Snapshots
  import opened Predicates
  import opened Expr
  import opened Engine
  import Window

  /** What the service may ask of the engine, in any order. */
  datatype Op =
    | Evaluate(s: Snapshot, persona: string, now: int, timeOnly: bool)
    | Replace(rules: seq<Rule>)
    | Reload(loaded: Option<seq<Rule>>)
    | Reset
    | Purge(now: int)

  /** One fire; `era` counts the resets before it. */
  datatype Fire = Fire(key: GateKey, at: int, cooldown: int, era: nat)

  datatype State = State(rules: seq<Rule>, gate: Gate, era: nat, log: seq<Fire>)

  function Logged(fired: seq<Rule>, anonID: string, now: int, era: nat): seq<Fire> {
    seq(|fired|, i requires 0 <= i < |fired| => Fire(GateKey(anonID, fired[i].name), now, fired[i].cooldown, era))
  }

  function Perform(env: Env, c: State, op: Op): State {
    match op
    case Evaluate(s, persona, now, timeOnly) =>
      var swept := Sweep(env, c.rules, c.gate, s, persona, now, timeOnly);
      c.(gate := swept.gate, log := c.log + Logged(swept.fired, s.anonID, now, c.era))
    case Replace(rules) => c.(rules := rules)
    case Reload(loaded) => if loaded.Some? then c.(rules := loaded.value) else c
    case Reset => c.(gate := map[], era := c.era + 1)
    case Purge(now) => c.(gate := Purged(c.gate, now))
  }

  function Run(env: Env, initial: seq<Rule>, ops: seq<Op>): State {
    if ops == [] then State(initial, map[], 0, [])
    else Perform(env, Run(env, initial, ops[..|ops| - 1]), ops[|ops| - 1])
  }

  /** The engine object performs a run as the specification says. */
  method Drive(env: Env, e: Engine, op: Op, ghost c: State) returns (ghost c': State, matches: seq<Match>)
    requires e.rules == c.rules && e.gate.state == c.gate
    modifies e, e.gate
    ensures c' == Perform(env, c, op) && e.rules == c'.rules && e.gate.state == c'.gate
    ensures |matches| == |c'.log| - |c.log|
    ensures forall i :: 0 <= i < |matches| ==>
              var f := c'.log[|c.log| + i];
              matches[i].firedAt == f.at && GateKey(matches[i].anonymous, matches[i].ruleName) == f.key
  {
    c', matches := Perform(env, c, op), [];
    match op
    case Evaluate(s, persona, now, timeOnly) => matches := e.Evaluate(env, s, persona, now, timeOnly);
    case Replace(rules) => e.Replace(rules);
    case Reload(loaded) => e.Reload(loaded);
    case Reset => var _ := e.PurgeCooldowns();
    case Purge(now) => var _ := e.gate.Purge(now);
  }

  // ----- Spacing -----

  ghost predicate Spaced(log: seq<Fire>) {
    forall i, j :: 0 <= i < j < |log| && log[i].key == log[j].key && log[i].era == log[j].era && log[i].cooldown > 0 ==>
      log[j].at >= log[i].at + log[i].cooldown
  }

  /** The gate still holds back every fire of this era, except for deadlines a purge has seen pass. */
  ghost predicate Covers(gate: Gate, purges: set<int>, era: nat, log: seq<Fire>) {
    forall f :: f in log ==>
      (f.era <= era
      && (f.era == era && f.cooldown > 0 ==>
            (f.key in gate && gate[f.key] >= f.at + f.cooldown) || exists p :: p in purges && p >= f.at + f.cooldown))
  }

  lemma FireKeeps(gate: Gate, purges: set<int>, era: nat, log: seq<Fire>, key: GateKey, now: int, cooldown: int)
    requires Spaced(log) && Covers(gate, purges, era, log)
    requires Allows(gate, key, now) && forall p :: p in purges ==> p <= now
    ensures var log' := log + [Fire(key, now, cooldown, era)];
            Spaced(log') && Covers(Marked(gate, key, now, cooldown), purges, era, log')
  {
  }

  lemma {:induction false} SweepKeeps(env: Env, rules: seq<Rule>, gate: Gate, purges: set<int>, era: nat,
                                      log: seq<Fire>,
                                      s: Snapshot, persona: string, now: int, timeOnly: bool)
    requires Spaced(log) && Covers(gate, purges, era, log) && forall p :: p in purges ==> p <= now
    ensures var swept := Sweep(env, rules, gate, s, persona, now, timeOnly);
            var log' := log + Logged(swept.fired, s.anonID, now, era);
            Spaced(log') && Covers(swept.gate, purges, era, log')
  {
    if rules == [] {
      assert log + Logged([], s.anonID, now, era) == log;
    } else {
      var init, r := rules[..|rules| - 1], rules[|rules| - 1];
      SweepKeeps(env, init, gate, purges, era, log, s, persona, now, timeOnly);
      var before := Sweep(env, init, gate, s, persona, now, timeOnly);
      var mid := log + Logged(before.fired, s.anonID, now, era);
      var key := GateKey(s.anonID, r.name);
      if Due(env, r, s, persona, now, timeOnly) && Allows(before.gate, key, now) {
        FireKeeps(before.gate, purges, era, mid, key, now, r.cooldown);
        assert log + Logged(before.fired + [r], s.anonID, now, era) == mid + [Fire(key, now, r.cooldown, era)];
      }
    }
  }

  lemma PurgeKeeps(gate: Gate, purges: set<int>, later: set<int>, era: nat, log: seq<Fire>, now: int)
    requires Covers(gate, purges, era, log) && purges <= later
    requires (exists f :: f in log && f.era == era && f.at < now) ==> now in later
    ensures Covers(Purged(gate, now), later, era, log)
  {
  }

  lemma ResetKeeps(gate: Gate, purges: set<int>, later: set<int>, era: nat, log: seq<Fire>)
    requires Covers(gate, purges, era, log)
    ensures Covers(map[], later, era + 1, log)
  {
  }

  // ----- Which schedules keep the spacing -----

  /** An operation without its data. */
  datatype Slot = EvaluateAt(now: int) | PurgeAt(now: int) | ResetNow | RulesChange

  function SlotOf(op: Op): Slot {
    match op
    case Evaluate(_, _, now, _) => EvaluateAt(now)
    case Replace(_) => RulesChange
    case Reload(_) => RulesChange
    case Reset => ResetNow
    case Purge(now) => PurgeAt(now)
  }

  function Schedule(ops: seq<Op>): (s: seq<Slot>)
    ensures |s| == |ops| && forall i :: 0 <= i < |s| ==> s[i] == SlotOf(ops[i])
  {
    seq(|ops|, i requires 0 <= i < |ops| => SlotOf(ops[i]))
  }

  /** Of two evaluations in one era, a purge between them runs at a time after both. */
  ghost predicate Overtakes(s: seq<Slot>, k: int, i: int, j: int) {
    && 0 <= k < i < j < |s|
    && s[k].EvaluateAt? && s[i].PurgeAt? && s[j].EvaluateAt?
    && s[k].now < s[i].now && s[j].now < s[i].now
    && forall n :: k < n < j ==> !s[n].ResetNow?
  }

  ghost predicate Overtaken(s: seq<Slot>) { exists k, i, j :: Overtakes(s, k, i, j) }

  /** The times of the evaluations since the last reset. */
  ghost function EraEvals(s: seq<Slot>): set<int> {
    if s == [] then {} else
    var init := EraEvals(s[..|s| - 1]);
    match s[|s| - 1]
    case EvaluateAt(now) => init + {now}
    case ResetNow => {}
    case _ => init
  }

  ghost predicate AnyBefore(times: set<int>, now: int) { exists t :: t in times && t < now }

  /** The times of the purges since the last reset that follow an evaluation, since that reset, at an earlier time. */
  ghost function EraPurges(s: seq<Slot>): set<int> {
    if s == [] then {} else
    var init := EraPurges(s[..|s| - 1]);
    match s[|s| - 1]
    case PurgeAt(now) => if AnyBefore(EraEvals(s[..|s| - 1]), now) then init + {now} else init
    case ResetNow => {}
    case _ => init
  }

  ghost predicate Quiet(s: seq<Slot>, from: int) { forall n :: from < n < |s| && 0 <= n ==> !s[n].ResetNow? }

  lemma {:induction false} EvalIndex(s: seq<Slot>, t: int) returns (k: nat)
    requires t in EraEvals(s)
    ensures k < |s| && s[k] == EvaluateAt(t) && Quiet(s, k)
  {
    var init, last := s[..|s| - 1], s[|s| - 1];
    if t in EraEvals(init) && !last.ResetNow? { k := EvalIndex(init, t); } else { k := |s| - 1; }
  }

  lemma {:induction false} PurgeIndex(s: seq<Slot>, p: int) returns (k: nat, i: nat)
    requires p in EraPurges(s)
    ensures k < i < |s| && s[k].EvaluateAt? && s[k].now < p && s[i] == PurgeAt(p) && Quiet(s, k)
  {
    var init, last := s[..|s| - 1], s[|s| - 1];
    if p in EraPurges(init) && !last.ResetNow? { k, i := PurgeIndex(init, p); }
    else {
      var t :| t in EraEvals(init) && t < p;
      k := EvalIndex(init, t);
      i := |s| - 1;
    }
  }

  lemma PurgeIsPast(s: seq<Slot>, k: int, i: int, j: int)
    requires 0 <= k < i < j < |s| && s[k].EvaluateAt? && s[i].PurgeAt? && s[j].EvaluateAt?
    requires s[k].now < s[i].now && forall n :: k < n < j ==> !s[n].ResetNow?
    ensures s[i].now <= s[j].now || Overtaken(s)
  {
    if s[j].now < s[i].now { assert Overtakes(s, k, i, j); }
  }

  /** Unless overtaken, an evaluation runs no earlier than the purges that could have hidden a fire of its era. */
  lemma PurgesArePast(s: seq<Slot>, now: int)
    requires s != [] && s[|s| - 1] == EvaluateAt(now) && !Overtaken(s)
    ensures var purges := EraPurges(s[..|s| - 1]); forall p :: p in purges ==> p <= now
  {
    var init := s[..|s| - 1];
    hide Overtaken;
    forall p | p in EraPurges(init) ensures p <= now {
      var k, i := PurgeIndex(init, p);
      PurgeIsPast(s, k, i, |s| - 1);
    }
  }

  lemma OvertakenLater(s: seq<Slot>, n: nat)
    requires n <= |s|
    ensures Overtaken(s[..n]) ==> Overtaken(s)
  {
    if Overtaken(s[..n]) {
      var k, i, j :| Overtakes(s[..n], k, i, j);
      assert Overtakes(s, k, i, j);
    }
  }

  ghost predicate FiredAmong(log: seq<Fire>, era: nat, times: set<int>) {
    forall f :: f in log ==> f.era <= era && (f.era == era ==> f.at in times)
  }

  lemma LoggedAmong(log: seq<Fire>, era: nat, times: set<int>, fired: seq<Rule>, anonID: string, now: int)
    requires FiredAmong(log, era, times)
    ensures FiredAmong(log + Logged(fired, anonID, now, era), era, times + {now})
  {
  }

  ghost predicate Inv(c: State, s: seq<Slot>) {
    Spaced(c.log) && Covers(c.gate, EraPurges(s), c.era, c.log) && FiredAmong(c.log, c.era, EraEvals(s))
  }

  lemma EvaluateKeeps(env: Env, c: State, s: seq<Slot>, op: Op)
    requires op.Evaluate? && s != [] && s[|s| - 1] == SlotOf(op) && !Overtaken(s) && Inv(c, s[..|s| - 1])
    ensures Inv(Perform(env, c, op), s)
  {
    var init := s[..|s| - 1];
    var fired := Sweep(env, c.rules, c.gate, op.s, op.persona, op.now, op.timeOnly).fired;
    assert EraPurges(s) == EraPurges(init) && EraEvals(s) == EraEvals(init) + {op.now};
    PurgesArePast(s, op.now);
    hide Spaced, Covers, FiredAmong, Sweep, Logged, EraPurges, EraEvals, Overtaken;
    SweepKeeps(env, c.rules, c.gate, EraPurges(init), c.era, c.log, op.s, op.persona, op.now, op.timeOnly);
    LoggedAmong(c.log, c.era, EraEvals(init), fired, op.s.anonID, op.now);
  }

  lemma PurgeStepKeeps(env: Env, c: State, s: seq<Slot>, op: Op)
    requires op.Purge? && s != [] && s[|s| - 1] == SlotOf(op) && Inv(c, s[..|s| - 1])
    ensures Inv(Perform(env, c, op), s)
  {
    var init := s[..|s| - 1];
    assert EraEvals(s) == EraEvals(init) && EraPurges(init) <= EraPurges(s);
    assert AnyBefore(EraEvals(init), op.now) ==> op.now in EraPurges(s);
    assert (exists f :: f in c.log && f.era == c.era && f.at < op.now) ==> op.now in EraPurges(s);
    hide Spaced, Covers, FiredAmong, EraPurges, EraEvals;
    PurgeKeeps(c.gate, EraPurges(init), EraPurges(s), c.era, c.log, op.now);
  }

  lemma OtherKeeps(env: Env, c: State, s: seq<Slot>, op: Op)
    requires op.Reset? || op.Replace? || op.Reload?
    requires s != [] && s[|s| - 1] == SlotOf(op) && Inv(c, s[..|s| - 1])
    ensures Inv(Perform(env, c, op), s)
  {
  }

  lemma {:induction false} RunKeeps(env: Env, initial: seq<Rule>, ops: seq<Op>)
    requires !Overtaken(Schedule(ops))
    ensures Inv(Run(env, initial, ops), Schedule(ops))
  {
    if ops != [] {
      var init, op, s := ops[..|ops| - 1], ops[|ops| - 1], Schedule(ops);
      assert Schedule(init) == s[..|s| - 1];
      OvertakenLater(s, |s| - 1);
      RunKeeps(env, initial, init);
      assert Run(env, initial, ops) == Perform(env, Run(env, initial, init), op);
      hide Inv, Overtaken, Perform, Run;
      match op
      case Evaluate(_, _, _, _) => EvaluateKeeps(env, Run(env, initial, init), s, op);
      case Purge(_) => PurgeStepKeeps(env, Run(env, initial, init), s, op);
      case _ => OtherKeeps(env, Run(env, initial, init), s, op);
    }
  }

  /** Between resets a key that fires with a cooldown fires again only once that cooldown has passed: across reloads,
      rules sharing a name, and clocks that run backwards, unless a purge overtakes two evaluations. */
  lemma CooldownSpacing(env: Env, initial: seq<Rule>, ops: seq<Op>)
    requires !Overtaken(Schedule(ops))
    ensures Spaced(Run(env, initial, ops).log)
  {
    RunKeeps(env, initial, ops);
  }

  // ----- Every overtaken schedule breaks it -----

  /** One rule that is always due. */
  function Always(cooldown: int): Rule { Rule(0, "r", "", Some(AllOf([])), FireSpec("", "", cooldown), cooldown, true) }

  const KEY := GateKey("u", "r")

  /** The same user at the two evaluations, another user at all others, and no change of rules. */
  function WitnessOp(slot: Slot, chosen: bool): Op {
    match slot
    case EvaluateAt(now) => Evaluate(Take(Window.NewWin(if chosen then "u" else "v", 0)), "", now, false)
    case PurgeAt(now) => Purge(now)
    case ResetNow => Reset
    case RulesChange => Reload(None)
  }

  function Witness(s: seq<Slot>, k: int, j: int): (ops: seq<Op>)
    ensures |ops| == |s| && Schedule(ops) == s
  {
    seq(|s|, n requires 0 <= n < |s| => WitnessOp(s[n], n == k || n == j))
  }

  lemma FiresAlone(env: Env, r: Rule, g: Gate, s: Snapshot, now: int)
    requires r.enabled && r.persona == "" && r.when == Some(AllOf([]))
    ensures var key := GateKey(s.anonID, r.name);
            Sweep(env, [r], g, s, "", now, false)
            == if Allows(g, key, now) then Swept([r], Marked(g, key, now, r.cooldown)) else Swept([], g)
  {
  }

  /** What one operation of the witness does to the watched key. */
  lemma WitnessStep(env: Env, c: State, slot: Slot, chosen: bool, cooldown: int)
    requires c.rules == [Always(cooldown)]
    ensures var c' := Perform(env, c, WitnessOp(slot, chosen));
            && c'.rules == c.rules && c.log <= c'.log
            && (slot.ResetNow? || c'.era == c.era)
            && (!(slot.EvaluateAt? && chosen) && KEY in c'.gate ==> KEY in c.gate && c'.gate[KEY] == c.gate[KEY])
            && (slot.PurgeAt? && KEY in c'.gate ==> slot.now < c.gate[KEY])
  {
    if slot.EvaluateAt? { FiresAlone(env, Always(cooldown), c.gate, WitnessOp(slot, chosen).s, slot.now); }
  }

  lemma WitnessFires(env: Env, c: State, now: int, cooldown: int)
    requires c.rules == [Always(cooldown)] && cooldown > 0 && KEY !in c.gate
    ensures var c' := Perform(env, c, WitnessOp(EvaluateAt(now), true));
            c'.log == c.log + [Fire(KEY, now, cooldown, c.era)] && KEY in c'.gate && c'.gate[KEY] == now + cooldown
  {
    FiresAlone(env, Always(cooldown), c.gate, WitnessOp(EvaluateAt(now), true).s, now);
    assert Logged([Always(cooldown)], "u", now, c.era) == [Fire(KEY, now, cooldown, c.era)];
  }

  /** The run up to step `n`: the first of the two fires is logged, and its deadline is in the gate until the purge. */
  ghost predicate Watched(c: State, s: seq<Slot>, k: int, i: int, j: int, n: int)
    requires Overtakes(s, k, i, j)
  {
    var cooldown := s[i].now - s[k].now;
    && c.rules == [Always(cooldown)]
    && (n <= k ==> KEY !in c.gate)
    && (k < n <= j ==>
          Fire(KEY, s[k].now, cooldown, c.era) in c.log
          && (KEY in c.gate ==> n <= i && c.gate[KEY] == s[i].now))
    && (j < n ==> !Spaced(c.log))
  }

  lemma UnspacedStays(log: seq<Fire>, log': seq<Fire>)
    requires !Spaced(log) && log <= log'
    ensures !Spaced(log')
  {
  }

  lemma SecondFireIsTooEarly(log: seq<Fire>, f: Fire, g: Fire)
    requires f in log && f.key == g.key && f.era == g.era && f.cooldown > 0 && g.at < f.at + f.cooldown
    ensures !Spaced(log + [g])
  {
    var i :| 0 <= i < |log| && log[i] == f;
    assert (log + [g])[i] == f && (log + [g])[|log|] == g;
  }

  lemma WatchedNext(env: Env, c: State, s: seq<Slot>, k: int, i: int, j: int, n: int)
    requires Overtakes(s, k, i, j) && 0 <= n < |s| && Watched(c, s, k, i, j, n)
    ensures Watched(Perform(env, c, WitnessOp(s[n], n == k || n == j)), s, k, i, j, n + 1)
  {
    var cooldown, op := s[i].now - s[k].now, WitnessOp(s[n], n == k || n == j);
    var c' := Perform(env, c, op);
    WitnessStep(env, c, s[n], n == k || n == j, cooldown);
    if n == k || n == j { WitnessFires(env, c, s[n].now, cooldown); }
    if n == j {
      SecondFireIsTooEarly(c.log, Fire(KEY, s[k].now, cooldown, c.era), Fire(KEY, s[j].now, cooldown, c.era));
    }
    if n > j { UnspacedStays(c.log, c'.log); }
    hide Spaced, Perform;
  }

  lemma RunNone(env: Env, initial: seq<Rule>, ops: seq<Op>)
    ensures Run(env, initial, ops[..0]) == State(initial, map[], 0, [])
  {
  }

  lemma RunNext(env: Env, initial: seq<Rule>, ops: seq<Op>, n: nat)
    requires n < |ops|
    ensures Run(env, initial, ops[..n + 1]) == Perform(env, Run(env, initial, ops[..n]), ops[n])
  {
    assert ops[..n + 1][..n] == ops[..n];
  }

  lemma StartIsWatched(s: seq<Slot>, k: int, i: int, j: int, initial: seq<Rule>)
    requires Overtakes(s, k, i, j) && initial == [Always(s[i].now - s[k].now)]
    ensures Watched(State(initial, map[], 0, []), s, k, i, j, 0)
  {
  }

  ghost predicate IsWitness(ops: seq<Op>, s: seq<Slot>, k: int, j: int) {
    |ops| == |s| && forall n :: 0 <= n < |s| ==> ops[n] == WitnessOp(s[n], n == k || n == j)
  }

  lemma WitnessOpAt(ops: seq<Op>, s: seq<Slot>, k: int, j: int, n: nat)
    requires IsWitness(ops, s, k, j) && n < |ops| == |s|
    ensures ops[n] == WitnessOp(s[n], n == k || n == j)
  {
  }

  lemma {:induction false} WitnessIsWatched(env: Env, initial: seq<Rule>, ops: seq<Op>, s: seq<Slot>, k: int, i: int,
                                            j: int, n: nat)
    requires Overtakes(s, k, i, j) && initial == [Always(s[i].now - s[k].now)] && IsWitness(ops, s, k, j)
    requires n <= |ops| == |s|
    ensures Watched(Run(env, initial, ops[..n]), s, k, i, j, n)
    decreases n
  {
    hide *;
    if n == 0 {
      RunNone(env, initial, ops);
      StartIsWatched(s, k, i, j, initial);
    } else {
      WitnessIsWatched(env, initial, ops, s, k, i, j, n - 1);
      RunNext(env, initial, ops, n - 1);
      WitnessOpAt(ops, s, k, j, n - 1);
      WatchedNext(env, Run(env, initial, ops[..n - 1]), s, k, i, j, n - 1);
    }
  }

  /** Two evaluations overtaken by a purge: one rule and one user at both of them are enough to break the spacing. */
  lemma OvertakenPurgeBreaks(env: Env, s: seq<Slot>, k: int, i: int, j: int) returns (initial: seq<Rule>, ops: seq<Op>)
    requires Overtakes(s, k, i, j)
    ensures Schedule(ops) == s && !Spaced(Run(env, initial, ops).log)
  {
    initial, ops := [Always(s[i].now - s[k].now)], Witness(s, k, j);
    assert ops[..|s|] == ops;
    WitnessIsWatched(env, initial, ops, s, k, i, j, |s|);
    hide Spaced, Run;
  }

  /** The spacing holds of every run with a schedule exactly when no purge of the schedule overtakes two evaluations. */
  lemma SpacingIff(env: Env, s: seq<Slot>)
    ensures (forall initial, ops :: Schedule(ops) == s ==> Spaced(Run(env, initial, ops).log)) <==> !Overtaken(s)
  {
    if Overtaken(s) {
      var k, i, j :| Overtakes(s, k, i, j);
      var initial, ops := OvertakenPurgeBreaks(env, s, k, i, j);
    } else {
      forall initial, ops | Schedule(ops) == s ensures Spaced(Run(env, initial, ops).log) {
        CooldownSpacing(env, initial, ops);
      }
    }
  }

  /** A purge changes no later answer of the gate exactly when no deadline lies between that time and the purge. */
  lemma PurgeInvisibleIff(g: Gate, purge: int, now: int)
    ensures (forall key :: Allows(Purged(g, purge), key, now) <==> Allows(g, key, now)) <==>
            (forall key :: key in g ==> !(now < g[key] <= purge))
  {
    if forall key :: Allows(Purged(g, purge), key, now) <==> Allows(g, key, now) {
      forall key | key in g ensures !(now < g[key] <= purge) {
        assert Allows(Purged(g, purge), key, now) <==> Allows(g, key, now);
      }
    }
  }

  // ----- How often a key can fire -----

  ghost function FiresIn(log: seq<Fire>, key: GateKey, era: nat, from: int, span: int): set<nat> {
    set i | 0 <= i < |log| && log[i].key == key && log[i].era == era && from <= log[i].at <= from + span
  }

  /** `n` fires at least `c` apart fit in a span. */
  predicate Fits(n: nat, span: int, c: nat) { c * (n - 1) <= span }

  lemma FitsFew(n: nat, span: nat, c: nat)
    requires n <= 1
    ensures Fits(n, span, c)
  {
  }

  lemma FitsOneMore(n: nat, rest: int, span: int, c: nat)
    requires Fits(n, rest, c) && rest + c <= span
    ensures Fits(n + 1, span, c)
  {
  }

  ghost predicate CooldownsAtLeast(log: seq<Fire>, key: GateKey, c: nat) {
    forall i :: 0 <= i < |log| && log[i].key == key ==> log[i].cooldown >= c
  }

  lemma {:induction false} FiresFitInSpan(log: seq<Fire>, key: GateKey, era: nat, from: int, span: nat, c: nat)
    requires Spaced(log) && CooldownsAtLeast(log, key, c) && c > 0
    ensures Fits(|FiresIn(log, key, era, from, span)|, span, c)
    decreases |log|
  {
    hide *;
    if log == [] {
      NoFires(key, era, from, span);
      FitsFew(0, span, c);
    } else {
      var last, rest := log[|log| - 1], log[|log| - 1].at - c - from;
      InitIsSpaced(log, key, c);
      CountLast(log, key, era, from, span, c);
      if |log| - 1 !in FiresIn(log, key, era, from, span) {
        FiresFitInSpan(log[..|log| - 1], key, era, from, span, c);
      } else if rest < 0 {
        FitsFew(1, span, c);
      } else {
        FiresFitInSpan(log[..|log| - 1], key, era, from, rest, c);
        FitsOneMore(|FiresIn(log[..|log| - 1], key, era, from, rest)|, rest, span, c);
      }
    }
  }

  lemma NoFires(key: GateKey, era: nat, from: int, span: int)
    ensures |FiresIn([], key, era, from, span)| == 0
  {
  }

  lemma InitIsSpaced(log: seq<Fire>, key: GateKey, c: nat)
    requires Spaced(log) && log != [] && CooldownsAtLeast(log, key, c)
    ensures Spaced(log[..|log| - 1]) && CooldownsAtLeast(log[..|log| - 1], key, c)
  {
  }

  lemma FiresExceptLast(log: seq<Fire>, key: GateKey, era: nat, from: int, span: nat, c: nat, i: nat)
    requires Spaced(log) && CooldownsAtLeast(log, key, c) && c > 0 && log != []
      && |log| - 1 in FiresIn(log, key, era, from, span)
    ensures i in FiresIn(log, key, era, from, span) <==>
              i == |log| - 1 || i in FiresIn(log[..|log| - 1], key, era, from, log[|log| - 1].at - c - from)
  {
  }

  lemma FiresOutsideLast(log: seq<Fire>, key: GateKey, era: nat, from: int, span: nat, i: nat)
    requires log != [] && |log| - 1 !in FiresIn(log, key, era, from, span)
    ensures i in FiresIn(log, key, era, from, span) <==> i in FiresIn(log[..|log| - 1], key, era, from, span)
  {
  }

  lemma LastFireFacts(log: seq<Fire>, key: GateKey, era: nat, from: int, span: nat, rest: int)
    requires log != []
    ensures |log| - 1 in FiresIn(log, key, era, from, span) ==> log[|log| - 1].at <= from + span
    ensures |log| - 1 !in FiresIn(log[..|log| - 1], key, era, from, rest)
    ensures rest < 0 ==> FiresIn(log[..|log| - 1], key, era, from, rest) == {}
  {
  }

  /** The last fire leaves the others a span shorter by the cooldown. */
  lemma CountLast(log: seq<Fire>, key: GateKey, era: nat, from: int, span: nat, c: nat)
    requires Spaced(log) && CooldownsAtLeast(log, key, c) && c > 0 && log != []
    ensures var n := |log| - 1;
            var rest := log[n].at - c - from;
            var fires := FiresIn(log, key, era, from, span);
            if n !in fires then fires == FiresIn(log[..n], key, era, from, span)
            else rest + c <= span && |fires| == if rest < 0 then 1 else |FiresIn(log[..n], key, era, from, rest)| + 1
  {
    hide *;
    var n := |log| - 1;
    var rest := log[n].at - c - from;
    var here, others := FiresIn(log, key, era, from, span), FiresIn(log[..n], key, era, from, rest);
    LastFireFacts(log, key, era, from, span, rest);
    if n in here {
      forall i: nat ensures i in here <==> i == n || i in others { FiresExceptLast(log, key, era, from, span, c, i); }
      assert here == others + {n};
    } else {
      forall i: nat
        ensures i in here <==> i in FiresIn(log[..n], key, era, from, span)
      {
        FiresOutsideLast(log, key, era, from, span, i);
      }
    }
  }

  /** With a cooldown of at least `c`, a key fires at most span/c + 1 times in any span of that length. */
  lemma FiresPerSpan(env: Env, initial: seq<Rule>, ops: seq<Op>, key: GateKey, era: nat, from: int, span: nat, c: nat)
    requires !Overtaken(Schedule(ops)) && c > 0
    requires forall f :: f in Run(env, initial, ops).log && f.key == key ==> f.cooldown >= c
    ensures |FiresIn(Run(env, initial, ops).log, key, era, from, span)| <= span / c + 1
  {
    CooldownSpacing(env, initial, ops);
    hide Run, Spaced, FiresIn, Fits;
    assert CooldownsAtLeast(Run(env, initial, ops).log, key, c);
    FiresFitInSpan(Run(env, initial, ops).log, key, era, from, span, c);
    AtMostQuotient(|FiresIn(Run(env, initial, ops).log, key, era, from, span)|, span, c);
  }

  lemma AtMostQuotient(n: nat, span: nat, c: nat)
    requires c > 0 && Fits(n, span, c)
    ensures n <= span / c + 1
  {
    var q := span / c;
    assert span == c * q + span % c;
    if n - 1 > q { MulMono(c, q + 1, n - 1); }
  }

  lemma MulMono(c: nat, a: int, b: int)
    requires a <= b
    ensures c * a <= c * b
  {
  }
}
