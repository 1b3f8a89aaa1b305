/** Rule evaluation behind a cooldown gate (internal/rules/engine.go).

    Times and durations are integers on one scale; the clock is an input and may run backwards. */
module Engine {
  import opened Options
  import opened Snapshots
  import opened Predicates
  import opened Expr

  datatype FireSpec = FireSpec(actionTemplate: string, destination: string, cooldownSecs: int)

  datatype Rule = Rule(id: nat, name: string, persona: string, when: Option<Expr>, fire: FireSpec, cooldown: int,
           enabled: bool)

  datatype Match = Match(ruleID: nat, ruleName: string, persona: string, firedAt: int, anonymous: string,
                         fire: FireSpec, snapshot: Snapshot)

  function MatchOf(r: Rule, s: Snapshot, now: int): Match {
    Match(r.id, r.name, r.persona, now, s.anonID, r.fire, s)
  }

  // ----- The gate -----

  datatype GateKey = GateKey(anonID: string, rule: string)

  /** For each key the time before which it may not fire again. */
  type Gate = map<GateKey, int>

  predicate Allows(g: Gate, key: GateKey, now: int) { key in g ==> g[key] <= now }

  function Marked(g: Gate, key: GateKey, now: int, cooldown: int): Gate {
    if cooldown <= 0 then g else g[key := now + cooldown]
  }

  function Purged(g: Gate, now: int): Gate { map k | k in g && now < g[k] :: g[k] }

  class MemoryCooldownGate {
    var state: Gate

    constructor ()
      ensures state == map[]
    {
      state := map[];
    }

    method Allow(anonID: string, rule: string, now: int) returns (ok: bool)
      ensures ok == Allows(state, GateKey(anonID, rule), now)
    {
      var last := Lookup(state, GateKey(anonID, rule));
      if last.None? { return true; }
      return !(now < last.value);
    }

    method Mark(anonID: string, rule: string, now: int, cooldown: int)
      modifies this
      ensures state == Marked(old(state), GateKey(anonID, rule), now, cooldown)
    {
      if cooldown <= 0 { return; }
      state := state[GateKey(anonID, rule) := now + cooldown];
    }

    method Purge(now: int) returns (n: nat)
      modifies this
      ensures state == Purged(old(state), now) && n == |old(state)| - |state|
    {
      n := 0;
      var todo := state.Keys;
      while todo != {}
        invariant todo <= old(state).Keys && todo <= state.Keys
        invariant state == map k | k in old(state) && (k in todo || now < old(state)[k]) :: old(state)[k]
        invariant n == |old(state)| - |state|
      {
        var k :| k in todo;
        ghost var before := state;
        todo := todo - {k};
        if !(now < state[k]) {
          state := state - {k};
          assert before.Keys == state.Keys + {k};
          n := n + 1;
        }
      }
    }

    method Reset() returns (n: nat)
      modifies this
      ensures state == map[] && n == |old(state)|
    {
      n := |state|;
      state := map[];
    }
  }

  // ----- One evaluation -----

  /** The rule applies to this persona and path, and its condition holds. */
  predicate Due(env: Env, r: Rule, s: Snapshot, persona: string, now: int, timeOnly: bool) {
    && r.enabled
    && (r.persona == "" || persona == "" || r.persona == persona)
    && r.when.Some? && (timeOnly ==> UsesTime(r.when.value))
    && Eval(r.when.value, env, s, now)
  }

  /** Which rules fire, in list order, and the gate afterwards. */
  datatype Swept = Swept(fired: seq<Rule>, gate: Gate)

  function Sweep(env: Env, rules: seq<Rule>, g: Gate, s: Snapshot, persona: string, now: int, timeOnly: bool): Swept {
    if rules == [] then Swept([], g) else
    var before, r := Sweep(env, rules[..|rules| - 1], g, s, persona, now, timeOnly), rules[|rules| - 1];
    var key := GateKey(s.anonID, r.name);
    if Due(env, r, s, persona, now, timeOnly) && Allows(before.gate, key, now)
    then Swept(before.fired + [r], Marked(before.gate, key, now, r.cooldown))
    else before
  }

  function MatchesOf(fired: seq<Rule>, s: Snapshot, now: int): seq<Match> {
    seq(|fired|, i requires 0 <= i < |fired| => MatchOf(fired[i], s, now))
  }

  class Engine {
    var rules: seq<Rule>
    const gate: MemoryCooldownGate

    constructor (initial: seq<Rule>, cooldown: MemoryCooldownGate)
      ensures rules == initial && gate == cooldown
    {
      rules, gate := initial, cooldown;
    }

    method Replace(list: seq<Rule>)
      modifies this
      ensures rules == list
    {
      rules := list;
    }

    /** `loaded` is what the loader gave, `None` when it failed. */
    method Reload(loaded: Option<seq<Rule>>)
      modifies this
      ensures rules == if loaded.Some? then loaded.value else old(rules)
    {
      if loaded.None? { return; }
      Replace(loaded.value);
    }

    method EvaluateOnEvent(env: Env, s: Snapshot, persona: string, now: int) returns (matches: seq<Match>)
      modifies gate
      ensures var swept := Sweep(env, rules, old(gate.state), s, persona, now, false);
              matches == MatchesOf(swept.fired, s, now) && gate.state == swept.gate
    {
      matches := Evaluate(env, s, persona, now, false);
    }

    method EvaluateOnTick(env: Env, s: Snapshot, persona: string, now: int) returns (matches: seq<Match>)
      modifies gate
      ensures var swept := Sweep(env, rules, old(gate.state), s, persona, now, true);
              matches == MatchesOf(swept.fired, s, now) && gate.state == swept.gate
    {
      matches := Evaluate(env, s, persona, now, true);
    }

    method Evaluate(env: Env, s: Snapshot, persona: string, now: int, timeOnly: bool) returns (matches: seq<Match>)
      modifies gate
      ensures var swept := Sweep(env, rules, old(gate.state), s, persona, now, timeOnly);
              matches == MatchesOf(swept.fired, s, now) && gate.state == swept.gate
      ensures forall m :: m in matches ==>
                exists r :: (
                  && r in rules && m.ruleID == r.id && m.ruleName == r.name && m.persona == r.persona
                  && m.fire == r.fire && m.firedAt == now && m.anonymous == s.anonID && m.snapshot == s
                  && r.enabled && (r.persona == "" || persona == "" || r.persona == persona)
                  && r.when.Some? && Eval(r.when.value, env, s, now) && (timeOnly ==> UsesTime(r.when.value))
                  && Allows(old(gate.state), GateKey(s.anonID, r.name), now))
    {
      hide Eval, UsesTime, Marked;
      matches := [];
      for i := 0 to |rules|
        invariant var swept := Sweep(env, rules[..i], old(gate.state), s, persona, now, timeOnly);
                  matches == MatchesOf(swept.fired, s, now) && gate.state == swept.gate
      {
        var r := rules[i];
        assert rules[..i + 1][..i] == rules[..i];
        if !r.enabled { continue; }
        if r.persona != "" && persona != "" && r.persona != persona { continue; }
        if timeOnly && r.when.Some? && !UsesTime(r.when.value) { continue; }
        if r.when.None? { continue; }
        if !Eval(r.when.value, env, s, now) { continue; }
        var allowed := gate.Allow(s.anonID, r.name, now);
        if !allowed { continue; }
        gate.Mark(s.anonID, r.name, now, r.cooldown);
        matches := matches + [MatchOf(r, s, now)];
      }
      assert rules[..|rules|] == rules;
      OnlyEligibleFire(env, rules, old(gate.state), s, persona, now, timeOnly);
    }

    method PurgeCooldowns() returns (n: nat)
      modifies gate
      ensures gate.state == map[] && n == |old(gate.state)|
    {
      n := gate.Reset();
    }
  }

  // ----- The tick path -----

  function TimeDependent(rules: seq<Rule>): seq<Rule> {
    if rules == [] then [] else
    var before, r := TimeDependent(rules[..|rules| - 1]), rules[|rules| - 1];
    if r.when.Some? && UsesTime(r.when.value) then before + [r] else before
  }

  /** A tick is an event evaluation of just the time-dependent rules: same fires, same gate. */
  lemma {:induction false} TickIsEventOnTimeDependent(env: Env, rules: seq<Rule>, g: Gate, s: Snapshot,
                                                      persona: string, now: int)
    ensures Sweep(env, rules, g, s, persona, now, true) == Sweep(env, TimeDependent(rules), g, s, persona, now, false)
  {
    if rules != [] {
      var init, r := rules[..|rules| - 1], rules[|rules| - 1];
      TickIsEventOnTimeDependent(env, init, g, s, persona, now);
      var kept := TimeDependent(init);
      assert (kept + [r])[..|kept|] == kept;
    }
  }

  /** A rule whose condition turns true on an unchanged window is one the tick looks at. */
  lemma TurningTrueIsSeenByTick(env: Env, e: Expr, s: Snapshot, before: int, now: int)
    requires Wired(e, env) && !Eval(e, env, s, before) && Eval(e, env, s, now)
    ensures UsesTime(e)
  {
  }

  // ----- Which rules fire -----

  /** Only rules of the list fire that are enabled, meant for the persona, hold at this time, use the time if only such
      are asked for, and were off cooldown before. */
  lemma {:induction false} OnlyEligibleFire(env: Env, rules: seq<Rule>, g: Gate, s: Snapshot, persona: string, now: int,
                                            timeOnly: bool)
    ensures forall f :: f in Sweep(env, rules, g, s, persona, now, timeOnly).fired ==>
              && f in rules && f.enabled && (f.persona == "" || persona == "" || f.persona == persona)
              && f.when.Some? && Eval(f.when.value, env, s, now) && (timeOnly ==> UsesTime(f.when.value))
              && Allows(g, GateKey(s.anonID, f.name), now)
  {
    hide Eval, UsesTime;
    if rules != [] {
      var init, r := rules[..|rules| - 1], rules[|rules| - 1];
      OnlyEligibleFire(env, init, g, s, persona, now, timeOnly);
      GateAfterSweep(env, init, g, s, persona, now, timeOnly, r.name);
    }
  }

  /** A rule of this name with a cooldown is among those that fired. */
  ghost predicate Cools(fired: seq<Rule>, name: string) { exists f :: f in fired && f.name == name && f.cooldown > 0 }

  /** A sweep closes the gate to just the names of which a rule with a cooldown fired. */
  lemma {:induction false} GateAfterSweep(env: Env, rules: seq<Rule>, g: Gate, s: Snapshot, persona: string, now: int,
                                          timeOnly: bool, name: string)
    ensures var swept := Sweep(env, rules, g, s, persona, now, timeOnly);
            Allows(swept.gate, GateKey(s.anonID, name), now) <==>
              Allows(g, GateKey(s.anonID, name), now) && !Cools(swept.fired, name)
  {
    hide Due;
    if rules != [] {
      var init, r := rules[..|rules| - 1], rules[|rules| - 1];
      GateAfterSweep(env, init, g, s, persona, now, timeOnly, name);
      var before := Sweep(env, init, g, s, persona, now, timeOnly);
      var after := Sweep(env, rules, g, s, persona, now, timeOnly);
      CoolsMore(before.fired, r, name);
      hide Cools;
      if after != before { assert after.fired == before.fired + [r]; }
    }
  }

  lemma CoolsMore(fired: seq<Rule>, r: Rule, name: string)
    ensures Cools(fired + [r], name) <==> Cools(fired, name) || (r.name == name && r.cooldown > 0)
  {
    if r.name == name && r.cooldown > 0 { assert r in fired + [r]; }
    if f :| f in fired && f.name == name && f.cooldown > 0 { assert f in fired + [r]; }
  }

  /** Exactly when the last rule of a list fires: it is enabled, meant for the persona, holds now, uses the time if that
      is asked for, its key was off cooldown before the evaluation, and no rule of its name with a cooldown has fired
      before it in this evaluation. */
  lemma LastRuleFiresIff(env: Env, rules: seq<Rule>, r: Rule, g: Gate, s: Snapshot, persona: string, now: int,
                         timeOnly: bool)
    ensures var before := Sweep(env, rules, g, s, persona, now, timeOnly).fired;
            Sweep(env, rules + [r], g, s, persona, now, timeOnly).fired == before +
              if r.enabled && (r.persona == "" || persona == "" || r.persona == persona)
                && r.when.Some? && Eval(r.when.value, env, s, now) && (timeOnly ==> UsesTime(r.when.value))
                && Allows(g, GateKey(s.anonID, r.name), now)
                && !exists f :: f in before && f.name == r.name && f.cooldown > 0
              then [r] else []
  {
    assert (rules + [r])[..|rules|] == rules;
    GateAfterSweep(env, rules, g, s, persona, now, timeOnly, r.name);
    hide Eval, UsesTime, Marked;
  }

  /** An enabled rule for this persona that holds now and whose key is off cooldown fires, or an earlier rule of the
      same name does. */
  lemma {:induction false} DueKeyFires(env: Env, rules: seq<Rule>, g: Gate, s: Snapshot, persona: string, now: int,
                                       timeOnly: bool, r: Rule)
    requires r in rules && r.enabled && (r.persona == "" || persona == "" || r.persona == persona)
    requires r.when.Some? && Eval(r.when.value, env, s, now) && (timeOnly ==> UsesTime(r.when.value))
    requires Allows(g, GateKey(s.anonID, r.name), now)
    ensures exists f :: f in Sweep(env, rules, g, s, persona, now, timeOnly).fired && f.name == r.name
  {
    var init, last := rules[..|rules| - 1], rules[|rules| - 1];
    var before := Sweep(env, init, g, s, persona, now, timeOnly);
    var after := Sweep(env, rules, g, s, persona, now, timeOnly);
    if r in init {
      DueKeyFires(env, init, g, s, persona, now, timeOnly, r);
      var f :| f in before.fired && f.name == r.name;
      assert f in after.fired;
    } else {
      GateAfterSweep(env, init, g, s, persona, now, timeOnly, r.name);
      assert r == last;
      if Allows(before.gate, GateKey(s.anonID, r.name), now) { assert r in after.fired; }
      else {
        var f :| f in before.fired && f.name == r.name;
        assert f in after.fired;
      }
    }
  }
}
