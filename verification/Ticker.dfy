/** The idle tick: what one scan fires, and that no ripening rule is missed (cmd/realtime-trigger/runtime_pipeline.go).
    */
module Ticker {
  import opened Options
  import opened Window
  import opened Snapshots
  import opened Event
  import opened Lru
  import opened Store
  import opened Predicates
  import opened Expr
  import opened Engine
  import opened Service

  /** The rule is enabled and meant for one of the probed personas. */
  predicate Listening(r: Rule) { r.enabled && r.when.Some? && (r.persona == "" || r.persona in PERSONAS) }

  /** Evaluating personas in turn closes the gate to just the names of which a rule with a cooldown fired. */
  lemma {:induction false} PersonasGate(env: Env, rules: seq<Rule>, g: Gate, s: Snapshot, now: int, timeOnly: bool,
                                        personas: seq<string>, name: string)
    ensures var swept := SweepPersonas(env, rules, g, s, now, timeOnly, personas);
            Allows(swept.gate, GateKey(s.anonID, name), now) <==>
              Allows(g, GateKey(s.anonID, name), now) && !Cools(swept.fired, name)
  {
    if personas != [] {
      var init, p := personas[..|personas| - 1], personas[|personas| - 1];
      PersonasGate(env, rules, g, s, now, timeOnly, init, name);
      var before := SweepPersonas(env, rules, g, s, now, timeOnly, init);
      GateAfterSweep(env, rules, before.gate, s, p, now, timeOnly, name);
      CoolsConcat(before.fired, Sweep(env, rules, before.gate, s, p, now, timeOnly).fired, name);
      hide Cools, Sweep, Allows;
    }
  }

  lemma CoolsConcat(xs: seq<Rule>, ys: seq<Rule>, name: string)
    ensures Cools(xs + ys, name) <==> Cools(xs, name) || Cools(ys, name)
  {
    if f :| f in xs && f.name == name && f.cooldown > 0 { assert f in xs + ys; }
    if f :| f in ys && f.name == name && f.cooldown > 0 { assert f in xs + ys; }
  }

  /** Only enabled rules of the list fire that are meant for one of the personas, hold at this time, use the time if
      only such are asked for, and were off cooldown before. */
  lemma {:induction false} PersonasFireOnlyEligible(env: Env, rules: seq<Rule>, g: Gate, s: Snapshot, now: int,
                                                    timeOnly: bool, personas: seq<string>)
    ensures forall f :: f in SweepPersonas(env, rules, g, s, now, timeOnly, personas).fired ==>
              && f in rules && f.enabled && (f.persona == "" || f.persona in personas || "" in personas)
              && f.when.Some? && Eval(f.when.value, env, s, now) && (timeOnly ==> UsesTime(f.when.value))
              && Allows(g, GateKey(s.anonID, f.name), now)
  {
    hide Eval, UsesTime, Sweep;
    if personas != [] {
      var init, p := personas[..|personas| - 1], personas[|personas| - 1];
      PersonasFireOnlyEligible(env, rules, g, s, now, timeOnly, init);
      var before := SweepPersonas(env, rules, g, s, now, timeOnly, init);
      OnlyEligibleFire(env, rules, before.gate, s, p, now, timeOnly);
      forall name | Allows(before.gate, GateKey(s.anonID, name), now) ensures Allows(g, GateKey(s.anonID, name), now) {
        PersonasGate(env, rules, g, s, now, timeOnly, init, name);
      }
      hide Allows;
    }
  }

  /** Evaluating personas in turn fires the key of a due rule, if the key was off cooldown. */
  lemma {:induction false} PersonasFireDueKey(env: Env, rules: seq<Rule>, g: Gate, s: Snapshot, now: int,
                                              timeOnly: bool, personas: seq<string>, r: Rule)
    requires r in rules && r.enabled && r.when.Some? && Eval(r.when.value, env, s, now)
             && (timeOnly ==> UsesTime(r.when.value))
    requires Allows(g, GateKey(s.anonID, r.name), now) && (r.persona in personas || (r.persona == "" && personas != []))
    ensures exists f :: f in SweepPersonas(env, rules, g, s, now, timeOnly, personas).fired && f.name == r.name
  {
    var init, p := personas[..|personas| - 1], personas[|personas| - 1];
    var before := SweepPersonas(env, rules, g, s, now, timeOnly, init);
    var last := Sweep(env, rules, before.gate, s, p, now, timeOnly);
    if r.persona in init || (r.persona == "" && init != []) {
      PersonasFireDueKey(env, rules, g, s, now, timeOnly, init, r);
      var f :| f in before.fired && f.name == r.name;
      assert f in before.fired + last.fired;
    } else {
      PersonasGate(env, rules, g, s, now, timeOnly, init, r.name);
      if Allows(before.gate, GateKey(s.anonID, r.name), now) {
        DueKeyFires(env, rules, before.gate, s, p, now, timeOnly, r);
        var f :| f in last.fired && f.name == r.name;
        assert f in before.fired + last.fired;
      } else {
        var f :| f in before.fired && f.name == r.name;
        assert f in before.fired + last.fired;
      }
    }
  }

  // ----- When a condition ripens -----

  /** From `ripe` on, and at no time between `before` and it, the condition holds. */
  ghost predicate RipensAt(e: Expr, env: Env, s: Snapshot, before: int, ripe: int) {
    before < ripe && forall t :: before <= t ==> (Eval(e, env, s, t) <==> ripe <= t)
  }

  /** A condition that can only ripen, false at one time and true at a later one, turns true at one time. */
  lemma {:induction false} RipeTime(e: Expr, env: Env, s: Snapshot, before: int, late: int) returns (ripe: int)
    requires Wired(e, env) && Ripening(e) && before <= late
    requires !Eval(e, env, s, before) && Eval(e, env, s, late)
    ensures ripe <= late && forall q :: RipensAt(e, env, s, before, q) <==> q == ripe
    decreases late - before
  {
    if Eval(e, env, s, late - 1) {
      ripe := RipeTime(e, env, s, before, late - 1);
    } else {
      ripe := late;
      forall t | before <= t ensures Eval(e, env, s, t) <==> late <= t {
        if late <= t {
          RipeStays(e, env, s, late, t);
        } else if Eval(e, env, s, t) {
          RipeStays(e, env, s, t, late - 1);
        }
      }
      forall q ensures RipensAt(e, env, s, before, q) <==> q == late {
        if RipensAt(e, env, s, before, q) { assert Eval(e, env, s, q) && !Eval(e, env, s, q - 1); }
      }
    }
  }

  // ----- What leaves a key alone -----

  predicate SameEntry(g: Gate, g': Gate, key: GateKey) { (key in g <==> key in g') && (key in g ==> g[key] == g'[key]) }

  /** Another user's snapshot, or one of which no rule of this name holds. */
  ghost predicate Beside(env: Env, rules: seq<Rule>, s: Snapshot, now: int, key: GateKey) {
    s.anonID != key.anonID
    || forall q :: q in rules && q.name == key.rule && q.when.Some? ==> !Eval(q.when.value, env, s, now)
  }

  lemma {:induction false} SweepLeavesKey(env: Env, rules: seq<Rule>, g: Gate, s: Snapshot, persona: string, now: int,
                                          timeOnly: bool, key: GateKey)
    requires Beside(env, rules, s, now, key)
    ensures var swept := Sweep(env, rules, g, s, persona, now, timeOnly);
            SameEntry(g, swept.gate, key) && (s.anonID == key.anonID ==> forall f :: f in swept.fired ==>
              f.name != key.rule)
  {
    if rules != [] {
      assert Beside(env, rules[..|rules| - 1], s, now, key);
      SweepLeavesKey(env, rules[..|rules| - 1], g, s, persona, now, timeOnly, key);
    }
  }

  lemma {:induction false} PersonasLeaveKey(env: Env, rules: seq<Rule>, g: Gate, s: Snapshot, now: int, timeOnly: bool,
                                            personas: seq<string>, key: GateKey)
    requires Beside(env, rules, s, now, key)
    ensures var swept := SweepPersonas(env, rules, g, s, now, timeOnly, personas);
            SameEntry(g, swept.gate, key) && (s.anonID == key.anonID ==> forall f :: f in swept.fired ==>
              f.name != key.rule)
  {
    hide Beside, Sweep;
    if personas != [] {
      var init := personas[..|personas| - 1];
      PersonasLeaveKey(env, rules, g, s, now, timeOnly, init, key);
      var before := SweepPersonas(env, rules, g, s, now, timeOnly, init);
      SweepLeavesKey(env, rules, before.gate, s, personas[|personas| - 1], now, timeOnly, key);
    }
  }

  // ----- Fires of a key over a run -----

  /** Between two moments of a run the key fired. */
  ghost predicate FiredSince(c: Served, c': Served, key: GateKey) {
    exists i :: |c.firings| <= i < |c'.firings| && GateKey(c'.firings[i].anonID, c'.firings[i].rule.name) == key
  }

  lemma FiredInTwo(c: Served, mid: Served, c': Served, key: GateKey)
    requires c.firings <= mid.firings <= c'.firings
    ensures FiredSince(c, c', key) <==> FiredSince(c, mid, key) || FiredSince(mid, c', key)
  {
  }

  lemma ProbeFired(env: Env, c: Served, id: string, s: Snapshot, now: int, timeOnly: bool, key: GateKey)
    ensures var c', fired := Probe(env, c, id, s, now, timeOnly),
            SweepPersonas(env, c.rules, c.gate, s, now, timeOnly, PERSONAS).fired;
            c.firings <= c'.firings && (FiredSince(c, c', key) <==>
              id == key.anonID && exists f :: f in fired && f.name == key.rule)
  {
    var c', fired := Probe(env, c, id, s, now, timeOnly),
        SweepPersonas(env, c.rules, c.gate, s, now, timeOnly, PERSONAS).fired;
    hide SweepPersonas;
    if FiredSince(c, c', key) {
      var i :| |c.firings| <= i < |c'.firings| && GateKey(c'.firings[i].anonID, c'.firings[i].rule.name) == key;
      assert fired[i - |c.firings|] in fired;
    }
    if id == key.anonID && exists f :: f in fired && f.name == key.rule {
      var i :| 0 <= i < |fired| && fired[i].name == key.rule;
      assert c'.firings[|c.firings| + i] == Firing(id, fired[i], now);
    }
  }

  /** A snapshot that leaves the key alone neither fires it nor moves its deadline. */
  lemma ProbeLeavesKey(env: Env, c: Served, id: string, s: Snapshot, now: int, timeOnly: bool, key: GateKey)
    requires s.anonID == id && Beside(env, c.rules, s, now, key)
    ensures var c' := Probe(env, c, id, s, now, timeOnly);
            c.firings <= c'.firings && !FiredSince(c, c', key) && SameEntry(c.gate, c'.gate, key)
  {
    hide Beside, FiredSince, SameEntry;
    PersonasLeaveKey(env, c.rules, c.gate, s, now, timeOnly, PERSONAS, key);
    ProbeFired(env, c, id, s, now, timeOnly, key);
  }

  // ----- A silent window -----

  /** `r` is the one rule of its name in the list, and meant for a probed persona. */
  ghost predicate Sole(rules: seq<Rule>, r: Rule) {
    r in rules && Listening(r) && forall q :: q in rules && q.name == r.name ==> q == r
  }

  ghost predicate Keyed(wins: map<string, Win>) { forall id :: id in wins ==> wins[id].anonID == id }

  /** The service holds window `w` for the user and has the rule loaded. */
  ghost predicate Holding(c: Served, id: string, w: Win, r: Rule) {
    id in c.flat.wins && c.flat.wins[id] == w && Sole(c.rules, r)
  }

  ghost predicate Watching(c: Served, id: string, w: Win, r: Rule) { Holding(c, id, w, r) && Keyed(c.flat.wins) }

  /** The rule's condition is false of the window at `before` and can only ripen. */
  ghost predicate Unripe(env: Env, w: Win, r: Rule, before: int) {
    r.when.Some? && Wired(r.when.value, env) && Ripening(r.when.value) && !Eval(r.when.value, env, Take(w), before)
  }

  /** The scan comes to the window a second or more after its last event, at a time when the condition holds. */
  ghost predicate Reaches(env: Env, id: string, w: Win, e: Expr, scan: int, looks: seq<Look>) {
    && scan - w.lastSeen >= SECOND
    && exists i :: 0 <= i < |looks| && looks[i].id == id && Eval(e, env, Take(w), looks[i].now)
  }

  ghost predicate LooksFrom(looks: seq<Look>, id: string, before: int) {
    forall i :: 0 <= i < |looks| && looks[i].id == id ==> before <= looks[i].now
  }

  lemma ViewVerdict(e: Expr, env: Env, w: Win, scan: int, now: int)
    ensures Eval(e, env, TakeAt(w, scan), now) == Eval(e, env, Take(w), now)
  {
    IdleFigureUnread(e, env, Take(w), TakeAt(w, scan).idleSeconds, now);
  }

  /** One look at the window: the key fires if the condition holds and is left alone if not. */
  lemma LookFires(env: Env, c: Served, id: string, w: Win, r: Rule, before: int, scan: int, now: int)
    requires Watching(c, id, w, r) && Unripe(env, w, r, before) && before <= now
             && Allows(c.gate, GateKey(id, r.name), before)
    ensures var c', key := Probe(env, c, id, TakeAt(w, scan), now, true), GateKey(id, r.name);
            && c.firings <= c'.firings
            && (FiredSince(c, c', key) <==> Eval(r.when.value, env, Take(w), now))
            && (Eval(r.when.value, env, Take(w), now) || SameEntry(c.gate, c'.gate, key))
  {
    var s, e, key := TakeAt(w, scan), r.when.value, GateKey(id, r.name);
    assert s.anonID == id;
    ViewVerdict(e, env, w, scan, now);
    hide TakeAt, Eval, FiredSince, SameEntry;
    if Eval(e, env, Take(w), now) {
      TurningTrueIsSeenByTick(env, e, Take(w), before, now);
      PersonasFireDueKey(env, c.rules, c.gate, s, now, true, PERSONAS, r);
      ProbeFired(env, c, id, s, now, true, key);
    } else {
      ProbeLeavesKey(env, c, id, s, now, true, key);
    }
  }

  ghost predicate Fires(c: Served, c': Served, key: GateKey, before: int, due: bool) {
    c.firings <= c'.firings && (FiredSince(c, c', key) <==> due) && (due || Allows(c'.gate, key, before))
  }

  lemma FiresNext(c: Served, mid: Served, c': Served, key: GateKey, before: int, due: bool, next: bool)
    requires Fires(c, mid, key, before, due) && mid.firings <= c'.firings
    requires !due ==> Fires(mid, c', key, before, next)
    ensures Fires(c, c', key, before, due || next)
  {
    hide FiredSince, Allows;
    FiredInTwo(c, mid, c', key);
  }

  lemma ReachesLast(env: Env, id: string, w: Win, e: Expr, scan: int, looks: seq<Look>)
    requires looks != []
    ensures var x := looks[|looks| - 1];
            Reaches(env, id, w, e, scan, looks) <==>
              Reaches(env, id, w, e, scan, looks[..|looks| - 1])
              || (scan - w.lastSeen >= SECOND && x.id == id && Eval(e, env, Take(w), x.now))
  {
    hide Eval, Take;
  }

  lemma LookStep(env: Env, c: Served, mid: Served, id: string, w: Win, r: Rule, before: int, scan: int, x: Look)
    requires Watching(c, id, w, r) && Unripe(env, w, r, before) && (x.id == id ==> before <= x.now)
    requires mid.rules == c.rules && mid.flat == c.flat
    ensures var c', key := if IdleAt(c.flat.wins, x.id, scan)
            then Probe(env, mid, x.id, TakeAt(c.flat.wins[x.id], scan), x.now, true) else mid,
                           GateKey(id, r.name);
            mid.firings <= c'.firings
            && (Allows(mid.gate, key, before) ==>
                  Fires(mid, c', key, before, scan - w.lastSeen >= SECOND && x.id == id
                    && Eval(r.when.value, env, Take(w), x.now)))
  {
    var key := GateKey(id, r.name);
    if IdleAt(c.flat.wins, x.id, scan) {
      var s := TakeAt(c.flat.wins[x.id], scan);
      assert s.anonID == x.id;
      ProbeFired(env, mid, x.id, s, x.now, true, key);
      if x.id != id { ProbeLeavesKey(env, mid, x.id, s, x.now, true, key); }
      else if Allows(mid.gate, key, before) { LookFires(env, mid, id, w, r, before, scan, x.now); }
    }
  }

  /** One scan fires the key of a silent window exactly if it reaches the window at a time when the condition holds. */
  lemma {:induction false} TickFires(env: Env, c: Served, id: string, w: Win, r: Rule, before: int, scan: int,
                                     looks: seq<Look>)
    requires Watching(c, id, w, r) && Unripe(env, w, r, before) && Allows(c.gate, GateKey(id, r.name), before)
    requires LooksFrom(looks, id, before)
    ensures Fires(c, Tick(env, c, scan, looks), GateKey(id, r.name), before,
            Reaches(env, id, w, r.when.value, scan, looks))
  {
    if looks != [] {
      var init, x, key := looks[..|looks| - 1], looks[|looks| - 1], GateKey(id, r.name);
      TickFires(env, c, id, w, r, before, scan, init);
      var mid := Tick(env, c, scan, init);
      ReachesLast(env, id, w, r.when.value, scan, looks);
      LookStep(env, c, mid, id, w, r, before, scan, x);
      hide Fires, Watching, Unripe, Reaches, Probe, TakeAt, IdleAt, Take;
      assert !Reaches(env, id, w, r.when.value, scan, init) ==> Allows(mid.gate, key, before) by {
        assert Fires(c, mid, key, before, Reaches(env, id, w, r.when.value, scan, init));
      }
      FiresNext(c, mid, Tick(env, c, scan, looks), key, before, Reaches(env, id, w, r.when.value, scan, init),
                scan - w.lastSeen >= SECOND && x.id == id && Eval(r.when.value, env, Take(w), x.now));
    }
  }

  // ----- Whole runs -----

  lemma ArrivalChangesWindow(w: Win, a: Arrival)
    ensures Fold1(w, a) != w && Fold1(w, a).anonID == w.anonID
  {
  }

  lemma ArriveKeyed(env: Env, cap: nat, c: Served, a: Arrival, now: int)
    requires Keyed(c.flat.wins)
    ensures Keyed(Arrive(env, cap, c, a, now).flat.wins)
  {
    hide Fold1, Probe, TakeAt;
    ArrivalChangesWindow(if Id(a) in c.flat.wins then c.flat.wins[Id(a)] else NewWin(Id(a), 0), a);
    assert Keyed(FlatStep(c.flat, cap, a).wins);
    assert Arrive(env, cap, c, a, now).flat == FlatStep(c.flat, cap, a) by { ProbeSameCache(env, cap, c, a, now); }
  }

  lemma ProbeSameCache(env: Env, cap: nat, c: Served, a: Arrival, now: int)
    ensures Arrive(env, cap, c, a, now).flat == FlatStep(c.flat, cap, a)
  {
  }

  lemma StepKeyed(env: Env, cap: nat, c: Served, x: Input)
    requires Keyed(c.flat.wins)
    ensures Keyed(ServeOne(env, cap, c, x).flat.wins)
  {
    if x.Arrived? { ArriveKeyed(env, cap, c, x.arrival, x.now); }
    hide Arrive, Tick;
  }

  lemma {:induction false} ServeKeyed(env: Env, cap: nat, initial: seq<Rule>, log: seq<Input>)
    ensures Keyed(Serve(env, cap, initial, log).flat.wins)
  {
    if log != [] {
      ServeKeyed(env, cap, initial, log[..|log| - 1]);
      hide Keyed, ServeOne;
      StepKeyed(env, cap, Serve(env, cap, initial, log[..|log| - 1]), log[|log| - 1]);
    }
  }

  /** An event that leaves the window in place is another user's, and leaves the key alone. */
  lemma ArriveLeavesKey(env: Env, cap: nat, c: Served, a: Arrival, now: int, id: string, w: Win, r: Rule, before: int)
    requires Watching(c, id, w, r) && Watching(Arrive(env, cap, c, a, now), id, w, r)
    requires Allows(c.gate, GateKey(id, r.name), before)
    ensures Fires(c, Arrive(env, cap, c, a, now), GateKey(id, r.name), before, false)
  {
    var flat, key := FlatStep(c.flat, cap, a), GateKey(id, r.name);
    ProbeSameCache(env, cap, c, a, now);
    if Id(a) != "" {
      ArrivalChangesWindow(w, a);
      assert Id(a) != id;
      if Id(a) in flat.wins {
        var s := TakeAt(flat.wins[Id(a)], now);
        assert s.anonID == Id(a);
        hide FlatStep, Probe, TakeAt, FiredSince;
        ProbeLeavesKey(env, c.(flat := flat), Id(a), s, now, false, key);
        FiredSameFirings(c, c.(flat := flat), Arrive(env, cap, c, a, now), key);
      }
    }
  }

  lemma FiredSameFirings(c: Served, d: Served, c': Served, key: GateKey)
    requires c.firings == d.firings
    ensures FiredSince(c, c', key) <==> FiredSince(d, c', key)
  {
  }

  ghost predicate TickReaches(env: Env, id: string, w: Win, e: Expr, x: Input) {
    x.Ticked? && Reaches(env, id, w, e, x.scan, x.looks)
  }

  lemma StepFires(env: Env, cap: nat, c: Served, x: Input, id: string, w: Win, r: Rule, before: int)
    requires Watching(c, id, w, r) && Watching(ServeOne(env, cap, c, x), id, w, r)
    requires Unripe(env, w, r, before) && Allows(c.gate, GateKey(id, r.name), before)
    requires x.Ticked? ==> LooksFrom(x.looks, id, before)
    ensures Fires(c, ServeOne(env, cap, c, x), GateKey(id, r.name), before, TickReaches(env, id, w, r.when.value, x))
  {
    match x
    case Arrived(arrival, now) => ArriveLeavesKey(env, cap, c, arrival, now, id, w, r, before);
    case Ticked(scan, looks) => TickFires(env, c, id, w, r, before, scan, looks);
    case _ =>
  }

  /** After `past`, the service holds the window all through `log`. */
  ghost predicate Silent(env: Env, cap: nat, initial: seq<Rule>, past: seq<Input>, log: seq<Input>, id: string, w: Win,
                         r: Rule) {
    forall n :: 0 <= n <= |log| ==> Holding(Serve(env, cap, initial, past + log[..n]), id, w, r)
  }

  ghost predicate ClockFrom(log: seq<Input>, id: string, before: int) {
    forall n :: 0 <= n < |log| && log[n].Ticked? ==> LooksFrom(log[n].looks, id, before)
  }

  ghost predicate AnyReaches(env: Env, id: string, w: Win, e: Expr, log: seq<Input>) {
    exists n :: 0 <= n < |log| && TickReaches(env, id, w, e, log[n])
  }

  lemma AnyReachesLast(env: Env, id: string, w: Win, e: Expr, log: seq<Input>)
    requires log != []
    ensures AnyReaches(env, id, w, e, log) <==>
              AnyReaches(env, id, w, e, log[..|log| - 1]) || TickReaches(env, id, w, e, log[|log| - 1])
  {
    hide TickReaches;
  }

  lemma SilentLast(env: Env, cap: nat, initial: seq<Rule>, past: seq<Input>, log: seq<Input>, id: string, w: Win,
                   r: Rule)
    requires Silent(env, cap, initial, past, log, id, w, r)
    ensures Holding(Serve(env, cap, initial, past + log), id, w, r)
    ensures log != [] ==>
              Silent(env, cap, initial, past, log[..|log| - 1], id, w, r)
              && Serve(env, cap, initial, past + log)
                 == ServeOne(env, cap, Serve(env, cap, initial, past + log[..|log| - 1]), log[|log| - 1])
  {
    hide Holding, ServeOne;
    assert log[..|log|] == log;
    if log != [] {
      var init := log[..|log| - 1];
      assert (past + log)[..|past + log| - 1] == past + init;
      forall n | 0 <= n <= |init| ensures Holding(Serve(env, cap, initial, past + init[..n]), id, w, r) {
        assert init[..n] == log[..n];
      }
    }
  }

  lemma {:induction false} SilentRunFires(env: Env, cap: nat, initial: seq<Rule>, past: seq<Input>, log: seq<Input>,
                                          id: string, w: Win, r: Rule, before: int)
    requires Silent(env, cap, initial, past, log, id, w, r) && Unripe(env, w, r, before) && ClockFrom(log, id, before)
    requires Allows(Serve(env, cap, initial, past).gate, GateKey(id, r.name), before)
    ensures Fires(Serve(env, cap, initial, past), Serve(env, cap, initial, past + log), GateKey(id, r.name), before,
                  AnyReaches(env, id, w, r.when.value, log))
    decreases |log|
  {
    if log == [] {
      assert past + log == past;
    } else {
      var init, x, key := log[..|log| - 1], log[|log| - 1], GateKey(id, r.name);
      SilentLast(env, cap, initial, past, log, id, w, r);
      SilentRunFires(env, cap, initial, past, init, id, w, r, before);
      SilentLast(env, cap, initial, past, init, id, w, r);
      var c, mid, c' := Serve(env, cap, initial, past), Serve(env, cap, initial, past + init),
          Serve(env, cap, initial, past + log);
      ServeKeyed(env, cap, initial, past + init);
      ServeKeyed(env, cap, initial, past + log);
      AnyReachesLast(env, id, w, r.when.value, log);
      assert Watching(mid, id, w, r) && Watching(c', id, w, r);
      hide Silent, Watching, Unripe, Serve, ServeOne, AnyReaches, TickReaches, FiredSince;
      StepKeepsFirings(env, cap, mid, x);
      if Allows(mid.gate, key, before) { StepFires(env, cap, mid, x, id, w, r, before); }
      FiresNext(c, mid, c', key, before, AnyReaches(env, id, w, r.when.value, init),
        TickReaches(env, id, w, r.when.value, x));
    }
  }

  lemma {:induction false} TickKeepsFirings(env: Env, c: Served, scan: int, looks: seq<Look>)
    ensures c.firings <= Tick(env, c, scan, looks).firings
  {
    if looks != [] { TickKeepsFirings(env, c, scan, looks[..|looks| - 1]); }
  }

  lemma StepKeepsFirings(env: Env, cap: nat, c: Served, x: Input)
    ensures c.firings <= ServeOne(env, cap, c, x).firings
  {
    if x.Ticked? { TickKeepsFirings(env, c, x.scan, x.looks); }
    hide Tick, FlatStep, SweepPersonas, TakeAt;
  }

  /** A tick looks at the window a second or more after its last event, at `ripe` or later. */
  ghost predicate LooksRipe(x: Input, id: string, w: Win, ripe: int) {
    && x.Ticked? && x.scan - w.lastSeen >= SECOND
    && exists i :: 0 <= i < |x.looks| && x.looks[i].id == id && ripe <= x.looks[i].now
  }

  /** A silent window: its rule is false at `before`, can only ripen and does so at some time. There is one time at
      which it turns true, and whatever else the service does meanwhile, the key of the rule fires exactly once a tick
      looks at the window, idle for a second, at that time or later: no later than the first such tick, and not before
      it. */
  lemma FirstRipeTickFires(env: Env, cap: nat, initial: seq<Rule>, past: seq<Input>, log: seq<Input>, id: string,
                           w: Win,
                           r: Rule, before: int, late: int) returns (ripe: int)
    requires Silent(env, cap, initial, past, log, id, w, r) && Unripe(env, w, r, before) && ClockFrom(log, id, before)
    requires Allows(Serve(env, cap, initial, past).gate, GateKey(id, r.name), before)
    requires before <= late && Eval(r.when.value, env, Take(w), late)
    ensures ripe <= late && forall q :: RipensAt(r.when.value, env, Take(w), before, q) <==> q == ripe
    ensures forall n :: 0 <= n <= |log| ==>
              (FiredSince(Serve(env, cap, initial, past), Serve(env, cap, initial, past + log[..n]),
                GateKey(id, r.name)) <==>
               exists i :: 0 <= i < n && LooksRipe(log[i], id, w, ripe))
  {
    var e := r.when.value;
    ripe := RipeTime(e, env, Take(w), before, late);
    forall n | 0 <= n <= |log|
      ensures FiredSince(Serve(env, cap, initial, past), Serve(env, cap, initial, past + log[..n]),
              GateKey(id, r.name)) <==>
              exists i :: 0 <= i < n && LooksRipe(log[i], id, w, ripe)
    {
      SilentPrefix(env, cap, initial, past, log, id, w, r, n);
      ReachesIffRipe(env, id, w, e, log[..n], before, ripe);
      SilentRunFires(env, cap, initial, past, log[..n], id, w, r, before);
      AnyRipePrefix(log, id, w, ripe, n);
    }
  }

  ghost predicate AnyRipe(log: seq<Input>, id: string, w: Win, ripe: int) {
    exists i :: 0 <= i < |log| && LooksRipe(log[i], id, w, ripe)
  }

  lemma AnyRipePrefix(log: seq<Input>, id: string, w: Win, ripe: int, n: nat)
    requires n <= |log|
    ensures AnyRipe(log[..n], id, w, ripe) <==> exists i :: 0 <= i < n && LooksRipe(log[i], id, w, ripe)
  {
    hide LooksRipe;
    if i :| 0 <= i < n && LooksRipe(log[i], id, w, ripe) { assert log[..n][i] == log[i]; }
  }

  lemma SilentPrefix(env: Env, cap: nat, initial: seq<Rule>, past: seq<Input>, log: seq<Input>, id: string, w: Win,
                     r: Rule, n: nat)
    requires Silent(env, cap, initial, past, log, id, w, r) && n <= |log|
    ensures Silent(env, cap, initial, past, log[..n], id, w, r)
  {
    hide Holding, Serve;
    forall m | 0 <= m <= n ensures Holding(Serve(env, cap, initial, past + log[..n][..m]), id, w, r) {
      assert log[..n][..m] == log[..m];
    }
  }

  lemma ReachesIffRipe(env: Env, id: string, w: Win, e: Expr, log: seq<Input>, before: int, ripe: int)
    requires RipensAt(e, env, Take(w), before, ripe) && ClockFrom(log, id, before)
    ensures AnyReaches(env, id, w, e, log) <==> AnyRipe(log, id, w, ripe)
  {
    hide Take, Eval;
    forall n | 0 <= n < |log| ensures TickReaches(env, id, w, e, log[n]) <==> LooksRipe(log[n], id, w, ripe) {
      if log[n].Ticked? { assert LooksFrom(log[n].looks, id, before); }
    }
  }

  // ----- What the store's scan hands over -----

  /** The looks of a scan whose snapshots are `out`, each seen by the rules at its own time. */
  function LooksOf(out: seq<Snapshot>, times: seq<int>): (r: seq<Look>)
    requires |times| == |out|
    ensures |r| == |out| && forall i :: 0 <= i < |r| ==> r[i] == Look(out[i].anonID, times[i])
  {
    seq(|out|, i requires 0 <= i < |out| => Look(out[i].anonID, times[i]))
  }

  /** The store's scan comes to each window idle for a second once, and to no other. */
  lemma ScanLooksOnce(m: map<string, Win>, scan: int, out: seq<Snapshot>, times: seq<int>)
    requires IdleViews(m, m.Keys, SECOND, scan, out) && |times| == |out| && Keyed(m)
    ensures forall id :: IdleAt(m, id, scan) <==> exists i :: 0 <= i < |out| && LooksOf(out, times)[i].id == id
    ensures forall i, j :: 0 <= i < j < |out| ==> LooksOf(out, times)[i].id != LooksOf(out, times)[j].id
    ensures forall i :: 0 <= i < |out| ==>
            IdleAt(m, LooksOf(out, times)[i].id, scan) && out[i] == TakeAt(m[LooksOf(out, times)[i].id], scan)
  {
    forall id | IdleAt(m, id, scan) ensures exists i :: 0 <= i < |out| && LooksOf(out, times)[i].id == id {
      var i :| 0 <= i < |out| && out[i] == TakeAt(m[id], scan);
      assert LooksOf(out, times)[i].id == id;
    }
  }
}
