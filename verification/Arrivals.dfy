/** What an event fires, and why anything ever fires (cmd/realtime-trigger/runtime_pipeline.go). */
module Arrivals {
  import opened Options
  import opened Window
  import opened Snapshots
  import opened Event
  import opened Lru
  import opened Predicates
  import opened Expr
  import opened Engine
  import opened Service
  import opened Ticker

  /** The rule is enabled, meant for a probed persona, and holds of the snapshot. */
  predicate Calls(env: Env, r: Rule, s: Snapshot, now: int, timeOnly: bool) {
    Listening(r) && Eval(r.when.value, env, s, now) && (timeOnly ==> UsesTime(r.when.value))
  }

  /** Everything fired between two moments is of this user and time, of a loaded rule that calls for it, with its key
      off cooldown. */
  ghost predicate OnlyCalledFor(env: Env, c: Served, c': Served, id: string, s: Snapshot, now: int, timeOnly: bool) {
    && c.firings <= c'.firings
    && forall i :: |c.firings| <= i < |c'.firings| ==>
         var f := c'.firings[i];
         f.anonID == id && f.at == now && f.rule in c.rules && Calls(env, f.rule, s, now, timeOnly)
           && Allows(c.gate, GateKey(id, f.rule.name), now)
  }

  /** A key fires exactly if it is this user's and off cooldown, and some loaded rule of its name calls for it. */
  ghost predicate AllCalledFor(env: Env, c: Served, c': Served, id: string, s: Snapshot, now: int, timeOnly: bool) {
    forall key :: FiredSince(c, c', key) <==>
      key.anonID == id && Allows(c.gate, key, now)
        && exists r :: r in c.rules && r.name == key.rule && Calls(env, r, s, now, timeOnly)
  }

  /** The gate closes to just the names that fired with a cooldown, and nobody else's deadlines move. */
  ghost predicate GateFollows(c: Served, c': Served, id: string, now: int) {
    && (forall key: GateKey :: key.anonID != id ==> SameEntry(c.gate, c'.gate, key))
    && forall name :: Allows(c'.gate, GateKey(id, name), now) <==>
         Allows(c.gate, GateKey(id, name), now)
         && !exists i :: |c.firings| <= i < |c'.firings| && c'.firings[i].rule.name == name
              && c'.firings[i].rule.cooldown > 0
  }

  // ----- One snapshot through the rules -----

  lemma FiredInSweep(env: Env, rules: seq<Rule>, g: Gate, s: Snapshot, now: int, timeOnly: bool, name: string)
    ensures (exists f :: f in SweepPersonas(env, rules, g, s, now, timeOnly, PERSONAS).fired && f.name == name) <==>
              Allows(g, GateKey(s.anonID, name), now)
              && exists r :: r in rules && r.name == name && Calls(env, r, s, now, timeOnly)
  {
    hide SweepPersonas, Eval, UsesTime, Allows;
    if f :| f in SweepPersonas(env, rules, g, s, now, timeOnly, PERSONAS).fired && f.name == name {
      PersonasFireOnlyEligible(env, rules, g, s, now, timeOnly, PERSONAS);
      assert f in rules && f.name == name && Calls(env, f, s, now, timeOnly);
    }
    if r :| r in rules && r.name == name && Calls(env, r, s, now, timeOnly) {
      if Allows(g, GateKey(s.anonID, name), now) {
        PersonasFireDueKey(env, rules, g, s, now, timeOnly, PERSONAS, r);
      }
    }
  }

  lemma ProbeOnly(env: Env, c: Served, id: string, s: Snapshot, now: int, timeOnly: bool)
    requires s.anonID == id
    ensures OnlyCalledFor(env, c, Probe(env, c, id, s, now, timeOnly), id, s, now, timeOnly)
  {
    var fired := SweepPersonas(env, c.rules, c.gate, s, now, timeOnly, PERSONAS).fired;
    PersonasFireOnlyEligible(env, c.rules, c.gate, s, now, timeOnly, PERSONAS);
    hide SweepPersonas, Eval, UsesTime, Allows;
    var c' := Probe(env, c, id, s, now, timeOnly);
    forall i | |c.firings| <= i < |c'.firings|
      ensures var f := c'.firings[i];
              f.anonID == id && f.at == now && f.rule in c.rules && Calls(env, f.rule, s, now, timeOnly)
              && Allows(c.gate, GateKey(id, f.rule.name), now)
    {
      assert fired[i - |c.firings|] in fired && c'.firings[i] == Firing(id, fired[i - |c.firings|], now);
    }
  }

  lemma ProbeAll(env: Env, c: Served, id: string, s: Snapshot, now: int, timeOnly: bool)
    requires s.anonID == id
    ensures AllCalledFor(env, c, Probe(env, c, id, s, now, timeOnly), id, s, now, timeOnly)
  {
    hide Calls, Allows, FiredSince, Probe, SweepPersonas;
    forall key
      ensures FiredSince(c, Probe(env, c, id, s, now, timeOnly), key) <==>
                key.anonID == id && Allows(c.gate, key, now)
                && exists r :: r in c.rules && r.name == key.rule && Calls(env, r, s, now, timeOnly)
    {
      ProbeFired(env, c, id, s, now, timeOnly, key);
      FiredInSweep(env, c.rules, c.gate, s, now, timeOnly, key.rule);
    }
  }

  lemma CoolsAmong(c: Served, fired: seq<Rule>, firings: seq<Firing>, id: string, now: int, name: string)
    requires firings == c.firings + FiringsOf(fired, id, now)
    ensures Cools(fired, name) <==>
              exists i :: |c.firings| <= i < |firings| && firings[i].rule.name == name && firings[i].rule.cooldown > 0
  {
    if Cools(fired, name) {
      var i :| 0 <= i < |fired| && fired[i].name == name && fired[i].cooldown > 0;
      assert firings[|c.firings| + i].rule == fired[i];
    }
    if i :| |c.firings| <= i < |firings| && firings[i].rule.name == name && firings[i].rule.cooldown > 0 {
      assert fired[i - |c.firings|] in fired;
    }
  }

  lemma ProbeGate(env: Env, c: Served, id: string, s: Snapshot, now: int, timeOnly: bool)
    requires s.anonID == id
    ensures GateFollows(c, Probe(env, c, id, s, now, timeOnly), id, now)
  {
    var c' := Probe(env, c, id, s, now, timeOnly);
    var fired := SweepPersonas(env, c.rules, c.gate, s, now, timeOnly, PERSONAS).fired;
    hide SweepPersonas, SameEntry, Allows, Cools, Beside;
    forall key: GateKey | key.anonID != id ensures SameEntry(c.gate, c'.gate, key) {
      assert Beside(env, c.rules, s, now, key) by { NotTheirs(env, c.rules, s, now, key); }
      PersonasLeaveKey(env, c.rules, c.gate, s, now, timeOnly, PERSONAS, key);
    }
    forall name
      ensures Allows(c'.gate, GateKey(id, name), now) <==>
                Allows(c.gate, GateKey(id, name), now)
                && !exists i :: |c.firings| <= i < |c'.firings| && c'.firings[i].rule.name == name
                     && c'.firings[i].rule.cooldown > 0
    {
      PersonasGate(env, c.rules, c.gate, s, now, timeOnly, PERSONAS, name);
      CoolsAmong(c, fired, c'.firings, id, now, name);
    }
  }

  lemma NotTheirs(env: Env, rules: seq<Rule>, s: Snapshot, now: int, key: GateKey)
    requires s.anonID != key.anonID
    ensures Beside(env, rules, s, now, key)
  {
  }

  // ----- An event -----

  /** Idle time is worked out from the clock, so the idle figure filled in makes no difference. */
  lemma SameCalls(env: Env, r: Rule, w: Win, scan: int, now: int, timeOnly: bool)
    ensures Calls(env, r, TakeAt(w, scan), now, timeOnly) == Calls(env, r, Take(w), now, timeOnly)
  {
    if r.when.Some? { ViewVerdict(r.when.value, env, w, scan, now); }
    hide Eval, UsesTime, TakeAt, Take;
  }

  lemma OnlyOfWindow(env: Env, c: Served, c': Served, id: string, w: Win, scan: int, now: int, timeOnly: bool)
    requires OnlyCalledFor(env, c, c', id, TakeAt(w, scan), now, timeOnly)
    ensures OnlyCalledFor(env, c, c', id, Take(w), now, timeOnly)
  {
    hide Calls, Allows, Take, TakeAt;
    forall r ensures Calls(env, r, TakeAt(w, scan), now, timeOnly) == Calls(env, r, Take(w), now, timeOnly) {
      SameCalls(env, r, w, scan, now, timeOnly);
    }
  }

  lemma AllOfWindow(env: Env, c: Served, c': Served, id: string, w: Win, scan: int, now: int, timeOnly: bool)
    requires AllCalledFor(env, c, c', id, TakeAt(w, scan), now, timeOnly)
    ensures AllCalledFor(env, c, c', id, Take(w), now, timeOnly)
  {
    hide Calls, Allows, Take, TakeAt, FiredSince;
    forall r ensures Calls(env, r, TakeAt(w, scan), now, timeOnly) == Calls(env, r, Take(w), now, timeOnly) {
      SameCalls(env, r, w, scan, now, timeOnly);
    }
    forall key
      ensures FiredSince(c, c', key) <==>
                key.anonID == id && Allows(c.gate, key, now)
                && exists r :: r in c.rules && r.name == key.rule && Calls(env, r, Take(w), now, timeOnly)
    {
      if r :| r in c.rules && r.name == key.rule && Calls(env, r, Take(w), now, timeOnly) {
        assert Calls(env, r, TakeAt(w, scan), now, timeOnly);
      }
    }
  }

  /** Only the caches differ before the step. */
  lemma SameStart(env: Env, c: Served, d: Served, c': Served, id: string, s: Snapshot, now: int, timeOnly: bool)
    requires d.rules == c.rules && d.gate == c.gate && d.firings == c.firings
    ensures OnlyCalledFor(env, d, c', id, s, now, timeOnly) ==> OnlyCalledFor(env, c, c', id, s, now, timeOnly)
    ensures AllCalledFor(env, d, c', id, s, now, timeOnly) ==> AllCalledFor(env, c, c', id, s, now, timeOnly)
    ensures GateFollows(d, c', id, now) ==> GateFollows(c, c', id, now)
  {
    forall key ensures FiredSince(d, c', key) == FiredSince(c, c', key) {}
    hide FiredSince, Calls, Allows, SameEntry;
  }

  /** The window an event leaves behind. */
  function After(c: Served, a: Arrival): Win {
    Fold1(if Id(a) in c.flat.wins then c.flat.wins[Id(a)] else NewWin(Id(a), 0), a)
  }

  lemma ArriveIsProbe(env: Env, cap: nat, c: Served, a: Arrival, now: int)
    requires Id(a) != "" && Keyed(c.flat.wins)
    ensures var c', w, d := Arrive(env, cap, c, a, now), After(c, a), c.(flat := FlatStep(c.flat, cap, a));
            && c' == Probe(env, d, Id(a), TakeAt(w, now), now, false) && TakeAt(w, now).anonID == Id(a)
            && c'.flat == d.flat && Id(a) in c'.flat.wins && c'.flat.wins[Id(a)] == w && c'.rules == c.rules
  {
    ArrivalChangesWindow(if Id(a) in c.flat.wins then c.flat.wins[Id(a)] else NewWin(Id(a), 0), a);
    hide Fold1, SweepPersonas, Id;
  }

  lemma EventStep(env: Env, cap: nat, c: Served, a: Arrival, now: int)
    requires Id(a) != "" && Keyed(c.flat.wins)
    ensures var c', id, w := Arrive(env, cap, c, a, now), Id(a), After(c, a);
            && id in c'.flat.wins && c'.flat.wins[id] == w && c'.rules == c.rules
            && OnlyCalledFor(env, c, c', id, Take(w), now, false) && AllCalledFor(env, c, c', id, Take(w), now, false)
            && GateFollows(c, c', id, now)
  {
    hide *;
    ArriveIsProbe(env, cap, c, a, now);
    var d, id, w := c.(flat := FlatStep(c.flat, cap, a)), Id(a), After(c, a);
    var s, c' := TakeAt(w, now), Arrive(env, cap, c, a, now);
    ProbeOnly(env, d, id, s, now, false);
    ProbeAll(env, d, id, s, now, false);
    ProbeGate(env, d, id, s, now, false);
    OnlyOfWindow(env, d, c', id, w, now, now, false);
    AllOfWindow(env, d, c', id, w, now, now, false);
    SameStart(env, c, d, c', id, Take(w), now, false);
  }

  /** An event of a user goes into that user's window, which is then resident, and the rules see the window with the
      event in it: a key fires exactly if it is this user's and off cooldown and some loaded, enabled rule of its name,
      for any persona probed, holds of that window now, whether or not it looks at the clock. Nothing else fires, the
      gate closes to the names that fired with a cooldown, and nobody else's deadlines move. */
  lemma EventFires(env: Env, cap: nat, initial: seq<Rule>, log: seq<Input>, a: Arrival, now: int)
    requires Id(a) != ""
    ensures var c, c', id := Serve(env, cap, initial, log), Serve(env, cap, initial, log + [Arrived(a, now)]), Id(a);
            var w := Fold1(if id in c.flat.wins then c.flat.wins[id] else NewWin(id, 0), a);
            && id in c'.flat.wins && c'.flat.wins[id] == w && c'.rules == c.rules
            && OnlyCalledFor(env, c, c', id, Take(w), now, false) && AllCalledFor(env, c, c', id, Take(w), now, false)
            && GateFollows(c, c', id, now)
  {
    ServeKeyed(env, cap, initial, log);
    assert (log + [Arrived(a, now)])[..|log|] == log;
    EventStep(env, cap, Serve(env, cap, initial, log), a, now);
    hide Arrive, Take, Fold1, OnlyCalledFor, AllCalledFor, GateFollows, Id;
  }

  /** The window is there and neither a reset nor a prune forgets it. */
  predicate Survives(c: Served, x: Input, id: string) {
    id in c.flat.wins && !x.DemoReset? && (x.Pruned? ==> c.flat.wins[id].lastSeen >= x.cutoff)
  }

  /** The other inputs fire nothing. A reload that succeeds replaces the rules and one that fails keeps them; a demo
      reset forgets every window and every deadline; a prune forgets just the windows last seen before its cutoff. */
  lemma ControlStep(env: Env, cap: nat, initial: seq<Rule>, log: seq<Input>, x: Input)
    requires x.Reloaded? || x.DemoReset? || x.Pruned?
    ensures var c, c' := Serve(env, cap, initial, log), Serve(env, cap, initial, log + [x]);
            && c'.firings == c.firings
            && (c'.rules == if x.Reloaded? && x.loaded.Some? then x.loaded.value else c.rules)
            && (if x.DemoReset? then forall key, now :: Allows(c'.gate, key, now) else c'.gate == c.gate)
            && (forall id :: id in c'.flat.wins <==> Survives(c, x, id))
            && forall id :: id in c'.flat.wins ==> c'.flat.wins[id] == c.flat.wins[id]
  {
    assert (log + [x])[..|log|] == log;
    hide Arrive, Tick;
  }

  // ----- Whole runs -----

  /** The firing has a cause in this step: it is of a rule loaded then, enabled and meant for a probed persona, that
      held at that time of the window the user then had, and either an event of that user arrived, or a tick looked at
      the window idle for a second and the rule looks at the clock. */
  ghost predicate Cause(env: Env, c: Served, c': Served, x: Input, f: Firing) {
    && f.rule in c.rules && Listening(f.rule) && f.anonID in c'.flat.wins
    && var w := c'.flat.wins[f.anonID];
       && Eval(f.rule.when.value, env, Take(w), f.at)
       && (x.Arrived? ==> Id(x.arrival) == f.anonID && x.now == f.at)
       && (!x.Arrived? ==>
             x.Ticked? && Look(f.anonID, f.at) in x.looks && x.scan - w.lastSeen >= SECOND
             && UsesTime(f.rule.when.value))
  }

  lemma {:induction false} TickCauses(env: Env, c: Served, scan: int, looks: seq<Look>)
    requires Keyed(c.flat.wins)
    ensures var c' := Tick(env, c, scan, looks);
            && c.firings <= c'.firings
            && forall i :: |c.firings| <= i < |c'.firings| ==>
                 var f := c'.firings[i];
                 && f.rule in c.rules && f.anonID in c.flat.wins && Look(f.anonID, f.at) in looks
                 && scan - c.flat.wins[f.anonID].lastSeen >= SECOND
                 && Calls(env, f.rule, Take(c.flat.wins[f.anonID]), f.at, true)
  {
    if looks != [] {
      var init, x := looks[..|looks| - 1], looks[|looks| - 1];
      TickCauses(env, c, scan, init);
      var mid, c' := Tick(env, c, scan, init), Tick(env, c, scan, looks);
      if IdleAt(c.flat.wins, x.id, scan) {
        var w := c.flat.wins[x.id];
        var s := TakeAt(w, scan);
        assert s.anonID == x.id;
        hide Probe, TakeAt, Take, Calls, Allows;
        ProbeOnly(env, mid, x.id, s, x.now, true);
        OnlyOfWindow(env, mid, c', x.id, w, scan, x.now, true);
        forall i | |c.firings| <= i < |c'.firings|
          ensures var f := c'.firings[i];
                  && f.rule in c.rules && f.anonID in c.flat.wins && Look(f.anonID, f.at) in looks
                  && scan - c.flat.wins[f.anonID].lastSeen >= SECOND
                  && Calls(env, f.rule, Take(c.flat.wins[f.anonID]), f.at, true)
        {
          if i < |mid.firings| { assert c'.firings[i] == mid.firings[i]; }
        }
      }
    }
  }

  lemma CalledForIsCause(env: Env, c: Served, c': Served, x: Input, f: Firing)
    requires x.Arrived? && Id(x.arrival) in c'.flat.wins
    requires OnlyCalledFor(env, c, c', Id(x.arrival), Take(c'.flat.wins[Id(x.arrival)]), x.now, false)
    ensures f in c'.firings[|c.firings|..] ==> Cause(env, c, c', x, f)
  {
    hide Eval, UsesTime, Take, Allows, Id;
    if f in c'.firings[|c.firings|..] {
      var i :| 0 <= i < |c'.firings| - |c.firings| && c'.firings[|c.firings|..][i] == f;
      assert c'.firings[|c.firings| + i] == f;
    }
  }

  lemma ArriveCauses(env: Env, cap: nat, c: Served, x: Input, f: Firing)
    requires Keyed(c.flat.wins) && x.Arrived?
    ensures var c' := ServeOne(env, cap, c, x);
            c.firings <= c'.firings && (f in c'.firings[|c.firings|..] ==> Cause(env, c, c', x, f))
  {
    hide Arrive, Cause, Take, Fold1, AllCalledFor, GateFollows, Calls, Allows, Id;
    if Id(x.arrival) == "" {
      NoIdNothing(env, cap, c, x.arrival, x.now);
    } else {
      EventStep(env, cap, c, x.arrival, x.now);
      CalledForIsCause(env, c, ServeOne(env, cap, c, x), x, f);
    }
  }

  lemma NoIdNothing(env: Env, cap: nat, c: Served, a: Arrival, now: int)
    requires Id(a) == ""
    ensures Arrive(env, cap, c, a, now) == c
  {
  }

  lemma TickCause(env: Env, cap: nat, c: Served, x: Input, f: Firing)
    requires Keyed(c.flat.wins) && x.Ticked?
    ensures var c' := ServeOne(env, cap, c, x);
            c.firings <= c'.firings && (f in c'.firings[|c.firings|..] ==> Cause(env, c, c', x, f))
  {
    TickCauses(env, c, x.scan, x.looks);
    hide Tick, Eval, UsesTime, Take;
    var c' := ServeOne(env, cap, c, x);
    if f in c'.firings[|c.firings|..] {
      var i :| 0 <= i < |c'.firings| - |c.firings| && c'.firings[|c.firings|..][i] == f;
      assert c'.firings[|c.firings| + i] == f;
    }
  }

  lemma StepCause(env: Env, cap: nat, c: Served, x: Input, f: Firing)
    requires Keyed(c.flat.wins)
    ensures var c' := ServeOne(env, cap, c, x);
            c.firings <= c'.firings && (f in c'.firings[|c.firings|..] ==> Cause(env, c, c', x, f))
  {
    hide Cause, Keyed, Arrive, Tick;
    if x.Arrived? { ArriveCauses(env, cap, c, x, f); }
    else if x.Ticked? { TickCause(env, cap, c, x, f); }
  }

  ghost predicate CauseAt(env: Env, cap: nat, initial: seq<Rule>, log: seq<Input>, n: nat, f: Firing)
    requires n < |log|
  {
    Cause(env, Serve(env, cap, initial, log[..n]), Serve(env, cap, initial, log[..n + 1]), log[n], f)
  }

  lemma CauseStays(env: Env, cap: nat, initial: seq<Rule>, log: seq<Input>, n: nat, f: Firing)
    requires n + 1 < |log| && CauseAt(env, cap, initial, log[..|log| - 1], n, f)
    ensures CauseAt(env, cap, initial, log, n, f)
  {
    assert log[..|log| - 1][..n] == log[..n] && log[..|log| - 1][..n + 1] == log[..n + 1];
    hide Cause, Serve;
  }

  lemma LastCause(env: Env, cap: nat, initial: seq<Rule>, log: seq<Input>, f: Firing)
    requires log != []
    ensures f in Serve(env, cap, initial, log).firings ==>
              f in Serve(env, cap, initial, log[..|log| - 1]).firings || CauseAt(env, cap, initial, log, |log| - 1, f)
  {
    var init, x := log[..|log| - 1], log[|log| - 1];
    var c, c' := Serve(env, cap, initial, init), Serve(env, cap, initial, log);
    ServeKeyed(env, cap, initial, init);
    StepCause(env, cap, c, x, f);
    assert log[..|log| - 1 + 1] == log;
    assert c'.firings == c.firings + c'.firings[|c.firings|..];
    hide Cause, ServeOne, Serve, Keyed;
  }

  /** Nothing fires without a cause: every firing of a run was caused by the input at which it fired. */
  lemma {:induction false} EveryFiringHasCause(env: Env, cap: nat, initial: seq<Rule>, log: seq<Input>, f: Firing)
      returns (n: nat)
    requires f in Serve(env, cap, initial, log).firings
    ensures n < |log| && CauseAt(env, cap, initial, log, n, f)
  {
    ServeNone(env, cap, initial);
    assert log != [];
    hide CauseAt, Serve;
    LastCause(env, cap, initial, log, f);
    n := |log| - 1;
    if f in Serve(env, cap, initial, log[..n]).firings {
      n := EveryFiringHasCause(env, cap, initial, log[..n], f);
      CauseStays(env, cap, initial, log, n, f);
    }
  }

  lemma ServeNone(env: Env, cap: nat, initial: seq<Rule>)
    ensures Serve(env, cap, initial, []).firings == []
  {
  }

  // ----- What a resident window holds -----

  /** The event is of this user: its anonymous id if it has one, and otherwise its user id. */
  predicate IsOf(e: Event, id: string) {
    (e.anonymousID != "" && e.anonymousID == id) || (e.anonymousID == "" && e.userID == id)
  }

  lemma IdIsOf(a: Arrival, id: string)
    ensures IsOf(a.event, id) <==> Id(a) == id
  {
  }

  /** The events of one user, in order of arrival. */
  function ArrivalsOf(log: seq<Input>, id: string): seq<Arrival> {
    if log == [] then [] else
    var before, x := ArrivalsOf(log[..|log| - 1], id), log[|log| - 1];
    if x.Arrived? && IsOf(x.arrival.event, id) then before + [x.arrival] else before
  }

  /** Any step but an event of the user keeps the user's window or forgets it. */
  lemma OtherStepKeeps(env: Env, cap: nat, c: Served, x: Input, id: string)
    requires id in ServeOne(env, cap, c, x).flat.wins && !(x.Arrived? && Id(x.arrival) == id)
    ensures id in c.flat.wins && ServeOne(env, cap, c, x).flat.wins[id] == c.flat.wins[id]
  {
    hide Fold1, SweepPersonas, TakeAt, Id;
    if x.Arrived? { ProbeSameCache(env, cap, c, x.arrival, x.now); }
  }

  lemma OwnStepFolds(env: Env, cap: nat, c: Served, x: Input)
    requires x.Arrived? && Id(x.arrival) != ""
    ensures Id(x.arrival) in ServeOne(env, cap, c, x).flat.wins
            && ServeOne(env, cap, c, x).flat.wins[Id(x.arrival)] == After(c, x.arrival)
  {
    ProbeSameCache(env, cap, c, x.arrival, x.now);
    hide Fold1, Probe, TakeAt, Id;
  }

  lemma FoldOn(w: Win, history: seq<Arrival>, k: nat, a: Arrival)
    requires k <= |history|
    ensures Fold(w, (history + [a])[k..]) == Fold1(Fold(w, history[k..]), a) && Fold(w, history[|history|..]) == w
  {
    assert (history + [a])[k..] == history[k..] + [a];
    hide Fold1;
  }

  /** Whatever else happens, a resident window is a new one into which the latest events of its user, from some point
      on, have been folded in order. */
  lemma {:induction false} ResidentIsFold(env: Env, cap: nat, initial: seq<Rule>, log: seq<Input>, id: string)
      returns (k: nat)
    requires id in Serve(env, cap, initial, log).flat.wins && id != ""
    ensures k < |ArrivalsOf(log, id)|
    ensures Serve(env, cap, initial, log).flat.wins[id] == Fold(NewWin(id, 0), ArrivalsOf(log, id)[k..])
  {
    var init, x := log[..|log| - 1], log[|log| - 1];
    var c, before := Serve(env, cap, initial, init), ArrivalsOf(init, id);
    if x.Arrived? { IdIsOf(x.arrival, id); }
    hide ServeOne, Fold1, Id, IsOf, Fold;
    if x.Arrived? && Id(x.arrival) == id {
      OwnStepFolds(env, cap, c, x);
      k := |before|;
      if id in c.flat.wins { k := ResidentIsFold(env, cap, initial, init, id); }
      FoldOn(NewWin(id, 0), before, k, x.arrival);
    } else {
      OtherStepKeeps(env, cap, c, x, id);
      k := ResidentIsFold(env, cap, initial, init, id);
    }
  }
}
