/** One evaluation from its start to the queue: what a producer does when nobody comes between
    (cmd/realtime-trigger/runtime_pipeline.go). */
module Producers {
  import opened Options
  import opened Snapshots
  import opened Predicates
  import opened Expr
  import opened Engine
  import opened Service
  import opened Dispatch
  import Cooldown

  function Follow(env: Env, c: State, actions: seq<Action>): Option<State>
    decreases |actions|
  {
    if actions == [] then Some(c) else
    var c' := Step(env, c, actions[0]);
    if c'.None? then None else Follow(env, c'.value, actions[1..])
  }

  lemma {:induction false} FollowConcat(env: Env, c: State, xs: seq<Action>, ys: seq<Action>)
    ensures Follow(env, c, xs + ys)
            == if Follow(env, c, xs).None? then None else Follow(env, Follow(env, c, xs).value, ys)
    decreases |xs|
  {
    hide Step;
    if xs == [] {
      assert xs + ys == ys;
    } else {
      assert (xs + ys)[1..] == xs[1..] + ys;
      if Step(env, c, xs[0]).Some? { FollowConcat(env, Step(env, c, xs[0]).value, xs[1..], ys); }
    }
  }

  lemma FollowOne(env: Env, c: State, a: Action)
    ensures Follow(env, c, [a]) == Step(env, c, a)
  {
    assert [a][1..] == [];
    hide Step;
  }

  predicate By(a: Action, who: Who) { (a.Evaluate? || a.Send? || a.Finish?) && a.who == who }

  /** How many of `n` matches the queue has room for. */
  function Room(c: State, n: nat): (k: nat)
    ensures k <= n
  {
    var free := if |c.queue| <= MATCH_QUEUE_SIZE then MATCH_QUEUE_SIZE - |c.queue| else 0;
    if n <= free then n else free
  }

  /** The items were emitted: as many as there was room for are in the queue, in order, and the rest are lost and
      counted. Nothing else has changed but the engine and this producer. */
  ghost predicate Offered(c: State, c': State, who: Who, items: seq<Item>) {
    var k := Room(c, |items|);
    && c'.queue == c.queue + items[..k] && c'.lost == c.lost + items[k..]
    && c'.matchDropped == c.matchDropped + |items[k..]| && c'.handed == c.handed
    && Prod(c', if who.Pipeline? then Ticker else Pipeline) == Prod(c, if who.Pipeline? then Ticker else Pipeline)
  }

  lemma OfferedTwice(c: State, mid: State, c': State, who: Who, xs: seq<Item>, ys: seq<Item>)
    requires Offered(c, mid, who, xs) && Offered(mid, c', who, ys)
    ensures Offered(c, c', who, xs + ys)
  {
    var k, l, m := Room(c, |xs|), Room(mid, |ys|), Room(c, |xs + ys|);
    if k == |xs| {
      assert m == k + l;
      assert (xs + ys)[..m] == xs[..k] + ys[..l] && (xs + ys)[m..] == xs[k..] + ys[l..];
    } else {
      assert l == 0 && m == k;
      assert (xs + ys)[..m] == xs[..k] + ys[..l] && (xs + ys)[m..] == xs[k..] + ys[l..];
    }
  }

  // ----- Sending -----

  lemma SendOne(env: Env, c: State, who: Who) returns (c': State)
    requires Prod(c, who).Busy? && Prod(c, who).todo != []
    ensures Step(env, c, Send(who)) == Some(c')
    ensures Prod(c', who) == Prod(c, who).(todo := Prod(c, who).todo[1..])
    ensures c'.engine == c.engine && c'.emitted == c.emitted && Offered(c, c', who, [Prod(c, who).todo[0]])
  {
    c' := Step(env, c, Send(who)).value;
  }

  lemma OfferedNone(c: State, who: Who)
    ensures Offered(c, c, who, [])
  {
  }

  lemma {:induction false} SendAll(env: Env, c: State, who: Who) returns (actions: seq<Action>, c': State)
    requires Prod(c, who).Busy?
    ensures (forall a :: a in actions ==> By(a, who)) && Follow(env, c, actions) == Some(c')
    ensures Prod(c', who) == Prod(c, who).(todo := []) && c'.engine == c.engine && c'.emitted == c.emitted
    ensures Offered(c, c', who, Prod(c, who).todo)
    decreases |Prod(c, who).todo|
  {
    var todo := Prod(c, who).todo;
    hide Step, Offered, Prod;
    if todo == [] {
      actions, c' := [], c;
      OfferedNone(c, who);
    } else {
      var mid := SendOne(env, c, who);
      var rest; rest, c' := SendAll(env, mid, who);
      actions := [Send(who)] + rest;
      assert actions[1..] == rest && todo == [todo[0]] + todo[1..];
      OfferedTwice(c, mid, c', who, [todo[0]], todo[1..]);
    }
  }

  // ----- Evaluating -----

  /** Each item is for a persona that its rule is meant for. */
  ghost predicate ForPersonas(items: seq<Item>, personas: seq<string>) {
    forall i :: 0 <= i < |items| ==>
      && items[i].persona in personas
      && (items[i].match_.persona == "" || items[i].persona == "" || items[i].match_.persona == items[i].persona)
  }

  /** Each item is the match of the rule that fired in its place. */
  ghost predicate MatchesOfFired(items: seq<Item>, fired: seq<Rule>, s: Snapshot, now: int) {
    |items| == |fired| && forall i :: 0 <= i < |items| ==> items[i].match_ == MatchOf(fired[i], s, now)
  }

  lemma EvaluateOne(env: Env, c: State, who: Who) returns (c': State, items: seq<Item>)
    requires Prod(c, who).Busy? && Prod(c, who).todo == [] && Prod(c, who).personas != []
    ensures Step(env, c, Action.Evaluate(who)) == Some(c')
    ensures var p := Prod(c, who);
            var swept := Sweep(env, c.engine.rules, c.engine.gate, p.s, p.personas[0], p.now, p.timeOnly);
            && Prod(c', who) == p.(personas := p.personas[1..], todo := items)
            && c'.engine.rules == c.engine.rules && c'.engine.gate == swept.gate && c'.emitted == c.emitted + items
            && MatchesOfFired(items, swept.fired, p.s, p.now) && ForPersonas(items, [p.personas[0]])
            && Offered(c, c', who, [])
  {
    c' := Step(env, c, Action.Evaluate(who)).value;
    items := Prod(c', who).todo;
    var p := Prod(c, who);
    OnlyEligibleFire(env, c.engine.rules, c.engine.gate, p.s, p.personas[0], p.now, p.timeOnly);
    var fired := Sweep(env, c.engine.rules, c.engine.gate, p.s, p.personas[0], p.now, p.timeOnly).fired;
    hide Sweep, Eval, UsesTime, Allows;
    assert forall i :: 0 <= i < |fired| ==> fired[i] in fired;
  }

  /** What evaluating the first `i` personas in turn fires, and the gate it leaves. */
  function Through(env: Env, c: State, s: Snapshot, timeOnly: bool, now: int, personas: seq<string>, i: nat): Swept
    requires i <= |personas|
  {
    SweepPersonas(env, c.engine.rules, c.engine.gate, s, now, timeOnly, personas[..i])
  }

  /** The first `i` personas are done: rules and gate are as after evaluating them in turn, and their matches offered.
      */
  ghost predicate Midway(env: Env, c: State, mid: State, who: Who, s: Snapshot, timeOnly: bool, now: int,
                         personas: seq<string>, i: nat, items: seq<Item>)
    requires i <= |personas|
  {
    var swept := Through(env, c, s, timeOnly, now, personas, i);
    && Prod(mid, who) == Busy(s, timeOnly, now, personas[i..], [])
    && mid.engine.rules == c.engine.rules && mid.engine.gate == swept.gate && mid.emitted == c.emitted + items
    && MatchesOfFired(items, swept.fired, s, now) && ForPersonas(items, personas[..i]) && Offered(c, mid, who, items)
  }

  lemma MatchesConcat(xs: seq<Item>, ys: seq<Item>, fired: seq<Rule>, more: seq<Rule>, s: Snapshot, now: int)
    requires MatchesOfFired(xs, fired, s, now) && MatchesOfFired(ys, more, s, now)
    ensures MatchesOfFired(xs + ys, fired + more, s, now)
  {
  }

  lemma SweepNext(env: Env, c: State, s: Snapshot, timeOnly: bool, now: int, personas: seq<string>, i: nat)
    requires i < |personas|
    ensures personas[i..][0] == personas[i] && personas[i..][1..] == personas[i + 1..]
    ensures var before := Through(env, c, s, timeOnly, now, personas, i);
            var last := Sweep(env, c.engine.rules, before.gate, s, personas[i], now, timeOnly);
            Through(env, c, s, timeOnly, now, personas, i + 1) == Swept(before.fired + last.fired, last.gate)
  {
    assert personas[..i + 1][..i] == personas[..i];
    hide Sweep;
  }

  /** The producer has evaluated its next persona and sent what fired. */
  ghost predicate PersonaDone(env: Env, c: State, c': State, who: Who, items: seq<Item>)
    requires Prod(c, who).Busy? && Prod(c, who).personas != []
  {
    var p := Prod(c, who);
    var swept := Sweep(env, c.engine.rules, c.engine.gate, p.s, p.personas[0], p.now, p.timeOnly);
    && Prod(c', who) == p.(personas := p.personas[1..], todo := [])
    && c'.engine.rules == c.engine.rules && c'.engine.gate == swept.gate && c'.emitted == c.emitted + items
    && MatchesOfFired(items, swept.fired, p.s, p.now) && ForPersonas(items, [p.personas[0]])
    && Offered(c, c', who, items)
  }

  lemma OnePersona(env: Env, c: State, who: Who) returns (actions: seq<Action>, c': State, items: seq<Item>)
    requires Prod(c, who).Busy? && Prod(c, who).todo == [] && Prod(c, who).personas != []
    ensures (forall a :: a in actions ==> By(a, who)) && Follow(env, c, actions) == Some(c')
    ensures PersonaDone(env, c, c', who, items)
  {
    hide Step, Sweep, Offered, Prod, MatchesOfFired, ForPersonas;
    var at; at, items := EvaluateOne(env, c, who);
    var rest; rest, c' := SendAll(env, at, who);
    actions := [Action.Evaluate(who)] + rest;
    assert actions[1..] == rest && [] + items == items;
    OfferedTwice(c, at, c', who, [], items);
  }

  lemma PersonasConcat(xs: seq<Item>, ys: seq<Item>, personas: seq<string>, i: nat)
    requires i < |personas|
    ensures ForPersonas(xs, personas[..i]) && ForPersonas(ys, [personas[i]]) ==>
              ForPersonas(xs + ys, personas[..i + 1])
  {
    assert personas[i] in personas[..i + 1] && forall p :: p in personas[..i] ==> p in personas[..i + 1];
  }

  lemma MidwayParts(env: Env, c: State, mid: State, c': State, who: Who, s: Snapshot, timeOnly: bool, now: int,
                    personas: seq<string>, i: nat, items: seq<Item>, more: seq<Item>)
    requires i < |personas| && Midway(env, c, mid, who, s, timeOnly, now, personas, i, items)
    requires Prod(mid, who).Busy? && Prod(mid, who).personas != [] && PersonaDone(env, mid, c', who, more)
    ensures Prod(c', who) == Busy(s, timeOnly, now, personas[i + 1..], []) && c'.emitted == c.emitted + (items + more)
    ensures ForPersonas(items + more, personas[..i + 1]) && Offered(c, c', who, items + more)
  {
    SweepNext(env, c, s, timeOnly, now, personas, i);
    PersonasConcat(items, more, personas, i);
    hide Sweep, Through, Offered, Prod, MatchesOfFired, ForPersonas;
    OfferedTwice(c, mid, c', who, items, more);
  }

  lemma MidwayNext(env: Env, c: State, mid: State, c': State, who: Who, s: Snapshot, timeOnly: bool, now: int,
                   personas: seq<string>, i: nat, items: seq<Item>, more: seq<Item>)
    requires i < |personas| && Midway(env, c, mid, who, s, timeOnly, now, personas, i, items)
    requires Prod(mid, who).Busy? && Prod(mid, who).personas != [] && PersonaDone(env, mid, c', who, more)
    ensures Midway(env, c, c', who, s, timeOnly, now, personas, i + 1, items + more)
  {
    SweepNext(env, c, s, timeOnly, now, personas, i);
    var before := Through(env, c, s, timeOnly, now, personas, i);
    var last := Sweep(env, c.engine.rules, before.gate, s, personas[i], now, timeOnly);
    hide Sweep, Through, Offered, Prod, MatchesOfFired, ForPersonas;
    MatchesConcat(items, more, before.fired, last.fired, s, now);
    MidwayParts(env, c, mid, c', who, s, timeOnly, now, personas, i, items, more);
  }

  lemma MidwayBusy(env: Env, c: State, mid: State, who: Who, s: Snapshot, timeOnly: bool, now: int,
                   personas: seq<string>, i: nat, items: seq<Item>)
    requires i < |personas| && Midway(env, c, mid, who, s, timeOnly, now, personas, i, items)
    ensures Prod(mid, who).Busy? && Prod(mid, who).todo == [] && Prod(mid, who).personas != []
  {
    hide Through, Offered, Prod, MatchesOfFired, ForPersonas;
  }

  lemma NextPersona(env: Env, c: State, mid: State, who: Who, s: Snapshot, timeOnly: bool, now: int,
                    personas: seq<string>, i: nat, items: seq<Item>)
      returns (actions: seq<Action>, c': State, items': seq<Item>)
    requires i < |personas| && Midway(env, c, mid, who, s, timeOnly, now, personas, i, items)
    ensures (forall a :: a in actions ==> By(a, who)) && Follow(env, mid, actions) == Some(c')
    ensures Midway(env, c, c', who, s, timeOnly, now, personas, i + 1, items')
  {
    hide *;
    MidwayBusy(env, c, mid, who, s, timeOnly, now, personas, i, items);
    var more; actions, c', more := OnePersona(env, mid, who);
    items' := items + more;
    MidwayNext(env, c, mid, c', who, s, timeOnly, now, personas, i, items, more);
  }

  lemma {:induction false} PersonasFrom(env: Env, c: State, mid: State, who: Who, s: Snapshot, timeOnly: bool, now: int,
                                        personas: seq<string>, i: nat, items: seq<Item>)
      returns (actions: seq<Action>, c': State, items': seq<Item>)
    requires i <= |personas| && Midway(env, c, mid, who, s, timeOnly, now, personas, i, items)
    ensures (forall a :: a in actions ==> By(a, who)) && Follow(env, mid, actions) == Some(c')
    ensures Midway(env, c, c', who, s, timeOnly, now, personas, |personas|, items')
    decreases |personas| - i
  {
    hide Midway, Step;
    if i == |personas| {
      actions, c', items' := [], mid, items;
    } else {
      var first, next, more := NextPersona(env, c, mid, who, s, timeOnly, now, personas, i, items);
      var rest; rest, c', items' := PersonasFrom(env, c, next, who, s, timeOnly, now, personas, i + 1, more);
      FollowConcat(env, mid, first, rest);
      hide Follow;
      actions := first + rest;
    }
  }

  // ----- The whole evaluation -----

  lemma BeginMidway(env: Env, c: State, who: Who, s: Snapshot, timeOnly: bool, now: int) returns (c': State)
    requires Prod(c, who).Idle?
    ensures Step(env, c, Begin(who, s, timeOnly, now)) == Some(c')
            && Midway(env, c, c', who, s, timeOnly, now, PERSONAS, 0, [])
  {
    c' := Step(env, c, Begin(who, s, timeOnly, now)).value;
    hide Sweep;
  }

  lemma FinishIdle(env: Env, c: State, mid: State, who: Who, s: Snapshot, timeOnly: bool, now: int, items: seq<Item>)
      returns (c': State)
    requires Midway(env, c, mid, who, s, timeOnly, now, PERSONAS, |PERSONAS|, items)
    ensures Step(env, mid, Finish(who)) == Some(c') && Prod(c', who).Idle?
    ensures c'.engine == mid.engine && c'.emitted == mid.emitted && Offered(c, c', who, items)
  {
    hide SweepPersonas, MatchesOfFired;
    c' := Step(env, mid, Finish(who)).value;
  }

  /** An evaluation that an idle producer begins, left alone, comes to its end: the producer is idle again, the matches
      emitted are those of evaluating the personas in turn on this snapshot, in order, the gate is what that leaves, and
      as many matches as there was room for are queued in order while the others are lost and counted. */
  lemma EvaluationReachesQueue(env: Env, c: State, who: Who, s: Snapshot, timeOnly: bool, now: int)
      returns (actions: seq<Action>, c': State, items: seq<Item>)
    requires Prod(c, who).Idle?
    ensures (forall a :: a in actions ==> By(a, who))
    ensures Follow(env, c, [Begin(who, s, timeOnly, now)] + actions) == Some(c') && Prod(c', who).Idle?
    ensures var swept := SweepPersonas(env, c.engine.rules, c.engine.gate, s, now, timeOnly, PERSONAS);
            && c'.engine.rules == c.engine.rules && c'.engine.gate == swept.gate && c'.emitted == c.emitted + items
            && MatchesOfFired(items, swept.fired, s, now) && ForPersonas(items, PERSONAS) && Offered(c, c', who, items)
  {
    var begun := BeginMidway(env, c, who, s, timeOnly, now);
    var rest, mid;
    rest, mid, items := PersonasFrom(env, c, begun, who, s, timeOnly, now, PERSONAS, 0, []);
    assert PERSONAS[..|PERSONAS|] == PERSONAS;
    c' := FinishIdle(env, c, mid, who, s, timeOnly, now, items);
    hide Step, SweepPersonas, MatchesOfFired, ForPersonas, Offered;
    actions := rest + [Finish(who)];
    FollowOne(env, mid, Finish(who));
    FollowConcat(env, begun, rest, [Finish(who)]);
    assert ([Begin(who, s, timeOnly, now)] + actions)[1..] == actions;
  }

  // ----- Administration -----

  /** Replacing the rules, a reload that succeeds and a reset take effect on the engine that the producers use; a reload
      that fails changes nothing; and no match moves. */
  lemma AdminTakesEffect(env: Env, c: State, op: Cooldown.Op, c': State)
    requires Step(env, c, Admin(op)) == Some(c')
    ensures c' == c.(engine := c'.engine) && c'.engine.log == c.engine.log
    ensures op.Replace? || (op.Reload? && op.loaded.Some?) ==>
              c'.engine.rules == (if op.Replace? then op.rules else op.loaded.value) && c'.engine.gate == c.engine.gate
    ensures op.Reset? ==> c'.engine.rules == c.engine.rules && forall key, now :: Allows(c'.engine.gate, key, now)
    ensures op.Reload? && op.loaded.None? ==> c' == c
  {
    hide Sweep;
  }

  // ----- Workers -----

  /** A worker that keeps taking empties the queue, in order. */
  lemma {:induction false} QueueDrains(env: Env, c: State, worker: nat) returns (actions: seq<Action>, c': State)
    ensures (forall a :: a in actions ==> a == Take(worker)) && Follow(env, c, actions) == Some(c')
    ensures c'.queue == [] && |c'.handed| == |c.handed| + |c.queue| && c.handed <= c'.handed
    ensures forall i :: 0 <= i < |c.queue| ==> c'.handed[|c.handed| + i] == (worker, c.queue[i])
    decreases |c.queue|
  {
    if c.queue == [] {
      actions, c' := [], c;
    } else {
      var mid := Step(env, c, Take(worker)).value;
      assert mid.queue == c.queue[1..] && mid.handed == c.handed + [(worker, c.queue[0])];
      assert Step(env, c, Take(worker)) == Some(mid);
      hide Step;
      var rest; rest, c' := QueueDrains(env, mid, worker);
      actions := [Take(worker)] + rest;
      assert actions[1..] == rest;
      forall i | 0 <= i < |c.queue| ensures c'.handed[|c.handed| + i] == (worker, c.queue[i]) {
        if i > 0 { assert mid.queue[i - 1] == c.queue[i]; }
      }
    }
  }
}
