/** From a match to a worker: two producers, one bounded queue, a pool of workers
    (cmd/realtime-trigger/runtime_pipeline.go).

    One engine evaluation, one queue send and one queue receive are each one step; the steps of the event pipeline, the
    idle ticker and the workers interleave freely. */
module Dispatch {
  import opened Options
  import opened Snapshots
  import opened Predicates
  import opened Engine
  import opened Service
  import Cooldown

  const MATCH_QUEUE_SIZE := 64

  /** One emitted match: its place in the fire log, and the persona it was evaluated for. */
  datatype Item = Item(index: nat, match_: Match, persona: string)

  /** A producer is evaluating snapshot `s` for the personas still left, with `todo` not yet sent. */
  datatype Producer = Idle | Busy(s: Snapshot, timeOnly: bool, now: int, personas: seq<string>, todo: seq<Item>)

  datatype Who = Pipeline | Ticker

  datatype State = State(
    engine: Cooldown.State,
    pipeline: Producer,
    ticker: Producer,
    emitted: seq<Item>,                // every match the engine returned
    queue: seq<Item>,
    handed: seq<(nat, Item)>,          // matches handed over, with the worker that took them
    lost: seq<Item>,                   // matches the full queue refused
    matchDropped: nat)

  function Start(rules: seq<Rule>): State { State(Cooldown.State(rules, map[], 0, []), Idle, Idle, [], [], [], [], 0) }

  function Prod(c: State, who: Who): Producer { if who.Pipeline? then c.pipeline else c.ticker }

  function SetProd(c: State, who: Who, p: Producer): State {
    if who.Pipeline? then c.(pipeline := p) else c.(ticker := p)
  }

  datatype Action =
    | Begin(who: Who, s: Snapshot, timeOnly: bool, now: int)
    | Evaluate(who: Who)                       // the next persona
    | Send(who: Who)                           // the next match of the evaluation
    | Finish(who: Who)
    | Take(worker: nat)
    | Admin(op: Cooldown.Op)                   // reload, replace or reset

  function ItemsOf(fired: seq<Rule>, s: Snapshot, now: int, persona: string, first: nat): seq<Item> {
    seq(|fired|, i requires 0 <= i < |fired| => Item(first + i, MatchOf(fired[i], s, now), persona))
  }

  function Step(env: Env, c: State, a: Action): Option<State> {
    match a
    case Begin(who, s, timeOnly, now) =>
      if Prod(c, who).Idle? then Some(SetProd(c, who, Busy(s, timeOnly, now, PERSONAS, []))) else None
    case Evaluate(who) =>
      var p := Prod(c, who);
      if p.Idle? || p.todo != [] || p.personas == [] then None else
      var swept := Sweep(env, c.engine.rules, c.engine.gate, p.s, p.personas[0], p.now, p.timeOnly);
      var items := ItemsOf(swept.fired, p.s, p.now, p.personas[0], |c.engine.log|);
      var engine := Cooldown.Perform(env, c.engine, Cooldown.Evaluate(p.s, p.personas[0], p.now, p.timeOnly));
      Some(SetProd(c.(engine := engine, emitted := c.emitted + items), who,
        p.(personas := p.personas[1..], todo := items)))
    case Send(who) =>
      var p := Prod(c, who);
      if p.Idle? || p.todo == [] then None else
      var c' := SetProd(c, who, p.(todo := p.todo[1..]));
      if |c.queue| < MATCH_QUEUE_SIZE then Some(c'.(queue := c.queue + [p.todo[0]]))
      else Some(c'.(lost := c.lost + [p.todo[0]], matchDropped := c.matchDropped + 1))
    case Finish(who) =>
      var p := Prod(c, who);
      if p.Busy? && p.todo == [] && p.personas == [] then Some(SetProd(c, who, Idle)) else None
    case Take(worker) =>
      if c.queue == [] then None else Some(c.(queue := c.queue[1..], handed := c.handed + [(worker, c.queue[0])]))
    case Admin(op) =>
      if op.Evaluate? || op.Purge? then None else Some(c.(engine := Cooldown.Perform(env, c.engine, op)))
  }

  function Run(env: Env, rules: seq<Rule>, actions: seq<Action>): Option<State> {
    if actions == [] then Some(Start(rules)) else
    var c := Run(env, rules, actions[..|actions| - 1]);
    if c.None? then None else Step(env, c.value, actions[|actions| - 1])
  }

  // ----- Conservation -----

  function Waiting(p: Producer): seq<Item> { if p.Idle? then [] else p.todo }

  function Taken(handed: seq<(nat, Item)>): (r: seq<Item>)
    ensures |r| == |handed| && forall i :: 0 <= i < |r| ==> r[i] == handed[i].1
  {
    seq(|handed|, i requires 0 <= i < |handed| => handed[i].1)
  }

  /** Where every match is: sent or about to be sent, queued, with a worker, or lost. */
  function Whereabouts(c: State): multiset<Item> {
    multiset(Waiting(c.pipeline)) + multiset(Waiting(c.ticker)) + multiset(c.queue) + multiset(Taken(c.handed))
      + multiset(c.lost)
  }

  /** The emitted matches are the engine's fires, in order. */
  ghost predicate MatchesLog(c: State) {
    && |c.emitted| == |c.engine.log|
    && forall i :: 0 <= i < |c.emitted| ==>
         var x, f := c.emitted[i], c.engine.log[i];
         x.index == i && x.match_.firedAt == f.at && GateKey(x.match_.anonymous, x.match_.ruleName) == f.key
  }

  ghost predicate Inv(c: State) {
    && Whereabouts(c) == multiset(c.emitted)
    && c.matchDropped == |c.lost| && |c.queue| <= MATCH_QUEUE_SIZE
    && MatchesLog(c)
    && Cooldown.Spaced(c.engine.log) && Cooldown.Covers(c.engine.gate, {}, c.engine.era, c.engine.log)
  }

  lemma HeadAndTail<T>(s: seq<T>)
    requires s != []
    ensures multiset(s) == multiset{s[0]} + multiset(s[1..])
  {
    assert s == [s[0]] + s[1..];
  }

  lemma NewItemsAreLogged(c: State, c': State, fired: seq<Rule>, s: Snapshot, now: int, persona: string)
    requires MatchesLog(c)
    requires c'.emitted == c.emitted + ItemsOf(fired, s, now, persona, |c.engine.log|)
    requires c'.engine.log == c.engine.log + Cooldown.Logged(fired, s.anonID, now, c.engine.era)
    ensures MatchesLog(c')
  {
  }

  lemma NewItemsWait(c: State, c': State, who: Who)
    requires Whereabouts(c) == multiset(c.emitted) && Waiting(Prod(c, who)) == []
    requires c'.emitted == c.emitted + Waiting(Prod(c', who))
    requires c' == SetProd(c.(engine := c'.engine, emitted := c'.emitted), who, Prod(c', who))
    ensures Whereabouts(c') == multiset(c'.emitted)
  {
  }

  lemma EvaluateKeeps(env: Env, c: State, who: Who, c': State)
    requires Inv(c) && Step(env, c, Evaluate(who)) == Some(c')
    ensures Inv(c')
  {
    var p := Prod(c, who);
    var swept := Sweep(env, c.engine.rules, c.engine.gate, p.s, p.personas[0], p.now, p.timeOnly);
    Cooldown.SweepKeeps(env, c.engine.rules, c.engine.gate, {}, c.engine.era, c.engine.log, p.s, p.personas[0], p.now,
      p.timeOnly);
    hide Sweep, Cooldown.Spaced, Cooldown.Covers, ItemsOf, MatchesLog, Cooldown.Logged, Whereabouts;
    NewItemsAreLogged(c, c', swept.fired, p.s, p.now, p.personas[0]);
    NewItemsWait(c, c', who);
  }

  /** A send moves the next match of its producer to the queue, or loses and counts it. */
  lemma SendEffect(env: Env, c: State, who: Who, c': State)
    requires Step(env, c, Send(who)) == Some(c')
    ensures Waiting(Prod(c, who)) != []
    ensures var x, other := Waiting(Prod(c, who))[0], if who.Pipeline? then Ticker else Pipeline;
            && Waiting(Prod(c', who)) == Waiting(Prod(c, who))[1..]
               && Waiting(Prod(c', other)) == Waiting(Prod(c, other))
            && c'.engine == c.engine && c'.emitted == c.emitted && c'.handed == c.handed
            && if |c.queue| < MATCH_QUEUE_SIZE then c'.queue == c.queue + [x] && c'.lost == c.lost
               && c'.matchDropped == c.matchDropped
               else c'.queue == c.queue && c'.lost == c.lost + [x] && c'.matchDropped == c.matchDropped + 1
  {
  }

  lemma SendKeeps(env: Env, c: State, who: Who, c': State)
    requires Inv(c) && Step(env, c, Send(who)) == Some(c')
    ensures Inv(c')
  {
    hide Cooldown.Spaced, Cooldown.Covers, MatchesLog, Step, Waiting, Prod, Taken;
    SendEffect(env, c, who, c');
    SameLog(c, c');
    HeadAndTail(Waiting(Prod(c, who)));
    assert Whereabouts(c') == Whereabouts(c) by { BothWait(c); BothWait(c'); }
  }

  lemma BothWait(c: State)
    ensures multiset(Waiting(c.pipeline)) + multiset(Waiting(c.ticker)) ==
            multiset(Waiting(Prod(c, Pipeline))) + multiset(Waiting(Prod(c, Ticker)))
  {
  }

  lemma SameLog(c: State, c': State)
    requires MatchesLog(c) && c'.engine.log == c.engine.log && c'.emitted == c.emitted
    ensures MatchesLog(c')
  {
  }

  lemma TakeKeeps(env: Env, c: State, worker: nat, c': State)
    requires Inv(c) && Step(env, c, Take(worker)) == Some(c')
    ensures Inv(c')
  {
    hide Cooldown.Spaced, Cooldown.Covers, MatchesLog;
    assert MatchesLog(c') by { SameLog(c, c'); }
    HeadAndTail(c.queue);
    assert Taken(c'.handed) == Taken(c.handed) + [c.queue[0]];
  }

  lemma StepKeeps(env: Env, c: State, a: Action, c': State)
    requires Inv(c) && Step(env, c, a) == Some(c')
    ensures Inv(c')
  {
    hide Cooldown.Spaced, Cooldown.Covers, MatchesLog;
    match a
    case Evaluate(who) => EvaluateKeeps(env, c, who, c');
    case Send(who) => SendKeeps(env, c, who, c');
    case Take(worker) => TakeKeeps(env, c, worker, c');
    case Admin(op) => SameLog(c, c');
      if op.Reset? { Cooldown.ResetKeeps(c.engine.gate, {}, {}, c.engine.era, c.engine.log); }
    case _ => SameLog(c, c');
  }

  lemma {:induction false} RunKeeps(env: Env, rules: seq<Rule>, actions: seq<Action>)
    requires Run(env, rules, actions).Some?
    ensures Inv(Run(env, rules, actions).value)
  {
    if actions != [] {
      var init := actions[..|actions| - 1];
      RunKeeps(env, rules, init);
      hide Inv, Step;
      StepKeeps(env, Run(env, rules, init).value, actions[|actions| - 1], Run(env, rules, actions).value);
    }
  }

  /** In every interleaving each emitted match is in exactly one place: still with its producer, queued, with one
      worker, or counted in `matchDropped`; the queue never exceeds its capacity. */
  lemma MatchesAreConserved(env: Env, rules: seq<Rule>, actions: seq<Action>, c: State)
    requires Run(env, rules, actions) == Some(c)
    ensures multiset(c.emitted) == multiset(Waiting(c.pipeline)) + multiset(Waiting(c.ticker)) + multiset(c.queue)
                                   + multiset(Taken(c.handed)) + multiset(c.lost)
    ensures c.matchDropped == |c.lost| && |c.queue| <= MATCH_QUEUE_SIZE
    ensures forall i, j :: 0 <= i < j < |c.handed| ==> c.handed[i].1 != c.handed[j].1
  {
    RunKeeps(env, rules, actions);
    forall i, j | 0 <= i < j < |c.handed| ensures c.handed[i].1 != c.handed[j].1 {
      if c.handed[i].1 == c.handed[j].1 { TwiceIn(Taken(c.handed), i, j); EmittedOnce(c, c.handed[i].1); }
    }
  }

  lemma TwiceIn<T>(s: seq<T>, i: nat, j: nat)
    requires i < j < |s| && s[i] == s[j]
    ensures multiset(s)[s[i]] >= 2
  {
    assert s == s[..j] + [s[j]] + s[j + 1..];
    assert s[i] in s[..j];
  }

  lemma EmittedOnce(c: State, x: Item)
    requires MatchesLog(c)
    ensures multiset(c.emitted)[x] <= 1
  {
    OnceIn(c.emitted, x);
  }

  lemma {:induction false} OnceIn(s: seq<Item>, x: Item)
    requires forall i :: 0 <= i < |s| ==> s[i].index == i
    ensures multiset(s)[x] <= 1
  {
    if s != [] {
      var init := s[..|s| - 1];
      OnceIn(init, x);
      assert s == init + [s[|s| - 1]];
      if s[|s| - 1] == x { assert x !in init; }
    }
  }

  /** Matches with workers keep the cooldown spacing: of two for the same user and rule name, emitted in the same era,
      the later one was fired no sooner than the earlier one's cooldown allows. */
  lemma DispatchedMatchesAreSpaced(env: Env, rules: seq<Rule>, actions: seq<Action>, c: State, x: Item, y: Item)
    requires Run(env, rules, actions) == Some(c) && x in Taken(c.handed) && y in Taken(c.handed) && x.index < y.index
    requires x.match_.anonymous == y.match_.anonymous && x.match_.ruleName == y.match_.ruleName
    ensures y.index < |c.engine.log|
    ensures var f, g := c.engine.log[x.index], c.engine.log[y.index];
            && x.match_.firedAt == f.at && y.match_.firedAt == g.at
            && (f.era == g.era && f.cooldown > 0 ==> y.match_.firedAt >= x.match_.firedAt + f.cooldown)
  {
    RunKeeps(env, rules, actions);
    HandedWasEmitted(c, x);
    HandedWasEmitted(c, y);
  }

  lemma HandedWasEmitted(c: State, x: Item)
    requires Inv(c) && x in Taken(c.handed)
    ensures x.index < |c.emitted| && c.emitted[x.index] == x
  {
    assert x in multiset(Taken(c.handed));
    assert x in multiset(c.emitted);
  }

  // ----- Order -----

  /** What an action puts in the queue. */
  function Accepts(c: State, a: Action): seq<Item> {
    if a.Send? && Prod(c, a.who).Busy? && Prod(c, a.who).todo != [] && |c.queue| < MATCH_QUEUE_SIZE
    then [Prod(c, a.who).todo[0]] else []
  }

  /** The matches the queue accepted over a run, in the order of the sends. */
  function Sent(env: Env, rules: seq<Rule>, actions: seq<Action>): seq<Item> {
    if actions == [] then [] else
    var init := actions[..|actions| - 1];
    var c := Run(env, rules, init);
    if c.None? then [] else Sent(env, rules, init) + Accepts(c.value, actions[|actions| - 1])
  }

  lemma StepAccepts(env: Env, c: State, a: Action, c': State)
    requires Step(env, c, a) == Some(c')
    ensures Taken(c'.handed) + c'.queue == Taken(c.handed) + c.queue + Accepts(c, a)
  {
    match a
    case Take(_) => assert c.queue == [c.queue[0]] + c.queue[1..] && Taken(c'.handed) == Taken(c.handed) + [c.queue[0]];
    case Send(who) => hide Step, Taken; SendEffect(env, c, who, c'); assert Accepts(c, a) == c'.queue[|c.queue|..];
    case _ => hide Sweep, Cooldown.Perform, ItemsOf, Taken;
  }

  /** First in, first out over every interleaving: what the workers took, then what is still queued, is what the queue
      accepted, in the order of the sends. */
  lemma {:induction false} QueueIsFifo(env: Env, rules: seq<Rule>, actions: seq<Action>, c: State)
    requires Run(env, rules, actions) == Some(c)
    ensures Taken(c.handed) + c.queue == Sent(env, rules, actions) && Taken(c.handed) <= Sent(env, rules, actions)
  {
    if actions != [] {
      var init := actions[..|actions| - 1];
      var before := Run(env, rules, init).value;
      QueueIsFifo(env, rules, init, before);
      hide Step, Accepts, Taken;
      StepAccepts(env, before, actions[|actions| - 1], c);
    }
  }
}
