/** The event path and the idle tick as compositions of store, rules and gate
    (cmd/realtime-trigger/runtime_pipeline.go). */
module Service {
  import opened Options
  import opened Event
  import opened Window
  import opened Snapshots
  import opened Lru
  import opened Predicates
  import opened Expr
  import opened Engine

  const PERSONAS: seq<string> := ["realestate", "rs-self"]

  const SECOND := NANOS_PER_SECOND

  /** A snapshot evaluated for each persona in turn. */
  function SweepPersonas(env: Env, rules: seq<Rule>, g: Gate, s: Snapshot, now: int, timeOnly: bool,
                         personas: seq<string>): Swept {
    if personas == [] then Swept([], g) else
    var before := SweepPersonas(env, rules, g, s, now, timeOnly, personas[..|personas| - 1]);
    var last := Sweep(env, rules, before.gate, s, personas[|personas| - 1], now, timeOnly);
    Swept(before.fired + last.fired, last.gate)
  }

  datatype Firing = Firing(anonID: string, rule: Rule, at: int)

  function FiringsOf(fired: seq<Rule>, anonID: string, now: int): (r: seq<Firing>)
    ensures |r| == |fired| && forall i :: 0 <= i < |r| ==> r[i] == Firing(anonID, fired[i], now)
  {
    seq(|fired|, i requires 0 <= i < |fired| => Firing(anonID, fired[i], now))
  }

  /** A window a scan comes to, and the time at which the rules see its snapshot. */
  datatype Look = Look(id: string, now: int)

  /** What reaches the service, in any order. */
  datatype Input =
    | Arrived(arrival: Arrival, now: int)            // an event that passed the filter
    | Ticked(scan: int, looks: seq<Look>)            // one scan for idle windows, in whatever order it comes to them
    | Reloaded(loaded: Option<seq<Rule>>)            // `None` when the loader failed
    | DemoReset
    | Pruned(cutoff: int)

  datatype Served = Served(rules: seq<Rule>, flat: Flat, gate: Gate, firings: seq<Firing>)

  /** One snapshot goes through the rules, for every persona. */
  function Probe(env: Env, c: Served, id: string, s: Snapshot, now: int, timeOnly: bool): Served {
    var swept := SweepPersonas(env, c.rules, c.gate, s, now, timeOnly, PERSONAS);
    c.(gate := swept.gate, firings := c.firings + FiringsOf(swept.fired, id, now))
  }

  predicate IdleAt(wins: map<string, Win>, id: string, scan: int) { id in wins && scan - wins[id].lastSeen >= SECOND }

  /** A scan goes through the snapshots of the windows idle for a second. */
  function Tick(env: Env, c: Served, scan: int, looks: seq<Look>): (r: Served)
    ensures r.rules == c.rules && r.flat == c.flat
  {
    if looks == [] then c else
    var before, x := Tick(env, c, scan, looks[..|looks| - 1]), looks[|looks| - 1];
    if IdleAt(c.flat.wins, x.id, scan) then Probe(env, before, x.id, TakeAt(c.flat.wins[x.id], scan), x.now, true)
      else before
  }

  /** An event is folded into its window, then the window's snapshot goes through the rules. */
  function Arrive(env: Env, cap: nat, c: Served, a: Arrival, now: int): Served {
    var c', id := c.(flat := FlatStep(c.flat, cap, a)), Id(a);
    if id == "" || id !in c'.flat.wins then c' else Probe(env, c', id, TakeAt(c'.flat.wins[id], now), now, false)
  }

  function ServeOne(env: Env, cap: nat, c: Served, x: Input): Served {
    match x
    case Arrived(arrival, now) => Arrive(env, cap, c, arrival, now)
    case Ticked(scan, looks) => Tick(env, c, scan, looks)
    case Reloaded(loaded) => if loaded.Some? then c.(rules := loaded.value) else c
    case DemoReset => c.(flat := Flat(Nil, map[]), gate := map[])
    case Pruned(cutoff) => c.(flat := FlatPrune(c.flat, cutoff))
  }

  function Serve(env: Env, cap: nat, initial: seq<Rule>, log: seq<Input>): Served {
    if log == [] then Served(initial, Flat(Nil, map[]), map[], [])
    else ServeOne(env, cap, Serve(env, cap, initial, log[..|log| - 1]), log[|log| - 1])
  }
}
