/** The window cap under concurrency (WithWindow, evictGlobalOldest and Prune in internal/window/store.go).

    Threads interleave at lock sections; one eviction scan is one step, and so is pruning one shard. */
module SoftCap {
  import opened Options
  import Store

  /** Where one WithWindow call is; finished calls have no entry. */
  datatype PC =
    | Fast(id: string)                                   // about to look the window up
    | Load(id: string)                                   // about to compare the counter with the cap
    | Scan(id: string)                                   // about to look for a victim
    | Evict(id: string, victim: string, oldest: int)     // about to remove the victim
    | Insert(id: string)                                 // past the cap check

  datatype State = State(resident: map<string, int>, active: int, pcs: map<nat, PC>)

  const START: State := State(map[], 0, map[])

  datatype Action =
    | Call(t: nat, id: string)
    | Advance(t: nat, clock: int, victim: string)        // `victim` is the scan's choice
    | PruneShard(shard: nat, gone: set<string>)

  /** The cap, how many calls may be in progress at once, and the hash that picks a shard. */
  datatype Setup = Setup(max: nat, callers: nat, hash: string -> nat)

  function Go(c: State, t: nat, pc: PC): State { c.(pcs := c.pcs[t := pc]) }

  function Done(c: State, t: nat): State { c.(pcs := c.pcs - {t}) }

  function Step(p: Setup, c: State, a: Action): Option<State> {
    match a
    case Call(t, id) =>
      if t >= p.callers || t in c.pcs then None
      else if id == "" then Some(c)
      else Some(Go(c, t, Fast(id)))
    case Advance(t, clock, victim) =>
      if t !in c.pcs then None else
      (match c.pcs[t]
       case Fast(id) =>
         if id in c.resident then Some(Done(c.(resident := c.resident[id := clock]), t)) else Some(Go(c, t, Load(id)))
       case Load(id) => Some(Go(c, t, if c.active >= p.max then Scan(id) else Insert(id)))
       case Scan(id) =>
         if c.resident == map[] then Some(Go(c, t, Insert(id)))
         else if victim in c.resident && forall k :: k in c.resident ==> c.resident[victim] <= c.resident[k] then
           Some(Go(c, t, Evict(id, victim, c.resident[victim])))
         else None
       case Evict(id, v, oldest) =>
         if v !in c.resident || c.resident[v] > oldest then Some(Go(c, t, Load(id)))
         else Some(Go(c.(resident := c.resident - {v}, active := c.active - 1), t, Load(id)))
       case Insert(id) =>
         Some(Done(c.(resident := c.resident[id := clock], active := if id in c.resident then c.active
           else c.active + 1), t)))
    case PruneShard(shard, gone) =>
      if forall k :: k in gone ==> k in c.resident && p.hash(k) % Store.SHARD_COUNT == shard then
        Some(c.(resident := c.resident - gone, active := c.active - |gone|))
      else None
  }

  function RunFrom(p: Setup, c: State, actions: seq<Action>): Option<State>
    decreases |actions|
  {
    if actions == [] then Some(c) else
    var c' := Step(p, c, actions[0]);
    if c'.None? then None else RunFrom(p, c'.value, actions[1..])
  }

  // ----- The bound -----

  /** The calls past the cap check. */
  ghost function Past(c: State): set<nat> { set t | t in c.pcs && c.pcs[t].Insert? }

  ghost predicate Inv(p: Setup, c: State) {
    && c.active == |c.resident|
    && (forall t :: t in c.pcs ==> t < p.callers)
    && |c.resident| + |Past(c)| <= p.max - 1 + p.callers
  }

  lemma {:induction false} FewThreads(s: set<nat>, n: nat)
    requires forall t :: t in s ==> t < n
    ensures |s| <= n
  {
    if n > 0 {
      FewThreads(s - {n - 1}, n - 1);
      assert |s| <= |s - {n - 1}| + 1;
    } else {
      assert s == {};
    }
  }

  lemma Removing(m: map<string, int>, gone: set<string>)
    requires gone <= m.Keys
    ensures |m - gone| == |m| - |gone|
  {
  }

  lemma Adding(m: map<string, int>, k: string, v: int)
    ensures |m[k := v]| == |m| + if k in m then 0 else 1
  {
  }

  /** A thread that is not past the check, or leaves it, does not add to those past it. */
  lemma PastFrame(c: State, c': State, t: nat)
    requires c'.pcs == c.pcs - {t} || (t in c'.pcs && c'.pcs == c.pcs[t := c'.pcs[t]] && !c'.pcs[t].Insert?)
    ensures Past(c') == Past(c) - {t} && |Past(c')| == |Past(c)| - if t in Past(c) then 1 else 0
  {
  }

  /** A call that meets room passes the check. */
  lemma PassKeeps(p: Setup, c: State, t: nat, id: string)
    requires p.max > 0 && Inv(p, c) && t in c.pcs && c.active < p.max
    ensures Inv(p, Go(c, t, Insert(id)))
  {
    hide Past;
    PastIsFew(p, Go(c, t, Insert(id)));
  }

  lemma EvictKeeps(p: Setup, c: State, t: nat, id: string, v: string)
    requires Inv(p, c) && t in c.pcs && v in c.resident
    ensures Inv(p, Go(c.(resident := c.resident - {v}, active := c.active - 1), t, Load(id)))
  {
    hide Past;
    Removing(c.resident, {v});
    PastFrame(c, Go(c.(resident := c.resident - {v}, active := c.active - 1), t, Load(id)), t);
  }

  lemma InsertKeeps(p: Setup, c: State, t: nat, id: string, clock: int, c': State)
    requires Inv(p, c) && t in c.pcs && c.pcs[t] == Insert(id)
    requires c' == Done(c.(resident := c.resident[id := clock], active := if id in c.resident then c.active
             else c.active + 1), t)
    ensures Inv(p, c')
  {
    IsPast(c, t);
    hide Past;
    Adding(c.resident, id, clock);
    PastFrame(c, c', t);
  }

  /** A call moves on, or finishes, outside the stretch past the check. */
  lemma QuietKeeps(p: Setup, c: State, c': State, t: nat)
    requires Inv(p, c) && t in c.pcs && |c'.resident| == |c.resident| && c'.active == c.active
    requires c'.pcs == c.pcs - {t} || (t in c'.pcs && c'.pcs == c.pcs[t := c'.pcs[t]] && !c'.pcs[t].Insert?)
    ensures Inv(p, c')
  {
    hide Past;
    PastFrame(c, c', t);
  }

  lemma AdvanceKeeps(p: Setup, c: State, t: nat, clock: int, victim: string, c': State)
    requires p.max > 0 && Inv(p, c) && Step(p, c, Advance(t, clock, victim)) == Some(c')
    ensures Inv(p, c')
  {
    assert c.active == |c.resident|;
    hide Inv;
    match c.pcs[t]
    case Fast(id) => Adding(c.resident, id, clock); QuietKeeps(p, c, c', t);
    case Load(id) => if c.active >= p.max { QuietKeeps(p, c, c', t); } else { PassKeeps(p, c, t, id); }
    case Scan(id) => if c.resident == map[] { PassKeeps(p, c, t, id); } else { QuietKeeps(p, c, c', t); }
    case Evict(id, v, oldest) =>
      if v in c.resident && c.resident[v] <= oldest { EvictKeeps(p, c, t, id, v); } else { QuietKeeps(p, c, c', t); }
    case Insert(id) => InsertKeeps(p, c, t, id, clock, c');
  }

  lemma PastIsFew(p: Setup, c: State)
    requires forall t :: t in c.pcs ==> t < p.callers
    ensures |Past(c)| <= p.callers
  {
    FewThreads(Past(c), p.callers);
  }

  lemma IsPast(c: State, t: nat)
    requires t in c.pcs && c.pcs[t].Insert?
    ensures t in Past(c)
  {
  }

  lemma StepKeeps(p: Setup, c: State, a: Action, c': State)
    requires p.max > 0 && Inv(p, c) && Step(p, c, a) == Some(c')
    ensures Inv(p, c')
  {
    match a
    case Call(t, id) => if id != "" { PastFrame(c, c', t); }
    case Advance(t, clock, victim) => AdvanceKeeps(p, c, t, clock, victim, c');
    case PruneShard(shard, gone) => Removing(c.resident, gone); assert Past(c') == Past(c);
  }

  lemma {:induction false} RunKeeps(p: Setup, c: State, actions: seq<Action>, c': State)
    requires p.max > 0 && Inv(p, c) && RunFrom(p, c, actions) == Some(c')
    ensures Inv(p, c')
    decreases |actions|
  {
    hide Inv, Step;
    if actions != [] {
      StepKeeps(p, c, actions[0], Step(p, c, actions[0]).value);
      RunKeeps(p, Step(p, c, actions[0]).value, actions[1..], c');
    }
  }

  /** However calls, evictions and prunes interleave, the counter is exact and at most `max - 1 + callers` windows are
      ever resident. */
  lemma ResidentBounded(p: Setup, actions: seq<Action>, c: State)
    requires p.max > 0 && RunFrom(p, START, actions) == Some(c)
    ensures c.active == |c.resident| <= p.max - 1 + p.callers
  {
    assert Past(START) == {};
    RunKeeps(p, START, actions, c);
  }

  // ----- The bound is reached -----

  function Name(k: nat): string { seq(k + 1, _ => 'a') }

  function Names(k: nat): (m: map<string, int>)
    ensures forall id :: id in m ==> |id| <= k
  {
    if k == 0 then map[] else Names(k - 1)[Name(k - 1) := 0]
  }

  function PastPC(first: nat, t: nat): PC { Insert(Name(first + t)) }

  /** Calls `lo` to `hi` past the check, each with a name of its own. */
  function AllPast(lo: nat, hi: nat, first: nat): map<nat, PC> { map t: nat | lo <= t < hi :: PastPC(first, t) }

  lemma {:induction false} RunConcat(p: Setup, c: State, xs: seq<Action>, ys: seq<Action>)
    requires RunFrom(p, c, xs).Some?
    ensures RunFrom(p, c, xs + ys) == RunFrom(p, RunFrom(p, c, xs).value, ys)
    decreases |xs|
  {
    hide Step;
    if xs == [] {
      assert xs + ys == ys;
    } else {
      assert (xs + ys)[1..] == xs[1..] + ys;
      RunConcat(p, Step(p, c, xs[0]).value, xs[1..], ys);
    }
  }

  lemma NamesMore(k: nat)
    ensures Name(k) !in Names(k) && Names(k + 1) == Names(k)[Name(k) := 0] && |Names(k)| == k && Name(k) != ""
  {
    assert |Name(k)| == k + 1;
    if k > 0 { NamesMore(k - 1); Adding(Names(k - 1), Name(k - 1), 0); }
  }

  /** Three steps bring call `t` past the check while the counter is below the cap. */
  lemma PassCheck(p: Setup, c: State, t: nat, id: string)
    requires t < p.callers && t !in c.pcs && id != "" && id !in c.resident && c.active < p.max
    ensures RunFrom(p, c, [Call(t, id), Advance(t, 0, ""), Advance(t, 0, "")]) == Some(Go(c, t, Insert(id)))
  {
    var c1, c2, c3 := Go(c, t, Fast(id)), Go(c, t, Load(id)), Go(c, t, Insert(id));
    assert Step(p, c, Call(t, id)) == Some(c1);
    assert Step(p, c1, Advance(t, 0, "")) == Some(c2) by { assert c1.pcs[t := Load(id)] == c2.pcs; }
    assert Step(p, c2, Advance(t, 0, "")) == Some(c3) by { assert c2.pcs[t := Insert(id)] == c3.pcs; }
    hide Step;
    ThreeSteps(p, c, c1, c2, c3, Call(t, id), Advance(t, 0, ""), Advance(t, 0, ""));
  }

  lemma ThreeSteps(p: Setup, c: State, c1: State, c2: State, c3: State, x: Action, y: Action, z: Action)
    requires Step(p, c, x) == Some(c1) && Step(p, c1, y) == Some(c2) && Step(p, c2, z) == Some(c3)
    ensures RunFrom(p, c, [x, y, z]) == Some(c3)
  {
    hide Step;
    assert [x, y, z][1..] == [y, z] && [y, z][1..] == [z] && [z][1..] == [];
    assert RunFrom(p, c2, [z]) == RunFrom(p, c3, []);
    assert RunFrom(p, c1, [y, z]) == RunFrom(p, c2, [z]);
  }

  lemma OneStep(p: Setup, c: State, a: Action, c': State)
    requires Step(p, c, a) == Some(c')
    ensures RunFrom(p, c, [a]) == Some(c')
  {
  }

  /** One caller alone adds one window. */
  lemma FillOne(p: Setup, k: nat) returns (actions: seq<Action>)
    requires k + 1 < p.max && p.callers > 0
    ensures RunFrom(p, State(Names(k), k, map[]), actions) == Some(State(Names(k + 1), k + 1, map[]))
  {
    var c, id, next := State(Names(k), k, map[]), Name(k), State(Names(k + 1), k + 1, map[]);
    NamesMore(k);
    hide Step, Names, Name, RunFrom;
    PassCheck(p, c, 0, id);
    InsertFresh(p, Go(c, 0, Insert(id)), 0, id);
    assert Go(c, 0, Insert(id)).pcs - {0} == map[];
    OneStep(p, Go(c, 0, Insert(id)), Advance(0, 0, ""), next);
    var pass, last := [Call(0, id), Advance(0, 0, ""), Advance(0, 0, "")], [Advance(0, 0, "")];
    hide *;
    RunConcat(p, c, pass, last);
    actions := pass + last;
  }

  /** One caller alone fills the store to `k` windows. */
  lemma {:induction false} Fill(p: Setup, k: nat) returns (actions: seq<Action>)
    requires k < p.max && p.callers > 0
    ensures RunFrom(p, START, actions) == Some(State(Names(k), k, map[]))
  {
    if k == 0 {
      actions := [];
    } else {
      hide *;
      var before := Fill(p, k - 1);
      var more := FillOne(p, k - 1);
      RunConcat(p, START, before, more);
      actions := before + more;
    }
  }

  /** `max - 1` windows resident and `k` calls past the check. */
  function Gathered(p: Setup, k: nat): State
    requires p.max > 0
  {
    State(Names(p.max - 1), p.max - 1, AllPast(0, k, p.max - 1))
  }

  lemma GatherOne(p: Setup, k: nat)
    requires p.max > 0 && k < p.callers
    ensures var id := Name(p.max - 1 + k);
            && id !in Gathered(p, k).resident && id != "" && k !in Gathered(p, k).pcs && Gathered(p, k).active < p.max
            && Go(Gathered(p, k), k, Insert(id)) == Gathered(p, k + 1)
  {
  }

  /** Then `k` calls pass the check together. */
  lemma {:induction false} Gather(p: Setup, k: nat) returns (actions: seq<Action>)
    requires p.max > 0 && 0 < p.callers && k <= p.callers
    ensures RunFrom(p, START, actions) == Some(Gathered(p, k))
  {
    if k == 0 {
      actions := Fill(p, p.max - 1);
      assert AllPast(0, 0, p.max - 1) == map[];
    } else {
      hide Names, Name, RunFrom, Gathered, Step;
      var before := Gather(p, k - 1);
      var id := Name(p.max - 1 + (k - 1));
      GatherOne(p, k - 1);
      PassCheck(p, Gathered(p, k - 1), k - 1, id);
      var pass := [Call(k - 1, id), Advance(k - 1, 0, ""), Advance(k - 1, 0, "")];
      RunConcat(p, START, before, pass);
      actions := before + pass;
    }
  }

  /** `j` of the gathered calls have inserted. */
  function Inserted(p: Setup, j: nat): State
    requires p.max > 0
  {
    State(Names(p.max - 1 + j), p.max - 1 + j, AllPast(j, p.callers, p.max - 1))
  }

  lemma NoneInserted(p: Setup)
    requires p.max > 0
    ensures Gathered(p, p.callers) == Inserted(p, 0)
  {
  }

  lemma FirstLeaves(lo: nat, hi: nat, first: nat)
    requires lo < hi
    ensures lo in AllPast(lo, hi, first) && AllPast(lo, hi, first)[lo] == Insert(Name(first + lo))
    ensures AllPast(lo, hi, first) - {lo} == AllPast(lo + 1, hi, first)
  {
  }

  lemma InsertOne(p: Setup, j: nat)
    requires p.max > 0 && j < p.callers
    ensures Step(p, Inserted(p, j), Advance(j, 0, "")) == Some(Inserted(p, j + 1))
  {
    hide Names, Name, AllPast, Step;
    var n := p.max - 1 + j;
    FirstLeaves(j, p.callers, p.max - 1);
    NamesMore(n);
    InsertFresh(p, State(Names(n), n, AllPast(j, p.callers, p.max - 1)), j, Name(n));
    assert n + 1 == p.max - 1 + (j + 1);
  }

  lemma InsertFresh(p: Setup, c: State, t: nat, id: string)
    requires t in c.pcs && c.pcs[t] == Insert(id) && id !in c.resident
    ensures Step(p, c, Advance(t, 0, "")) == Some(State(c.resident[id := 0], c.active + 1, c.pcs - {t}))
  {
  }

  /** And then the first `j` of them insert. */
  lemma {:induction false} InsertAll(p: Setup, j: nat) returns (actions: seq<Action>)
    requires p.max > 0 && 0 < p.callers && j <= p.callers
    ensures RunFrom(p, START, actions) == Some(Inserted(p, j))
  {
    hide Step, RunFrom, Inserted, Gathered;
    if j == 0 {
      actions := Gather(p, p.callers);
      NoneInserted(p);
    } else {
      var before := InsertAll(p, j - 1);
      InsertOne(p, j - 1);
      OneStep(p, Inserted(p, j - 1), Advance(j - 1, 0, ""), Inserted(p, j));
      RunConcat(p, START, before, [Advance(j - 1, 0, "")]);
      actions := before + [Advance(j - 1, 0, "")];
    }
  }

  /** The bound is exact: for every cap and every number of concurrent calls some interleaving reaches it. */
  lemma BoundIsReached(p: Setup) returns (actions: seq<Action>)
    requires p.max > 0 && p.callers > 0
    ensures RunFrom(p, START, actions).Some? && |RunFrom(p, START, actions).value.resident| == p.max - 1 + p.callers
  {
    hide Step, RunFrom;
    actions := InsertAll(p, p.callers);
    NamesMore(p.max - 1 + p.callers);
  }
}
