/** No deadlock: from every state a run can reach, letting the threads go on in a suitable order ends every call. */
module HubRest {
  import opened Options
  import opened Hub
  import opened HubSteps
  import opened HubSafety
  import opened HubHeartbeat

  // ----- How far a thread is from the end of its call -----

  function ContWork(k: Cont): nat {
    match k case ThenDrop(_, todo) => 7 * |todo| + 1 case ThenClose(rest) => 3 * |rest|
  }

  function Left(list: seq<nat>, i: nat): nat { if i < |list| then |list| - i else 0 }

  /** A bound on the steps a thread has left, apart from Close before it has seen the lists. */
  function Work(subs: map<string, seq<nat>>, pc: PC): nat {
    match pc
    case Subscribing(_, _) => 2
    case SubLocked(_, _) => 1
    case Publishing(stream, _) => 9 * |ListOf(subs, stream)| + 3
    case Fan(stream, _, i, drops) => 9 * Left(ListOf(subs, stream), i) + 7 * |drops| + 2
    case FanSend(stream, _, i, drops) => 9 * Left(ListOf(subs, stream), i) + 7 * |drops| + 1
    case Dropping(_, todo) => 7 * |todo| + 1
    case DropLocked(_, todo) => 7 * |todo|
    case Counting(_, todo) => if todo == [] then 0 else 7 * |todo| - 1
    case Unsubscribing(_, _) => 5
    case UnsubLocked(_, _) => 4
    case Shutting => 0
    case ShutLocked => 0
    case Closing(_, k) => 3 + ContWork(k)
    case CloseStop(_, k) => 2 + ContWork(k)
    case CloseChan(_, k) => 1 + ContWork(k)
    case Beating(_) => 3
    case BeatLocked(_) => 2
    case BeatSend(_) => 1
  }

  function Phase(pc: PC): nat { if pc.Shutting? then 2 else if pc.ShutLocked? then 1 else 0 }

  /** The thread has ended its call or come nearer to the end. */
  predicate Ahead(c: State, c': State, t: nat) {
    t in c.pcs && (t in c'.pcs ==>
      Phase(c'.pcs[t]) < Phase(c.pcs[t])
      || (Phase(c'.pcs[t]) == Phase(c.pcs[t]) && Work(c'.subs, c'.pcs[t]) < Work(c.subs, c.pcs[t])))
  }

  // ----- Under the read lock -----

  lemma PublishWorks(c: State, t: nat, c': State)
    requires t in c.pcs && c.pcs[t].Publishing? && AdvanceReader(c, t, c.pcs[t]) == Some(c')
    ensures Ahead(c, c', t)
  {
    hide AdvanceReader, LogOf, ListOf;
    PublishStep(c, t, c');
  }

  lemma FanWorks(c: State, t: nat, c': State)
    requires t in c.pcs && c.pcs[t].Fan? && AdvanceReader(c, t, c.pcs[t]) == Some(c')
    ensures Ahead(c, c', t)
  {
    hide AdvanceReader, ListOf;
    FanStep(c, t, c');
  }

  lemma SendWorks(c: State, t: nat, c': State)
    requires t in c.pcs && c.pcs[t].FanSend? && AdvanceReader(c, t, c.pcs[t]) == Some(c')
    ensures Ahead(c, c', t)
  {
    hide AdvanceReader, ListOf, Accept;
    SendStep(c, t, c');
  }

  lemma ReadWorks(c: State, t: nat, c': State)
    requires t in c.pcs && AdvanceReader(c, t, c.pcs[t]) == Some(c')
    ensures Ahead(c, c', t)
  {
    hide AdvanceReader, Accept;
    match c.pcs[t]
    case Publishing(_, _) => hide Ahead; PublishWorks(c, t, c');
    case Fan(_, _, _, _) => hide Ahead; FanWorks(c, t, c');
    case FanSend(_, _, _, _) => hide Ahead; SendWorks(c, t, c');
    case Beating(_) => TimerStep(c, t, c');
    case BeatLocked(_) => LookStep(c, t, c');
    case BeatSend(_) => BeatStep(c, t, c');
    case _ => NotReader(c, t);
  }

  // ----- Closing -----

  lemma SwapWorks(c: State, t: nat, c': State)
    requires t in c.pcs && c.pcs[t].Closing? && AdvanceClosing(c, t, c.pcs[t]) == Some(c')
    ensures Ahead(c, c', t)
  {
    hide AdvanceClosing, Resume, ListOf;
    SwapStep(c, t, c');
    ResumeWork(c, t, c.pcs[t].k);
  }

  lemma ChanWorks(c: State, t: nat, c': State)
    requires t in c.pcs && c.pcs[t].CloseChan? && AdvanceClosing(c, t, c.pcs[t]) == Some(c')
    ensures Ahead(c, c', t)
  {
    var CloseChan(s, k) := c.pcs[t];
    hide AdvanceClosing, Resume, ListOf;
    ChanStep(c, t, c');
    var faults := if c.sub[s].shut then c.faults + {CloseOfClosed} else c.faults;
    ResumeWork(c.(sub := c.sub[s := c.sub[s].(shut := true, closer := None)], faults := faults), t, k);
  }

  lemma ResumeWork(c: State, t: nat, k: Cont)
    requires t in c.pcs
    ensures var c' := Resume(c, t, k);
            t in c'.pcs ==> Phase(c'.pcs[t]) == 0 && Work(c'.subs, c'.pcs[t]) <= ContWork(k)
  {
    hide ListOf;
  }

  lemma CloseWorks(c: State, t: nat, c': State)
    requires t in c.pcs && AdvanceClosing(c, t, c.pcs[t]) == Some(c')
    ensures Ahead(c, c', t)
  {
    hide AdvanceClosing, ListOf;
    match c.pcs[t]
    case Counting(_, _) => CountStep(c, t, c');
    case CloseStop(_, _) => StopStep(c, t, c');
    case Closing(_, _) => hide Ahead; SwapWorks(c, t, c');
    case CloseChan(_, _) => hide Ahead; ChanWorks(c, t, c');
    case _ => NotClosing(c, t);
  }

  // ----- Around the write lock -----

  lemma TakeWorks(c: State, t: nat, all: seq<nat>, c': State)
    requires t in c.pcs && WantsWrite(c.pcs[t]) && AdvanceLocking(c, t, c.pcs[t], all) == Some(c')
    ensures Ahead(c, c', t)
  {
    hide AdvanceLocking, ListOf, Unlocked;
    LockStep(c, t, all, c');
  }

  lemma LockWorks(c: State, t: nat, all: seq<nat>, c': State)
    requires t in c.pcs && AdvanceLocking(c, t, c.pcs[t], all) == Some(c')
    ensures Ahead(c, c', t)
  {
    hide AdvanceLocking, ListOf, LogOf, Enlist, Delist, Gathers, Resume, Unlocked;
    LockingOnly(c, t, all);
    match c.pcs[t]
    case SubLocked(_, _) => RegisterStep(c, t, all, c');
    case DropLocked(_, _) => DropStep(c, t, all, c');
    case UnsubLocked(_, _) => UnlistStep(c, t, all, c');
    case ShutLocked => ShutStep(c, t, all, c'); ResumeWork(c.(subs := map[], writer := None), t, ThenClose(all));
    case _ => hide Ahead; TakeWorks(c, t, all, c');
  }

  lemma StepWorks(c: State, t: nat, all: seq<nat>, c': State)
    requires Step(c, Advance(t, all)) == Some(c')
    ensures Ahead(c, c', t) && PcOnly(c, c', t)
  {
    hide AdvanceReader, AdvanceLocking, AdvanceClosing, Ahead;
    AdvanceLaws(c, Advance(t, all), c');
    if ReaderPC(c.pcs[t]) { ReadWorks(c, t, c'); }
    else if ClosingPC(c.pcs[t]) { CloseWorks(c, t, c'); }
    else { LockWorks(c, t, all, c'); }
  }

  // ----- When a thread can go on -----

  /** Nobody else holds the lock. */
  ghost predicate Free(c: State, t: nat) { t in c.pcs && (c.writer.None? || c.writer == Some(t)) && c.readers <= {t} }

  lemma {:induction false} Concat(lists: map<string, seq<nat>>, names: set<string>) returns (all: seq<nat>)
    requires names <= lists.Keys
    ensures forall s :: s in all <==> exists stream :: stream in names && s in lists[stream]
    decreases names
  {
    if names == {} {
      all := [];
    } else {
      var stream :| stream in names;
      var rest := Concat(lists, names - {stream});
      all := lists[stream] + rest;
      forall s ensures s in all <==> exists st :: st in names && s in lists[st] {
        if s in rest { var st :| st in names - {stream} && s in lists[st]; }
      }
    }
  }

  lemma AllListed(subs: map<string, seq<nat>>) returns (all: seq<nat>)
    ensures Gathers(subs, all)
  {
    all := Concat(subs, subs.Keys);
  }

  lemma ReaderEnabled(c: State, t: nat)
    requires Inv(c) && t in c.pcs && ReaderPC(c.pcs[t]) && (HoldsRead(c.pcs[t]) || c.writer.None?)
    ensures Step(c, Advance(t, [])).Some?
  {
    At(c, t);
    hide ThreadsOk, LocksOk, SubsOk, LogOf, Accept, Counted, NoDup;
  }

  lemma TakeEnabled(c: State, t: nat)
    requires Inv(c) && Free(c, t) && WantsWrite(c.pcs[t])
    ensures Step(c, Advance(t, [])).Some?
  {
    At(c, t);
    hide ThreadsOk, LocksOk, SubsOk, ListsOk, LogOf, Enlist, Delist, Gathers, Resume, Counted, AdvanceReader;
  }

  lemma WriteEnabled(c: State, t: nat, all: seq<nat>)
    requires Inv(c) && t in c.pcs && HoldsWrite(c.pcs[t]) && Gathers(c.subs, all)
    ensures Step(c, Advance(t, all)).Some?
  {
    At(c, t);
    if c.pcs[t].DropLocked? { TailIn(c.pcs[t].todo); }
    hide ThreadsOk, LocksOk, SubsOk, ListsOk, LogOf, Enlist, Delist, Gathers, Resume, Counted, AdvanceReader, Listed;
  }

  lemma FreeEnabled(c: State, t: nat) returns (all: seq<nat>)
    requires Inv(c) && Free(c, t)
    ensures Step(c, Advance(t, all)).Some?
  {
    At(c, t);
    hide Inv, Step, Gathers, PcOk;
    all := [];
    if ReaderPC(c.pcs[t]) {
      ReaderEnabled(c, t);
    } else if ClosingPC(c.pcs[t]) {
      ClosingEnabled(c, t);
    } else if WantsWrite(c.pcs[t]) {
      TakeEnabled(c, t);
    } else {
      all := AllListed(c.subs);
      WriteEnabled(c, t, all);
    }
  }

  // ----- One thread to the end of its call -----

  ghost predicate OnlyAdvances(actions: seq<Action>) { forall a :: a in actions ==> a.Advance? }

  /** The others are where they were, so they still hold no lock. */
  lemma StaysFree(c: State, c': State, t: nat)
    requires LocksOk(c) && LocksOk(c') && Free(c, t) && PcOnly(c, c', t)
    ensures if t in c'.pcs then Free(c', t) else Unlocked(c')
  {
    forall u | u != t ensures c'.writer != Some(u) && u !in c'.readers {
      assert (c'.writer == Some(u) ==> u in c'.pcs) && (u in c'.readers ==> u in c'.pcs);
      assert u in c'.pcs ==> u in c.pcs && c'.pcs[u] == c.pcs[u];
    }
  }

  lemma FreeStep(c: State, t: nat) returns (a: Action, c': State)
    requires Inv(c) && Free(c, t)
    ensures a.Advance? && Step(c, a) == Some(c') && Inv(c') && Ahead(c, c', t) && PcOnly(c, c', t)
    ensures if t in c'.pcs then Free(c', t) else Unlocked(c')
  {
    assert LocksOk(c);
    var all := FreeEnabled(c, t);
    a := Advance(t, all);
    c' := Step(c, a).value;
    hide Step, Ahead;
    StepKeeps(c, a, c');
    StepWorks(c, t, all, c');
    assert LocksOk(c');
    hide Inv, LocksOk;
    StaysFree(c, c', t);
  }

  lemma {:induction false} AloneToEnd(c: State, t: nat) returns (actions: seq<Action>, c': State)
    requires Inv(c) && Free(c, t)
    ensures OnlyAdvances(actions) && RunFrom(c, actions) == Some(c') && Inv(c') && Unlocked(c') && c'.pcs == c.pcs - {t}
    decreases Phase(c.pcs[t]), Work(c.subs, c.pcs[t])
  {
    hide Inv, Step;
    var a, c1 := FreeStep(c, t);
    var rest := [];
    c' := c1;
    if t in c1.pcs { rest, c' := AloneToEnd(c1, t); }
    actions := [a] + rest;
    assert actions[1..] == rest;
    hide Work, Phase, Free;
  }

  // ----- Readers let go -----

  lemma ReaderStep(c: State, t: nat) returns (c': State)
    requires Inv(c) && t in c.readers
    ensures t in c.pcs && Step(c, Advance(t, [])) == Some(c') && Inv(c') && Ahead(c, c', t) && PcOnly(c, c', t)
    ensures c'.readers - {t} == c.readers - {t}
  {
    assert LocksOk(c);
    ReaderEnabled(c, t);
    var a := Advance(t, []);
    c' := Step(c, a).value;
    hide Step, Ahead, AdvanceReader, AdvanceWriter;
    StepKeeps(c, a, c');
    StepWorks(c, t, [], c');
    assert LocksOk(c');
    hide Inv;
    forall u | u != t ensures u in c'.readers <==> u in c.readers {
      assert u in c.readers <==> u in c.pcs && HoldsRead(c.pcs[u]);
      assert u in c'.readers <==> u in c'.pcs && HoldsRead(c'.pcs[u]);
    }
  }

  lemma {:induction false} LetGo(c: State, t: nat) returns (actions: seq<Action>, c': State)
    requires Inv(c) && t in c.readers && t in c.pcs
    ensures OnlyAdvances(actions) && RunFrom(c, actions) == Some(c') && Inv(c')
    ensures c'.readers == c.readers - {t} && c'.pcs.Keys <= c.pcs.Keys
    decreases Phase(c.pcs[t]), Work(c.subs, c.pcs[t])
  {
    hide Inv, Step;
    var c1 := ReaderStep(c, t);
    var rest := [];
    c' := c1;
    if t in c1.readers {
      ReaderIsThread(c1, t);
      rest, c' := LetGo(c1, t);
    }
    actions := [Advance(t, [])] + rest;
    assert actions[1..] == rest;
    hide Work, Phase;
  }

  lemma ReaderIsThread(c: State, t: nat)
    requires Inv(c) && t in c.readers
    ensures t in c.pcs
  {
  }

  lemma WriterIsFree(c: State, t: nat)
    requires Inv(c) && c.readers == {} && (if c.writer.Some? then t == c.writer.value else t in c.pcs)
    ensures Free(c, t)
  {
  }

  lemma {:induction false} ToRest(c: State) returns (actions: seq<Action>, c': State)
    requires Inv(c)
    ensures OnlyAdvances(actions) && RunFrom(c, actions) == Some(c') && Inv(c') && c'.pcs == map[]
    decreases c.pcs.Keys, c.readers
  {
    hide Inv, Step, RunFrom;
    var first, mid, rest;
    if c.readers != {} {
      var t :| t in c.readers;
      ReaderIsThread(c, t);
      first, mid := LetGo(c, t);
      rest, c' := ToRest(mid);
      RunFromConcat(c, first, rest);
      actions := first + rest;
    } else if c.pcs != map[] {
      var t :| t in c.pcs;
      if c.writer.Some? { t := c.writer.value; }
      WriterIsFree(c, t);
      first, mid := AloneToEnd(c, t);
      assert t in c.pcs.Keys && t !in mid.pcs.Keys;
      rest, c' := ToRest(mid);
      RunFromConcat(c, first, rest);
      actions := first + rest;
    } else {
      actions, c' := [], c;
      RunFromNone(c);
    }
  }

  lemma RunFromNone(c: State)
    ensures RunFrom(c, []) == Some(c)
  {
  }

  lemma {:induction false} RunThenFrom(actions: seq<Action>, more: seq<Action>)
    requires Run(actions).Some? && RunFrom(Run(actions).value, more).Some?
    ensures Run(actions + more) == RunFrom(Run(actions).value, more)
    decreases |more|
  {
    if more == [] {
      assert actions + more == actions;
    } else {
      assert (actions + [more[0]])[..|actions|] == actions;
      assert actions + more == (actions + [more[0]]) + more[1..];
      hide Step;
      RunThenFrom(actions + [more[0]], more[1..]);
    }
  }

  /** From every state a run reaches the hub can come to rest: some order of the steps of the threads that are inside
      calls ends all of those calls. */
  lemma ComesToRest(actions: seq<Action>) returns (more: seq<Action>)
    requires Run(actions).Some?
    ensures OnlyAdvances(more) && Run(actions + more).Some? && Run(actions + more).value.pcs == map[]
  {
    RunKeeps(actions);
    var c;
    more, c := ToRest(Run(actions).value);
    RunThenFrom(actions, more);
    hide Inv;
  }
}
