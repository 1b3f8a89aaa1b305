/** When a heartbeat can hit a closed channel: the flag check is not enough once the subscriber has been removed. */
module HubHeartbeat {
  import opened Options
  import opened Hub
  import opened HubSteps
  import opened HubSafety

  function RunFrom(c: State, actions: seq<Action>): Option<State>
    decreases |actions|
  {
    if actions == [] then Some(c) else
    var c' := Step(c, actions[0]);
    if c'.None? then None else RunFrom(c'.value, actions[1..])
  }

  lemma {:induction false} RunFromConcat(c: State, xs: seq<Action>, ys: seq<Action>)
    ensures RunFrom(c, xs + ys) == if RunFrom(c, xs).None? then None else RunFrom(RunFrom(c, xs).value, ys)
    decreases |xs|
  {
    hide Step;
    if xs == [] {
      assert xs + ys == ys;
    } else {
      assert (xs + ys)[1..] == xs[1..] + ys;
      if Step(c, xs[0]).Some? { RunFromConcat(Step(c, xs[0]).value, xs[1..], ys); }
    }
  }

  predicate By(a: Action, t: nat) { !a.Receive? && a.t == t }

  /** Thread `t` has passed the flag check of subscriber `s` and is about to send its heartbeat. */
  predicate AboutToBeat(c: State, t: nat, s: nat) { t in c.pcs && c.pcs[t] == BeatSend(s) }

  // ----- What every step respects -----

  ghost predicate SameRegistry(c: State, c': State) {
    c'.subs == c.subs && forall s :: s in c'.sub && c'.sub[s].born ==> s in c.sub && c.sub[s].born
  }

  ghost predicate FlagsKept(c: State, c': State, s: nat) {
    s in c.sub ==> s in c'.sub && (c.sub[s].closed ==> c'.sub[s].closed) && (c.sub[s].shut ==> c'.sub[s].shut)
  }

  predicate Closer(pc: PC, s: nat) { (pc.CloseStop? || pc.CloseChan?) && pc.s == s }

  /** Flags only go up, and the thread that raises one goes on to close the channel. */
  ghost predicate FlagsMove(c: State, c': State, t: nat, s: nat) {
    FlagsKept(c, c', s) && (s in c.sub && !c.sub[s].closed && c'.sub[s].closed ==> t in c'.pcs && Closer(c'.pcs[t], s))
  }

  /** A step of thread `t` moves no other thread, needs the write lock to change the lists or to register anybody, and
      lowers no flag. */
  ghost predicate Lawful(c: State, c': State, t: nat)
    requires t in c.pcs
  {
    && PcOnly(c, c', t) && (HoldsWrite(c.pcs[t]) || SameRegistry(c, c'))
    && forall s :: s in c.sub ==> FlagsMove(c, c', t, s)
  }

  lemma ResumeChan(c: State, t: nat, s: nat, k: Cont)
    requires t in c.pcs && s in c.sub
    ensures var sub := c.sub[s := c.sub[s].(shut := true, closer := None)];
            var faults := if c.sub[s].shut then c.faults + {CloseOfClosed} else c.faults;
            var c' := Resume(c.(sub := sub, faults := faults), t, k);
            PcOnly(c, c', t) && c'.sub == sub && c'.subs == c.subs
  {
    var sub := c.sub[s := c.sub[s].(shut := true, closer := None)];
    var faults := if c.sub[s].shut then c.faults + {CloseOfClosed} else c.faults;
    ResumeStep(c.(sub := sub, faults := faults), t, k);
    hide Resume;
  }

  lemma PublishLaws(c: State, t: nat, c': State)
    requires t in c.pcs && c.pcs[t].Publishing? && AdvanceReader(c, t, c.pcs[t]) == Some(c')
    ensures Lawful(c, c', t)
  {
    hide AdvanceReader, Accept, ListOf, LogOf, Closer;
    PublishStep(c, t, c');
  }

  lemma FanLaws(c: State, t: nat, c': State)
    requires t in c.pcs && c.pcs[t].Fan? && AdvanceReader(c, t, c.pcs[t]) == Some(c')
    ensures Lawful(c, c', t)
  {
    hide AdvanceReader, Accept, ListOf, LogOf, Closer;
    FanStep(c, t, c');
  }

  lemma SendLaws(c: State, t: nat, c': State)
    requires t in c.pcs && c.pcs[t].FanSend? && AdvanceReader(c, t, c.pcs[t]) == Some(c')
    ensures Lawful(c, c', t)
  {
    hide AdvanceReader, ListOf, LogOf, Closer;
    SendStep(c, t, c');
  }

  lemma TimerLaws(c: State, t: nat, c': State)
    requires t in c.pcs && c.pcs[t].Beating? && AdvanceReader(c, t, c.pcs[t]) == Some(c')
    ensures Lawful(c, c', t)
  {
    hide AdvanceReader, Accept, ListOf, LogOf, Closer;
    TimerStep(c, t, c');
  }

  lemma LookLaws(c: State, t: nat, c': State)
    requires t in c.pcs && c.pcs[t].BeatLocked? && AdvanceReader(c, t, c.pcs[t]) == Some(c')
    ensures Lawful(c, c', t)
  {
    hide AdvanceReader, Accept, ListOf, LogOf, Closer;
    LookStep(c, t, c');
  }

  lemma BeatLaws(c: State, t: nat, c': State)
    requires t in c.pcs && c.pcs[t].BeatSend? && AdvanceReader(c, t, c.pcs[t]) == Some(c')
    ensures Lawful(c, c', t)
  {
    hide AdvanceReader, ListOf, LogOf, Closer;
    BeatStep(c, t, c');
  }

  lemma LockLaws(c: State, t: nat, all: seq<nat>, c': State)
    requires t in c.pcs && WantsWrite(c.pcs[t]) && AdvanceLocking(c, t, c.pcs[t], all) == Some(c')
    ensures Lawful(c, c', t)
  {
    hide AdvanceLocking, Unlocked, Closer;
    LockStep(c, t, all, c');
  }

  lemma RegisterLaws(c: State, t: nat, all: seq<nat>, c': State)
    requires t in c.pcs && c.pcs[t].SubLocked? && AdvanceLocking(c, t, c.pcs[t], all) == Some(c')
    ensures Lawful(c, c', t)
  {
    hide AdvanceLocking, Enlist, Delist, Gathers, Resume, ListOf, LogOf, Unlocked, Closer;
    RegisterStep(c, t, all, c');
  }

  lemma DropLaws(c: State, t: nat, all: seq<nat>, c': State)
    requires t in c.pcs && c.pcs[t].DropLocked? && AdvanceLocking(c, t, c.pcs[t], all) == Some(c')
    ensures Lawful(c, c', t)
  {
    hide AdvanceLocking, Enlist, Delist, Gathers, Resume, ListOf, LogOf, Unlocked, Closer;
    DropStep(c, t, all, c');
  }

  lemma UnlistLaws(c: State, t: nat, all: seq<nat>, c': State)
    requires t in c.pcs && c.pcs[t].UnsubLocked? && AdvanceLocking(c, t, c.pcs[t], all) == Some(c')
    ensures Lawful(c, c', t)
  {
    hide AdvanceLocking, Enlist, Delist, Gathers, Resume, ListOf, LogOf, Unlocked, Closer;
    UnlistStep(c, t, all, c');
  }

  lemma ShutLaws(c: State, t: nat, all: seq<nat>, c': State)
    requires t in c.pcs && c.pcs[t].ShutLocked? && AdvanceLocking(c, t, c.pcs[t], all) == Some(c')
    ensures Lawful(c, c', t)
  {
    hide AdvanceLocking, Enlist, Delist, Gathers, Resume, ListOf, LogOf, Unlocked, Closer;
    ShutStep(c, t, all, c');
    ResumeStep(c.(subs := map[], writer := None), t, ThenClose(all));
  }

  lemma CountLaws(c: State, t: nat, c': State)
    requires t in c.pcs && c.pcs[t].Counting? && AdvanceClosing(c, t, c.pcs[t]) == Some(c')
    ensures Lawful(c, c', t)
  {
    hide AdvanceClosing, Closer;
    CountStep(c, t, c');
  }

  lemma SwapLaws(c: State, t: nat, c': State)
    requires t in c.pcs && c.pcs[t].Closing? && AdvanceClosing(c, t, c.pcs[t]) == Some(c')
    ensures Lawful(c, c', t)
  {
    hide AdvanceClosing, Resume;
    SwapStep(c, t, c');
    ResumeStep(c, t, c.pcs[t].k);
  }

  lemma StopLaws(c: State, t: nat, c': State)
    requires t in c.pcs && c.pcs[t].CloseStop? && AdvanceClosing(c, t, c.pcs[t]) == Some(c')
    ensures Lawful(c, c', t)
  {
    hide AdvanceClosing, Closer;
    StopStep(c, t, c');
  }

  lemma ChanLaws(c: State, t: nat, c': State)
    requires t in c.pcs && c.pcs[t].CloseChan? && AdvanceClosing(c, t, c.pcs[t]) == Some(c')
    ensures Lawful(c, c', t)
  {
    hide AdvanceClosing, Resume, Closer;
    ChanStep(c, t, c');
    ResumeChan(c, t, c.pcs[t].s, c.pcs[t].k);
  }

  lemma ReaderLaws(c: State, t: nat, c': State)
    requires t in c.pcs && AdvanceReader(c, t, c.pcs[t]) == Some(c')
    ensures Lawful(c, c', t)
  {
    hide AdvanceReader, Lawful;
    match c.pcs[t]
    case Publishing(_, _) => PublishLaws(c, t, c');
    case Fan(_, _, _, _) => FanLaws(c, t, c');
    case FanSend(_, _, _, _) => SendLaws(c, t, c');
    case Beating(_) => TimerLaws(c, t, c');
    case BeatLocked(_) => LookLaws(c, t, c');
    case BeatSend(_) => BeatLaws(c, t, c');
    case _ => NotReader(c, t);
  }

  lemma LockingLaws(c: State, t: nat, all: seq<nat>, c': State)
    requires t in c.pcs && AdvanceLocking(c, t, c.pcs[t], all) == Some(c')
    ensures Lawful(c, c', t)
  {
    hide AdvanceLocking, Lawful;
    LockingOnly(c, t, all);
    match c.pcs[t]
    case SubLocked(_, _) => RegisterLaws(c, t, all, c');
    case DropLocked(_, _) => DropLaws(c, t, all, c');
    case UnsubLocked(_, _) => UnlistLaws(c, t, all, c');
    case ShutLocked => ShutLaws(c, t, all, c');
    case _ => LockLaws(c, t, all, c');
  }

  lemma ClosingLaws(c: State, t: nat, c': State)
    requires t in c.pcs && AdvanceClosing(c, t, c.pcs[t]) == Some(c')
    ensures Lawful(c, c', t)
  {
    hide AdvanceClosing, Lawful;
    match c.pcs[t]
    case Counting(_, _) => CountLaws(c, t, c');
    case CloseStop(_, _) => StopLaws(c, t, c');
    case Closing(_, _) => SwapLaws(c, t, c');
    case CloseChan(_, _) => ChanLaws(c, t, c');
    case _ => NotClosing(c, t);
  }

  lemma AdvanceLaws(c: State, a: Action, c': State)
    requires a.Advance? && Step(c, a) == Some(c')
    ensures a.t in c.pcs && Lawful(c, c', a.t)
  {
    hide AdvanceReader, AdvanceLocking, AdvanceClosing, Lawful;
    if ReaderPC(c.pcs[a.t]) { ReaderLaws(c, a.t, c'); }
    else if ClosingPC(c.pcs[a.t]) { ClosingLaws(c, a.t, c'); }
    else { LockingLaws(c, a.t, a.all, c'); }
  }

  lemma OthersKept(c: State, a: Action, c': State, u: nat)
    requires Step(c, a) == Some(c') && u in c.pcs && !By(a, u)
    ensures u in c'.pcs && c'.pcs[u] == c.pcs[u]
  {
    if a.Advance? { hide Step; AdvanceLaws(c, a, c'); } else { hide AdvanceReader, AdvanceWriter; }
  }

  lemma BeginRegistry(c: State, a: Action, c': State)
    requires Begin(c, a) == Some(c')
    ensures SameRegistry(c, c')
  {
  }

  /** Only a write-locked step changes the lists or registers a subscriber. */
  lemma StepRegistry(c: State, a: Action, c': State)
    requires Step(c, a) == Some(c') && (a.Advance? && a.t in c.pcs ==> !HoldsWrite(c.pcs[a.t]))
    ensures SameRegistry(c, c')
  {
    hide Begin, AdvanceReader, AdvanceWriter, SameRegistry;
    if a.Advance? { AdvanceLaws(c, a, c'); } else { BeginRegistry(c, a, c'); }
  }

  lemma FlagsStay(c: State, a: Action, c': State, s: nat)
    requires Step(c, a) == Some(c') && s in c.sub && s < c.nextID
    ensures FlagsKept(c, c', s)
    ensures !c.sub[s].closed && c'.sub[s].closed ==> a.Advance? && a.t in c'.pcs && Closer(c'.pcs[a.t], s)
  {
    if a.Advance? {
      hide Step, Closer;
      AdvanceLaws(c, a, c');
      assert FlagsMove(c, c', a.t, s);
    } else {
      hide AdvanceReader, AdvanceWriter;
    }
  }

  // ----- While the reader waits, nobody can change the lists -----

  lemma ReaderPinsLists(c: State, t: nat, s: nat, a: Action, c': State)
    requires Inv(c) && AboutToBeat(c, t, s) && !By(a, t) && Step(c, a) == Some(c')
    ensures c'.subs == c.subs && AboutToBeat(c', t, s)
  {
    assert t in c.readers && c.writer.None?;
    assert a.Advance? ==> !HoldsWrite(c.pcs[a.t]);
    OthersKept(c, a, c', t);
    hide Inv;
    StepRegistry(c, a, c');
  }

  lemma {:induction false} ListedStaysOpen(c: State, t: nat, s: nat, actions: seq<Action>, c': State)
    requires Inv(c) && AboutToBeat(c, t, s) && Listed(c.subs, s)
    requires (forall a :: a in actions ==> !By(a, t)) && RunFrom(c, actions) == Some(c')
    ensures s in c'.sub && !c'.sub[s].shut
    decreases |actions|
  {
    if actions == [] {
    } else {
      var c1 := Step(c, actions[0]).value;
      hide Inv, Step;
      StepKeeps(c, actions[0], c1);
      ReaderPinsLists(c, t, s, actions[0], c1);
      ListedStaysOpen(c1, t, s, actions[1..], c');
    }
  }

  // ----- Someone is always about to close a removed subscriber -----

  /** Thread `t` will get to the close of `s` without needing the lock. */
  predicate Responsible(pc: PC, s: nat) {
    match pc
    case Counting(_, todo) => todo != [] && todo[0] == s
    case Closing(x, k) => x == s || (k.ThenClose? && s in k.rest)
    case CloseStop(x, k) => x == s || (k.ThenClose? && s in k.rest)
    case CloseChan(x, k) => x == s || (k.ThenClose? && s in k.rest)
    case _ => false
  }

  /** How many steps away from the close the thread in charge is, at most. */
  function Distance(pc: PC): nat {
    match pc
    case Counting(_, _) => 4
    case Closing(_, k) => 3 + Rest(k)
    case CloseStop(_, k) => 2 + Rest(k)
    case CloseChan(_, k) => 1 + Rest(k)
    case _ => 0
  }

  function Rest(k: Cont): nat { if k.ThenClose? then 3 * |k.rest| else 0 }

  /** A removed subscriber whose channel is still open has a thread on its way to closing it. */
  ghost predicate Attended(c: State, s: nat) {
    Gone(c, s) && !c.sub[s].shut ==>
      if c.sub[s].closed then exists u :: u in c.pcs && Closer(c.pcs[u], s)
      else exists u :: u in c.pcs && Responsible(c.pcs[u], s)
  }

  ghost predicate AllAttended(c: State) { forall s :: s in c.sub ==> Attended(c, s) }

  /** Thread `t` is nearer to the close of `s`, or has raised its flag. */
  predicate Nearer(c: State, c': State, t: nat, s: nat)
    requires t in c.pcs
  {
    && t in c'.pcs && s in c'.sub
    && if c'.sub[s].closed then Closer(c'.pcs[t], s)
       else Responsible(c'.pcs[t], s) && Distance(c'.pcs[t]) < Distance(c.pcs[t])
  }

  /** A step of a thread in charge of `s` brings it nearer to the close of `s`. */
  lemma ChargeMoves(c: State, t: nat, all: seq<nat>, c': State, s: nat)
    requires Inv(c) && t in c.pcs && Responsible(c.pcs[t], s) && Gone(c, s) && !c.sub[s].closed
    requires AdvanceWriter(c, t, c.pcs[t], all) == Some(c')
    ensures Nearer(c, c', t, s)
  {
    assert PcOk(c, t, c.pcs[t]) && SubOk(c.sub[s], Listed(c.subs, s));
    hide Inv, Gone, Listed, SubOk, Nearer, AdvanceWriter;
    match c.pcs[t]
    case Closing(x, k) => ClosingMoves(c, t, all, c', s);
    case CloseChan(x, k) => CloseChanMoves(c, t, all, c', s);
    case CloseStop(x, k) => CloseStopMoves(c, t, all, c', s);
    case Counting(_, _) => CountingMoves(c, t, all, c', s);
  }

  lemma CloseStopMoves(c: State, t: nat, all: seq<nat>, c': State, s: nat)
    requires t in c.pcs && c.pcs[t].CloseStop? && Responsible(c.pcs[t], s) && s in c.sub && !c.sub[s].closed
    requires AdvanceWriter(c, t, c.pcs[t], all) == Some(c')
    ensures Nearer(c, c', t, s)
  {
  }

  lemma CountingMoves(c: State, t: nat, all: seq<nat>, c': State, s: nat)
    requires t in c.pcs && c.pcs[t].Counting? && Responsible(c.pcs[t], s) && s in c.sub && !c.sub[s].closed
    requires AdvanceWriter(c, t, c.pcs[t], all) == Some(c')
    ensures Nearer(c, c', t, s)
  {
  }

  lemma ClosingMoves(c: State, t: nat, all: seq<nat>, c': State, s: nat)
    requires t in c.pcs && c.pcs[t].Closing? && Responsible(c.pcs[t], s) && s in c.sub && !c.sub[s].closed
    requires AdvanceWriter(c, t, c.pcs[t], all) == Some(c')
    ensures Nearer(c, c', t, s)
  {
  }

  lemma CloseChanMoves(c: State, t: nat, all: seq<nat>, c': State, s: nat)
    requires t in c.pcs && c.pcs[t].CloseChan? && Responsible(c.pcs[t], s) && s in c.sub && !c.sub[s].closed
      && c.pcs[t].s != s
    requires AdvanceWriter(c, t, c.pcs[t], all) == Some(c')
    ensures Nearer(c, c', t, s)
  {
  }

  lemma NewlyGone(c: State, c': State, s: nat)
    requires !Gone(c, s) && Gone(c', s) && s in c.sub && c'.sub[s].born == c.sub[s].born
    ensures Listed(c.subs, s) && !Listed(c'.subs, s)
  {
  }

  /** Removing a subscriber from its list puts the removing thread in charge of closing it. */
  lemma RemovalCharges(c: State, t: nat, all: seq<nat>, c': State, s: nat)
    requires Inv(c) && t in c.pcs && HoldsWrite(c.pcs[t]) && AdvanceWriter(c, t, c.pcs[t], all) == Some(c')
    requires !Gone(c, s) && Gone(c', s)
    ensures t in c'.pcs && Responsible(c'.pcs[t], s) && !c'.sub[s].closed
  {
    At(c, t);
    RemovedWasOpen(c, t, all, c', s);
    if c.pcs[t].SubLocked? { CreatedUnlisted(c, t); NobodyEnlistedGone(c, t, all, c', s); }
    hide Inv, Gone, Listed, ListsOk, ThreadsOk, LocksOk, SubsOk, AdvanceWriter, PcOk;
    match c.pcs[t]
    case SubLocked(_, _) =>
    case DropLocked(stream, todo) => DropCharges(c, t, all, c', s);
    case UnsubLocked(stream, x) => UnsubCharges(c, t, all, c', s);
    case ShutLocked => ShutCharges(c, t, all, c', s);
  }

  lemma WriterAddsNobody(c: State, t: nat, all: seq<nat>, c': State)
    requires t in c.pcs && HoldsWrite(c.pcs[t]) && AdvanceLocking(c, t, c.pcs[t], all) == Some(c')
    ensures c'.sub.Keys == c.sub.Keys
  {
    hide AdvanceLocking, Enlist, Delist, Gathers, Resume, ListOf, LogOf;
    match c.pcs[t]
    case SubLocked(_, _) => RegisterStep(c, t, all, c');
    case DropLocked(_, _) => DropStep(c, t, all, c');
    case UnsubLocked(_, _) => UnlistStep(c, t, all, c');
    case ShutLocked => ShutStep(c, t, all, c'); ResumeStep(c.(subs := map[], writer := None), t, ThenClose(all));
  }

  lemma RemovedWasOpen(c: State, t: nat, all: seq<nat>, c': State, s: nat)
    requires Inv(c) && t in c.pcs && HoldsWrite(c.pcs[t]) && AdvanceWriter(c, t, c.pcs[t], all) == Some(c')
    requires !Gone(c, s) && Gone(c', s)
    ensures ListsOk(c) && s in c.sub && !c.sub[s].closed
  {
    hide AdvanceLocking, AdvanceClosing;
    WriterAddsNobody(c, t, all, c');
    assert s in c'.sub.Keys;
    SubAt(c, s);
    hide ThreadsOk, LocksOk, ListsOk, SubsOk, Listed;
  }

  lemma CreatedUnlisted(c: State, t: nat)
    requires Inv(c) && t in c.pcs && c.pcs[t].SubLocked?
    ensures !Listed(c.subs, c.pcs[t].s)
  {
  }

  lemma NobodyEnlistedGone(c: State, t: nat, all: seq<nat>, c': State, s: nat)
    requires t in c.pcs && ListsOk(c) && PcOk(c, t, c.pcs[t]) && AdvanceWriter(c, t, c.pcs[t], all) == Some(c')
    requires c.pcs[t].SubLocked? && !Listed(c.subs, c.pcs[t].s) && !Gone(c, s)
    ensures !Gone(c', s)
  {
    EnlistFacts(c, c.pcs[t].stream, c.pcs[t].s);
  }

  lemma DropCharges(c: State, t: nat, all: seq<nat>, c': State, s: nat)
    requires ListsOk(c) && t in c.pcs && c.pcs[t].DropLocked? && PcOk(c, t, c.pcs[t]) && s in c.sub && !c.sub[s].closed
    requires !Gone(c, s) && Gone(c', s) && AdvanceWriter(c, t, c.pcs[t], all) == Some(c')
    ensures t in c'.pcs && Responsible(c'.pcs[t], s) && !c'.sub[s].closed
  {
    var DropLocked(stream, todo) := c.pcs[t];
    assert Born(c, todo[0], stream);
    DelistFacts(c, stream, todo[0]);
    NewlyGone(c, c', s);
  }

  lemma UnsubCharges(c: State, t: nat, all: seq<nat>, c': State, s: nat)
    requires ListsOk(c) && t in c.pcs && c.pcs[t].UnsubLocked? && PcOk(c, t, c.pcs[t]) && s in c.sub && !c.sub[s].closed
    requires !Gone(c, s) && Gone(c', s) && AdvanceWriter(c, t, c.pcs[t], all) == Some(c')
    ensures t in c'.pcs && Responsible(c'.pcs[t], s) && !c'.sub[s].closed
  {
    DelistFacts(c, c.pcs[t].stream, c.pcs[t].s);
    NewlyGone(c, c', s);
  }

  lemma ShutCharges(c: State, t: nat, all: seq<nat>, c': State, s: nat)
    requires t in c.pcs && c.pcs[t].ShutLocked? && s in c.sub && !c.sub[s].closed
    requires !Gone(c, s) && Gone(c', s) && AdvanceWriter(c, t, c.pcs[t], all) == Some(c')
    ensures t in c'.pcs && Responsible(c'.pcs[t], s) && !c'.sub[s].closed
  {
  }

  // ----- Attendance is invariant -----

  /** Only a write-locked step removes a subscriber. */
  lemma RemovedByWriter(c: State, a: Action, c': State, s: nat)
    requires Step(c, a) == Some(c') && !Gone(c, s) && Gone(c', s)
    ensures a.Advance? && a.t in c.pcs && HoldsWrite(c.pcs[a.t])
  {
    hide Begin, AdvanceReader, AdvanceWriter, Listed;
    if !(a.Advance? && a.t in c.pcs && HoldsWrite(c.pcs[a.t])) { StepRegistry(c, a, c'); }
  }

  lemma CloserMoves(c: State, t: nat, all: seq<nat>, c': State, s: nat)
    requires t in c.pcs && Closer(c.pcs[t], s) && s in c.sub && AdvanceWriter(c, t, c.pcs[t], all) == Some(c')
    ensures s in c'.sub && c'.sub[s].closed == c.sub[s].closed
    ensures c'.sub[s].shut || (c.pcs[t].CloseStop? && t in c'.pcs && c'.pcs[t].CloseChan? && c'.pcs[t].s == s)
  {
  }

  lemma AttendedKeeps(c: State, a: Action, c': State, s: nat)
    requires Inv(c) && AllAttended(c) && Step(c, a) == Some(c')
    ensures Attended(c', s)
  {
    if Gone(c', s) && !c'.sub[s].shut {
      if Gone(c, s) && !c.sub[s].shut {
        assert Attended(c, s) && s < c.nextID;
        hide Inv, AllAttended, Begin, AdvanceReader, AdvanceWriter, Listed, Responsible;
        if c.sub[s].closed {
          var u :| u in c.pcs && Closer(c.pcs[u], s);
          FlagsStay(c, a, c', s);
          if By(a, u) { CloserMoves(c, u, a.all, c', s); } else { OthersKept(c, a, c', u); }
        } else {
          var u :| u in c.pcs && Responsible(c.pcs[u], s);
          FlagsStay(c, a, c', s);
          if By(a, u) {
            ResponsibleIsWriter(c.pcs[u], s);
            ChargeMoves(c, u, a.all, c', s);
          } else {
            OthersKept(c, a, c', u);
          }
        }
      } else if Gone(c, s) {
        assert s < c.nextID;
        FlagsStay(c, a, c', s);
      } else {
        RemovedByWriter(c, a, c', s);
        RemovalCharges(c, a.t, a.all, c', s);
      }
    }
  }

  lemma ResponsibleIsWriter(pc: PC, s: nat)
    requires Responsible(pc, s)
    ensures !ReaderPC(pc)
  {
  }

  lemma {:induction false} RunAttended(actions: seq<Action>)
    requires Run(actions).Some?
    ensures AllAttended(Run(actions).value)
  {
    if actions != [] {
      var init := actions[..|actions| - 1];
      RunKeeps(init);
      RunAttended(init);
      hide Inv, Step, Attended;
      forall s | s in Run(actions).value.sub ensures Attended(Run(actions).value, s) {
        AttendedKeeps(Run(init).value, actions[|actions| - 1], Run(actions).value, s);
      }
    }
  }

  // ----- Letting the thread in charge run -----

  lemma ClosingEnabled(c: State, u: nat)
    requires Inv(c) && u in c.pcs && ClosingPC(c.pcs[u])
    ensures Step(c, Advance(u, [])).Some?
  {
  }

  ghost predicate Closes(c: State, u: nat, s: nat, actions: seq<Action>) {
    && (forall a :: a in actions ==> a == Advance(u, []))
    && RunFrom(c, actions).Some? && s in RunFrom(c, actions).value.sub && RunFrom(c, actions).value.sub[s].shut
  }

  lemma ClosesCons(c: State, u: nat, s: nat, c': State, rest: seq<Action>)
    requires Step(c, Advance(u, [])) == Some(c') && Closes(c', u, s, rest)
    ensures Closes(c, u, s, [Advance(u, [])] + rest)
  {
  }

  lemma CloserStep(c: State, u: nat, s: nat) returns (c': State)
    requires Inv(c) && u in c.pcs && Closer(c.pcs[u], s)
    ensures Step(c, Advance(u, [])) == Some(c') && Inv(c') && s in c'.sub
    ensures c'.sub[s].shut || (c.pcs[u].CloseStop? && u in c'.pcs && c'.pcs[u].CloseChan? && c'.pcs[u].s == s)
  {
    ClosingEnabled(c, u);
    assert s in c.sub by { assert PcOk(c, u, c.pcs[u]); }
    hide Inv, AdvanceReader, AdvanceWriter;
    c' := Step(c, Advance(u, [])).value;
    StepKeeps(c, Advance(u, []), c');
    CloserMoves(c, u, [], c', s);
  }

  lemma {:induction false} FinishClose(c: State, u: nat, s: nat) returns (actions: seq<Action>)
    requires Inv(c) && u in c.pcs && Closer(c.pcs[u], s)
    ensures Closes(c, u, s, actions)
    decreases c.pcs[u].CloseStop?
  {
    hide Inv, Step;
    var c' := CloserStep(c, u, s);
    var rest := [];
    if !c'.sub[s].shut { rest := FinishClose(c', u, s); }
    ClosesCons(c, u, s, c', rest);
    actions := [Advance(u, [])] + rest;
  }

  lemma ChargeStep(c: State, u: nat, s: nat) returns (c': State)
    requires Inv(c) && u in c.pcs && Responsible(c.pcs[u], s) && Gone(c, s) && !c.sub[s].closed
    ensures Step(c, Advance(u, [])) == Some(c') && Inv(c') && Nearer(c, c', u, s) && Gone(c', s)
  {
    ClosingEnabled(c, u);
    c' := Step(c, Advance(u, [])).value;
    StepKeeps(c, Advance(u, []), c');
    ChargeMoves(c, u, [], c', s);
    hide Inv, Gone;
    StillGone(c, u, c', s);
  }

  lemma {:induction false} RunToClose(c: State, u: nat, s: nat) returns (actions: seq<Action>)
    requires Inv(c) && u in c.pcs && Responsible(c.pcs[u], s) && Gone(c, s) && !c.sub[s].closed
    ensures Closes(c, u, s, actions)
    decreases Distance(c.pcs[u])
  {
    hide Inv, Step;
    var c' := ChargeStep(c, u, s);
    var rest;
    if c'.sub[s].closed { rest := FinishClose(c', u, s); } else { rest := RunToClose(c', u, s); }
    ClosesCons(c, u, s, c', rest);
    actions := [Advance(u, [])] + rest;
  }

  lemma StillGone(c: State, u: nat, c': State, s: nat)
    requires u in c.pcs && ClosingPC(c.pcs[u]) && Step(c, Advance(u, [])) == Some(c') && Gone(c, s) && s in c'.sub
    ensures Gone(c', s)
  {
  }

  /** A heartbeat that has passed the flag check can still meet a closed channel, under some schedule of the other
      threads, exactly when its subscriber has already been removed from the lists. */
  lemma HeartbeatExposedIffRemoved(actions: seq<Action>, c: State, t: nat, s: nat)
    requires Run(actions) == Some(c) && AboutToBeat(c, t, s)
    ensures !Listed(c.subs, s) <==>
      exists more :: (forall a :: a in more ==> !By(a, t)) && RunFrom(c, more).Some?
        && s in RunFrom(c, more).value.sub && RunFrom(c, more).value.sub[s].shut
  {
    RunKeeps(actions);
    RunAttended(actions);
    if Listed(c.subs, s) {
      forall more | (forall a :: a in more ==> !By(a, t)) && RunFrom(c, more).Some?
        ensures s in RunFrom(c, more).value.sub && !RunFrom(c, more).value.sub[s].shut
      {
        ListedStaysOpen(c, t, s, more, RunFrom(c, more).value);
      }
    } else {
      var more := ScheduleClose(c, t, s);
    }
  }

  lemma ScheduleClose(c: State, t: nat, s: nat) returns (more: seq<Action>)
    requires Inv(c) && AllAttended(c) && AboutToBeat(c, t, s) && !Listed(c.subs, s)
    ensures (forall a :: a in more ==> !By(a, t)) && RunFrom(c, more).Some?
    ensures s in RunFrom(c, more).value.sub && RunFrom(c, more).value.sub[s].shut
  {
    assert PcOk(c, t, c.pcs[t]) && Attended(c, s);
    if c.sub[s].shut {
      more := [];
    } else if c.sub[s].closed {
      var u :| u in c.pcs && Closer(c.pcs[u], s);
      more := FinishClose(c, u, s);
    } else {
      var u :| u in c.pcs && Responsible(c.pcs[u], s);
      more := RunToClose(c, u, s);
    }
  }

  // ----- The exposed state is reachable -----

  /** Three consecutive steps make a run. */
  lemma ThreeSteps(c: State, c1: State, c2: State, c3: State, x: Action, y: Action, z: Action)
    requires Step(c, x) == Some(c1) && Step(c1, y) == Some(c2) && Step(c2, z) == Some(c3)
    ensures RunFrom(c, [x, y, z]) == Some(c3)
  {
    hide Step;
    assert [x, y, z][1..] == [y, z] && [y, z][1..] == [z] && [z][1..] == [];
    assert RunFrom(c2, [z]) == RunFrom(c3, []);
    assert RunFrom(c1, [y, z]) == RunFrom(c2, [z]);
  }

  /** A client subscribes. */
  lemma RunToListed() returns (actions: seq<Action>, c: State)
    ensures RunFrom(START, actions) == Some(c) && c.pcs == map[] && c.writer.None? && c.readers == {}
            && c.subs.Keys == {"events"} && c.subs["events"] == [0]
    ensures 0 in c.sub && c.sub[0].born && c.sub[0].stream == "events" && !c.sub[0].closed && !c.sub[0].stopped
            && !c.sub[0].shut
  {
    var s1 := Go(START.(nextID := 1, sub := START.sub[0 := NewSub("events", 0)]), 0, Subscribing("events", 0));
    var s2 := Go(s1.(writer := Some(0)), 0, SubLocked("events", 0));
    var x1 := s2.sub[0].(born := true, creator := None, start := 0);
    c := End(s2.(subs := Enlist(s2.subs, "events", 0), sub := s2.sub[0 := x1], writer := None), 0);
    assert Step(START, CallSubscribe(0, "events")) == Some(s1);
    assert Step(s1, Advance(0, [])) == Some(s2);
    assert Step(s2, Advance(0, [])) == Some(c);
    hide *;
    actions := [CallSubscribe(0, "events"), Advance(0, []), Advance(0, [])];
    ThreeSteps(START, s1, s2, c, CallSubscribe(0, "events"), Advance(0, []), Advance(0, []));
  }

  predicate Open(c: State, s: nat) { s in c.sub && !c.sub[s].closed && !c.sub[s].stopped && !c.sub[s].shut }

  /** It asks to be unsubscribed and is taken off its list. */
  lemma RunToUnlisted() returns (actions: seq<Action>, c: State)
    ensures RunFrom(START, actions) == Some(c) && c.pcs == map[0 := Closing(0, ThenClose([]))] && c.writer.None?
      && c.readers == {}
    ensures c.subs.Keys == {"events"} && c.subs["events"] == [] && Open(c, 0) && c.sub[0].born
  {
    var first, s3 := RunToListed();
    var s4 := Go(s3, 0, Unsubscribing("events", 0));
    var s5 := Go(s4.(writer := Some(0)), 0, UnsubLocked("events", 0));
    c := Go(s5.(subs := Delist(s5.subs, "events", 0), writer := None), 0, Closing(0, ThenClose([])));
    assert Step(s3, CallUnsubscribe(0, 0)) == Some(s4) by { hide AdvanceReader, AdvanceWriter; }
    assert Step(s4, Advance(0, [])) == Some(s5) by { hide Begin, AdvanceReader, AdvanceClosing; }
    assert Step(s5, Advance(0, [])) == Some(c) by { hide Begin, AdvanceReader, AdvanceClosing, Delist; }
    var rest := [CallUnsubscribe(0, 0), Advance(0, []), Advance(0, [])];
    actions := first + rest;
    hide *;
    ThreeSteps(s3, s4, s5, c, CallUnsubscribe(0, 0), Advance(0, []), Advance(0, []));
    RunFromConcat(START, first, rest);
  }

  /** A heartbeat timer fires, takes the read lock and finds the flag down. */
  lemma FireTimer(c: State) returns (actions: seq<Action>, c': State)
    requires 1 !in c.pcs && c.writer.None? && Open(c, 0) && c.sub[0].born
    ensures RunFrom(c, actions) == Some(c') && c'.subs == c.subs && c'.sub == c.sub && c'.pcs == c.pcs[1 := BeatSend(0)]
  {
    var s1 := Go(c, 1, Beating(0));
    var s2 := Go(s1.(readers := s1.readers + {1}), 1, BeatLocked(0));
    c' := Go(s2, 1, BeatSend(0));
    assert c'.pcs == c.pcs[1 := BeatSend(0)];
    assert Step(c, Tick(1, 0)) == Some(s1);
    assert Step(s1, Advance(1, [])) == Some(s2);
    assert Step(s2, Advance(1, [])) == Some(c');
    actions := [Tick(1, 0), Advance(1, []), Advance(1, [])];
    hide *;
    ThreeSteps(c, s1, s2, c', Tick(1, 0), Advance(1, []), Advance(1, []));
  }

  /** Before it is closed its heartbeat passes the flag check. */
  lemma BeatWhileRemoved() returns (actions: seq<Action>, c: State)
    ensures RunFrom(START, actions) == Some(c) && AboutToBeat(c, 1, 0) && !Listed(c.subs, 0)
    ensures 0 in c.pcs && c.pcs[0] == Closing(0, ThenClose([])) && Open(c, 0)
  {
    hide Step, RunFrom;
    var first, mid := RunToUnlisted();
    var rest; rest, c := FireTimer(mid);
    RunFromConcat(START, first, rest);
    actions := first + rest;
  }

  /** The unsubscribing thread then closes the channel, which needs no lock. */
  lemma CloseUnderBeat(c: State) returns (actions: seq<Action>, c': State)
    requires AboutToBeat(c, 1, 0) && 0 in c.pcs && c.pcs[0] == Closing(0, ThenClose([])) && Open(c, 0)
    ensures RunFrom(c, actions) == Some(c') && AboutToBeat(c', 1, 0) && 0 in c'.sub && c'.sub[0].shut
  {
    var k := ThenClose([]);
    var s1 := Go(c.(sub := c.sub[0 := c.sub[0].(closed := true, closer := Some(0))]), 0, CloseStop(0, k));
    var s2 := Go(s1.(sub := s1.sub[0 := s1.sub[0].(stopped := true)]), 0, CloseChan(0, k));
    c' := End(s2.(sub := s2.sub[0 := s2.sub[0].(shut := true, closer := None)]), 0);
    SwapRuns(c);
    StopRuns(s1);
    ChanRuns(s2);
    actions := [Advance(0, []), Advance(0, []), Advance(0, [])];
    assert AboutToBeat(c', 1, 0) && 0 in c'.sub && c'.sub[0].shut;
    hide *;
    ThreeSteps(c, s1, s2, c', Advance(0, []), Advance(0, []), Advance(0, []));
  }

  lemma SwapRuns(c: State)
    requires 0 in c.pcs && c.pcs[0] == Closing(0, ThenClose([])) && Open(c, 0)
    ensures Step(c, Advance(0, [])) ==
            Some(Go(c.(sub := c.sub[0 := c.sub[0].(closed := true, closer := Some(0))]), 0,
              CloseStop(0, ThenClose([]))))
  {
    hide AdvanceReader, AdvanceLocking, Begin;
  }

  lemma StopRuns(c: State)
    requires 0 in c.pcs && c.pcs[0] == CloseStop(0, ThenClose([])) && 0 in c.sub && !c.sub[0].stopped
    ensures Step(c, Advance(0, [])) ==
            Some(Go(c.(sub := c.sub[0 := c.sub[0].(stopped := true)]), 0, CloseChan(0, ThenClose([]))))
  {
    hide AdvanceReader, AdvanceLocking, Begin;
  }

  lemma ChanRuns(c: State)
    requires 0 in c.pcs && c.pcs[0] == CloseChan(0, ThenClose([])) && 0 in c.sub && !c.sub[0].shut
    ensures Step(c, Advance(0, [])) == Some(End(c.(sub := c.sub[0 := c.sub[0].(shut := true, closer := None)]), 0))
  {
    hide AdvanceReader, AdvanceLocking, Begin;
  }

  lemma BeatOnShut(c: State) returns (c': State)
    requires AboutToBeat(c, 1, 0) && 0 in c.sub && c.sub[0].shut
    ensures RunFrom(c, [Advance(1, [])]) == Some(c') && HeartbeatOnClosed in c'.faults
  {
    c' := Step(c, Advance(1, [])).value;
    assert [Advance(1, [])][1..] == [];
  }

  /** So a run exists in which a heartbeat is sent on a closed channel. */
  lemma HeartbeatHitsClosed() returns (actions: seq<Action>, c: State)
    ensures RunFrom(START, actions) == Some(c) && HeartbeatOnClosed in c.faults
  {
    hide *;
    var first, s9 := BeatWhileRemoved();
    var mid, s12 := CloseUnderBeat(s9);
    c := BeatOnShut(s12);
    RunFromConcat(START, first, mid);
    RunFromConcat(START, first + mid, [Advance(1, [])]);
    actions := first + mid + [Advance(1, [])];
  }
}
