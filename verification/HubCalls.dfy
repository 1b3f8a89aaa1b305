/** What the calls made to the hub amount to, read off the list of actions alone, and when a subscriber registers. */
module HubCalls {
  import opened Options
  import opened Hub
  import opened HubSteps
  import opened HubSafety
  import opened HubMoves

  predicate ClosedBy(actions: seq<Action>) { exists a :: a in actions && a.CallClose? }

  /** What thread `t` has asked to be published on `stream`, in order: its calls before any call of Close, on a stream
      with a name. */
  function PublishCalls(actions: seq<Action>, t: nat, stream: string): seq<string> {
    if actions == [] then [] else
    var init, a := actions[..|actions| - 1], actions[|actions| - 1];
    PublishCalls(init, t, stream) +
      if Publishes(ClosedBy(init), a) && a.t == t && a.stream == stream then [a.body] else []
  }

  /** The same whichever thread made the call. */
  function StreamCalls(actions: seq<Action>, stream: string): seq<string> {
    if actions == [] then [] else
    var init, a := actions[..|actions| - 1], actions[|actions| - 1];
    StreamCalls(init, stream) + if Publishes(ClosedBy(init), a) && a.stream == stream then [a.body] else []
  }

  // ----- What a step inside a call leaves alone -----

  /** The record of a subscriber goes one way: it is registered once, counted up, and found for dropping only by the
      thread that counts it next. */
  predicate SubOnward(x: Sub, x': Sub, t: nat, counts: bool) {
    && x'.stream == x.stream && (x.born ==> x'.born) && x.counted <= x'.counted
    && (x.finder.Some? && x'.finder.None? ==> x'.counted > 0)
    && (x'.finder == x.finder || x'.finder.None? || (x'.finder == Some(t) && counts))
  }

  predicate Counts(c: State, t: nat, s: nat) {
    t in c.pcs && c.pcs[t].Counting? && c.pcs[t].todo != [] && c.pcs[t].todo[0] == s
  }

  /** No subscriber comes or goes and the hub is neither closed nor opened. */
  ghost predicate SameNames(c: State, c': State, t: nat) {
    && c'.hubClosed == c.hubClosed && c'.nextID == c.nextID && c'.sub.Keys == c.sub.Keys
    && forall s :: s in c.sub ==> SubOnward(c.sub[s], c'.sub[s], t, Counts(c', t, s))
  }

  lemma NamesQuiet(c: State, c': State, t: nat)
    requires c'.hubClosed == c.hubClosed && c'.nextID == c.nextID && c'.sub == c.sub
    ensures SameNames(c, c', t)
  {
  }

  lemma NamesOne(c: State, c': State, t: nat, s: nat)
    requires c'.hubClosed == c.hubClosed && c'.nextID == c.nextID && s in c.sub
    requires s in c'.sub && c'.sub == c.sub[s := c'.sub[s]] && SubOnward(c.sub[s], c'.sub[s], t, Counts(c', t, s))
    ensures SameNames(c, c', t)
  {
    hide Counts;
  }

  lemma SendNames(c: State, t: nat, c': State)
    requires t in c.pcs && c.pcs[t].FanSend? && AdvanceReader(c, t, c.pcs[t]) == Some(c')
    ensures SameNames(c, c', t)
  {
    hide AdvanceReader, ListOf, Counts, SameNames;
    SendStep(c, t, c');
    if c'.sub == c.sub { NamesQuiet(c, c', t); }
    else { NamesOne(c, c', t, ListOf(c.subs, c.pcs[t].stream)[c.pcs[t].i]); }
  }

  lemma BeatNames(c: State, t: nat, c': State)
    requires t in c.pcs && c.pcs[t].BeatSend? && AdvanceReader(c, t, c.pcs[t]) == Some(c')
    ensures SameNames(c, c', t)
  {
    hide AdvanceReader, Counts, SameNames;
    BeatStep(c, t, c');
    if c'.sub == c.sub { NamesQuiet(c, c', t); } else { NamesOne(c, c', t, c.pcs[t].s); }
  }

  lemma ReaderNames(c: State, t: nat, c': State)
    requires t in c.pcs && AdvanceReader(c, t, c.pcs[t]) == Some(c')
    ensures SameNames(c, c', t)
  {
    hide AdvanceReader, ListOf, LogOf, SameNames, Accept;
    match c.pcs[t]
    case Publishing(_, _) => PublishStep(c, t, c'); NamesQuiet(c, c', t);
    case Fan(_, _, _, _) => FanStep(c, t, c'); NamesQuiet(c, c', t);
    case FanSend(_, _, _, _) => SendNames(c, t, c');
    case Beating(_) => TimerStep(c, t, c'); NamesQuiet(c, c', t);
    case BeatLocked(_) => LookStep(c, t, c'); NamesQuiet(c, c', t);
    case BeatSend(_) => BeatNames(c, t, c');
    case _ => NotReader(c, t);
  }

  lemma RegisterNames(c: State, t: nat, all: seq<nat>, c': State)
    requires t in c.pcs && c.pcs[t].SubLocked? && AdvanceLocking(c, t, c.pcs[t], all) == Some(c')
    ensures SameNames(c, c', t)
  {
    hide AdvanceLocking, LogOf, Enlist, Counts, SameNames;
    RegisterStep(c, t, all, c');
    NamesOne(c, c', t, c.pcs[t].s);
  }

  lemma DropNames(c: State, t: nat, all: seq<nat>, c': State)
    requires t in c.pcs && c.pcs[t].DropLocked? && AdvanceLocking(c, t, c.pcs[t], all) == Some(c')
    ensures SameNames(c, c', t)
  {
    hide AdvanceLocking, ListOf, Delist, SameNames;
    DropStep(c, t, all, c');
    if c'.sub == c.sub { NamesQuiet(c, c', t); } else { NamesOne(c, c', t, c.pcs[t].todo[0]); }
  }

  lemma ShutNames(c: State, t: nat, all: seq<nat>, c': State)
    requires t in c.pcs && c.pcs[t].ShutLocked? && AdvanceLocking(c, t, c.pcs[t], all) == Some(c')
    ensures SameNames(c, c', t)
  {
    hide AdvanceLocking, Gathers, Resume, SameNames;
    ShutStep(c, t, all, c');
    ResumeStep(c.(subs := map[], writer := None), t, ThenClose(all));
    NamesQuiet(c, c', t);
  }

  lemma LockingNames(c: State, t: nat, all: seq<nat>, c': State)
    requires t in c.pcs && AdvanceLocking(c, t, c.pcs[t], all) == Some(c')
    ensures SameNames(c, c', t)
  {
    hide AdvanceLocking, Delist, SameNames, Unlocked;
    LockingOnly(c, t, all);
    match c.pcs[t]
    case SubLocked(_, _) => RegisterNames(c, t, all, c');
    case DropLocked(_, _) => DropNames(c, t, all, c');
    case UnsubLocked(_, _) => UnlistStep(c, t, all, c'); NamesQuiet(c, c', t);
    case ShutLocked => ShutNames(c, t, all, c');
    case _ => LockStep(c, t, all, c'); NamesQuiet(c, c', t);
  }

  lemma ChanNames(c: State, t: nat, c': State)
    requires t in c.pcs && c.pcs[t].CloseChan? && AdvanceClosing(c, t, c.pcs[t]) == Some(c')
    ensures SameNames(c, c', t)
  {
    var CloseChan(s, k) := c.pcs[t];
    hide AdvanceClosing, Resume, Counts, SameNames;
    ChanStep(c, t, c');
    var faults := if c.sub[s].shut then c.faults + {CloseOfClosed} else c.faults;
    ResumeStep(c.(sub := c.sub[s := c.sub[s].(shut := true, closer := None)], faults := faults), t, k);
    NamesOne(c, c', t, s);
  }

  lemma MarkNames(c: State, t: nat, c': State)
    requires t in c.pcs && (c.pcs[t].Counting? || c.pcs[t].CloseStop?) && AdvanceClosing(c, t, c.pcs[t]) == Some(c')
    ensures SameNames(c, c', t)
  {
    hide AdvanceClosing, Counts, SameNames;
    if c.pcs[t].Counting? {
      CountStep(c, t, c');
      NamesOne(c, c', t, c.pcs[t].todo[0]);
    } else {
      StopStep(c, t, c');
      NamesOne(c, c', t, c.pcs[t].s);
    }
  }

  lemma SwapNames(c: State, t: nat, c': State)
    requires t in c.pcs && c.pcs[t].Closing? && AdvanceClosing(c, t, c.pcs[t]) == Some(c')
    ensures SameNames(c, c', t)
  {
    hide AdvanceClosing, Resume, Counts, SameNames;
    SwapStep(c, t, c');
    ResumeStep(c, t, c.pcs[t].k);
    if c'.sub == c.sub { NamesQuiet(c, c', t); } else { NamesOne(c, c', t, c.pcs[t].s); }
  }

  lemma ClosingNames(c: State, t: nat, c': State)
    requires t in c.pcs && AdvanceClosing(c, t, c.pcs[t]) == Some(c')
    ensures SameNames(c, c', t)
  {
    hide AdvanceClosing, SameNames;
    match c.pcs[t]
    case Counting(_, _) => MarkNames(c, t, c');
    case CloseStop(_, _) => MarkNames(c, t, c');
    case Closing(_, _) => SwapNames(c, t, c');
    case CloseChan(_, _) => ChanNames(c, t, c');
    case _ => NotClosing(c, t);
  }

  lemma AdvanceNames(c: State, a: Action, c': State)
    requires a.Advance? && Step(c, a) == Some(c')
    ensures SameNames(c, c', a.t)
  {
    hide AdvanceReader, AdvanceLocking, AdvanceClosing, SameNames;
    if ReaderPC(c.pcs[a.t]) { ReaderNames(c, a.t, c'); }
    else if ClosingPC(c.pcs[a.t]) { ClosingNames(c, a.t, c'); }
    else { LockingNames(c, a.t, a.all, c'); }
  }

  // ----- The closed flag -----

  lemma BeginClosed(c: State, a: Action, c': State)
    requires Begin(c, a) == Some(c')
    ensures c'.hubClosed <==> c.hubClosed || a.CallClose?
  {
  }

  lemma StepClosed(c: State, a: Action, c': State)
    requires Step(c, a) == Some(c')
    ensures c'.hubClosed <==> c.hubClosed || a.CallClose?
  {
    hide Begin, AdvanceReader, AdvanceWriter;
    if a.Advance? { AdvanceNames(c, a, c'); } else { BeginClosed(c, a, c'); }
  }

  /** The hub counts as closed exactly once somebody has called Close. */
  lemma {:induction false} ClosedByCall(actions: seq<Action>)
    requires Run(actions).Some?
    ensures Run(actions).value.hubClosed <==> ClosedBy(actions)
  {
    if actions != [] {
      var init, a := actions[..|actions| - 1], actions[|actions| - 1];
      assert actions == init + [a];
      hide Step;
      ClosedByCall(init);
      StepClosed(Run(init).value, a, Run(actions).value);
    }
  }

  // ----- A publish call -----

  /** A publish call of an idle thread on a named stream of an open hub is taken on: the thread is about to publish that
      body there, and nothing else has changed. On a closed hub or without a stream it changes nothing, and a thread
      inside a call cannot make one. */
  lemma PublishCallStarts(actions: seq<Action>, t: nat, stream: string, body: string)
    requires Run(actions).Some?
    ensures var c, next := Run(actions).value, Run(actions + [CallPublish(t, stream, body)]);
            if t in c.pcs then next.None?
            else if stream == "" || ClosedBy(actions) then next == Some(c)
            else next == Some(c.(pcs := c.pcs[t := Publishing(stream, body)]))
  {
    ClosedByCall(actions);
    assert (actions + [CallPublish(t, stream, body)])[..|actions|] == actions;
  }

  // ----- When a subscriber registers -----

  predicate IsBorn(c: State, s: nat) { s in c.sub && c.sub[s].born }

  /** The number of steps before the one that put the subscriber on its list. */
  function RegisteredAt(actions: seq<Action>, s: nat): (n: nat)
    requires Run(actions).Some? && IsBorn(Run(actions).value, s)
    ensures n < |actions| && Run(actions[..n]).Some?
  {
    var init := actions[..|actions| - 1];
    if IsBorn(Run(init).value, s) then
      var n := RegisteredAt(init, s);
      assert init[..n] == actions[..n];
      n
    else |actions| - 1
  }

  /** Logs only grow, a registered subscriber stays so on its stream and from its place in the log, and a subscriber
      that registers does so at the end of the log. */
  ghost predicate Onward(c: State, c': State) {
    && (forall stream :: LogOf(c.log, stream) <= LogOf(c'.log, stream))
    && forall s :: IsBorn(c', s) ==>
         if IsBorn(c, s) then c'.sub[s].stream == c.sub[s].stream && c'.sub[s].start == c.sub[s].start
         else c'.sub[s].start == |LogOf(c.log, c'.sub[s].stream)|
  }

  lemma QuietOnward(c: State, c': State, t: nat)
    requires Quiet(c, c', t)
    ensures Onward(c, c')
  {
    hide RoleAt, OthersKeep, RoleShrinks, ListsShrink, NobodyFans, Apps;
  }

  lemma StartOnward(c: State, c': State, t: nat, stream: string, body: string)
    requires Starts(c, c', t, stream, body)
    ensures Onward(c, c')
  {
    hide RoleAt, OthersKeep;
  }

  lemma ServeOnward(c: State, c': State, t: nat, x: nat)
    requires Serves(c, c', t, x)
    ensures Onward(c, c')
  {
    hide RoleAt, OthersKeep;
  }

  lemma StillOnward(c: State, c': State, t: nat, stream: string, body: string, x: nat)
    requires Calls(c, c', t, stream, body) || Skips(c, c', t, x) || Ends(c, c', t)
    ensures Onward(c, c')
  {
    hide RoleAt, OthersKeep, Reached;
  }

  lemma RegisterOnward(c: State, c': State, x: nat)
    requires Registers(c, c', x)
    ensures Onward(c, c')
  {
    hide RoleAt, NobodyFans, Enlist;
  }

  lemma MoveOnward(c: State, a: Action, c': State)
    requires Moves(c, a, c')
    ensures Onward(c, c')
  {
    var t := Actor(a);
    hide Onward, Quiet, Calls, Starts, Serves, Skips, Ends, Registers, ListOf;
    if Publishes(c.hubClosed, a) {
      StillOnward(c, c', t, a.stream, a.body, 0);
    } else if !a.Advance? {
      QuietOnward(c, c', t);
    } else {
      match c.pcs[t]
      case Publishing(stream, body) => StartOnward(c, c', t, stream, body);
      case FanSend(_, _, _, _) =>
        var x := TargetOf(c, c.pcs[t]);
        if Serves(c, c', t, x) { ServeOnward(c, c', t, x); } else { StillOnward(c, c', t, "", "", x); }
      case Fan(_, _, _, _) => if Quiet(c, c', t) { QuietOnward(c, c', t); } else { StillOnward(c, c', t, "", "", 0); }
      case SubLocked(_, s) => RegisterOnward(c, c', s);
      case _ => QuietOnward(c, c', t);
    }
  }

  lemma StepOnward(actions: seq<Action>)
    requires actions != [] && Run(actions).Some?
    ensures Onward(Run(actions[..|actions| - 1]).value, Run(actions).value)
  {
    var init, a := actions[..|actions| - 1], actions[|actions| - 1];
    RunKeeps(init);
    hide Inv, Moves, Step, Onward;
    StepMoves(Run(init).value, a, Run(actions).value);
    MoveOnward(Run(init).value, a, Run(actions).value);
  }

  /** A subscriber starts at the end of the log of its stream as it was when it registered, and that log is still the
      beginning of today's. */
  lemma {:induction false} StartsAtEnd(actions: seq<Action>, s: nat)
    requires Run(actions).Some? && IsBorn(Run(actions).value, s)
    ensures var c, before := Run(actions).value, Run(actions[..RegisteredAt(actions, s)]).value;
            var stream := c.sub[s].stream;
            c.sub[s].start == |LogOf(before.log, stream)| && LogOf(before.log, stream) <= LogOf(c.log, stream)
  {
    assert actions != [];
    var init := actions[..|actions| - 1];
    StepOnward(actions);
    if IsBorn(Run(init).value, s) {
      StartsAtEnd(init, s);
      assert init[..RegisteredAt(init, s)] == actions[..RegisteredAt(init, s)];
    }
  }

  // ----- Calls waiting for the lock -----

  /** The call of a thread that still waits for the read lock. */
  function Pending(r: Role, stream: string): seq<string> {
    if r.Waiting? && r.stream == stream then [r.body] else []
  }

  ghost predicate PendingSame(c: State, c': State) {
    forall t, stream :: Pending(RoleAt(c', t), stream) == Pending(RoleAt(c, t), stream)
  }

  lemma QuietPending(c: State, c': State, t: nat)
    requires Quiet(c, c', t)
    ensures PendingSame(c, c') && c'.log == c.log
  {
    hide RoleAt, SubsSame, ListsShrink, NobodyFans, Covers, ListOf;
  }

  lemma ServePending(c: State, c': State, t: nat, x: nat)
    requires Serves(c, c', t, x) || Skips(c, c', t, x) || Ends(c, c', t)
    ensures PendingSame(c, c') && c'.log == c.log
  {
    hide RoleAt, Grows, ListOf;
  }

  lemma RegisterPending(c: State, c': State, x: nat)
    requires Registers(c, c', x)
    ensures PendingSame(c, c') && c'.log == c.log
  {
    hide RoleAt, NobodyFans, Enlist, LogOf;
  }

  lemma MovesCall(c: State, a: Action, c': State)
    requires Moves(c, a, c') && Publishes(c.hubClosed, a)
    ensures Calls(c, c', a.t, a.stream, a.body)
  {
  }

  lemma MovesStart(c: State, a: Action, c': State)
    requires Moves(c, a, c') && a.Advance? && a.t in c.pcs && c.pcs[a.t].Publishing?
    ensures Starts(c, c', a.t, c.pcs[a.t].stream, c.pcs[a.t].body)
  {
  }

  lemma MovesThread(c: State, a: Action, c': State)
    requires Moves(c, a, c')
    ensures a.Advance? ==> a.t in c.pcs
  {
  }

  /** Only a publish call and the start of a fan-out change who waits, and only the latter a log. */
  lemma MovePending(c: State, a: Action, c': State)
    requires Moves(c, a, c') && !Publishes(c.hubClosed, a) && !(a.Advance? && a.t in c.pcs && c.pcs[a.t].Publishing?)
    ensures PendingSame(c, c') && c'.log == c.log
  {
    hide Quiet, Starts, Serves, Skips, Ends, Registers, PendingSame;
    var t := Actor(a);
    if !a.Advance? {
      QuietPending(c, c', t);
    } else {
      match c.pcs[t]
      case FanSend(_, _, _, _) => ServePending(c, c', t, TargetOf(c, c.pcs[t]));
      case Fan(_, _, _, _) => if Quiet(c, c', t) { QuietPending(c, c', t); } else { ServePending(c, c', t, 0); }
      case SubLocked(_, s) => RegisterPending(c, c', s);
      case _ => QuietPending(c, c', t);
    }
  }
}
