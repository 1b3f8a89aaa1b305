/** What one step of the hub does to subscriber lists, logs and the threads' parts in publishing. */
module HubMoves {
  import opened Options
  import opened Hub
  import opened HubSteps
  import opened HubSafety

  /** The application messages among `msgs`. */
  function Apps(msgs: seq<Msg>): seq<string> {
    if msgs == [] then [] else
    var init, m := Apps(msgs[..|msgs| - 1]), msgs[|msgs| - 1];
    if m.App? then init + [m.body] else init
  }

  lemma AppsOne(msgs: seq<Msg>, m: Msg)
    ensures Apps(msgs + [m]) == Apps(msgs) + if m.App? then [m.body] else []
  {
  }

  lemma {:induction false} AppsConcat(xs: seq<Msg>, ys: seq<Msg>)
    ensures Apps(xs + ys) == Apps(xs) + Apps(ys)
  {
    if ys == [] {
      assert xs + ys == xs;
    } else {
      var init, y := ys[..|ys| - 1], ys[|ys| - 1];
      AppsConcat(xs, init);
      AppsOne(xs + init, y);
      AppsOne(init, y);
      assert xs + ys == (xs + init) + [y] && ys == init + [y];
      hide Apps;
    }
  }

  // ----- A thread's part in publishing -----

  datatype Role =
    | Bystander
    | Waiting(stream: string, body: string)
    | Fanning(stream: string, body: string, i: nat, drops: seq<nat>)
    | Clearing(stream: string, pending: seq<nat>)      // still has to drop these

  function ContRole(k: Cont): Role {
    match k case ThenDrop(stream, todo) => Clearing(stream, todo) case ThenClose(_) => Bystander
  }

  function RoleOf(pc: PC): Role {
    match pc
    case Publishing(stream, body) => Waiting(stream, body)
    case Fan(stream, body, i, drops) => Fanning(stream, body, i, drops)
    case FanSend(stream, body, i, drops) => Fanning(stream, body, i, drops)
    case Dropping(stream, todo) => Clearing(stream, todo)
    case DropLocked(stream, todo) => Clearing(stream, todo)
    case Counting(stream, todo) => Clearing(stream, if todo == [] then [] else todo[1..])
    case Closing(_, k) => ContRole(k)
    case CloseStop(_, k) => ContRole(k)
    case CloseChan(_, k) => ContRole(k)
    case _ => Bystander
  }

  function RoleAt(c: State, t: nat): Role { if t in c.pcs then RoleOf(c.pcs[t]) else Bystander }

  predicate PublishesOn(r: Role, stream: string) { !r.Bystander? && r.stream == stream }

  // ----- Kinds of steps -----

  /** The thread is still to serve or drop the subscriber. */
  predicate Covers(r: Role, stream: string, s: nat) {
    (r.Fanning? && r.stream == stream) || (r.Clearing? && r.stream == stream && s in r.pending)
  }

  /** Registration and application messages are as they were; new subscribers are unregistered and empty. */
  ghost predicate SubsSame(c: State, c': State) {
    && c.sub.Keys <= c'.sub.Keys
    && (forall s :: s in c.sub ==>
          var x, x' := c.sub[s], c'.sub[s];
          x'.stream == x.stream && x'.born == x.born && x'.start == x.start && Apps(x'.sent) == Apps(x.sent)
            && (!x.born ==> x'.sent == x.sent))
    && (forall s :: s in c'.sub && s !in c.sub ==> !c'.sub[s].born && c'.sub[s].sent == [])
  }

  /** The part of thread `t` may end or lose subscribers that are no longer listed. */
  ghost predicate RoleShrinks(r: Role, r': Role, c': State) {
    || r' == r
    || (r.Clearing? && (forall s :: s in r.pending && !Covers(r', r.stream, s) ==> s !in ListOf(c'.subs, r.stream))
        && (r'.Bystander? || (r'.Clearing? && r'.stream == r.stream)))
  }

  ghost predicate OthersKeep(c: State, c': State, t: nat) { forall u :: u != t ==> RoleAt(c', u) == RoleAt(c, u) }

  ghost predicate NobodyFans(c: State) { forall u :: !RoleAt(c, u).Fanning? }

  ghost predicate ListsShrink(c: State, c': State) {
    forall stream, s :: s in ListOf(c'.subs, stream) ==> s in ListOf(c.subs, stream)
  }

  /** Serves nobody: lists may only shrink, and not while anybody fans out. */
  ghost predicate Quiet(c: State, c': State, t: nat) {
    && SubsSame(c, c') && c'.log == c.log && OthersKeep(c, c', t) && RoleShrinks(RoleAt(c, t), RoleAt(c', t), c')
    && (c'.subs == c.subs || (NobodyFans(c) && ListsShrink(c, c')))
  }

  /** A publish call begins. */
  ghost predicate Calls(c: State, c': State, t: nat, stream: string, body: string) {
    && c'.sub == c.sub && c'.log == c.log && c'.subs == c.subs && OthersKeep(c, c', t)
    && RoleAt(c, t).Bystander? && RoleAt(c', t) == Waiting(stream, body)
  }

  /** A fan-out starts: its message goes on the log. */
  ghost predicate Starts(c: State, c': State, t: nat, stream: string, body: string) {
    && c'.sub == c.sub && c'.subs == c.subs && OthersKeep(c, c', t)
    && c'.log == c.log[stream := LogOf(c.log, stream) + [body]]
    && RoleAt(c, t) == Waiting(stream, body) && RoleAt(c', t) == Fanning(stream, body, 0, [])
  }

  /** The fan-out of `t` has come to subscriber `x`. */
  ghost predicate Reached(c: State, t: nat, x: nat) {
    var r := RoleAt(c, t);
    && r.Fanning? && r.i < |ListOf(c.subs, r.stream)| && x == ListOf(c.subs, r.stream)[r.i]
    && x in c.sub && c.sub[x].stream == r.stream
  }

  ghost predicate Grows(y: Sub, y': Sub, m: Msg) {
    y'.stream == y.stream && y'.born == y.born && y'.start == y.start && y'.sent == y.sent + [m]
  }

  /** The send reaches its subscriber. */
  ghost predicate Serves(c: State, c': State, t: nat, x: nat) {
    && Reached(c, t, x) && c'.subs == c.subs && c'.log == c.log && OthersKeep(c, c', t)
    && x in c'.sub && c'.sub == c.sub[x := c'.sub[x]] && Grows(c.sub[x], c'.sub[x], App(RoleAt(c, t).body))
    && RoleAt(c', t) == RoleAt(c, t).(i := RoleAt(c, t).i + 1)
  }

  /** The send finds the buffer full: the subscriber goes on the drop list. */
  ghost predicate Skips(c: State, c': State, t: nat, x: nat) {
    && Reached(c, t, x) && c'.subs == c.subs && c'.log == c.log && c'.sub == c.sub && OthersKeep(c, c', t)
    && RoleAt(c', t) == RoleAt(c, t).(i := RoleAt(c, t).i + 1, drops := RoleAt(c, t).drops + [x])
  }

  /** The fan-out ends. */
  ghost predicate Ends(c: State, c': State, t: nat) {
    var r := RoleAt(c, t);
    && r.Fanning? && r.i >= |ListOf(c.subs, r.stream)|
    && c'.subs == c.subs && c'.log == c.log && c'.sub == c.sub && OthersKeep(c, c', t)
    && RoleAt(c', t) == Clearing(r.stream, r.drops)
  }

  /** A subscriber joins the list of its stream. */
  ghost predicate Registers(c: State, c': State, x: nat) {
    && c'.log == c.log && x in c.sub && !c.sub[x].born && c'.subs == Enlist(c.subs, c.sub[x].stream, x)
    && c'.sub == c.sub[x := c.sub[x].(born := true, creator := None, start := |LogOf(c.log, c.sub[x].stream)|)]
    && NobodyFans(c) && forall u :: RoleAt(c', u) == RoleAt(c, u)
  }

  function Actor(a: Action): nat { if a.Receive? then 0 else a.t }

  function TargetOf(c: State, pc: PC): nat
    requires pc.FanSend?
  {
    var list := ListOf(c.subs, pc.stream);
    if pc.i < |list| then list[pc.i] else 0
  }

  /** A publish call that the hub takes on. */
  predicate Publishes(hubClosed: bool, a: Action) { a.CallPublish? && !hubClosed && a.stream != "" }

  /** Every step is of one of these kinds, by the program counter of its thread. */
  ghost predicate Moves(c: State, a: Action, c': State) {
    var t := Actor(a);
    if Publishes(c.hubClosed, a) then Calls(c, c', t, a.stream, a.body)
    else if !a.Advance? then Quiet(c, c', t)
    else if t !in c.pcs then false
    else match c.pcs[t]
      case Publishing(stream, body) => Starts(c, c', t, stream, body)
      case FanSend(_, _, _, _) =>
        var x := TargetOf(c, c.pcs[t]);
        x in c.sub && if |c.sub[x].buf| < SUBSCRIBER_BUFFER_SIZE then Serves(c, c', t, x) else Skips(c, c', t, x)
      case Fan(_, _, _, _) => Quiet(c, c', t) || Ends(c, c', t)
      case SubLocked(_, s) => Registers(c, c', s)
      case _ => Quiet(c, c', t)
  }

  // ----- Each step is of its kind -----

  lemma NoFans(c: State)
    requires LocksOk(c) && c.writer.Some?
    ensures NobodyFans(c)
  {
  }

  lemma SameSubs(c: State, c': State)
    requires c'.sub == c.sub
    ensures SubsSame(c, c')
  {
  }

  lemma OneSubSame(c: State, c': State, s: nat)
    requires s in c.sub && c'.sub.Keys == c.sub.Keys && forall x :: x in c.sub && x != s ==> c'.sub[x] == c.sub[x]
    requires var x, x' := c.sub[s], c'.sub[s];
             x'.stream == x.stream && x'.born == x.born && x'.start == x.start && Apps(x'.sent) == Apps(x.sent)
             && (!x.born ==> x'.sent == x.sent)
    ensures SubsSame(c, c')
  {
  }

  lemma RolesGo(c: State, c': State, t: nat)
    requires t in c'.pcs && c'.pcs == c.pcs[t := c'.pcs[t]]
    ensures OthersKeep(c, c', t) && RoleAt(c', t) == RoleOf(c'.pcs[t])
  {
  }

  lemma RolesEnd(c: State, c': State, t: nat)
    requires c'.pcs == c.pcs - {t}
    ensures OthersKeep(c, c', t) && RoleAt(c', t) == Bystander
  {
  }

  lemma RoleIs(c: State, t: nat)
    requires t in c.pcs
    ensures RoleAt(c, t) == RoleOf(c.pcs[t])
  {
  }

  /** A step of `t` that leaves lists, log and subscribers alone. */
  lemma QuietStep(c: State, c': State, t: nat)
    requires c'.sub == c.sub && c'.subs == c.subs && c'.log == c.log && OthersKeep(c, c', t)
    requires RoleShrinks(RoleAt(c, t), RoleAt(c', t), c')
    ensures Quiet(c, c', t)
  {
    hide RoleAt, RoleShrinks, OthersKeep;
    SameSubs(c, c');
  }

  /** A step of `t` that changes one subscriber, not its registration or application messages. */
  lemma QuietSub(c: State, c': State, t: nat, s: nat)
    requires s in c.sub && s in c'.sub && c'.sub == c.sub[s := c'.sub[s]]
    requires var x, x' := c.sub[s], c'.sub[s];
             x'.stream == x.stream && x'.born == x.born && x'.start == x.start && Apps(x'.sent) == Apps(x.sent)
             && (!x.born ==> x'.sent == x.sent)
    requires c'.subs == c.subs && c'.log == c.log && OthersKeep(c, c', t)
             && RoleShrinks(RoleAt(c, t), RoleAt(c', t), c')
    ensures Quiet(c, c', t)
  {
    hide RoleAt, RoleShrinks, OthersKeep, SubsSame, Apps;
    OneSubSame(c, c', s);
  }

  lemma ShrinkSame(r: Role, c': State)
    ensures RoleShrinks(r, r, c')
  {
  }

  // ----- Calls and receives -----

  lemma NewSubSame(c: State, c': State, stream: string, t: nat)
    requires Inv(c) && c'.sub == c.sub[c.nextID := NewSub(stream, t)]
    ensures SubsSame(c, c')
  {
  }

  lemma SubscribeMoves(c: State, t: nat, stream: string, c': State)
    requires Inv(c) && Begin(c, CallSubscribe(t, stream)) == Some(c')
    ensures Quiet(c, c', t)
  {
    if c' == c { SameSubs(c, c'); } else {
      RolesGo(c, c', t);
      NewSubSame(c, c', stream, t);
      hide Inv, SubsSame;
    }
  }

  lemma PublishCallMoves(c: State, t: nat, stream: string, body: string, c': State)
    requires Begin(c, CallPublish(t, stream, body)) == Some(c')
    ensures if c.hubClosed || stream == "" then Quiet(c, c', t) else Calls(c, c', t, stream, body)
  {
    if c.hubClosed || stream == "" { SameSubs(c, c'); } else { RolesGo(c, c', t); }
    hide SubsSame;
  }

  lemma ReceiveMoves(c: State, s: nat, c': State)
    requires Begin(c, Receive(s)) == Some(c')
    ensures Quiet(c, c', 0)
  {
    ShrinkSame(RoleAt(c, 0), c');
    assert OthersKeep(c, c', 0) && RoleAt(c', 0) == RoleAt(c, 0);
    hide RoleAt, OthersKeep, Apps;
    QuietSub(c, c', 0, s);
  }

  lemma OtherCallMoves(c: State, a: Action, c': State)
    requires Begin(c, a) == Some(c') && (a.CallUnsubscribe? || a.CallClose? || a.Tick?)
    ensures Quiet(c, c', a.t)
  {
    if c' == c { ShrinkSame(RoleAt(c, a.t), c'); } else { RolesGo(c, c', a.t); }
    assert RoleShrinks(RoleAt(c, a.t), RoleAt(c', a.t), c');
    hide RoleAt, RoleShrinks;
    QuietStep(c, c', a.t);
  }

  lemma CallsMove(c: State, a: Action, c': State)
    requires Inv(c) && !a.Advance? && Begin(c, a) == Some(c')
    ensures Moves(c, a, c')
  {
    hide Inv, Begin, Quiet, Calls;
    match a
    case CallSubscribe(t, stream) => SubscribeMoves(c, t, stream, c');
    case CallPublish(t, stream, body) => PublishCallMoves(c, t, stream, body, c');
    case Receive(s) => ReceiveMoves(c, s, c');
    case _ => OtherCallMoves(c, a, c');
  }

  // ----- Steps under the read lock -----

  lemma ListedOpen(c: State, stream: string, i: nat)
    requires Inv(c) && i < |ListOf(c.subs, stream)|
    ensures var s := ListOf(c.subs, stream)[i];
            s in c.sub && c.sub[s].stream == stream && !c.sub[s].closed && !c.sub[s].shut
  {
  }

  lemma PublishMoves(c: State, t: nat, c': State)
    requires t in c.pcs && c.pcs[t].Publishing? && AdvanceReader(c, t, c.pcs[t]) == Some(c')
    ensures Starts(c, c', t, c.pcs[t].stream, c.pcs[t].body)
  {
  }

  lemma FanLooks(c: State, t: nat, c': State)
    requires t in c.pcs && c.pcs[t].Fan? && c'.subs == c.subs && c'.sub == c.sub && c'.log == c.log
    requires t in c'.pcs && c'.pcs == c.pcs[t := c'.pcs[t]] && RoleOf(c'.pcs[t]) == RoleOf(c.pcs[t])
    ensures Quiet(c, c', t)
  {
    hide RoleAt, RoleOf, RoleShrinks, Quiet, OthersKeep;
    RoleIs(c, t);
    RolesGo(c, c', t);
    ShrinkSame(RoleOf(c.pcs[t]), c');
    QuietStep(c, c', t);
  }

  lemma FanMoves(c: State, t: nat, c': State)
    requires Inv(c) && t in c.pcs && c.pcs[t].Fan? && AdvanceReader(c, t, c.pcs[t]) == Some(c')
    ensures Quiet(c, c', t) || Ends(c, c', t)
  {
    var Fan(stream, body, i, drops) := c.pcs[t];
    hide Inv, AdvanceReader, RoleAt, RoleShrinks, Quiet, OthersKeep, ListOf;
    FanStep(c, t, c');
    if i < |ListOf(c.subs, stream)| {
      ListedOpen(c, stream, i);
      hide Ends;
      FanLooks(c, t, c');
    } else {
      RoleIs(c, t);
      RolesGo(c, c', t);
    }
  }

  lemma SendMoves(c: State, t: nat, c': State)
    requires Inv(c) && t in c.pcs && c.pcs[t].FanSend? && AdvanceReader(c, t, c.pcs[t]) == Some(c')
    ensures var x := TargetOf(c, c.pcs[t]);
            x in c.sub && if |c.sub[x].buf| < SUBSCRIBER_BUFFER_SIZE then Serves(c, c', t, x) else Skips(c, c', t, x)
  {
    hide Inv, AdvanceReader, RoleAt, OthersKeep, ListOf;
    SendStep(c, t, c');
    ListedOpen(c, c.pcs[t].stream, c.pcs[t].i);
    RoleIs(c, t);
    RolesGo(c, c', t);
  }

  lemma BeatLookMoves(c: State, t: nat, c': State)
    requires t in c.pcs && (c.pcs[t].Beating? || c.pcs[t].BeatLocked?) && AdvanceReader(c, t, c.pcs[t]) == Some(c')
    ensures Quiet(c, c', t)
  {
    RoleIs(c, t);
    if t in c'.pcs { RolesGo(c, c', t); } else { RolesEnd(c, c', t); }
    assert RoleShrinks(RoleAt(c, t), RoleAt(c', t), c');
    hide RoleAt, RoleShrinks, Quiet, OthersKeep;
    QuietStep(c, c', t);
  }

  lemma BeatIsBorn(c: State, t: nat)
    requires Inv(c) && t in c.pcs && c.pcs[t].BeatSend?
    ensures c.pcs[t].s in c.sub && c.sub[c.pcs[t].s].born
  {
  }

  lemma BeatAccepted(x: Sub)
    requires x.born
    ensures var x' := Accept(x, Heartbeat);
            x'.stream == x.stream && x'.born && x'.start == x.start && Apps(x'.sent) == Apps(x.sent)
  {
  }

  lemma BeatMoves(c: State, t: nat, c': State)
    requires Inv(c) && t in c.pcs && c.pcs[t].BeatSend? && AdvanceReader(c, t, c.pcs[t]) == Some(c')
    ensures Quiet(c, c', t)
  {
    var s := c.pcs[t].s;
    hide Inv, AdvanceReader, RoleAt, RoleShrinks, Quiet, OthersKeep, Accept, Apps;
    BeatStep(c, t, c');
    BeatIsBorn(c, t);
    BeatAccepted(c.sub[s]);
    RoleIs(c, t);
    RolesEnd(c, c', t);
    ShrinkSame(Bystander, c');
    if c.sub[s].shut { QuietStep(c, c', t); } else { QuietSub(c, c', t, s); }
  }

  lemma ReadersMove(c: State, t: nat, all: seq<nat>, c': State)
    requires Inv(c) && t in c.pcs && AdvanceReader(c, t, c.pcs[t]) == Some(c')
    ensures Moves(c, Advance(t, all), c')
  {
    hide Inv, AdvanceReader, Quiet, Starts, Serves, Skips, Ends;
    match c.pcs[t]
    case Publishing(_, _) => PublishMoves(c, t, c');
    case Fan(_, _, _, _) => FanMoves(c, t, c');
    case FanSend(_, _, _, _) => SendMoves(c, t, c');
    case Beating(_) => BeatLookMoves(c, t, c');
    case BeatLocked(_) => BeatLookMoves(c, t, c');
    case BeatSend(_) => BeatMoves(c, t, c');
    case _ => NotReader(c, t);
  }

  // ----- Closing a subscriber -----

  lemma MarkMoves(c: State, t: nat, c': State)
    requires t in c.pcs && (c.pcs[t].Counting? || c.pcs[t].CloseStop?) && AdvanceClosing(c, t, c.pcs[t]) == Some(c')
    ensures Quiet(c, c', t)
  {
    RoleIs(c, t);
    RolesGo(c, c', t);
    assert RoleShrinks(RoleAt(c, t), RoleAt(c', t), c');
    hide RoleAt, RoleShrinks, Quiet, OthersKeep, Apps;
    QuietSub(c, c', t, if c.pcs[t].Counting? then c.pcs[t].todo[0] else c.pcs[t].s);
  }

  /** Going on after a close keeps the thread's part. */
  lemma ResumeRole(c: State, t: nat, k: Cont)
    ensures var c' := Resume(c, t, k);
            && c'.subs == c.subs && c'.sub == c.sub && c'.log == c.log && c'.faults == c.faults
            && RoleAt(c', t) == ContRole(k) && OthersKeep(c, c', t)
  {
    var c' := Resume(c, t, k);
    if t in c'.pcs { RolesGo(c, c', t); } else { RolesEnd(c, c', t); }
    hide RoleAt, OthersKeep;
  }

  lemma SwapMoves(c: State, t: nat, c': State)
    requires t in c.pcs && c.pcs[t].Closing? && AdvanceClosing(c, t, c.pcs[t]) == Some(c')
    ensures Quiet(c, c', t)
  {
    var Closing(s, k) := c.pcs[t];
    RoleIs(c, t);
    ShrinkSame(ContRole(k), c');
    if c.sub[s].closed {
      ResumeRole(c, t, k);
      hide Resume, RoleAt, RoleShrinks, Quiet, OthersKeep;
      QuietStep(c, c', t);
    } else {
      RolesGo(c, c', t);
      hide RoleAt, RoleShrinks, Quiet, OthersKeep, Apps;
      QuietSub(c, c', t, s);
    }
  }

  lemma ShutMoves(c: State, t: nat, c': State)
    requires t in c.pcs && c.pcs[t].CloseChan? && AdvanceClosing(c, t, c.pcs[t]) == Some(c')
    ensures Quiet(c, c', t)
  {
    var CloseChan(s, k) := c.pcs[t];
    var faults := if c.sub[s].shut then c.faults + {CloseOfClosed} else c.faults;
    var mid := c.(sub := c.sub[s := c.sub[s].(shut := true, closer := None)], faults := faults);
    RoleIs(c, t);
    ShrinkSame(ContRole(k), c');
    ResumeRole(mid, t, k);
    assert OthersKeep(c, c', t) by { assert forall u :: RoleAt(mid, u) == RoleAt(c, u); hide Resume; }
    hide Resume, RoleAt, RoleShrinks, Quiet, OthersKeep, Apps;
    QuietSub(c, c', t, s);
  }

  lemma ClosersMove(c: State, t: nat, all: seq<nat>, c': State)
    requires t in c.pcs && AdvanceClosing(c, t, c.pcs[t]) == Some(c')
    ensures Moves(c, Advance(t, all), c')
  {
    hide AdvanceClosing, Quiet;
    match c.pcs[t]
    case Counting(_, _) => MarkMoves(c, t, c');
    case CloseStop(_, _) => MarkMoves(c, t, c');
    case Closing(_, _) => SwapMoves(c, t, c');
    case CloseChan(_, _) => ShutMoves(c, t, c');
    case _ => NotClosing(c, t);
  }

  // ----- Steps around the write lock -----

  lemma TakeLockMoves(c: State, t: nat, all: seq<nat>, c': State)
    requires t in c.pcs && WantsWrite(c.pcs[t]) && !c.pcs[t].Dropping?
             && AdvanceLocking(c, t, c.pcs[t], all) == Some(c')
    ensures Quiet(c, c', t)
  {
    hide AdvanceLocking, RoleAt, RoleShrinks, Quiet, OthersKeep, Unlocked;
    LockStep(c, t, all, c');
    RoleIs(c, t);
    RolesGo(c, c', t);
    ShrinkSame(Bystander, c');
    QuietStep(c, c', t);
  }

  lemma DropStartMoves(c: State, t: nat, all: seq<nat>, c': State)
    requires t in c.pcs && c.pcs[t].Dropping? && AdvanceLocking(c, t, c.pcs[t], all) == Some(c')
    ensures Quiet(c, c', t)
  {
    hide Enlist, Delist, Resume, Gathers, RoleAt, RoleShrinks, Quiet, OthersKeep, ListOf;
    RoleIs(c, t);
    if t in c'.pcs { RolesGo(c, c', t); } else { RolesEnd(c, c', t); }
    DropsNone(c.pcs[t].stream, c');
    ShrinkSame(RoleOf(c.pcs[t]), c');
    QuietStep(c, c', t);
  }

  lemma DropsNone(stream: string, c': State)
    ensures RoleShrinks(Clearing(stream, []), Bystander, c')
  {
  }

  lemma EnlistMoves(c: State, t: nat, all: seq<nat>, c': State)
    requires Inv(c) && t in c.pcs && c.pcs[t].SubLocked? && AdvanceLocking(c, t, c.pcs[t], all) == Some(c')
    ensures Registers(c, c', c.pcs[t].s)
  {
    Holds(c, t);
    NoFans(c);
    var s := c.pcs[t].s;
    SubAt(c, s);
    hide Inv;
    RoleIs(c, t);
    RolesEnd(c, c', t);
    assert forall u :: RoleAt(c', u) == RoleAt(c, u);
    hide RoleAt, NobodyFans;
  }

  lemma DelistShrinks(c: State, c': State, stream: string, s: nat)
    requires ListsOk(c) && c'.subs == Delist(c.subs, stream, s)
    ensures ListsShrink(c, c') && s !in ListOf(c'.subs, stream)
  {
    if s in ListOf(c.subs, stream) { WithoutFacts(c.subs[stream], s); }
  }

  lemma HeadGoes(todo: seq<nat>, stream: string, c': State)
    requires todo != [] && todo[0] !in ListOf(c'.subs, stream)
    ensures RoleShrinks(Clearing(stream, todo), Clearing(stream, todo[1..]), c')
  {
  }

  lemma DropFoundMoves(c: State, t: nat, all: seq<nat>, c': State)
    requires Inv(c) && t in c.pcs && c.pcs[t].DropLocked? && AdvanceLocking(c, t, c.pcs[t], all) == Some(c')
    requires c.pcs[t].todo != [] && c.pcs[t].todo[0] in ListOf(c.subs, c.pcs[t].stream)
    ensures Quiet(c, c', t)
  {
    var DropLocked(stream, todo) := c.pcs[t];
    hide *;
    DropStep(c, t, all, c');
    DropFoundRoles(c, c', t, stream, todo);
    DropHolds(c, t);
    NoFans(c);
    DelistShrinks(c, c', stream, todo[0]);
    HeadGoes(todo, stream, c');
    QuietDrop(c, c', t, todo[0]);
  }

  lemma DropHolds(c: State, t: nat)
    requires Inv(c) && t in c.pcs && c.pcs[t].DropLocked?
    ensures LocksOk(c) && ListsOk(c) && c.writer.Some?
  {
  }

  lemma DropFoundRoles(c: State, c': State, t: nat, stream: string, todo: seq<nat>)
    requires todo != [] && t in c.pcs && c.pcs[t] == DropLocked(stream, todo)
             && c'.pcs == c.pcs[t := Counting(stream, todo)]
    ensures RoleAt(c, t) == Clearing(stream, todo) && RoleAt(c', t) == Clearing(stream, todo[1..])
            && OthersKeep(c, c', t)
  {
    RolesGo(c, c', t);
    hide OthersKeep;
  }

  lemma QuietDrop(c: State, c': State, t: nat, s: nat)
    requires s in c.sub && c'.sub == c.sub[s := c.sub[s].(finder := Some(t))] && c'.log == c.log
    requires NobodyFans(c) && ListsShrink(c, c') && OthersKeep(c, c', t) && RoleShrinks(RoleAt(c, t), RoleAt(c', t), c')
    ensures Quiet(c, c', t)
  {
    hide NobodyFans, ListsShrink, OthersKeep, RoleAt, RoleShrinks, SubsSame, Apps;
    OneSubSame(c, c', s);
  }

  lemma DropMissedMoves(c: State, t: nat, all: seq<nat>, c': State)
    requires t in c.pcs && c.pcs[t].DropLocked? && AdvanceLocking(c, t, c.pcs[t], all) == Some(c')
    requires c.pcs[t].todo != [] && c.pcs[t].todo[0] !in ListOf(c.subs, c.pcs[t].stream)
    ensures Quiet(c, c', t)
  {
    RoleIs(c, t);
    RolesGo(c, c', t);
    HeadGoes(c.pcs[t].todo, c.pcs[t].stream, c');
    hide RoleAt, RoleShrinks, Quiet, OthersKeep;
    QuietStep(c, c', t);
  }

  lemma UnlistMoves(c: State, t: nat, all: seq<nat>, c': State)
    requires Inv(c) && t in c.pcs && c.pcs[t].UnsubLocked? && AdvanceLocking(c, t, c.pcs[t], all) == Some(c')
    ensures Quiet(c, c', t)
  {
    hide Inv, Delist, ListsShrink, Enlist, Resume, Gathers, SubsSame, NobodyFans, ListsOk, LocksOk, PcOk, RoleAt,
         RoleShrinks, OthersKeep;
    Holds(c, t);
    NoFans(c);
    DelistShrinks(c, c', c.pcs[t].stream, c.pcs[t].s);
    SameSubs(c, c');
    RoleIs(c, t);
    RolesGo(c, c', t);
    ShrinkSame(Bystander, c');
  }

  lemma UnlistAllMoves(c: State, t: nat, all: seq<nat>, c': State)
    requires Inv(c) && t in c.pcs && c.pcs[t].ShutLocked? && AdvanceLocking(c, t, c.pcs[t], all) == Some(c')
    ensures Quiet(c, c', t)
  {
    Holds(c, t);
    NoFans(c);
    var mid := c.(subs := map[], writer := None);
    RoleIs(c, t);
    ResumeRole(mid, t, ThenClose(all));
    assert OthersKeep(c, c', t) by { assert forall u :: RoleAt(mid, u) == RoleAt(c, u); hide Resume; }
    SameSubs(c, c');
    ShrinkSame(Bystander, c');
    hide Inv, SubsSame, Resume, RoleAt, RoleShrinks, OthersKeep, NobodyFans;
  }

  /** A thread inside the write lock finds it taken. */
  lemma Holds(c: State, t: nat)
    requires Inv(c) && t in c.pcs && HoldsWrite(c.pcs[t])
    ensures LocksOk(c) && ListsOk(c) && c.writer.Some? && PcOk(c, t, c.pcs[t])
  {
  }

  lemma LockersMove(c: State, t: nat, all: seq<nat>, c': State)
    requires Inv(c) && t in c.pcs && !ReaderPC(c.pcs[t]) && !ClosingPC(c.pcs[t])
             && AdvanceLocking(c, t, c.pcs[t], all) == Some(c')
    ensures Moves(c, Advance(t, all), c')
  {
    hide Inv, AdvanceLocking, Quiet, Registers;
    match c.pcs[t]
    case SubLocked(_, _) => EnlistMoves(c, t, all, c');
    case DropLocked(stream, todo) => DropMoves(c, t, all, c');
    case UnsubLocked(_, _) => UnlistMoves(c, t, all, c');
    case ShutLocked => UnlistAllMoves(c, t, all, c');
    case Dropping(_, _) => DropStartMoves(c, t, all, c');
    case _ => LockingOnly(c, t, all); TakeLockMoves(c, t, all, c');
  }

  lemma DropMoves(c: State, t: nat, all: seq<nat>, c': State)
    requires Inv(c) && t in c.pcs && c.pcs[t].DropLocked? && AdvanceLocking(c, t, c.pcs[t], all) == Some(c')
    ensures Quiet(c, c', t)
  {
    assert c.pcs[t].todo != [];
    hide Inv, AdvanceLocking, Quiet;
    if c.pcs[t].todo[0] in ListOf(c.subs, c.pcs[t].stream) {
      DropFoundMoves(c, t, all, c');
    } else {
      DropMissedMoves(c, t, all, c');
    }
  }

  lemma StepMoves(c: State, a: Action, c': State)
    requires Inv(c) && Step(c, a) == Some(c')
    ensures Moves(c, a, c')
  {
    hide Inv, Moves, Begin, AdvanceReader, AdvanceLocking, AdvanceClosing;
    if !a.Advance? {
      CallsMove(c, a, c');
    } else if ReaderPC(c.pcs[a.t]) {
      ReadersMove(c, a.t, a.all, c');
    } else if ClosingPC(c.pcs[a.t]) {
      ClosersMove(c, a.t, a.all, c');
    } else {
      LockersMove(c, a.t, a.all, c');
    }
  }
}
