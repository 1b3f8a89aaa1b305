/** The SSE hub as threads interleaving at lock, flag and channel granularity (internal/sse/hub.go). */
module Hub {
  import opened Options

  const SUBSCRIBER_BUFFER_SIZE := 64

  datatype Msg = App(body: string) | Heartbeat

  /** One subscriber. `sent` is everything its channel accepted, `got` what the client received, `start` the length of
      its stream's log when it registered; `creator`, `finder` and `closer` name the thread currently subscribing it,
      counting it as dropped, or closing it. */
  datatype Sub = Sub(
    stream: string,
    born: bool,        // has been appended to a subscriber list
    closed: bool,      // the closed flag
    stopped: bool,     // stopHeartbeat is closed
    shut: bool,        // the message channel is closed
    buf: seq<Msg>,
    got: seq<Msg>,
    sent: seq<Msg>,
    start: nat,
    counted: nat,      // times it was added to the dropped counter
    creator: Option<nat>,
    finder: Option<nat>,
    closer: Option<nat>)

  /** What a thread does after closing a subscriber. */
  datatype Cont = ThenDrop(stream: string, todo: seq<nat>) | ThenClose(rest: seq<nat>)

  /** Where a thread is; idle threads have no entry. */
  datatype PC =
    | Subscribing(stream: string, s: nat)                              // about to lock
    | SubLocked(stream: string, s: nat)                                // holds the write lock
    | Publishing(stream: string, body: string)                         // about to read-lock
    | Fan(stream: string, body: string, i: nat, drops: seq<nat>)       // holds the read lock, looks at subs[i]
    | FanSend(stream: string, body: string, i: nat, drops: seq<nat>)   // saw the flag of subs[i] down, about to send
    | Dropping(stream: string, todo: seq<nat>)                         // about to lock for todo[0]
    | DropLocked(stream: string, todo: seq<nat>)                       // holds the write lock
    | Counting(stream: string, todo: seq<nat>)                         // found and removed todo[0]
    | Unsubscribing(stream: string, s: nat)                            // about to lock
    | UnsubLocked(stream: string, s: nat)                              // holds the write lock
    | Shutting                                                         // about to lock in Close
    | ShutLocked                                                       // holds the write lock
    | Closing(s: nat, k: Cont)                                         // about to swap the closed flag
    | CloseStop(s: nat, k: Cont)                                       // swapped it, about to close stopHeartbeat
    | CloseChan(s: nat, k: Cont)                                       // about to close the channel
    | Beating(s: nat)                                                  // heartbeat, about to read-lock
    | BeatLocked(s: nat)                                               // holds the read lock
    | BeatSend(s: nat)                                                 // saw the flag down, about to send

  datatype Fault = PublishOnClosed | HeartbeatOnClosed | CloseOfClosed

  datatype State = State(
    subs: map<string, seq<nat>>,
    sub: map<nat, Sub>,
    nextID: nat,
    dropped: nat,
    hubClosed: bool,
    writer: Option<nat>,
    readers: set<nat>,
    pcs: map<nat, PC>,
    log: map<string, seq<string>>,   // bodies published per stream, in read-lock order
    faults: set<Fault>)

  const START: State := State(map[], map[], 0, 0, false, None, {}, map[], map[], {})

  // ----- The subscriber lists -----

  function ListOf(subs: map<string, seq<nat>>, stream: string): seq<nat> {
    if stream in subs then subs[stream] else []
  }

  function Enlist(subs: map<string, seq<nat>>, stream: string, s: nat): map<string, seq<nat>> {
    subs[stream := ListOf(subs, stream) + [s]]
  }

  /** The list without the first occurrence of `s`. */
  function Without(list: seq<nat>, s: nat): seq<nat> {
    if list == [] then [] else if list[0] == s then list[1..] else [list[0]] + Without(list[1..], s)
  }

  function Delist(subs: map<string, seq<nat>>, stream: string, s: nat): map<string, seq<nat>> {
    if s in ListOf(subs, stream) then subs[stream := Without(ListOf(subs, stream), s)] else subs
  }

  predicate Listed(subs: map<string, seq<nat>>, s: nat) {
    exists stream :: stream in subs && s in subs[stream]
  }

  /** `all` lists every subscriber of every stream, and nothing else. */
  predicate Gathers(subs: map<string, seq<nat>>, all: seq<nat>) {
    && (forall s :: s in all ==> Listed(subs, s))
    && (forall stream :: stream in subs ==> forall s :: s in subs[stream] ==> s in all)
  }

  function LogOf(log: map<string, seq<string>>, stream: string): seq<string> {
    if stream in log then log[stream] else []
  }

  // ----- Steps -----

  datatype Action =
    | CallSubscribe(t: nat, stream: string)
    | CallPublish(t: nat, stream: string, body: string)
    | CallUnsubscribe(t: nat, s: nat)
    | CallClose(t: nat)
    | Tick(t: nat, s: nat)                 // a heartbeat timer fires
    | Advance(t: nat, all: seq<nat>)       // thread t takes its next step; `all` is Close's iteration order
    | Receive(s: nat)                      // the client takes a message off its channel

  function Go(c: State, t: nat, pc: PC): State { c.(pcs := c.pcs[t := pc]) }

  function End(c: State, t: nat): State { c.(pcs := c.pcs - {t}) }

  function Resume(c: State, t: nat, k: Cont): State {
    match k
    case ThenDrop(stream, todo) => Go(c, t, Dropping(stream, todo))
    case ThenClose(rest) => if rest == [] then End(c, t) else Go(c, t, Closing(rest[0], ThenClose(rest[1..])))
  }

  predicate Unlocked(c: State) { c.writer.None? && c.readers == {} }

  function NewSub(stream: string, t: nat): Sub {
    Sub(stream, false, false, false, false, [], [], [], 0, 0, Some(t), None, None)
  }

  /** A non-blocking send of `m` on the channel of `s`. */
  function Accept(x: Sub, m: Msg): Sub {
    if |x.buf| < SUBSCRIBER_BUFFER_SIZE then x.(buf := x.buf + [m], sent := x.sent + [m]) else x
  }

  /** The steps that take, use and release the write lock. */
  function AdvanceLocking(c: State, t: nat, pc: PC, all: seq<nat>): Option<State> {
    match pc
    case Subscribing(stream, s) =>
      if Unlocked(c) then Some(Go(c.(writer := Some(t)), t, SubLocked(stream, s))) else None
    case SubLocked(stream, s) =>
      if s !in c.sub then None else
      var x := c.sub[s].(born := true, creator := None, start := |LogOf(c.log, stream)|);
      Some(End(c.(subs := Enlist(c.subs, stream, s), sub := c.sub[s := x], writer := None), t))
    case Dropping(stream, todo) =>
      if todo == [] then Some(End(c, t))
      else if Unlocked(c) then Some(Go(c.(writer := Some(t)), t, DropLocked(stream, todo))) else None
    case DropLocked(stream, todo) =>
      if todo == [] || todo[0] !in c.sub then None
      else if todo[0] in ListOf(c.subs, stream) then
        var x := c.sub[todo[0]].(finder := Some(t));
        Some(Go(c.(subs := Delist(c.subs, stream, todo[0]), sub := c.sub[todo[0] := x], writer := None), t,
          Counting(stream, todo)))
      else Some(Go(c.(writer := None), t, Dropping(stream, todo[1..])))
    case Unsubscribing(stream, s) =>
      if Unlocked(c) then Some(Go(c.(writer := Some(t)), t, UnsubLocked(stream, s))) else None
    case UnsubLocked(stream, s) =>
      Some(Go(c.(subs := Delist(c.subs, stream, s), writer := None), t, Closing(s, ThenClose([]))))
    case Shutting =>
      if Unlocked(c) then Some(Go(c.(writer := Some(t)), t, ShutLocked)) else None
    case ShutLocked =>
      if Gathers(c.subs, all) then Some(Resume(c.(subs := map[], writer := None), t, ThenClose(all)))
      else None
    case _ => None
  }

  /** The steps that count and close a subscriber; they need no lock. */
  function AdvanceClosing(c: State, t: nat, pc: PC): Option<State> {
    match pc
    case Counting(stream, todo) =>
      if todo == [] || todo[0] !in c.sub then None else
      var x := c.sub[todo[0]];
      var x' := x.(counted := x.counted + 1, finder := None);
      Some(Go(c.(dropped := c.dropped + 1, sub := c.sub[todo[0] := x']), t,
        Closing(todo[0], ThenDrop(stream, todo[1..]))))
    case Closing(s, k) =>
      if s !in c.sub then None
      else if c.sub[s].closed then Some(Resume(c, t, k))
      else Some(Go(c.(sub := c.sub[s := c.sub[s].(closed := true, closer := Some(t))]), t, CloseStop(s, k)))
    case CloseStop(s, k) =>
      if s !in c.sub then None else
      var faults := if c.sub[s].stopped then c.faults + {CloseOfClosed} else c.faults;
      Some(Go(c.(sub := c.sub[s := c.sub[s].(stopped := true)], faults := faults), t, CloseChan(s, k)))
    case CloseChan(s, k) =>
      if s !in c.sub then None else
      var faults := if c.sub[s].shut then c.faults + {CloseOfClosed} else c.faults;
      Some(Resume(c.(sub := c.sub[s := c.sub[s].(shut := true, closer := None)], faults := faults), t, k))
    case _ => None
  }

  predicate ClosingPC(pc: PC) { pc.Counting? || pc.Closing? || pc.CloseStop? || pc.CloseChan? }

  function AdvanceWriter(c: State, t: nat, pc: PC, all: seq<nat>): Option<State> {
    if ClosingPC(pc) then AdvanceClosing(c, t, pc) else AdvanceLocking(c, t, pc, all)
  }

  /** The read-locked steps: fan-out and heartbeat. */
  function AdvanceReader(c: State, t: nat, pc: PC): Option<State> {
    match pc
    case Publishing(stream, body) =>
      if c.writer.Some? then None else
      Some(Go(c.(readers := c.readers + {t}, log := c.log[stream := LogOf(c.log, stream) + [body]]), t,
        Fan(stream, body, 0, [])))
    case Fan(stream, body, i, drops) =>
      var list := ListOf(c.subs, stream);
      if i >= |list| then Some(Go(c.(readers := c.readers - {t}), t, Dropping(stream, drops)))
      else if list[i] !in c.sub then None
      else if c.sub[list[i]].closed then Some(Go(c, t, Fan(stream, body, i + 1, drops)))
      else Some(Go(c, t, FanSend(stream, body, i, drops)))
    case FanSend(stream, body, i, drops) =>
      var list := ListOf(c.subs, stream);
      if i >= |list| || list[i] !in c.sub then None else
      var s, x := list[i], c.sub[list[i]];
      if x.shut then Some(Go(c.(faults := c.faults + {PublishOnClosed}), t, Fan(stream, body, i + 1, drops)))
      else if |x.buf| < SUBSCRIBER_BUFFER_SIZE then
        Some(Go(c.(sub := c.sub[s := Accept(x, App(body))]), t, Fan(stream, body, i + 1, drops)))
      else Some(Go(c, t, Fan(stream, body, i + 1, drops + [s])))
    case Beating(s) =>
      if c.writer.Some? then None else Some(Go(c.(readers := c.readers + {t}), t, BeatLocked(s)))
    case BeatLocked(s) =>
      if s !in c.sub then None
      else if c.sub[s].closed then Some(End(c.(readers := c.readers - {t}), t))
      else Some(Go(c, t, BeatSend(s)))
    case BeatSend(s) =>
      if s !in c.sub then None
      else if c.sub[s].shut then Some(End(c.(readers := c.readers - {t}, faults := c.faults + {HeartbeatOnClosed}), t))
      else Some(End(c.(readers := c.readers - {t}, sub := c.sub[s := Accept(c.sub[s], Heartbeat)]), t))
    case _ => None
  }

  predicate ReaderPC(pc: PC) {
    pc.Publishing? || pc.Fan? || pc.FanSend? || pc.Beating? || pc.BeatLocked? || pc.BeatSend?
  }

  /** A call starts, or a client receives. */
  function Begin(c: State, a: Action): Option<State> {
    match a
    case CallSubscribe(t, stream) =>
      if t in c.pcs then None
      else if c.hubClosed || stream == "" then Some(c)    // returns a closed channel of its own
      else Some(Go(c.(nextID := c.nextID + 1, sub := c.sub[c.nextID := NewSub(stream, t)]), t,
        Subscribing(stream, c.nextID)))
    case CallPublish(t, stream, body) =>
      if t in c.pcs then None
      else if c.hubClosed || stream == "" then Some(c)
      else Some(Go(c, t, Publishing(stream, body)))
    case CallUnsubscribe(t, s) =>
      if t in c.pcs || s !in c.sub || !c.sub[s].born then None
      else Some(Go(c, t, Unsubscribing(c.sub[s].stream, s)))
    case CallClose(t) =>
      if t in c.pcs then None
      else if c.hubClosed then Some(c)
      else Some(Go(c.(hubClosed := true), t, Shutting))
    case Tick(t, s) =>
      if t in c.pcs || s !in c.sub || !c.sub[s].born then None else Some(Go(c, t, Beating(s)))
    case Receive(s) =>
      if s !in c.sub || c.sub[s].buf == [] then None else
      var x := c.sub[s];
      Some(c.(sub := c.sub[s := x.(buf := x.buf[1..], got := x.got + [x.buf[0]])]))
    case Advance(_, _) => None
  }

  function Step(c: State, a: Action): Option<State> {
    if a.Advance? then
      if a.t !in c.pcs then None
      else if ReaderPC(c.pcs[a.t]) then AdvanceReader(c, a.t, c.pcs[a.t])
      else AdvanceWriter(c, a.t, c.pcs[a.t], a.all)
    else Begin(c, a)
  }

  /** The state after a whole run, if every action was enabled. */
  function Run(actions: seq<Action>): Option<State> {
    if actions == [] then Some(START) else
    var c := Run(actions[..|actions| - 1]);
    if c.None? then None else Step(c.value, actions[|actions| - 1])
  }
}
