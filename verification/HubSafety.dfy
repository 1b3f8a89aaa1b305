/** What holds in every interleaving of the hub's threads. */
module HubSafety {
  import opened Options
  import opened Hub
  import opened HubSteps

  predicate HoldsWrite(pc: PC) { pc.SubLocked? || pc.DropLocked? || pc.UnsubLocked? || pc.ShutLocked? }

  predicate HoldsRead(pc: PC) { pc.Fan? || pc.FanSend? || pc.BeatLocked? || pc.BeatSend? }

  ghost predicate Born(c: State, s: nat, stream: string) {
    s in c.sub && c.sub[s].born && c.sub[s].stream == stream
  }

  /** Registered once and removed since. */
  ghost predicate Gone(c: State, s: nat) { s in c.sub && c.sub[s].born && !Listed(c.subs, s) }

  ghost predicate AllBorn(c: State, ids: seq<nat>, stream: string) { forall s :: s in ids ==> Born(c, s, stream) }

  ghost predicate AllGone(c: State, ids: seq<nat>) { forall s :: s in ids ==> Gone(c, s) }

  ghost predicate ContOk(c: State, k: Cont) {
    match k case ThenDrop(stream, todo) => AllBorn(c, todo, stream) case ThenClose(rest) => AllGone(c, rest)
  }

  /** What thread `t` may rely on at `pc`. */
  ghost predicate PcOk(c: State, t: nat, pc: PC) {
    match pc
    case Subscribing(stream, s) => s in c.sub && c.sub[s].creator == Some(t) && c.sub[s].stream == stream
    case SubLocked(stream, s) => s in c.sub && c.sub[s].creator == Some(t) && c.sub[s].stream == stream
    case Publishing(_, _) => true
    case Fan(stream, _, _, drops) => AllBorn(c, drops, stream)
    case FanSend(stream, _, i, drops) => AllBorn(c, drops, stream) && i < |ListOf(c.subs, stream)|
    case Dropping(stream, todo) => AllBorn(c, todo, stream)
    case DropLocked(stream, todo) => AllBorn(c, todo, stream) && todo != []
    case Counting(stream, todo) =>
      AllBorn(c, todo, stream) && todo != [] && Gone(c, todo[0]) && c.sub[todo[0]].finder == Some(t)
    case Unsubscribing(stream, s) => Born(c, s, stream)
    case UnsubLocked(stream, s) => Born(c, s, stream)
    case Shutting => true
    case ShutLocked => true
    case Closing(s, k) => Gone(c, s) && ContOk(c, k)
    case CloseStop(s, k) => Gone(c, s) && ContOk(c, k) && c.sub[s].closer == Some(t) && !c.sub[s].stopped
    case CloseChan(s, k) => Gone(c, s) && ContOk(c, k) && c.sub[s].closer == Some(t)
    case Beating(s) => s in c.sub && c.sub[s].born
    case BeatLocked(s) => s in c.sub && c.sub[s].born
    case BeatSend(s) => s in c.sub && c.sub[s].born
  }

  ghost predicate ThreadsOk(c: State) { forall t :: t in c.pcs ==> PcOk(c, t, c.pcs[t]) }

  /** The lock is held by exactly the threads whose program counter says so. */
  ghost predicate LocksOk(c: State) {
    && (c.writer.Some? ==> c.readers == {} && c.writer.value in c.pcs)
    && (forall t :: t in c.readers ==> t in c.pcs && HoldsRead(c.pcs[t]))
    && (forall t :: t in c.pcs ==>
          (HoldsRead(c.pcs[t]) <==> t in c.readers) && (HoldsWrite(c.pcs[t]) <==> c.writer == Some(t)))
  }

  predicate NoDup(list: seq<nat>) { forall i, j :: 0 <= i < j < |list| ==> list[i] != list[j] }

  ghost predicate ListsOk(c: State) {
    forall stream :: stream in c.subs ==>
      NoDup(c.subs[stream]) && forall s :: s in c.subs[stream] ==> s in c.sub && c.sub[s].stream == stream
  }

  /** The life of one subscriber; a listed one has its flag down and its channel open. */
  ghost predicate SubOk(x: Sub, listed: bool) {
    && |x.buf| <= SUBSCRIBER_BUFFER_SIZE && x.sent == x.got + x.buf
    && (listed ==> x.born && !x.closed && x.counted == 0 && x.finder.None?)
    && (if x.born then x.creator.None? else !x.closed && x.counted == 0 && x.finder.None?)
    && (!x.closed ==> !x.stopped && !x.shut && x.closer.None?)
    && (x.closer.Some? ==> !x.shut)
    && (x.finder.Some? ==> x.counted == 0)
    && x.counted <= 1
  }

  ghost predicate SubsOk(c: State) {
    forall s :: s in c.sub ==> s < c.nextID && SubOk(c.sub[s], Listed(c.subs, s))
  }

  ghost function Counted(c: State): set<nat> { set s | s in c.sub && c.sub[s].counted > 0 }

  ghost predicate Inv(c: State) {
    && ThreadsOk(c) && LocksOk(c) && ListsOk(c) && SubsOk(c)
    && c.dropped == |Counted(c)|
    && CloseOfClosed !in c.faults && PublishOnClosed !in c.faults
  }

  // ----- What a step of thread t leaves alone for the others -----

  ghost predicate TokensKept(x: Sub, x': Sub, t: nat) {
    && x'.stream == x.stream && (x.born ==> x'.born)
    && (forall u :: u != t && x.creator == Some(u) ==> x'.creator == Some(u))
    && (forall u :: u != t && x.finder == Some(u) ==> x'.finder == Some(u))
    && (forall u :: u != t && x.closer == Some(u) ==> x'.closer == Some(u) && x'.stopped == x.stopped)
  }

  ghost predicate Frame(c: State, c': State, t: nat) {
    && (forall s :: s in c.sub ==> s in c'.sub && TokensKept(c.sub[s], c'.sub[s], t))
    && (forall s :: Gone(c, s) ==> !Listed(c'.subs, s))
    && (c.readers - {t} != {} ==> c'.subs == c.subs)
  }

  /** Only thread `t` takes or releases the lock. */
  predicate LockOnly(c: State, c': State, t: nat) {
    && (c'.readers == c.readers || c'.readers == c.readers + {t} || c'.readers == c.readers - {t})
    && (c'.writer == c.writer || (c.writer.None? && c'.writer == Some(t)) || (c.writer == Some(t) && c'.writer.None?))
  }

  /** The counter of thread `t` and its hold on the lock agree. */
  predicate HoldOk(c: State, t: nat) {
    && (if t in c.pcs then (HoldsRead(c.pcs[t]) <==> t in c.readers) && (HoldsWrite(c.pcs[t]) <==> c.writer == Some(t))
        else t !in c.readers && c.writer != Some(t))
    && (c.writer == Some(t) ==> c.readers == {}) && (t in c.readers ==> c.writer.None?)
  }

  lemma PcFrame(c: State, c': State, t: nat, u: nat, pc: PC)
    requires Frame(c, c', t) && u != t && PcOk(c, u, pc) && (HoldsRead(pc) ==> u in c.readers)
    ensures PcOk(c', u, pc)
  {
    assert forall s, stream :: Born(c, s, stream) ==> Born(c', s, stream);
    assert forall s :: Gone(c, s) ==> Gone(c', s);
    assert HoldsRead(pc) ==> u in c.readers - {t};
  }

  /** All threads keep what they rely on when the stepping thread re-establishes its own part. */
  lemma ThreadsFrame(c: State, c': State, t: nat)
    requires ThreadsOk(c) && LocksOk(c) && Frame(c, c', t) && PcOnly(c, c', t)
    requires t in c'.pcs ==> PcOk(c', t, c'.pcs[t])
    ensures ThreadsOk(c')
  {
    forall u | u in c'.pcs ensures PcOk(c', u, c'.pcs[u]) {
      if u != t { PcFrame(c, c', t, u, c.pcs[u]); }
    }
  }

  lemma LocksFrame(c: State, c': State, t: nat)
    requires LocksOk(c) && PcOnly(c, c', t) && LockOnly(c, c', t) && HoldOk(c', t)
    ensures LocksOk(c')
  {
    hide HoldsRead, HoldsWrite;
  }

  /** Only subscriber `s` changed; the lists name the same subscribers apart from `s`. */
  lemma SubsFrame(c: State, c': State, s: nat)
    requires SubsOk(c) && s in c.sub && s in c'.sub && c'.sub == c.sub[s := c'.sub[s]] && c'.nextID == c.nextID
    requires forall x :: x != s ==> (Listed(c'.subs, x) <==> Listed(c.subs, x))
    requires SubOk(c'.sub[s], Listed(c'.subs, s))
    ensures SubsOk(c')
  {
    hide SubOk, Listed;
  }

  lemma QuietFrame(c: State, c': State)
    requires ListsOk(c) && SubsOk(c) && c'.subs == c.subs && c'.sub == c.sub && c'.nextID == c.nextID
    ensures ListsOk(c') && SubsOk(c') && Counted(c') == Counted(c)
  {
  }

  lemma ListsFrame(c: State, c': State, s: nat)
    requires ListsOk(c) && c'.subs == c.subs && s in c.sub && s in c'.sub && c'.sub == c.sub[s := c'.sub[s]]
    requires c'.sub[s].stream == c.sub[s].stream
    ensures ListsOk(c')
  {
    hide NoDup;
  }

  lemma CountedFrame(c: State, c': State, s: nat)
    requires s in c.sub && s in c'.sub && c'.sub == c.sub[s := c'.sub[s]] && c'.sub[s].counted == c.sub[s].counted
    ensures Counted(c') == Counted(c)
  {
  }

  /** What thread `t` knows about itself and the lock. */
  lemma At(c: State, t: nat)
    requires ThreadsOk(c) && LocksOk(c) && t in c.pcs
    ensures PcOk(c, t, c.pcs[t]) && (c.writer.Some? ==> c.readers == {})
    ensures (HoldsRead(c.pcs[t]) <==> t in c.readers) && (HoldsWrite(c.pcs[t]) <==> c.writer == Some(t))
  {
  }

  lemma SubAt(c: State, s: nat)
    requires SubsOk(c) && s in c.sub
    ensures SubOk(c.sub[s], Listed(c.subs, s))
  {
  }

  lemma TailIn(ids: seq<nat>)
    requires ids != []
    ensures ids[0] in ids && forall s :: s in ids[1..] ==> s in ids
  {
  }

  /** A step that changes only the lock and thread `t`. */
  lemma QuietKeeps(c: State, c': State, t: nat)
    requires Inv(c) && c'.subs == c.subs && c'.sub == c.sub && c'.nextID == c.nextID && c'.dropped == c.dropped
      && c'.faults == c.faults
    requires PcOnly(c, c', t) && LockOnly(c, c', t) && HoldOk(c', t) && (t in c'.pcs ==> PcOk(c', t, c'.pcs[t]))
    ensures Inv(c')
  {
    assert Frame(c, c', t);
    hide ThreadsOk, LocksOk, ListsOk, SubsOk, Counted, PcOk, PcOnly, LockOnly, HoldOk, Frame;
    LocksFrame(c, c', t);
    ThreadsFrame(c, c', t);
    QuietFrame(c, c');
  }

  // ----- Lists -----

  lemma {:induction false} WithoutFacts(list: seq<nat>, s: nat)
    requires NoDup(list)
    ensures NoDup(Without(list, s)) && forall x :: x in Without(list, s) <==> x in list && x != s
  {
    if list != [] {
      assert forall x :: x in list <==> x == list[0] || x in list[1..];
      if list[0] == s {
        assert forall i :: 0 <= i < |list[1..]| ==> list[1..][i] == list[i + 1];
      } else {
        WithoutFacts(list[1..], s);
        var rest := Without(list[1..], s);
        assert list[0] !in rest;
      }
    }
  }

  lemma EnlistFacts(c: State, stream: string, s: nat)
    requires ListsOk(c) && s in c.sub && c.sub[s].stream == stream && !Listed(c.subs, s)
    ensures ListsOk(c.(subs := Enlist(c.subs, stream, s)))
    ensures forall x :: Listed(Enlist(c.subs, stream, s), x) <==> Listed(c.subs, x) || x == s
  {
    var subs' := Enlist(c.subs, stream, s);
    assert s !in ListOf(c.subs, stream);
    assert s in subs'[stream];
    forall x | Listed(c.subs, x) ensures Listed(subs', x) {
      var st :| st in c.subs && x in c.subs[st];
      assert x in subs'[st];
    }
  }

  lemma DelistFacts(c: State, stream: string, s: nat)
    requires ListsOk(c) && s in c.sub && c.sub[s].stream == stream
    ensures ListsOk(c.(subs := Delist(c.subs, stream, s)))
    ensures forall x :: Listed(Delist(c.subs, stream, s), x) <==> Listed(c.subs, x) && x != s
    ensures Listed(c.subs, s) <==> s in ListOf(c.subs, stream)
  {
    var subs' := Delist(c.subs, stream, s);
    if s in ListOf(c.subs, stream) {
      WithoutFacts(c.subs[stream], s);
      forall x | Listed(c.subs, x) && x != s ensures Listed(subs', x) {
        var st :| st in c.subs && x in c.subs[st];
        assert x in subs'[st];
      }
    }
  }

  // ----- Calls -----

  lemma NewSubFacts(c: State, c': State, stream: string, t: nat)
    requires SubsOk(c) && ListsOk(c) && c'.subs == c.subs && c'.nextID == c.nextID + 1
    requires c'.sub == c.sub[c.nextID := NewSub(stream, t)]
    ensures SubsOk(c') && ListsOk(c') && Counted(c') == Counted(c) && c.nextID !in c.sub
  {
  }

  lemma SubscribeCallKeeps(c: State, t: nat, stream: string, c': State)
    requires Inv(c) && Begin(c, CallSubscribe(t, stream)) == Some(c')
    ensures Inv(c')
  {
    if c' != c {
      NewSubFacts(c, c', stream, t);
      NoEntry(c, t);
      hide ThreadsOk, LocksOk, ListsOk, SubsOk, Counted;
      LocksFrame(c, c', t);
      ThreadsFrame(c, c', t);
    }
  }

  lemma NoEntry(c: State, t: nat)
    requires LocksOk(c) && t !in c.pcs
    ensures t !in c.readers && c.writer != Some(t)
  {
  }

  lemma OtherCallStarts(c: State, a: Action, c': State)
    requires (a.CallPublish? || a.CallUnsubscribe? || a.CallClose? || a.Tick?) && Begin(c, a) == Some(c') && c' != c
    ensures a.t !in c.pcs && a.t in c'.pcs && c' == Go(c.(hubClosed := c'.hubClosed), a.t, c'.pcs[a.t])
    ensures PcOk(c', a.t, c'.pcs[a.t]) && !HoldsRead(c'.pcs[a.t]) && !HoldsWrite(c'.pcs[a.t])
  {
    match a
    case CallPublish(_, _, _) =>
    case CallUnsubscribe(_, _) =>
    case CallClose(_) =>
    case Tick(_, _) =>
  }

  lemma OtherCallKeeps(c: State, a: Action, c': State)
    requires Inv(c) && (a.CallPublish? || a.CallUnsubscribe? || a.CallClose? || a.Tick?) && Begin(c, a) == Some(c')
    ensures Inv(c')
  {
    hide Inv, Begin, PcOk;
    if c' != c {
      OtherCallStarts(c, a, c');
      StartKeeps(c, c', a.t, c'.pcs[a.t]);
    }
  }

  lemma StartKeeps(c: State, c': State, t: nat, pc: PC)
    requires Inv(c) && t !in c.pcs && c' == Go(c.(hubClosed := c'.hubClosed), t, pc)
    requires PcOk(c', t, pc) && !HoldsRead(pc) && !HoldsWrite(pc)
    ensures Inv(c')
  {
    hide ThreadsOk, ListsOk, SubsOk, Counted, PcOk, HoldsRead, HoldsWrite;
    QuietKeeps(c, c', t);
  }

  lemma ReceiveThreads(c: State, s: nat, c': State)
    requires ThreadsOk(c) && LocksOk(c) && Begin(c, Receive(s)) == Some(c')
    ensures ThreadsOk(c')
  {
    forall u | u in c.pcs ensures PcOk(c', u, c'.pcs[u]) { PcFrame(c, c', u + 1, u, c.pcs[u]); }
  }

  lemma LocksSame(c: State, c': State)
    requires LocksOk(c) && c'.pcs == c.pcs && c'.writer == c.writer && c'.readers == c.readers
    ensures LocksOk(c')
  {
  }

  lemma ReceiveKeeps(c: State, s: nat, c': State)
    requires Inv(c) && Begin(c, Receive(s)) == Some(c')
    ensures Inv(c')
  {
    SubAt(c, s);
    ReceiveThreads(c, s, c');
    hide ThreadsOk, LocksOk, ListsOk, SubsOk, Counted;
    SubsFrame(c, c', s);
    ListsFrame(c, c', s);
    CountedFrame(c, c', s);
    LocksSame(c, c');
  }

  // ----- Taking and releasing the write lock -----

  lemma LockKeeps(c: State, t: nat, all: seq<nat>, c': State)
    requires Inv(c) && t in c.pcs && WantsWrite(c.pcs[t])
    requires AdvanceLocking(c, t, c.pcs[t], all) == Some(c')
    ensures Inv(c')
  {
    hide ThreadsOk, LocksOk, ListsOk, SubsOk, Counted, AdvanceLocking;
    At(c, t);
    LockStep(c, t, all, c');
    QuietKeeps(c, c', t);
  }

  lemma RegisterKeeps(c: State, t: nat, all: seq<nat>, c': State)
    requires Inv(c) && t in c.pcs && c.pcs[t].SubLocked? && AdvanceLocking(c, t, c.pcs[t], all) == Some(c')
    ensures Inv(c')
  {
    hide ThreadsOk, LocksOk, ListsOk, SubsOk, Counted, AdvanceLocking;
    At(c, t);
    RegisterStep(c, t, all, c');
    var stream, s := c.pcs[t].stream, c.pcs[t].s;
    SubAt(c, s);
    RegisterFrame(c, c', t, stream, s);
    hide *;
    ThreadsFrame(c, c', t);
  }

  /** Registering a subscriber keeps everything but its thread's own part. */
  lemma RegisterFrame(c: State, c': State, t: nat, stream: string, s: nat)
    requires LocksOk(c) && ListsOk(c) && SubsOk(c) && t in c.pcs && c.pcs[t] == SubLocked(stream, s)
    requires c.writer == Some(t) && c.readers == {}
    requires s in c.sub && c.sub[s].stream == stream && c.sub[s].creator == Some(t)
             && SubOk(c.sub[s], Listed(c.subs, s))
    requires var x := c.sub[s].(born := true, creator := None, start := |LogOf(c.log, stream)|);
             c' == End(c.(subs := Enlist(c.subs, stream, s), sub := c.sub[s := x], writer := None), t)
    ensures LocksOk(c') && SubsOk(c') && ListsOk(c') && Counted(c') == Counted(c) && Frame(c, c', t)
  {
    hide ThreadsOk, LocksOk, ListsOk, SubsOk, Counted, LogOf;
    EnlistFacts(c, stream, s);
    hide Enlist;
    ListsFrame(c.(subs := Enlist(c.subs, stream, s)), c', s);
    LocksFrame(c, c', t);
    SubsFrame(c, c', s);
    CountedFrame(c, c', s);
  }

  /** Taking a subscriber off its list, with its flags as they were. */
  lemma DelistFrame(c: State, c': State, stream: string, s: nat)
    requires ListsOk(c) && SubsOk(c) && s in c.sub && c.sub[s].stream == stream
    requires c'.subs == Delist(c.subs, stream, s) && s in c'.sub && c'.sub == c.sub[s := c'.sub[s]]
             && c'.nextID == c.nextID
    requires c'.sub[s].stream == stream && c'.sub[s].counted == c.sub[s].counted && SubOk(c'.sub[s], false)
    ensures SubsOk(c') && ListsOk(c') && Counted(c') == Counted(c)
    ensures forall x :: Listed(c'.subs, x) <==> Listed(c.subs, x) && x != s
  {
    hide ListsOk, SubsOk, Counted, SubOk;
    DelistFacts(c, stream, s);
    hide Delist, Listed;
    ListsFrame(c.(subs := Delist(c.subs, stream, s)), c', s);
    SubsFrame(c, c', s);
    CountedFrame(c, c', s);
  }

  /** Removing a subscriber to drop it keeps everything but its thread's own part. */
  lemma DropFrame(c: State, c': State, t: nat, stream: string, s: nat)
    requires Inv(c) && Born(c, s, stream) && s in ListOf(c.subs, stream) && t in c.pcs && c.pcs[t].DropLocked?
    requires c'.subs == Delist(c.subs, stream, s) && c'.sub == c.sub[s := c.sub[s].(finder := Some(t))]
             && c'.nextID == c.nextID
    requires c'.writer.None? && c'.readers == c.readers && t in c'.pcs && c'.pcs[t].Counting?
             && c'.pcs == c.pcs[t := c'.pcs[t]]
    ensures LocksOk(c') && SubsOk(c') && ListsOk(c') && Counted(c') == Counted(c) && Frame(c, c', t) && Gone(c', s)
  {
    hide ThreadsOk, LocksOk, ListsOk, SubsOk, Counted, PcOk;
    At(c, t);
    SubAt(c, s);
    DelistFacts(c, stream, s);
    hide Delist, Listed, ListOf;
    DelistFrame(c, c', stream, s);
    LocksFrame(c, c', t);
  }

  lemma DropFoundKeeps(c: State, t: nat, all: seq<nat>, c': State)
    requires Inv(c) && t in c.pcs && c.pcs[t].DropLocked? && AdvanceLocking(c, t, c.pcs[t], all) == Some(c')
    requires c.pcs[t].todo[0] in ListOf(c.subs, c.pcs[t].stream)
    ensures Inv(c')
  {
    hide ThreadsOk, LocksOk, ListsOk, SubsOk, Counted, Frame, AdvanceLocking;
    At(c, t);
    DropStep(c, t, all, c');
    var stream, todo := c.pcs[t].stream, c.pcs[t].todo;
    TailIn(todo);
    assert Born(c, todo[0], stream);
    DropFrame(c, c', t, stream, todo[0]);
    hide Delist;
    assert AllBorn(c', todo, stream) by { assert forall s :: Born(c, s, stream) ==> Born(c', s, stream); }
    ThreadsFrame(c, c', t);
  }

  lemma DropMissedKeeps(c: State, t: nat, all: seq<nat>, c': State)
    requires Inv(c) && t in c.pcs && c.pcs[t].DropLocked? && AdvanceLocking(c, t, c.pcs[t], all) == Some(c')
    requires c.pcs[t].todo[0] !in ListOf(c.subs, c.pcs[t].stream)
    ensures Inv(c')
  {
    hide ThreadsOk, LocksOk, ListsOk, SubsOk, Counted, AdvanceLocking;
    At(c, t);
    DropStep(c, t, all, c');
    TailIn(c.pcs[t].todo);
    QuietKeeps(c, c', t);
  }

  lemma DropLockedKeeps(c: State, t: nat, all: seq<nat>, c': State)
    requires Inv(c) && t in c.pcs && c.pcs[t].DropLocked? && AdvanceLocking(c, t, c.pcs[t], all) == Some(c')
    ensures Inv(c')
  {
    hide Inv, AdvanceLocking;
    DropStep(c, t, all, c');
    if c.pcs[t].todo[0] in ListOf(c.subs, c.pcs[t].stream) {
      DropFoundKeeps(c, t, all, c');
    } else {
      DropMissedKeeps(c, t, all, c');
    }
  }

  lemma CountedMore(c: State, c': State, s: nat)
    requires s in c.sub && s in c'.sub && c'.sub == c.sub[s := c'.sub[s]] && c.sub[s].counted == 0
             && c'.sub[s].counted == 1
    ensures |Counted(c')| == |Counted(c)| + 1
  {
    assert Counted(c') == Counted(c) + {s};
  }

  lemma CountingKeeps(c: State, t: nat, c': State)
    requires Inv(c) && t in c.pcs && c.pcs[t].Counting? && AdvanceClosing(c, t, c.pcs[t]) == Some(c')
    ensures Inv(c')
  {
    hide ThreadsOk, LocksOk, ListsOk, SubsOk, Counted, AdvanceClosing;
    At(c, t);
    CountStep(c, t, c');
    var stream, todo := c.pcs[t].stream, c.pcs[t].todo;
    SubAt(c, todo[0]);
    TailIn(todo);
    OneSubFrame(c, c', t, todo[0]);
    CountingFrame(c, c', t, todo[0]);
    hide Frame, SubOk, Listed;
    ThreadsFrame(c, c', t);
  }

  /** Counting a subscriber keeps everything but its thread's own part. */
  lemma CountingFrame(c: State, c': State, t: nat, s: nat)
    requires Inv(c) && s in c.sub && SubOk(c.sub[s], Listed(c.subs, s)) && c.sub[s].finder == Some(t)
    requires t in c.pcs && c.pcs[t].Counting? && t in c'.pcs && c'.pcs[t].Closing?
    requires c'.sub == c.sub[s := c.sub[s].(counted := c.sub[s].counted + 1, finder := None)]
    requires c' == c.(dropped := c.dropped + 1, sub := c'.sub, pcs := c.pcs[t := c'.pcs[t]])
    ensures LocksOk(c') && SubsOk(c') && ListsOk(c') && |Counted(c')| == |Counted(c)| + 1
  {
    hide ThreadsOk, LocksOk, ListsOk, SubsOk, Counted;
    At(c, t);
    LocksFrame(c, c', t);
    SubsFrame(c, c', s);
    ListsFrame(c, c', s);
    CountedMore(c, c', s);
  }

  lemma UnsubLockedKeeps(c: State, t: nat, all: seq<nat>, c': State)
    requires Inv(c) && t in c.pcs && c.pcs[t].UnsubLocked? && AdvanceLocking(c, t, c.pcs[t], all) == Some(c')
    ensures Inv(c')
  {
    hide ThreadsOk, LocksOk, ListsOk, SubsOk, Counted, AdvanceLocking;
    At(c, t);
    UnlistStep(c, t, all, c');
    var stream, s := c.pcs[t].stream, c.pcs[t].s;
    SubAt(c, s);
    hide Delist;
    DelistFrame(c, c', stream, s);
    hide Listed;
    LocksFrame(c, c', t);
    ThreadsFrame(c, c', t);
  }

  lemma UnlistAll(c: State, c': State)
    requires SubsOk(c) && c'.sub == c.sub && c'.nextID == c.nextID && c'.subs == map[]
    ensures SubsOk(c') && ListsOk(c') && Counted(c') == Counted(c)
    ensures forall s :: Listed(c.subs, s) && ListsOk(c) ==> Gone(c', s)
  {
  }

  lemma ShutLockedKeeps(c: State, t: nat, all: seq<nat>, c': State)
    requires Inv(c) && t in c.pcs && c.pcs[t].ShutLocked? && AdvanceLocking(c, t, c.pcs[t], all) == Some(c')
    ensures Inv(c')
  {
    hide ThreadsOk, LocksOk, ListsOk, SubsOk, Counted, AdvanceLocking;
    At(c, t);
    ShutStep(c, t, all, c');
    UnlistAll(c, c.(subs := map[], writer := None));
    ResumeOk(c.(subs := map[], writer := None), t, ThenClose(all));
    hide Resume, PcOk;
    UnlistAll(c, c');
    LocksFrame(c, c', t);
    ThreadsFrame(c, c', t);
  }

  // ----- Closing -----

  lemma ResumeOk(c: State, t: nat, k: Cont)
    requires ContOk(c, k)
    ensures var c' := Resume(c, t, k);
            && c' == c.(pcs := c'.pcs) && PcOnly(c, c', t)
            && (t in c'.pcs ==> PcOk(c', t, c'.pcs[t]) && !HoldsRead(c'.pcs[t]) && !HoldsWrite(c'.pcs[t]))
  {
    if k.ThenClose? && k.rest != [] { TailIn(k.rest); }
  }

  /** The frame of a step that changes only subscriber `s` and thread `t`. */
  lemma OneSubFrame(c: State, c': State, t: nat, s: nat)
    requires s in c.sub && s in c'.sub && c'.sub == c.sub[s := c'.sub[s]] && c'.subs == c.subs
             && TokensKept(c.sub[s], c'.sub[s], t)
    ensures Frame(c, c', t)
    ensures forall x :: Gone(c, x) ==> Gone(c', x)
    ensures forall x, stream :: Born(c, x, stream) ==> Born(c', x, stream)
  {
  }

  /** A step that changes only subscriber `s` and thread `t`, under whatever hold on the lock `t` keeps or drops. */
  lemma OneSubKeeps(c: State, c': State, t: nat, s: nat)
    requires Inv(c) && s in c.sub && s in c'.sub && c'.sub == c.sub[s := c'.sub[s]] && c'.subs == c.subs
    requires TokensKept(c.sub[s], c'.sub[s], t) && SubOk(c'.sub[s], Listed(c.subs, s))
             && c'.sub[s].counted == c.sub[s].counted
    requires c'.nextID == c.nextID && c'.dropped == c.dropped
    requires CloseOfClosed !in c'.faults && PublishOnClosed !in c'.faults
    requires PcOnly(c, c', t) && LockOnly(c, c', t) && HoldOk(c', t) && (t in c'.pcs ==> PcOk(c', t, c'.pcs[t]))
    ensures Inv(c')
  {
    assert c'.sub[s].stream == c.sub[s].stream;
    hide ThreadsOk, LocksOk, ListsOk, SubsOk, Counted, SubOk, PcOk, PcOnly, LockOnly, HoldOk, TokensKept, Frame, Listed;
    OneSubFrame(c, c', t, s);
    LocksFrame(c, c', t);
    ThreadsFrame(c, c', t);
    SubsFrame(c, c', s);
    ListsFrame(c, c', s);
    CountedFrame(c, c', s);
  }

  lemma ClosingKeeps(c: State, t: nat, c': State)
    requires Inv(c) && t in c.pcs && c.pcs[t].Closing? && AdvanceClosing(c, t, c.pcs[t]) == Some(c')
    ensures Inv(c')
  {
    hide Inv, AdvanceClosing, Resume;
    SwapStep(c, t, c');
    if c.sub[c.pcs[t].s].closed { PassKeeps(c, t, c'); } else { RaiseKeeps(c, t, c'); }
  }

  /** Somebody else has closed it already. */
  lemma PassKeeps(c: State, t: nat, c': State)
    requires Inv(c) && t in c.pcs && c.pcs[t].Closing? && c' == Resume(c, t, c.pcs[t].k)
    ensures Inv(c')
  {
    At(c, t);
    ResumeOk(c, t, c.pcs[t].k);
    hide Resume, PcOk, Inv, PcOnly;
    QuietKeeps(c, c', t);
  }

  lemma RaiseKeeps(c: State, t: nat, c': State)
    requires Inv(c) && t in c.pcs && c.pcs[t].Closing? && c.pcs[t].s in c.sub && !c.sub[c.pcs[t].s].closed
    requires var Closing(s, k) := c.pcs[t];
             c' == Go(c.(sub := c.sub[s := c.sub[s].(closed := true, closer := Some(t))]), t, CloseStop(s, k))
    ensures Inv(c')
  {
    hide ThreadsOk, LocksOk, ListsOk, SubsOk, Counted;
    At(c, t);
    SubAt(c, c.pcs[t].s);
    OneSubFrame(c, c', t, c.pcs[t].s);
    hide Listed, Frame;
    OneSubKeeps(c, c', t, c.pcs[t].s);
  }

  lemma CloseStopKeeps(c: State, t: nat, c': State)
    requires Inv(c) && t in c.pcs && c.pcs[t].CloseStop? && AdvanceClosing(c, t, c.pcs[t]) == Some(c')
    ensures Inv(c')
  {
    hide ThreadsOk, LocksOk, ListsOk, SubsOk, Counted, AdvanceClosing;
    At(c, t);
    StopStep(c, t, c');
    SubAt(c, c.pcs[t].s);
    OneSubKeeps(c, c', t, c.pcs[t].s);
  }

  lemma CloseChanKeeps(c: State, t: nat, c': State)
    requires Inv(c) && t in c.pcs && c.pcs[t].CloseChan? && AdvanceClosing(c, t, c.pcs[t]) == Some(c')
    ensures Inv(c')
  {
    hide ThreadsOk, LocksOk, ListsOk, SubsOk, Counted, AdvanceClosing;
    At(c, t);
    ChanStep(c, t, c');
    var s, k := c.pcs[t].s, c.pcs[t].k;
    SubAt(c, s);
    var mid := c.(sub := c.sub[s := c.sub[s].(shut := true, closer := None)]);
    OneSubFrame(c, mid, t, s);
    ResumeOk(mid, t, k);
    hide Resume, PcOk, Frame;
    OneSubKeeps(c, c', t, s);
  }

  // ----- Reading -----

  lemma ReadLockKeeps(c: State, t: nat, c': State)
    requires Inv(c) && t in c.pcs && (c.pcs[t].Publishing? || c.pcs[t].Beating?)
      && AdvanceReader(c, t, c.pcs[t]) == Some(c')
    ensures Inv(c')
  {
    hide ThreadsOk, LocksOk, ListsOk, SubsOk, Counted, AdvanceReader;
    At(c, t);
    if c.pcs[t].Beating? { TimerStep(c, t, c'); } else { PublishStep(c, t, c'); }
    QuietKeeps(c, c', t);
  }

  lemma FanLookKeeps(c: State, t: nat, c': State)
    requires Inv(c) && t in c.pcs && c.pcs[t].Fan? && AdvanceReader(c, t, c.pcs[t]) == Some(c')
    ensures Inv(c')
  {
    hide ThreadsOk, LocksOk, ListsOk, SubsOk, Counted, AdvanceReader;
    At(c, t);
    FanStep(c, t, c');
    QuietKeeps(c, c', t);
  }

  lemma BeatLookKeeps(c: State, t: nat, c': State)
    requires Inv(c) && t in c.pcs && c.pcs[t].BeatLocked? && AdvanceReader(c, t, c.pcs[t]) == Some(c')
    ensures Inv(c')
  {
    hide ThreadsOk, LocksOk, ListsOk, SubsOk, Counted, AdvanceReader;
    At(c, t);
    LookStep(c, t, c');
    QuietKeeps(c, c', t);
  }

  /** The point of the protocol: the subscriber a publisher is about to send to is still listed, so its channel is open.
      */
  lemma TargetIsOpen(c: State, t: nat)
    requires Inv(c) && t in c.pcs && c.pcs[t].FanSend?
    ensures var list, i := ListOf(c.subs, c.pcs[t].stream), c.pcs[t].i;
            i < |list| && list[i] in c.sub && c.sub[list[i]].born && c.sub[list[i]].stream == c.pcs[t].stream
            && !c.sub[list[i]].closed && !c.sub[list[i]].shut
  {
  }

  lemma FanAcceptKeeps(c: State, t: nat, s: nat, c': State)
    requires Inv(c) && t in c.pcs && c.pcs[t].FanSend? && PcOk(c, t, c.pcs[t]) && s in c.sub
    requires SubOk(c.sub[s], Listed(c.subs, s)) && |c.sub[s].buf| < SUBSCRIBER_BUFFER_SIZE
    requires var FanSend(stream, body, i, drops) := c.pcs[t];
             c' == Go(c.(sub := c.sub[s := Accept(c.sub[s], App(body))]), t, Fan(stream, body, i + 1, drops))
    ensures Inv(c')
  {
    hide ThreadsOk, ListsOk, SubsOk, Counted;
    OneSubFrame(c, c', t, s);
    assert SubOk(c'.sub[s], Listed(c.subs, s));
    hide Accept, SubOk, Listed, Frame;
    OneSubKeeps(c, c', t, s);
  }

  lemma FanFullKeeps(c: State, t: nat, s: nat, c': State)
    requires Inv(c) && t in c.pcs && c.pcs[t].FanSend? && PcOk(c, t, c.pcs[t]) && Born(c, s, c.pcs[t].stream)
    requires var FanSend(stream, body, i, drops) := c.pcs[t]; c' == Go(c, t, Fan(stream, body, i + 1, drops + [s]))
    ensures Inv(c')
  {
    hide ThreadsOk, LocksOk, ListsOk, SubsOk, Counted;
    At(c, t);
    QuietKeeps(c, c', t);
  }

  lemma FanSendKeeps(c: State, t: nat, c': State)
    requires Inv(c) && t in c.pcs && c.pcs[t].FanSend? && AdvanceReader(c, t, c.pcs[t]) == Some(c')
    ensures Inv(c')
  {
    TargetIsOpen(c, t);
    At(c, t);
    SendStep(c, t, c');
    var s := ListOf(c.subs, c.pcs[t].stream)[c.pcs[t].i];
    SubAt(c, s);
    hide Inv, PcOk, SubOk, Listed, AdvanceReader;
    if |c.sub[s].buf| < SUBSCRIBER_BUFFER_SIZE {
      FanAcceptKeeps(c, t, s, c');
    } else {
      FanFullKeeps(c, t, s, c');
    }
  }

  lemma BeatSendKeeps(c: State, t: nat, c': State)
    requires Inv(c) && t in c.pcs && c.pcs[t].BeatSend? && AdvanceReader(c, t, c.pcs[t]) == Some(c')
    ensures Inv(c')
  {
    hide ThreadsOk, LocksOk, ListsOk, SubsOk, Counted, AdvanceReader;
    At(c, t);
    BeatStep(c, t, c');
    SubAt(c, c.pcs[t].s);
    OneSubKeeps(c, c', t, c.pcs[t].s);
  }

  // ----- Every run -----

  lemma StepKeeps(c: State, a: Action, c': State)
    requires Inv(c) && Step(c, a) == Some(c')
    ensures Inv(c')
  {
    hide Inv, Begin, AdvanceReader, AdvanceLocking, AdvanceClosing;
    match a
    case CallSubscribe(t, stream) => SubscribeCallKeeps(c, t, stream, c');
    case Receive(s) => ReceiveKeeps(c, s, c');
    case Advance(t, all) =>
      match c.pcs[t] {
        case Subscribing(_, _) => LockKeeps(c, t, all, c');
        case SubLocked(_, _) => RegisterKeeps(c, t, all, c');
        case Publishing(_, _) => ReadLockKeeps(c, t, c');
        case Fan(_, _, _, _) => FanLookKeeps(c, t, c');
        case FanSend(_, _, _, _) => FanSendKeeps(c, t, c');
        case Dropping(_, _) => LockKeeps(c, t, all, c');
        case DropLocked(stream, todo) => DropLockedKeeps(c, t, all, c');
        case Counting(_, _) => CountingKeeps(c, t, c');
        case Unsubscribing(_, _) => LockKeeps(c, t, all, c');
        case UnsubLocked(_, _) => UnsubLockedKeeps(c, t, all, c');
        case Shutting => LockKeeps(c, t, all, c');
        case ShutLocked => ShutLockedKeeps(c, t, all, c');
        case Closing(_, _) => ClosingKeeps(c, t, c');
        case CloseStop(_, _) => CloseStopKeeps(c, t, c');
        case CloseChan(_, _) => CloseChanKeeps(c, t, c');
        case Beating(_) => ReadLockKeeps(c, t, c');
        case BeatLocked(_) => BeatLookKeeps(c, t, c');
        case BeatSend(_) => BeatSendKeeps(c, t, c');
      }
    case _ => OtherCallKeeps(c, a, c');
  }

  lemma {:induction false} RunKeeps(actions: seq<Action>)
    requires Run(actions).Some?
    ensures Inv(Run(actions).value)
  {
    if actions == [] {
      assert Counted(START) == {};
    } else {
      var init := actions[..|actions| - 1];
      RunKeeps(init);
      hide Inv, Step;
      StepKeeps(Run(init).value, actions[|actions| - 1], Run(actions).value);
    }
  }

  /** In every interleaving a listed subscriber has its flag down and its channel open; no publish ever sends on a
      closed channel and no channel is ever closed twice. */
  lemma ListedIsOpen(actions: seq<Action>, c: State)
    requires Run(actions) == Some(c)
    ensures forall s :: Listed(c.subs, s) ==> s in c.sub && !c.sub[s].closed && !c.sub[s].shut
    ensures PublishOnClosed !in c.faults && CloseOfClosed !in c.faults
  {
    RunKeeps(actions);
  }

  /** Each subscriber is counted as dropped at most once, and the counter counts exactly those. */
  lemma DroppedOnce(actions: seq<Action>, c: State)
    requires Run(actions) == Some(c)
    ensures forall s :: s in c.sub ==> c.sub[s].counted <= 1 && (c.sub[s].counted == 1 ==> !Listed(c.subs, s))
    ensures c.dropped == |set s | s in c.sub && c.sub[s].counted == 1|
  {
    RunKeeps(actions);
    assert Counted(c) == set s | s in c.sub && c.sub[s].counted == 1;
  }
}
