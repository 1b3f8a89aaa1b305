/** What a step does at each program counter, so that the proofs about steps need not look at all of them at once. */
module HubSteps {
  import opened Options
  import opened Hub

  /** Only thread `t` moves. */
  predicate PcOnly(c: State, c': State, t: nat) {
    c'.pcs == if t in c'.pcs then c.pcs[t := c'.pcs[t]] else c.pcs - {t}
  }

  // ----- Under the read lock -----

  lemma PublishStep(c: State, t: nat, c': State)
    requires t in c.pcs && c.pcs[t].Publishing? && AdvanceReader(c, t, c.pcs[t]) == Some(c')
    ensures var Publishing(stream, body) := c.pcs[t];
            var log := c.log[stream := LogOf(c.log, stream) + [body]];
            c.writer.None? && c' == Go(c.(readers := c.readers + {t}, log := log), t, Fan(stream, body, 0, []))
  {
    hide LogOf, ListOf;
  }

  lemma FanStep(c: State, t: nat, c': State)
    requires t in c.pcs && c.pcs[t].Fan? && AdvanceReader(c, t, c.pcs[t]) == Some(c')
    ensures var Fan(stream, body, i, drops) := c.pcs[t];
            var list := ListOf(c.subs, stream);
            if i >= |list| then c' == Go(c.(readers := c.readers - {t}), t, Dropping(stream, drops))
            else list[i] in c.sub && c' == Go(c, t, if c.sub[list[i]].closed then Fan(stream, body, i + 1, drops)
              else FanSend(stream, body, i, drops))
  {
    hide LogOf, ListOf;
  }

  lemma SendStep(c: State, t: nat, c': State)
    requires t in c.pcs && c.pcs[t].FanSend? && AdvanceReader(c, t, c.pcs[t]) == Some(c')
    ensures var FanSend(stream, body, i, drops) := c.pcs[t];
            var list := ListOf(c.subs, stream);
            && i < |list| && list[i] in c.sub
            && var x := c.sub[list[i]];
               if x.shut then c' == Go(c.(faults := c.faults + {PublishOnClosed}), t, Fan(stream, body, i + 1, drops))
               else if |x.buf| < SUBSCRIBER_BUFFER_SIZE
               then c' == Go(c.(sub := c.sub[list[i] := Accept(x, App(body))]), t, Fan(stream, body, i + 1, drops))
               else c' == Go(c, t, Fan(stream, body, i + 1, drops + [list[i]]))
  {
    hide LogOf, ListOf, Accept;
  }

  lemma TimerStep(c: State, t: nat, c': State)
    requires t in c.pcs && c.pcs[t].Beating? && AdvanceReader(c, t, c.pcs[t]) == Some(c')
    ensures c.writer.None? && c' == Go(c.(readers := c.readers + {t}), t, BeatLocked(c.pcs[t].s))
  {
    hide LogOf, ListOf, Accept;
  }

  lemma LookStep(c: State, t: nat, c': State)
    requires t in c.pcs && c.pcs[t].BeatLocked? && AdvanceReader(c, t, c.pcs[t]) == Some(c')
    ensures var s := c.pcs[t].s;
            && s in c.sub
            && c' == if c.sub[s].closed then End(c.(readers := c.readers - {t}), t) else Go(c, t, BeatSend(s))
  {
    hide LogOf, ListOf, Accept;
  }

  lemma BeatStep(c: State, t: nat, c': State)
    requires t in c.pcs && c.pcs[t].BeatSend? && AdvanceReader(c, t, c.pcs[t]) == Some(c')
    ensures var s, readers := c.pcs[t].s, c.readers - {t};
            && s in c.sub
            && c' == if c.sub[s].shut then End(c.(readers := readers, faults := c.faults + {HeartbeatOnClosed}), t)
                     else End(c.(readers := readers, sub := c.sub[s := Accept(c.sub[s], Heartbeat)]), t)
  {
    hide LogOf, ListOf, Accept;
  }

  lemma NotReader(c: State, t: nat)
    requires t in c.pcs && !ReaderPC(c.pcs[t])
    ensures AdvanceReader(c, t, c.pcs[t]).None?
  {
    hide LogOf, ListOf, Accept;
  }

  // ----- Around the write lock -----

  /** The counter of a thread that has just taken the write lock. */
  function Locked(pc: PC): PC {
    match pc
    case Subscribing(stream, s) => SubLocked(stream, s)
    case Dropping(stream, todo) => DropLocked(stream, todo)
    case Unsubscribing(stream, s) => UnsubLocked(stream, s)
    case _ => ShutLocked
  }

  predicate WantsWrite(pc: PC) { pc.Subscribing? || pc.Dropping? || pc.Unsubscribing? || pc.Shutting? }

  lemma LockStep(c: State, t: nat, all: seq<nat>, c': State)
    requires t in c.pcs && WantsWrite(c.pcs[t]) && AdvanceLocking(c, t, c.pcs[t], all) == Some(c')
    ensures if c.pcs[t].Dropping? && c.pcs[t].todo == [] then c' == End(c, t)
            else Unlocked(c) && c' == Go(c.(writer := Some(t)), t, Locked(c.pcs[t]))
  {
    hide LogOf, ListOf, Enlist, Delist, Gathers, Resume, Unlocked;
  }

  lemma RegisterStep(c: State, t: nat, all: seq<nat>, c': State)
    requires t in c.pcs && c.pcs[t].SubLocked? && AdvanceLocking(c, t, c.pcs[t], all) == Some(c')
    ensures var SubLocked(stream, s) := c.pcs[t];
            && s in c.sub
            && var x := c.sub[s].(born := true, creator := None, start := |LogOf(c.log, stream)|);
               c' == End(c.(subs := Enlist(c.subs, stream, s), sub := c.sub[s := x], writer := None), t)
  {
    hide LogOf, ListOf, Enlist, Delist, Gathers, Resume, Unlocked;
  }

  lemma DropStep(c: State, t: nat, all: seq<nat>, c': State)
    requires t in c.pcs && c.pcs[t].DropLocked? && AdvanceLocking(c, t, c.pcs[t], all) == Some(c')
    ensures var DropLocked(stream, todo) := c.pcs[t];
            && todo != [] && todo[0] in c.sub
            && if todo[0] in ListOf(c.subs, stream) then
                 var x := c.sub[todo[0]].(finder := Some(t));
                 c' == Go(c.(subs := Delist(c.subs, stream, todo[0]), sub := c.sub[todo[0] := x], writer := None), t,
                   Counting(stream, todo))
               else c' == Go(c.(writer := None), t, Dropping(stream, todo[1..]))
  {
    hide LogOf, ListOf, Enlist, Delist, Gathers, Resume, Unlocked;
  }

  lemma UnlistStep(c: State, t: nat, all: seq<nat>, c': State)
    requires t in c.pcs && c.pcs[t].UnsubLocked? && AdvanceLocking(c, t, c.pcs[t], all) == Some(c')
    ensures var UnsubLocked(stream, s) := c.pcs[t];
            c' == Go(c.(subs := Delist(c.subs, stream, s), writer := None), t, Closing(s, ThenClose([])))
  {
    hide LogOf, ListOf, Enlist, Delist, Gathers, Resume, Unlocked;
  }

  lemma ShutStep(c: State, t: nat, all: seq<nat>, c': State)
    requires t in c.pcs && c.pcs[t].ShutLocked? && AdvanceLocking(c, t, c.pcs[t], all) == Some(c')
    ensures Gathers(c.subs, all) && c' == Resume(c.(subs := map[], writer := None), t, ThenClose(all))
  {
    hide LogOf, ListOf, Enlist, Delist, Gathers, Resume, Unlocked;
  }

  lemma LockingOnly(c: State, t: nat, all: seq<nat>)
    requires t in c.pcs && AdvanceLocking(c, t, c.pcs[t], all).Some?
    ensures WantsWrite(c.pcs[t]) || c.pcs[t].SubLocked? || c.pcs[t].DropLocked? || c.pcs[t].UnsubLocked?
            || c.pcs[t].ShutLocked?
  {
    hide LogOf, ListOf, Enlist, Delist, Gathers, Resume, Unlocked;
  }

  // ----- Closing a subscriber -----

  lemma CountStep(c: State, t: nat, c': State)
    requires t in c.pcs && c.pcs[t].Counting? && AdvanceClosing(c, t, c.pcs[t]) == Some(c')
    ensures var Counting(stream, todo) := c.pcs[t];
            && todo != [] && todo[0] in c.sub
            && var x := c.sub[todo[0]].(counted := c.sub[todo[0]].counted + 1, finder := None);
               c' == Go(c.(dropped := c.dropped + 1, sub := c.sub[todo[0] := x]), t,
                 Closing(todo[0], ThenDrop(stream, todo[1..])))
  {
    hide Resume;
  }

  lemma SwapStep(c: State, t: nat, c': State)
    requires t in c.pcs && c.pcs[t].Closing? && AdvanceClosing(c, t, c.pcs[t]) == Some(c')
    ensures var Closing(s, k) := c.pcs[t];
            && s in c.sub
            && c' == if c.sub[s].closed then Resume(c, t, k)
                     else Go(c.(sub := c.sub[s := c.sub[s].(closed := true, closer := Some(t))]), t, CloseStop(s, k))
  {
    hide Resume;
  }

  lemma StopStep(c: State, t: nat, c': State)
    requires t in c.pcs && c.pcs[t].CloseStop? && AdvanceClosing(c, t, c.pcs[t]) == Some(c')
    ensures var CloseStop(s, k) := c.pcs[t];
            && s in c.sub
            && var faults := if c.sub[s].stopped then c.faults + {CloseOfClosed} else c.faults;
               c' == Go(c.(sub := c.sub[s := c.sub[s].(stopped := true)], faults := faults), t, CloseChan(s, k))
  {
    hide Resume;
  }

  lemma ChanStep(c: State, t: nat, c': State)
    requires t in c.pcs && c.pcs[t].CloseChan? && AdvanceClosing(c, t, c.pcs[t]) == Some(c')
    ensures var CloseChan(s, k) := c.pcs[t];
            && s in c.sub
            && var faults := if c.sub[s].shut then c.faults + {CloseOfClosed} else c.faults;
               c' == Resume(c.(sub := c.sub[s := c.sub[s].(shut := true, closer := None)], faults := faults), t, k)
  {
    hide Resume;
  }

  lemma NotClosing(c: State, t: nat)
    requires t in c.pcs && !ClosingPC(c.pcs[t])
    ensures AdvanceClosing(c, t, c.pcs[t]).None?
  {
    hide Resume;
  }

  /** Going on after a close changes only the thread's own counter. */
  lemma ResumeStep(c: State, t: nat, k: Cont)
    ensures var c' := Resume(c, t, k);
            && c' == c.(pcs := c'.pcs)
            && c'.pcs == match k
                 case ThenDrop(stream, todo) => c.pcs[t := Dropping(stream, todo)]
                 case ThenClose(rest) => if rest == [] then c.pcs - {t}
                   else c.pcs[t := Closing(rest[0], ThenClose(rest[1..]))]
  {
  }
}
