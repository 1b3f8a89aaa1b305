/** What has become of every call once the hub is at rest. */
module HubQuiet {
  import opened Options
  import opened Hub
  import opened HubSteps
  import opened HubSafety
  import opened HubMoves
  import opened HubCalls
  import opened HubDelivery
  import opened HubHistory
  import opened HubHeartbeat
  import opened HubRest

  // ----- The calls -----

  /** A subscribe call that the hub takes on. */
  predicate Subscribes(hubClosed: bool, a: Action) { a.CallSubscribe? && !hubClosed && a.stream != "" }

  /** The streams subscribed to, in the order of the calls. */
  function SubscribeCalls(actions: seq<Action>): seq<string> {
    if actions == [] then [] else
    var init, a := actions[..|actions| - 1], actions[|actions| - 1];
    SubscribeCalls(init) + if Subscribes(ClosedBy(init), a) then [a.stream] else []
  }

  predicate UnsubscribedBy(actions: seq<Action>, s: nat) { exists a :: a in actions && a.CallUnsubscribe? && a.s == s }

  /** Once registered, the subscriber was unsubscribed, or the hub was closed. */
  ghost predicate Doomed(actions: seq<Action>, s: nat)
    requires Run(actions).Some?
  {
    actions != [] &&
      var init, a := actions[..|actions| - 1], actions[|actions| - 1];
      Doomed(init, s) || (IsBorn(Run(init).value, s)
        && ((a.CallClose? && !ClosedBy(init)) || (a.CallUnsubscribe? && a.s == s)))
  }

  // ----- What every run keeps -----

  predicate Enrols(pc: PC, s: nat) { (pc.Subscribing? || pc.SubLocked?) && pc.s == s }

  predicate Removes(pc: PC, s: nat) {
    ((pc.Unsubscribing? || pc.UnsubLocked?) && pc.s == s) || pc.Shutting? || pc.ShutLocked?
  }

  /** The subscribers are those of the subscribe calls, each registered or about to be. */
  ghost predicate Enrolled(c: State, actions: seq<Action>) {
    && |SubscribeCalls(actions)| == c.nextID
    && (forall s: nat :: s in c.sub <==> s < c.nextID)
    && (forall s :: s in c.sub ==> c.sub[s].stream == SubscribeCalls(actions)[s])
    && forall s :: s in c.sub && !c.sub[s].born ==> exists t :: t in c.pcs && Enrols(c.pcs[t], s)
  }

  /** Whoever is to go is off the lists or somebody is about to take it off. */
  ghost predicate DoomedGo(c: State, actions: seq<Action>)
    requires Run(actions).Some?
  {
    forall s :: Doomed(actions, s) && Listed(c.subs, s) ==> exists t :: t in c.pcs && Removes(c.pcs[t], s)
  }

  /** There is a reason for the removal of the subscriber. */
  ghost predicate Caused(c: State, actions: seq<Action>, s: nat) {
    s in c.sub && (c.sub[s].counted > 0 || c.sub[s].finder.Some? || UnsubscribedBy(actions, s) || ClosedBy(actions))
  }

  ghost predicate PcCaused(actions: seq<Action>, pc: PC) {
    && ((pc.Unsubscribing? || pc.UnsubLocked?) ==> UnsubscribedBy(actions, pc.s))
    && ((pc.Shutting? || pc.ShutLocked?) ==> ClosedBy(actions))
  }

  /** Nobody is removed without a reason. */
  ghost predicate AllCaused(c: State, actions: seq<Action>) {
    && (forall s :: Gone(c, s) ==> Caused(c, actions, s))
    && (forall t :: t in c.pcs ==> PcCaused(actions, c.pcs[t]))
    && forall s, t :: s in c.sub && c.sub[s].finder == Some(t) ==> Counts(c, t, s)
  }

  // ----- Subscribe calls -----

  lemma SubscribeMore(actions: seq<Action>, a: Action)
    ensures SubscribeCalls(actions + [a]) == SubscribeCalls(actions)
            + if Subscribes(ClosedBy(actions), a) then [a.stream] else []
  {
    assert (actions + [a])[..|actions|] == actions;
  }

  lemma SubscribeEnrols(c: State, actions: seq<Action>, a: Action, c': State)
    requires Enrolled(c, actions) && Begin(c, a) == Some(c') && a.CallSubscribe? && c.hubClosed == ClosedBy(actions)
    ensures Enrolled(c', actions + [a])
  {
    SubscribeMore(actions, a);
    hide SubscribeCalls, ClosedBy;
    if Subscribes(c.hubClosed, a) {
      assert a.t in c'.pcs && Enrols(c'.pcs[a.t], c.nextID);
      forall s | s in c'.sub && !c'.sub[s].born ensures exists t :: t in c'.pcs && Enrols(c'.pcs[t], s) {
        if s != c.nextID {
          var t :| t in c.pcs && Enrols(c.pcs[t], s);
          assert t in c'.pcs && Enrols(c'.pcs[t], s);
        }
      }
    }
  }

  /** Not about to remove a subscriber from its list. */
  predicate Plain(pc: PC) { !pc.Unsubscribing? && !pc.UnsubLocked? && !pc.Shutting? && !pc.ShutLocked? }

  lemma OtherCallNames(c: State, a: Action, c': State)
    requires Begin(c, a) == Some(c') && !a.CallSubscribe?
    ensures c'.nextID == c.nextID && c'.sub.Keys == c.sub.Keys && c'.subs == c.subs
    ensures forall s :: s in c.sub ==>
              var x, x' := c.sub[s], c'.sub[s];
              x'.stream == x.stream && x'.born == x.born && x'.finder == x.finder && x'.counted == x.counted
    ensures c'.pcs == c.pcs || (!a.Receive? && a.t !in c.pcs && a.t in c'.pcs && c'.pcs == c.pcs[a.t := c'.pcs[a.t]]
              && var pc := c'.pcs[a.t];
                 (Plain(pc) && !pc.Subscribing? && !pc.SubLocked?)
                 || (a.CallUnsubscribe? && pc.Unsubscribing? && pc.s == a.s) || (a.CallClose? && pc.Shutting?))
  {
  }

  lemma OtherCallEnrols(c: State, actions: seq<Action>, a: Action, c': State)
    requires Enrolled(c, actions) && Begin(c, a) == Some(c') && !a.CallSubscribe?
    ensures Enrolled(c', actions + [a])
  {
    SubscribeMore(actions, a);
    OtherCallNames(c, a, c');
    hide SubscribeCalls, ClosedBy, Begin;
    forall s | s in c'.sub && !c'.sub[s].born ensures exists t :: t in c'.pcs && Enrols(c'.pcs[t], s) {
      var t :| t in c.pcs && Enrols(c.pcs[t], s);
      assert t in c'.pcs && Enrols(c'.pcs[t], s);
    }
  }

  lemma EnrollerMoves(c: State, t: nat, all: seq<nat>, c': State, s: nat)
    requires t in c.pcs && Enrols(c.pcs[t], s) && Step(c, Advance(t, all)) == Some(c') && s in c'.sub && !c'.sub[s].born
    ensures t in c'.pcs && Enrols(c'.pcs[t], s)
  {
    hide AdvanceReader, AdvanceClosing, Enlist, LogOf, ListOf, Unlocked;
  }

  lemma AdvanceEnrols(c: State, actions: seq<Action>, a: Action, c': State)
    requires Enrolled(c, actions) && Step(c, a) == Some(c') && a.Advance?
    ensures Enrolled(c', actions + [a])
  {
    SubscribeMore(actions, a);
    AdvanceNames(c, a, c');
    hide SubscribeCalls, ClosedBy, Step, Enrols, Counts;
    forall s | s in c'.sub && !c'.sub[s].born ensures exists t :: t in c'.pcs && Enrols(c'.pcs[t], s) {
      assert SubOnward(c.sub[s], c'.sub[s], a.t, Counts(c', a.t, s));
      var t :| t in c.pcs && Enrols(c.pcs[t], s);
      if t == a.t { EnrollerMoves(c, t, a.all, c', s); } else { OthersKept(c, a, c', t); }
      assert t in c'.pcs && Enrols(c'.pcs[t], s);
    }
  }

  lemma NoneEnrolled()
    ensures Enrolled(START, [])
  {
    assert SubscribeCalls([]) == [];
  }

  lemma {:induction false} RunEnrols(actions: seq<Action>)
    requires Run(actions).Some?
    ensures Enrolled(Run(actions).value, actions)
  {
    if actions == [] {
      NoneEnrolled();
    } else {
      var init, a := actions[..|actions| - 1], actions[|actions| - 1];
      assert actions == init + [a];
      RunEnrols(init);
      ClosedByCall(init);
      hide Enrolled, ClosedBy, Begin, AdvanceReader, AdvanceWriter;
      if a.CallSubscribe? { SubscribeEnrols(Run(init).value, init, a, Run(actions).value); }
      else if a.Advance? { AdvanceEnrols(Run(init).value, init, a, Run(actions).value); }
      else { OtherCallEnrols(Run(init).value, init, a, Run(actions).value); }
    }
  }

  // ----- Unsubscribe and Close -----

  /** Nobody comes back on a list. */
  lemma ListedBack(c: State, a: Action, c': State, s: nat)
    requires Inv(c) && Step(c, a) == Some(c') && IsBorn(c, s) && Listed(c'.subs, s)
    ensures Listed(c.subs, s)
  {
    hide Inv, Step, Moves;
    StepMoves(c, a, c');
    MoveListedBack(c, a, c', s);
  }

  lemma MoveListedBack(c: State, a: Action, c': State, s: nat)
    requires Moves(c, a, c') && IsBorn(c, s) && Listed(c'.subs, s)
    ensures Listed(c.subs, s)
  {
    var stream :| stream in c'.subs && s in c'.subs[stream];
    MoveShrinks(c, a, c', stream, s);
    assert stream in c.subs && s in c.subs[stream];
  }

  lemma MoveShrinks(c: State, a: Action, c': State, stream: string, s: nat)
    requires Moves(c, a, c') && IsBorn(c, s) && s in ListOf(c'.subs, stream)
    ensures s in ListOf(c.subs, stream)
  {
    hide RoleAt, RoleShrinks, OthersKeep, SubsSame, NobodyFans, Grows, LogOf;
  }

  lemma StaysBorn(c: State, a: Action, c': State, s: nat)
    requires Inv(c) && Step(c, a) == Some(c') && IsBorn(c, s)
    ensures IsBorn(c', s)
  {
    hide Inv, Step, Moves, Onward;
    StepMoves(c, a, c');
    MoveBorn(c, a, c', s);
  }

  lemma MoveBorn(c: State, a: Action, c': State, s: nat)
    requires Moves(c, a, c') && IsBorn(c, s)
    ensures IsBorn(c', s)
  {
    hide RoleAt, RoleShrinks, OthersKeep, ListsShrink, NobodyFans, LogOf, Enlist, Apps;
  }

  lemma DoomStarts(c: State, a: Action, c': State, s: nat)
    requires Begin(c, a) == Some(c') && ((a.CallClose? && !c.hubClosed) || (a.CallUnsubscribe? && a.s == s))
    ensures a.t in c'.pcs && Removes(c'.pcs[a.t], s)
  {
  }

  /** A thread about to take the subscriber off its list goes on to do so. */
  lemma RemoverMoves(c: State, t: nat, all: seq<nat>, c': State, s: nat)
    requires Inv(c) && t in c.pcs && Removes(c.pcs[t], s) && Step(c, Advance(t, all)) == Some(c') && Listed(c'.subs, s)
    ensures t in c'.pcs && Removes(c'.pcs[t], s)
  {
    At(c, t);
    if c.pcs[t].UnsubLocked? {
      assert Born(c, s, c.pcs[t].stream);
      DelistFacts(c, c.pcs[t].stream, s);
    }
    hide Inv, PcOk, Delist, Enlist, AdvanceReader, AdvanceClosing, AdvanceLocking, Resume, ListOf, LogOf, Unlocked;
    match c.pcs[t]
    case UnsubLocked(_, _) => UnlistStep(c, t, all, c');
    case ShutLocked => ShutStep(c, t, all, c'); ResumeStep(c.(subs := map[], writer := None), t, ThenClose(all));
    case _ => LockStep(c, t, all, c');
  }

  lemma DoomedStep(actions: seq<Action>, c: State, a: Action, c': State, s: nat)
    requires Run(actions) == Some(c) && Inv(c) && Step(c, a) == Some(c') && IsBorn(c, s)
    requires Listed(c.subs, s) && Doomed(actions, s) ==> exists t :: t in c.pcs && Removes(c.pcs[t], s)
    requires Doomed(actions, s) || (a.CallClose? && !c.hubClosed) || (a.CallUnsubscribe? && a.s == s)
    requires Listed(c'.subs, s)
    ensures exists t :: t in c'.pcs && Removes(c'.pcs[t], s)
  {
    hide Run, Doomed, Inv, Removes, Begin, AdvanceReader, AdvanceWriter, Listed, IsBorn;
    if Doomed(actions, s) {
      ListedBack(c, a, c', s);
      var t :| t in c.pcs && Removes(c.pcs[t], s);
      if By(a, t) && a.Advance? { RemoverMoves(c, t, a.all, c', s); }
      else if By(a, t) { NoCallInside(c, a, t); }
      else { OthersKept(c, a, c', t); }
      assert t in c'.pcs && Removes(c'.pcs[t], s);
    } else {
      DoomStarts(c, a, c', s);
    }
  }

  lemma NoCallInside(c: State, a: Action, t: nat)
    requires By(a, t) && !a.Advance? && t in c.pcs
    ensures Step(c, a).None?
  {
  }

  lemma {:induction false} RunDooms(actions: seq<Action>)
    requires Run(actions).Some?
    ensures DoomedGo(Run(actions).value, actions)
    ensures forall s :: Doomed(actions, s) ==> IsBorn(Run(actions).value, s)
  {
    if actions == [] {
    } else {
      var init, a := actions[..|actions| - 1], actions[|actions| - 1];
      var c, c' := Run(init).value, Run(actions).value;
      RunKeeps(init);
      RunDooms(init);
      ClosedByCall(init);
      forall s | Doomed(actions, s)
        ensures IsBorn(c', s) && (Listed(c'.subs, s) ==> exists t :: t in c'.pcs && Removes(c'.pcs[t], s))
      {
        assert IsBorn(c, s) && (Doomed(init, s) || (a.CallClose? && !c.hubClosed) || (a.CallUnsubscribe? && a.s == s));
        hide Inv, Step, Listed, IsBorn, Removes, Run, Doomed, ClosedBy;
        StaysBorn(c, a, c', s);
        if Listed(c'.subs, s) { DoomedStep(init, c, a, c', s); }
      }
    }
  }

  // ----- Nobody is removed without a reason -----

  lemma ReaderPlain(c: State, t: nat, c': State)
    requires t in c.pcs && AdvanceReader(c, t, c.pcs[t]) == Some(c')
    ensures t in c'.pcs ==> Plain(c'.pcs[t])
  {
    hide AdvanceReader, ListOf, LogOf, Accept;
    match c.pcs[t]
    case Publishing(_, _) => PublishStep(c, t, c');
    case Fan(_, _, _, _) => FanStep(c, t, c');
    case FanSend(_, _, _, _) => SendStep(c, t, c');
    case Beating(_) => TimerStep(c, t, c');
    case BeatLocked(_) => LookStep(c, t, c');
    case BeatSend(_) => BeatStep(c, t, c');
    case _ => NotReader(c, t);
  }

  lemma ResumePlain(c: State, t: nat, k: Cont)
    ensures var c' := Resume(c, t, k); t in c'.pcs ==> Plain(c'.pcs[t])
  {
  }

  lemma ClosingPlain(c: State, t: nat, c': State)
    requires t in c.pcs && AdvanceClosing(c, t, c.pcs[t]) == Some(c')
    ensures t in c'.pcs ==> Plain(c'.pcs[t])
  {
    hide AdvanceClosing, Resume;
    match c.pcs[t]
    case Counting(_, _) => CountStep(c, t, c');
    case CloseStop(_, _) => StopStep(c, t, c');
    case Closing(_, k) => SwapStep(c, t, c'); ResumePlain(c, t, k);
    case CloseChan(s, k) =>
      ChanStep(c, t, c');
      var faults := if c.sub[s].shut then c.faults + {CloseOfClosed} else c.faults;
      ResumePlain(c.(sub := c.sub[s := c.sub[s].(shut := true, closer := None)], faults := faults), t, k);
    case _ => NotClosing(c, t);
  }

  lemma LockingCaused(actions: seq<Action>, c: State, t: nat, all: seq<nat>, c': State)
    requires t in c.pcs && AdvanceLocking(c, t, c.pcs[t], all) == Some(c') && PcCaused(actions, c.pcs[t])
    ensures t in c'.pcs ==> PcCaused(actions, c'.pcs[t])
  {
    hide AdvanceLocking, Enlist, Delist, Gathers, Resume, ListOf, LogOf, Unlocked, UnsubscribedBy, ClosedBy;
    LockingOnly(c, t, all);
    match c.pcs[t]
    case SubLocked(_, _) => RegisterStep(c, t, all, c');
    case DropLocked(_, _) => DropStep(c, t, all, c');
    case UnsubLocked(_, _) => UnlistStep(c, t, all, c');
    case ShutLocked => ShutStep(c, t, all, c'); ResumePlain(c.(subs := map[], writer := None), t, ThenClose(all));
    case _ => LockStep(c, t, all, c');
  }

  lemma PcStaysCaused(actions: seq<Action>, c: State, a: Action, c': State)
    requires a.Advance? && Step(c, a) == Some(c') && PcCaused(actions, c.pcs[a.t])
    ensures a.t in c'.pcs ==> PcCaused(actions, c'.pcs[a.t])
  {
    hide AdvanceReader, AdvanceLocking, AdvanceClosing, UnsubscribedBy, ClosedBy;
    if ReaderPC(c.pcs[a.t]) { ReaderPlain(c, a.t, c'); }
    else if ClosingPC(c.pcs[a.t]) { ClosingPlain(c, a.t, c'); }
    else { LockingCaused(actions, c, a.t, a.all, c'); }
  }

  lemma CountingClears(c: State, t: nat, all: seq<nat>, c': State, s: nat)
    requires Counts(c, t, s) && Step(c, Advance(t, all)) == Some(c')
    ensures s in c'.sub && c'.sub[s].finder.None?
  {
    hide AdvanceReader, AdvanceLocking, AdvanceClosing;
    CountStep(c, t, c');
  }

  lemma CauseGrows(actions: seq<Action>, a: Action)
    ensures forall s :: UnsubscribedBy(actions, s) ==> UnsubscribedBy(actions + [a], s)
    ensures ClosedBy(actions) ==> ClosedBy(actions + [a])
    ensures a.CallUnsubscribe? ==> UnsubscribedBy(actions + [a], a.s)
    ensures a.CallClose? ==> ClosedBy(actions + [a])
  {
    forall s ensures UnsubscribedBy(actions, s) ==> UnsubscribedBy(actions + [a], s) {
      assert forall b :: b in actions ==> b in actions + [a];
    }
    assert a in actions + [a];
  }

  /** The step that removes a subscriber has a reason. */
  lemma RemovalCaused(actions: seq<Action>, c: State, t: nat, all: seq<nat>, c': State, s: nat)
    requires Inv(c) && t in c.pcs && HoldsWrite(c.pcs[t]) && AdvanceWriter(c, t, c.pcs[t], all) == Some(c')
    requires !Gone(c, s) && Gone(c', s) && PcCaused(actions, c.pcs[t])
    ensures Caused(c', actions, s)
  {
    At(c, t);
    RemovedWasOpen(c, t, all, c', s);
    if c.pcs[t].SubLocked? { CreatedUnlisted(c, t); NobodyEnlistedGone(c, t, all, c', s); }
    hide Inv, Gone, Listed, ListsOk, ThreadsOk, LocksOk, SubsOk, AdvanceWriter, PcOk, UnsubscribedBy, ClosedBy;
    match c.pcs[t]
    case SubLocked(_, _) =>
    case DropLocked(_, _) => DropCaused(actions, c, t, all, c', s);
    case UnsubLocked(_, _) => UnsubCaused(c, t, all, c', s); StillThere(c', s);
    case ShutLocked => StillThere(c', s);
  }

  lemma StillThere(c: State, s: nat)
    requires Gone(c, s)
    ensures s in c.sub
  {
  }

  lemma DropCaused(actions: seq<Action>, c: State, t: nat, all: seq<nat>, c': State, s: nat)
    requires ListsOk(c) && t in c.pcs && c.pcs[t].DropLocked? && PcOk(c, t, c.pcs[t]) && s in c.sub
    requires !Gone(c, s) && Gone(c', s) && AdvanceWriter(c, t, c.pcs[t], all) == Some(c')
    ensures Caused(c', actions, s)
  {
    var DropLocked(stream, todo) := c.pcs[t];
    assert Born(c, todo[0], stream);
    DelistFacts(c, stream, todo[0]);
    NewlyGone(c, c', s);
  }

  lemma UnsubCaused(c: State, t: nat, all: seq<nat>, c': State, s: nat)
    requires ListsOk(c) && t in c.pcs && c.pcs[t].UnsubLocked? && PcOk(c, t, c.pcs[t]) && s in c.sub
    requires !Gone(c, s) && Gone(c', s) && AdvanceWriter(c, t, c.pcs[t], all) == Some(c')
    ensures c.pcs[t].s == s
  {
    DelistFacts(c, c.pcs[t].stream, c.pcs[t].s);
    NewlyGone(c, c', s);
  }

  ghost predicate FindersCount(c: State) {
    forall s, t :: s in c.sub && c.sub[s].finder == Some(t) ==> Counts(c, t, s)
  }

  lemma FinderStays(c: State, a: Action, c': State, s: nat, t: nat)
    requires a.Advance? && Step(c, a) == Some(c') && Counts(c, t, s) && s in c'.sub && c'.sub[s].finder == Some(t)
    ensures Counts(c', t, s)
  {
    hide Step;
    if t == a.t { CountingClears(c, t, a.all, c', s); } else { OthersKept(c, a, c', t); }
  }

  lemma AdvanceFinders(c: State, a: Action, c': State)
    requires a.Advance? && Step(c, a) == Some(c') && FindersCount(c)
    ensures FindersCount(c')
  {
    AdvanceNames(c, a, c');
    hide Step, Counts;
    forall s, t | s in c'.sub && c'.sub[s].finder == Some(t) ensures Counts(c', t, s) {
      assert SubOnward(c.sub[s], c'.sub[s], a.t, Counts(c', a.t, s));
      if c.sub[s].finder == Some(t) { FinderStays(c, a, c', s, t); }
    }
  }

  lemma AdvanceCaused(actions: seq<Action>, c: State, a: Action, c': State, s: nat)
    requires Inv(c) && AllCaused(c, actions) && a.Advance? && Step(c, a) == Some(c') && Gone(c', s)
    ensures Caused(c', actions, s)
  {
    AdvanceNames(c, a, c');
    if Gone(c, s) {
      assert SubOnward(c.sub[s], c'.sub[s], a.t, Counts(c', a.t, s)) && Caused(c, actions, s);
      hide Inv, Step, Gone, UnsubscribedBy, ClosedBy;
    } else {
      assert PcCaused(actions, c.pcs[a.t]);
      hide Inv, Begin, AdvanceReader, AdvanceWriter, Gone, PcCaused, AllCaused, Caused, SameNames;
      RemovedByWriter(c, a, c', s);
      RemovalCaused(actions, c, a.t, a.all, c', s);
    }
  }

  lemma AdvanceAllCaused(actions: seq<Action>, c: State, a: Action, c': State)
    requires Inv(c) && AllCaused(c, actions) && a.Advance? && Step(c, a) == Some(c')
    ensures AllCaused(c', actions + [a])
  {
    CauseGrows(actions, a);
    assert FindersCount(c);
    AdvanceFinders(c, a, c');
    forall s | Gone(c', s) ensures Caused(c', actions + [a], s) {
      AdvanceCaused(actions, c, a, c', s);
      hide Inv, Step, Gone, UnsubscribedBy, ClosedBy;
    }
    forall t | t in c'.pcs ensures PcCaused(actions + [a], c'.pcs[t]) {
      StepWorks(c, a.t, a.all, c');
      assert t != a.t ==> t in c.pcs && c'.pcs[t] == c.pcs[t];
      PcStaysCaused(actions, c, a, c');
      hide Inv, Step, Gone, UnsubscribedBy, ClosedBy, Ahead;
    }
    hide Inv, Step, Gone, Caused, PcCaused, UnsubscribedBy, ClosedBy;
  }

  /** A call touches no list, no registered subscriber and no other thread. */
  ghost predicate CallOnly(c: State, a: Action, c': State) {
    && c'.subs == c.subs && (forall t :: t in c.pcs ==> t in c'.pcs && c'.pcs[t] == c.pcs[t])
    && (forall s :: s in c'.sub && s in c.sub ==>
          var x, x' := c.sub[s], c'.sub[s]; x'.born == x.born && x'.finder == x.finder && x'.counted == x.counted)
    && (forall s :: s in c'.sub && s !in c.sub ==> !c'.sub[s].born && c'.sub[s].finder.None?)
    && forall t :: t in c'.pcs && t !in c.pcs ==>
         var pc := c'.pcs[t];
         Plain(pc) || (a.CallUnsubscribe? && pc.Unsubscribing? && pc.s == a.s) || (a.CallClose? && pc.Shutting?)
  }

  lemma SubscribeTouches(c: State, a: Action, c': State)
    requires c.nextID !in c.sub && a.CallSubscribe? && Begin(c, a) == Some(c')
    ensures CallOnly(c, a, c')
  {
  }

  lemma CallTouches(c: State, a: Action, c': State)
    requires c.nextID !in c.sub && !a.Advance? && Begin(c, a) == Some(c')
    ensures CallOnly(c, a, c')
  {
    hide Begin, Plain;
    if a.CallSubscribe? { SubscribeTouches(c, a, c'); } else { OtherCallNames(c, a, c'); }
  }

  lemma NextIsNew(c: State)
    requires Inv(c)
    ensures c.nextID !in c.sub
  {
  }

  lemma CallAllCaused(actions: seq<Action>, c: State, a: Action, c': State)
    requires Inv(c) && AllCaused(c, actions) && !a.Advance? && Begin(c, a) == Some(c')
    ensures AllCaused(c', actions + [a])
  {
    CauseGrows(actions, a);
    NextIsNew(c);
    CallTouches(c, a, c');
    hide Inv, Begin, Listed, Counts, UnsubscribedBy, ClosedBy;
    forall s, t | s in c'.sub && c'.sub[s].finder == Some(t) ensures Counts(c', t, s) {
      assert Counts(c, t, s);
      CountsStay(c, c', t, s);
    }
    forall s | Gone(c', s) ensures Caused(c', actions + [a], s) { assert Gone(c, s) && Caused(c, actions, s); }
    forall t | t in c'.pcs ensures PcCaused(actions + [a], c'.pcs[t]) {
      if t in c.pcs { assert PcCaused(actions, c.pcs[t]); }
    }
  }

  lemma CountsStay(c: State, c': State, t: nat, s: nat)
    requires Counts(c, t, s) && (t in c.pcs ==> t in c'.pcs && c'.pcs[t] == c.pcs[t])
    ensures Counts(c', t, s)
  {
  }

  lemma {:induction false} RunCaused(actions: seq<Action>)
    requires Run(actions).Some?
    ensures AllCaused(Run(actions).value, actions)
  {
    if actions == [] {
    } else {
      var init, a := actions[..|actions| - 1], actions[|actions| - 1];
      assert actions == init + [a];
      RunKeeps(init);
      RunCaused(init);
      hide Inv, AllCaused, Begin, AdvanceReader, AdvanceWriter;
      if a.Advance? { AdvanceAllCaused(init, Run(init).value, a, Run(actions).value); }
      else { CallAllCaused(init, Run(init).value, a, Run(actions).value); }
    }
  }

  // ----- At rest -----

  lemma RestEnrolled(actions: seq<Action>, c: State)
    requires Run(actions) == Some(c) && c.pcs == map[]
    ensures |SubscribeCalls(actions)| == c.nextID && forall s: nat :: s in c.sub <==> s < c.nextID
    ensures forall s :: s in c.sub ==> c.sub[s].born && c.sub[s].stream == SubscribeCalls(actions)[s]
  {
    RunEnrols(actions);
    hide Run, SubscribeCalls;
  }

  lemma RestLogged(actions: seq<Action>, c: State)
    requires Run(actions) == Some(c) && c.pcs == map[]
    ensures forall stream :: |AuthorsOf(Traced(actions), stream)| == |LogOf(c.log, stream)|
    ensures forall t, stream ::
              ByAuthor(LogOf(c.log, stream), AuthorsOf(Traced(actions), stream), t) == PublishCalls(actions, t, stream)
  {
    RunLogsCalls(actions);
    assert forall t, stream :: Pending(RoleAt(c, t), stream) == [];
    hide Run, Traced, AuthorsOf, LogOf, ByAuthor, PublishCalls, Pending, RoleAt;
  }

  lemma RestListed(actions: seq<Action>, c: State, s: nat)
    requires Run(actions) == Some(c) && c.pcs == map[] && s in c.sub && c.sub[s].born
    ensures Listed(c.subs, s) <==> !c.sub[s].shut
    ensures Doomed(actions, s) ==> c.sub[s].shut
  {
    ListedIsOpen(actions, c);
    RunAttended(actions);
    RunDooms(actions);
    assert Attended(c, s);
    hide Run, Listed, Doomed;
  }

  lemma RestCaused(actions: seq<Action>, c: State, s: nat)
    requires Run(actions) == Some(c) && c.pcs == map[] && Gone(c, s)
    ensures c.sub[s].counted == 1 || UnsubscribedBy(actions, s) || ClosedBy(actions)
  {
    DroppedOnce(actions, c);
    RunCaused(actions);
    assert Caused(c, actions, s);
    hide Run, UnsubscribedBy, ClosedBy;
  }

  /** Once no thread is inside a call, every call has had its effect. On each stream every thread has logged exactly
      what it called Publish with. There is one subscriber for each subscribe call, registered on the stream of that
      call. Its channel is open just as long as it is on its list. It is off the list when it was unsubscribed, or
      registered before Close was called; and it is off the list only when it was unsubscribed, counted as dropped, or
      Close was called. */
  lemma AtRest(actions: seq<Action>, c: State)
    requires Run(actions) == Some(c) && c.pcs == map[]
    ensures forall stream :: |AuthorsOf(Traced(actions), stream)| == |LogOf(c.log, stream)|
    ensures forall t, stream ::
              ByAuthor(LogOf(c.log, stream), AuthorsOf(Traced(actions), stream), t) == PublishCalls(actions, t, stream)
    ensures |SubscribeCalls(actions)| == c.nextID && forall s: nat :: s in c.sub <==> s < c.nextID
    ensures forall s :: s in c.sub ==> c.sub[s].born && c.sub[s].stream == SubscribeCalls(actions)[s]
    ensures forall s :: s in c.sub ==> (Listed(c.subs, s) <==> !c.sub[s].shut)
    ensures forall s :: s in c.sub && Doomed(actions, s) ==> c.sub[s].shut
    ensures forall s :: s in c.sub && c.sub[s].shut ==>
              c.sub[s].counted == 1 || UnsubscribedBy(actions, s) || ClosedBy(actions)
  {
    RestLogged(actions, c);
    RestEnrolled(actions, c);
    assert forall s :: s in c.sub && !Listed(c.subs, s) ==> Gone(c, s);
    hide Run, Doomed, ClosedBy, UnsubscribedBy, SubscribeCalls, Listed, Gone, Traced, AuthorsOf, LogOf, ByAuthor,
         PublishCalls;
    forall s | s in c.sub
      ensures Listed(c.subs, s) <==> !c.sub[s].shut
      ensures Doomed(actions, s) ==> c.sub[s].shut
      ensures c.sub[s].shut ==> c.sub[s].counted == 1 || UnsubscribedBy(actions, s) || ClosedBy(actions)
    {
      RestListed(actions, c, s);
      if c.sub[s].shut { RestCaused(actions, c, s); }
    }
  }

  // ----- Everything arrives -----

  /** A client that keeps receiving takes what is buffered, in order. */
  lemma {:induction false} Drains(c: State, s: nat) returns (more: seq<Action>, c': State)
    requires s in c.sub
    ensures (forall a :: a in more ==> a == Receive(s)) && RunFrom(c, more) == Some(c')
    ensures s in c'.sub && c'.sub[s].got == c.sub[s].got + c.sub[s].buf && c'.sub[s].buf == []
    decreases |c.sub[s].buf|
  {
    hide AdvanceReader, AdvanceWriter;
    if c.sub[s].buf == [] {
      more, c' := [], c;
    } else {
      var mid := Step(c, Receive(s)).value;
      var rest; rest, c' := Drains(mid, s);
      more := [Receive(s)] + rest;
      assert more[1..] == rest;
      hide Begin;
    }
  }

  lemma ListedThere(c: State, s: nat)
    requires Inv(c) && Listed(c.subs, s)
    ensures IsBorn(c, s) && s in ListOf(c.subs, c.sub[s].stream)
  {
  }

  /** With one publisher at a time on a stream: once the hub is at rest, a subscriber still on its list that takes what
      is buffered for it has received every message called for on its stream since it registered, in order, and no
      other. */
  lemma EverythingArrives(actions: seq<Action>, c: State, s: nat) returns (more: seq<Action>, c': State)
    requires Run(actions) == Some(c) && PoliteRun(actions) && c.pcs == map[] && Listed(c.subs, s)
    ensures (forall a :: a in more ==> a == Receive(s)) && RunFrom(c, more) == Some(c') && s in c'.sub && IsBorn(c, s)
    ensures var start, before := c.sub[s].start, actions[..RegisteredAt(actions, s)];
            && start == |StreamCalls(before, c.sub[s].stream)|
                        - (if NobodyWaits(Run(before).value, c.sub[s].stream) then 0 else 1)
            && start <= |StreamCalls(actions, c.sub[s].stream)|
            && Apps(c'.sub[s].got) == StreamCalls(actions, c.sub[s].stream)[start..]
  {
    RunKeeps(actions);
    ListedThere(c, s);
    GapFreeDelivery(actions, c, s);
    assert forall t :: !PublishesOn(RoleAt(c, t), c.sub[s].stream);
    hide Run, RunFrom, PoliteRun, Inv, Listed, ListOf, Apps, StreamCalls, RegisteredAt, NobodyWaits;
    more, c' := Drains(c, s);
  }
}
