/** Gap-free delivery: with one publisher at a time on a stream, a subscriber receives a prefix of the publish calls
    made after it registered. */
module HubDelivery {
  import opened Options
  import opened Hub
  import opened HubSafety
  import opened HubMoves
  import opened HubCalls

  /** One publisher at a time: a publish call starts only when no thread is still publishing on that stream. */
  ghost predicate Polite(c: State, a: Action) {
    a.CallPublish? ==> forall t :: !PublishesOn(RoleAt(c, t), a.stream)
  }

  ghost predicate PoliteRun(actions: seq<Action>)
    requires Run(actions).Some?
  {
    forall n :: 0 <= n < |actions| && Run(actions[..n]).Some? ==> Polite(Run(actions[..n]).value, actions[n])
  }

  // ----- Where a subscriber stands -----

  /** What has been published on its stream since it registered. */
  function Since(c: State, s: nat): seq<string>
    requires s in c.sub && c.sub[s].start <= |LogOf(c.log, c.sub[s].stream)|
  {
    LogOf(c.log, c.sub[s].stream)[c.sub[s].start..]
  }

  ghost predicate Sound(c: State, s: nat) {
    s in c.sub && if c.sub[s].born then c.sub[s].start <= |LogOf(c.log, c.sub[s].stream)|
      && Apps(c.sub[s].sent) <= Since(c, s)
                  else c.sub[s].sent == []
  }

  ghost predicate Caught(c: State, s: nat) { Sound(c, s) && c.sub[s].born && Apps(c.sub[s].sent) == Since(c, s) }

  /** It has everything but the message being fanned out. */
  ghost predicate Behind(c: State, s: nat) {
    Sound(c, s) && c.sub[s].born && |Since(c, s)| > 0 && Apps(c.sub[s].sent) == Since(c, s)[..|Since(c, s)| - 1]
  }

  /** A publisher has been served by this fan-out up to position `i` of the list. */
  ghost predicate FanOk(c: State, r: Role)
    requires r.Fanning?
  {
    var list, log := ListOf(c.subs, r.stream), LogOf(c.log, r.stream);
    && log != [] && log[|log| - 1] == r.body
    && forall j :: 0 <= j < |list| ==>
         if j < r.i then Caught(c, list[j]) || list[j] in r.drops else Behind(c, list[j])
  }

  ghost predicate OnePublisher(c: State) {
    forall t, u, stream :: PublishesOn(RoleAt(c, t), stream) && PublishesOn(RoleAt(c, u), stream) ==> t == u
  }

  ghost predicate AllSound(c: State) { forall s :: s in c.sub ==> Sound(c, s) }

  ghost predicate ListedServed(c: State) {
    forall stream, s :: s in ListOf(c.subs, stream) ==> Caught(c, s) || exists t :: Covers(RoleAt(c, t), stream, s)
  }

  ghost predicate FansOk(c: State) { forall t :: RoleAt(c, t).Fanning? ==> FanOk(c, RoleAt(c, t)) }

  ghost predicate Delivers(c: State) { OnePublisher(c) && AllSound(c) && ListedServed(c) && FansOk(c) }

  // ----- Steps that serve nobody -----

  lemma SubFrame(c: State, c': State, s: nat)
    requires SubsSame(c, c') && c'.log == c.log
    ensures (Sound(c, s) ==> Sound(c', s)) && (Caught(c, s) ==> Caught(c', s)) && (Behind(c, s) ==> Behind(c', s))
  {
  }

  lemma SoundFrame(c: State, c': State)
    requires SubsSame(c, c') && c'.log == c.log && AllSound(c)
    ensures AllSound(c')
  {
  }

  lemma IdleDelivers(c: State, c': State, t: nat)
    requires Delivers(c) && Quiet(c, c', t)
    ensures Delivers(c')
  {
    SoundFrame(c, c');
    hide Sound, Caught, Behind, AllSound, SubsSame;
    assert OnePublisher(c') by {
      forall u, stream | PublishesOn(RoleAt(c', u), stream) ensures PublishesOn(RoleAt(c, u), stream) {}
    }
    IdleListed(c, c', t);
    IdleFans(c, c', t);
  }

  lemma IdleListed(c: State, c': State, t: nat)
    requires ListedServed(c) && SubsSame(c, c') && c'.log == c.log
    requires forall u :: u != t ==> RoleAt(c', u) == RoleAt(c, u)
    requires RoleShrinks(RoleAt(c, t), RoleAt(c', t), c')
    requires forall stream, s :: s in ListOf(c'.subs, stream) ==> s in ListOf(c.subs, stream)
    ensures ListedServed(c')
  {
    hide Sound, Caught, Behind, SubsSame, RoleAt;
    forall stream, s | s in ListOf(c'.subs, stream)
      ensures Caught(c', s) || exists u :: Covers(RoleAt(c', u), stream, s)
    {
      if Caught(c, s) {
        SubFrame(c, c', s);
      } else {
        var u :| Covers(RoleAt(c, u), stream, s);
        assert Covers(RoleAt(c', u), stream, s);
      }
    }
  }

  lemma IdleFans(c: State, c': State, t: nat)
    requires FansOk(c) && SubsSame(c, c') && c'.log == c.log
    requires forall u :: RoleAt(c', u).Fanning? ==> RoleAt(c', u) == RoleAt(c, u)
    requires c'.subs == c.subs || forall u :: !RoleAt(c', u).Fanning?
    ensures FansOk(c')
  {
  }

  lemma CallDelivers(c: State, c': State, t: nat, stream: string, body: string)
    requires Delivers(c) && Calls(c, c', t, stream, body) && forall u :: !PublishesOn(RoleAt(c, u), stream)
    ensures Delivers(c')
  {
    SoundFrame(c, c');
    assert forall u :: RoleAt(c', u).Fanning? ==> RoleAt(c', u) == RoleAt(c, u);
    IdleFans(c, c', t);
    forall st, s | s in ListOf(c'.subs, st) ensures Caught(c', s) || exists u :: Covers(RoleAt(c', u), st, s) {
      if Caught(c, s) {
        SubFrame(c, c', s);
      } else {
        var u :| Covers(RoleAt(c, u), st, s);
        assert Covers(RoleAt(c', u), st, s);
      }
    }
    hide Sound, Caught, Behind, AllSound, FansOk, ListedServed, RoleAt;
  }

  lemma Alone(c: State, t: nat, u: nat, stream: string)
    requires OnePublisher(c) && t != u && PublishesOn(RoleAt(c, t), stream)
    ensures !PublishesOn(RoleAt(c, u), stream)
  {
  }

  // ----- A fan-out starts -----

  lemma LogMore(c: State, c': State, stream: string, body: string, s: nat)
    requires c'.sub == c.sub && c'.log == c.log[stream := LogOf(c.log, stream) + [body]]
    ensures Sound(c, s) ==> Sound(c', s)
    ensures Caught(c, s) && c.sub[s].stream == stream ==> Behind(c', s)
    ensures s in c.sub && c.sub[s].stream != stream ==>
            (Caught(c, s) ==> Caught(c', s)) && (Behind(c, s) ==> Behind(c', s))
  {
  }

  lemma StartDelivers(c: State, c': State, t: nat, stream: string, body: string)
    requires Delivers(c) && ListsOk(c) && Starts(c, c', t, stream, body)
    ensures Delivers(c')
  {
    forall s | s in c'.sub ensures Sound(c', s) { LogMore(c, c', stream, body, s); }
    hide Sound, Caught, Behind, RoleAt;
    assert OnePublisher(c') by {
      assert forall u, st :: PublishesOn(RoleAt(c', u), st) <==> PublishesOn(RoleAt(c, u), st);
    }
    StartListed(c, c', t, stream, body);
    StartFans(c, c', t, stream, body);
  }

  lemma StartListed(c: State, c': State, t: nat, stream: string, body: string)
    requires ListedServed(c) && ListsOk(c) && Starts(c, c', t, stream, body)
    ensures ListedServed(c')
  {
    hide Sound, Caught, Behind, RoleAt;
    forall st, s | s in ListOf(c'.subs, st) ensures Caught(c', s) || exists u :: Covers(RoleAt(c', u), st, s) {
      if st == stream {
        assert Covers(RoleAt(c', t), st, s);
      } else if Caught(c, s) {
        LogMore(c, c', stream, body, s);
      } else {
        var u :| Covers(RoleAt(c, u), st, s);
        assert Covers(RoleAt(c', u), st, s);
      }
    }
  }

  /** Before the fan-out everybody listed is caught up, so everybody is behind by just this message. */
  lemma StartFans(c: State, c': State, t: nat, stream: string, body: string)
    requires Delivers(c) && ListsOk(c) && Starts(c, c', t, stream, body)
    ensures FansOk(c')
  {
    hide Sound, Caught, Behind, RoleAt, AllSound;
    forall u | RoleAt(c', u).Fanning? ensures FanOk(c', RoleAt(c', u)) {
      var r := RoleAt(c', u);
      var list := ListOf(c.subs, r.stream);
      if u == t {
        forall j | 0 <= j < |list| ensures Behind(c', list[j]) {
          assert list[j] in list;
          assert Caught(c, list[j]) by {
            if v :| Covers(RoleAt(c, v), stream, list[j]) && v != t { Alone(c, t, v, stream); }
          }
          LogMore(c, c', stream, body, list[j]);
        }
      } else {
        Alone(c, t, u, stream);
        forall j | 0 <= j < |list|
          ensures (Caught(c, list[j]) ==> Caught(c', list[j])) && (Behind(c, list[j]) ==> Behind(c', list[j]))
        {
          assert list[j] in list;
          LogMore(c, c', stream, body, list[j]);
        }
      }
    }
  }

  // ----- A fan-out serves one subscriber -----

  lemma Served(c: State, c': State, x: nat, body: string)
    requires Behind(c, x) && c'.log == c.log && x in c'.sub
    requires LogOf(c.log, c.sub[x].stream) != [] && var log := LogOf(c.log, c.sub[x].stream); log[|log| - 1] == body
    requires var y, y' := c.sub[x], c'.sub[x];
             y'.stream == y.stream && y'.born == y.born && y'.start == y.start && y'.sent == y.sent + [App(body)]
    ensures Caught(c', x)
  {
  }

  lemma OtherFrame(c: State, c': State, x: nat, s: nat)
    requires s != x && c'.log == c.log && (s in c.sub <==> s in c'.sub) && (s in c.sub ==> c'.sub[s] == c.sub[s])
    ensures (Sound(c, s) ==> Sound(c', s)) && (Caught(c, s) ==> Caught(c', s)) && (Behind(c, s) ==> Behind(c', s))
  {
  }

  lemma ServeDelivers(c: State, c': State, t: nat, x: nat)
    requires Delivers(c) && ListsOk(c) && Serves(c, c', t, x)
    ensures Delivers(c')
  {
    var r := RoleAt(c, t);
    assert FanOk(c, r);
    assert Caught(c', x) by { Served(c, c', x, r.body); }
    forall s | s in c'.sub ensures Sound(c', s) { if s != x { OtherFrame(c, c', x, s); } }
    hide Sound, Caught, Behind, RoleAt;
    assert OnePublisher(c') by {
      assert forall u, st :: PublishesOn(RoleAt(c', u), st) <==> PublishesOn(RoleAt(c, u), st);
    }
    ServeListed(c, c', t, x);
    ServeFans(c, c', t, r, x, r.(i := r.i + 1));
  }

  lemma ServeListed(c: State, c': State, t: nat, x: nat)
    requires ListedServed(c) && c'.subs == c.subs && c'.log == c.log && Caught(c', x)
    requires forall s :: s != x ==> (s in c.sub <==> s in c'.sub) && (s in c.sub ==> c'.sub[s] == c.sub[s])
    requires forall u :: u != t ==> RoleAt(c', u) == RoleAt(c, u)
    requires RoleAt(c, t).Fanning? && RoleAt(c', t).Fanning? && RoleAt(c', t).stream == RoleAt(c, t).stream
    ensures ListedServed(c')
  {
    hide Sound, Caught, Behind, RoleAt;
    forall st, s | s in ListOf(c'.subs, st) ensures Caught(c', s) || exists u :: Covers(RoleAt(c', u), st, s) {
      if s != x {
        if Caught(c, s) {
          OtherFrame(c, c', x, s);
        } else {
          var u :| Covers(RoleAt(c, u), st, s);
          assert Covers(RoleAt(c', u), st, s);
        }
      }
    }
  }

  lemma ServeFans(c: State, c': State, t: nat, r: Role, x: nat, r': Role)
    requires OnePublisher(c) && FansOk(c) && ListsOk(c) && c'.subs == c.subs && c'.log == c.log
    requires r.Fanning? && RoleAt(c, t) == r && r.i < |ListOf(c.subs, r.stream)| && x == ListOf(c.subs, r.stream)[r.i]
    requires x in c.sub && c.sub[x].stream == r.stream
    requires forall s :: s != x ==> (s in c.sub <==> s in c'.sub) && (s in c.sub ==> c'.sub[s] == c.sub[s])
    requires forall u :: u != t ==> RoleAt(c', u) == RoleAt(c, u)
    requires r' == RoleAt(c', t) && r'.Fanning? && r'.stream == r.stream && r'.body == r.body && r'.i == r.i + 1
    requires (forall d :: d in r.drops ==> d in r'.drops) && (Caught(c', x) || x in r'.drops)
    ensures FansOk(c')
  {
    hide Sound, Caught, Behind, RoleAt;
    forall u | RoleAt(c', u).Fanning? ensures FanOk(c', RoleAt(c', u)) {
      var q := RoleAt(c, u);
      var list := ListOf(c.subs, q.stream);
      assert FanOk(c, q);
      if u != t { Alone(c, t, u, r.stream); }
      forall j | 0 <= j < |list| && list[j] != x
        ensures (Caught(c, list[j]) ==> Caught(c', list[j])) && (Behind(c, list[j]) ==> Behind(c', list[j]))
      {
        OtherFrame(c, c', x, list[j]);
      }
      assert forall j :: 0 <= j < |list| ==> list[j] in list;
      if u != t { assert forall j :: 0 <= j < |list| ==> list[j] != x; }
      else { assert NoDup(list); }
    }
  }

  lemma SkipDelivers(c: State, c': State, t: nat, x: nat)
    requires Delivers(c) && ListsOk(c) && Skips(c, c', t, x)
    ensures Delivers(c')
  {
    SoundFrame(c, c');
    var r := RoleAt(c, t);
    hide Sound, Caught, Behind, RoleAt;
    assert OnePublisher(c') by {
      assert forall u, st :: PublishesOn(RoleAt(c', u), st) <==> PublishesOn(RoleAt(c, u), st);
    }
    assert x in r.drops + [x];
    ServeFans(c, c', t, r, x, RoleAt(c', t));
    forall st, s | s in ListOf(c'.subs, st) ensures Caught(c', s) || exists u :: Covers(RoleAt(c', u), st, s) {
      if Caught(c, s) {
        SubFrame(c, c', s);
      } else {
        var u :| Covers(RoleAt(c, u), st, s);
        assert Covers(RoleAt(c', u), st, s);
      }
    }
  }

  /** Whoever was not served is on the drop list. */
  lemma EndDelivers(c: State, c': State, t: nat)
    requires Delivers(c) && Ends(c, c', t)
    ensures Delivers(c')
  {
    SoundFrame(c, c');
    assert FanOk(c, RoleAt(c, t));
    hide Sound, Caught, Behind, RoleAt;
    assert OnePublisher(c') by {
      assert forall u, st :: PublishesOn(RoleAt(c', u), st) <==> PublishesOn(RoleAt(c, u), st);
    }
    IdleFans(c, c', t);
    forall st, s | s in ListOf(c'.subs, st) ensures Caught(c', s) || exists u :: Covers(RoleAt(c', u), st, s) {
      if Caught(c, s) {
        SubFrame(c, c', s);
      } else {
        var u :| Covers(RoleAt(c, u), st, s);
        if u == t {
          var j :| 0 <= j < |ListOf(c.subs, st)| && ListOf(c.subs, st)[j] == s;
          assert Covers(RoleAt(c', t), st, s);
        } else {
          assert Covers(RoleAt(c', u), st, s);
        }
      }
    }
  }

  // ----- A subscriber registers -----

  lemma RegisterDelivers(c: State, c': State, x: nat)
    requires Delivers(c) && Registers(c, c', x)
    ensures Delivers(c')
  {
    assert Sound(c, x);
    assert Caught(c', x);
    forall s | s in c'.sub ensures Sound(c', s) { if s != x { OtherFrame(c, c', x, s); } }
    hide Sound, Caught, Behind, RoleAt;
    forall st, s | s in ListOf(c'.subs, st) ensures Caught(c', s) || exists u :: Covers(RoleAt(c', u), st, s) {
      if s != x {
        assert s in ListOf(c.subs, st);
        if Caught(c, s) {
          OtherFrame(c, c', x, s);
        } else {
          var u :| Covers(RoleAt(c, u), st, s);
          assert Covers(RoleAt(c', u), st, s);
        }
      }
    }
  }

  // ----- Every step -----

  /** Whatever kind the step is of. */
  lemma MoveDelivers(c: State, a: Action, c': State)
    requires ListsOk(c) && Delivers(c) && Polite(c, a) && Moves(c, a, c')
    ensures Delivers(c')
  {
    var t := Actor(a);
    hide Delivers, ListsOk, Quiet, Calls, Starts, Serves, Skips, Ends, Registers, ListOf;
    if !a.Advance? {
      if Publishes(c.hubClosed, a) { CallDelivers(c, c', t, a.stream, a.body); } else { IdleDelivers(c, c', t); }
    } else {
      match c.pcs[t]
      case Publishing(stream, body) => StartDelivers(c, c', t, stream, body);
      case FanSend(_, _, _, _) =>
        var x := TargetOf(c, c.pcs[t]);
        if Serves(c, c', t, x) { ServeDelivers(c, c', t, x); } else { SkipDelivers(c, c', t, x); }
      case Fan(_, _, _, _) => if Quiet(c, c', t) { IdleDelivers(c, c', t); } else { EndDelivers(c, c', t); }
      case SubLocked(_, s) => RegisterDelivers(c, c', s);
      case _ => IdleDelivers(c, c', t);
    }
  }

  lemma StepDelivers(c: State, a: Action, c': State)
    requires Inv(c) && Delivers(c) && Polite(c, a) && Step(c, a) == Some(c')
    ensures Delivers(c')
  {
    assert ListsOk(c);
    hide Inv, Delivers, Polite, Step, Moves, ListsOk;
    StepMoves(c, a, c');
    MoveDelivers(c, a, c');
  }

  lemma PolitePrefix(actions: seq<Action>, n: nat)
    requires Run(actions).Some? && PoliteRun(actions) && n <= |actions| && Run(actions[..n]).Some?
    ensures PoliteRun(actions[..n])
  {
    forall m | 0 <= m < n && Run(actions[..n][..m]).Some?
      ensures Polite(Run(actions[..n][..m]).value, actions[..n][m])
    {
      assert actions[..n][..m] == actions[..m];
    }
  }

  lemma {:induction false} RunDelivers(actions: seq<Action>)
    requires Run(actions).Some? && PoliteRun(actions)
    ensures Delivers(Run(actions).value)
  {
    if actions != [] {
      var init := actions[..|actions| - 1];
      PolitePrefix(actions, |init|);
      RunKeeps(init);
      RunDelivers(init);
      hide Inv, Delivers, Step;
      StepDelivers(Run(init).value, actions[|actions| - 1], Run(actions).value);
    }
  }

  // ----- The log is the publish calls -----

  ghost predicate NobodyWaits(c: State, stream: string) { forall t :: Pending(RoleAt(c, t), stream) == [] }

  /** The log of a stream is what has been called for there, save one call that still waits for the lock. */
  ghost predicate InStep(c: State, actions: seq<Action>, stream: string) {
    var log, calls := LogOf(c.log, stream), StreamCalls(actions, stream);
    && (NobodyWaits(c, stream) ==> log == calls)
    && forall t :: Pending(RoleAt(c, t), stream) != [] ==> log + Pending(RoleAt(c, t), stream) == calls
  }

  lemma OtherInStep(c: State, c': State, actions: seq<Action>, a: Action, stream: string)
    requires InStep(c, actions, stream) && PendingSame(c, c') && c'.log == c.log && !Publishes(ClosedBy(actions), a)
    ensures InStep(c', actions + [a], stream)
  {
    assert (actions + [a])[..|actions|] == actions;
    hide Pending, RoleAt, LogOf;
    forall t ensures Pending(RoleAt(c', t), stream) == Pending(RoleAt(c, t), stream) {}
  }

  lemma CallInStep(c: State, c': State, actions: seq<Action>, a: Action, stream: string)
    requires InStep(c, actions, stream) && Publishes(ClosedBy(actions), a) && Polite(c, a)
    requires Calls(c, c', a.t, a.stream, a.body)
    ensures InStep(c', actions + [a], stream)
  {
    assert (actions + [a])[..|actions|] == actions;
    hide RoleAt, LogOf;
    forall t
      ensures a.stream != stream ==> Pending(RoleAt(c', t), stream) == Pending(RoleAt(c, t), stream)
      ensures a.stream == stream ==> Pending(RoleAt(c, t), stream) == []
      ensures a.stream == stream ==> Pending(RoleAt(c', t), stream) == if t == a.t then [a.body] else []
    {
    }
  }

  lemma StartInStep(c: State, c': State, actions: seq<Action>, a: Action, stream: string, st: string, body: string)
    requires InStep(c, actions, stream) && OnePublisher(c) && a.Advance? && Starts(c, c', a.t, st, body)
    ensures InStep(c', actions + [a], stream)
  {
    assert (actions + [a])[..|actions|] == actions;
    hide RoleAt;
    forall t
      ensures st != stream ==> Pending(RoleAt(c', t), stream) == Pending(RoleAt(c, t), stream)
      ensures st == stream ==> Pending(RoleAt(c, t), stream) == if t == a.t then [body] else []
      ensures st == stream ==> Pending(RoleAt(c', t), stream) == []
    {
      if t != a.t && st == stream { Alone(c, a.t, t, stream); }
    }
  }

  lemma StepInStep(c: State, actions: seq<Action>, a: Action, c': State, stream: string)
    requires InStep(c, actions, stream) && OnePublisher(c) && Polite(c, a) && Moves(c, a, c')
             && c.hubClosed == ClosedBy(actions)
    ensures InStep(c', actions + [a], stream)
  {
    hide InStep, OnePublisher, Polite, Moves, Calls, Starts, PendingSame, ClosedBy;
    if Publishes(c.hubClosed, a) {
      MovesCall(c, a, c');
      CallInStep(c, c', actions, a, stream);
    } else if a.Advance? && a.t in c.pcs && c.pcs[a.t].Publishing? {
      MovesStart(c, a, c');
      StartInStep(c, c', actions, a, stream, c.pcs[a.t].stream, c.pcs[a.t].body);
    } else {
      MovesThread(c, a, c');
      MovePending(c, a, c');
      OtherInStep(c, c', actions, a, stream);
    }
  }

  lemma {:induction false} RunInStep(actions: seq<Action>, stream: string)
    requires Run(actions).Some? && PoliteRun(actions)
    ensures InStep(Run(actions).value, actions, stream)
  {
    if actions != [] {
      var init, a := actions[..|actions| - 1], actions[|actions| - 1];
      assert actions == init + [a];
      PolitePrefix(actions, |init|);
      RunInStep(init, stream);
      RunDelivers(init);
      RunKeeps(init);
      ClosedByCall(init);
      hide Inv, InStep, Step, Moves, ClosedBy, OnePublisher, AllSound, ListedServed, FansOk;
      StepMoves(Run(init).value, a, Run(actions).value);
      StepInStep(Run(init).value, init, a, Run(actions).value, stream);
    }
  }

  // ----- Delivery -----

  /** A subscriber starts at the calls made when it registered, save one that was still waiting for the lock; the log
      since then, and the call waiting now, are the calls since then. */
  lemma SinceIsCalls(actions: seq<Action>, c: State, s: nat)
    requires Run(actions) == Some(c) && PoliteRun(actions) && IsBorn(c, s)
    ensures var stream, start, before := c.sub[s].stream, c.sub[s].start, actions[..RegisteredAt(actions, s)];
            && start <= |LogOf(c.log, stream)| && start <= |StreamCalls(actions, stream)|
            && start == |StreamCalls(before, stream)| - (if NobodyWaits(Run(before).value, stream) then 0 else 1)
            && Since(c, s) <= StreamCalls(actions, stream)[start..]
            && (NobodyWaits(c, stream) ==> Since(c, s) == StreamCalls(actions, stream)[start..])
  {
    var stream, n := c.sub[s].stream, RegisteredAt(actions, s);
    StartsAtEnd(actions, s);
    PolitePrefix(actions, n);
    RunInStep(actions, stream);
    RunInStep(actions[..n], stream);
    hide Run, PoliteRun, RegisteredAt, Pending, RoleAt, LogOf, StreamCalls;
    var log, calls := LogOf(c.log, stream), StreamCalls(actions, stream);
    assert log <= calls && (NobodyWaits(c, stream) ==> log == calls);
  }

  /** A listed subscriber has been sent everything on the log when nobody is publishing on its stream. */
  lemma SentIsSince(actions: seq<Action>, c: State, s: nat)
    requires Run(actions) == Some(c) && PoliteRun(actions) && IsBorn(c, s)
    ensures c.sub[s].start <= |LogOf(c.log, c.sub[s].stream)| && |c.sub[s].buf| <= SUBSCRIBER_BUFFER_SIZE
    ensures Apps(c.sub[s].got) <= Apps(c.sub[s].got + c.sub[s].buf) <= Since(c, s)
    ensures (s in ListOf(c.subs, c.sub[s].stream) && forall t :: !PublishesOn(RoleAt(c, t), c.sub[s].stream))
              ==> Apps(c.sub[s].got + c.sub[s].buf) == Since(c, s)
  {
    RunKeeps(actions);
    RunDelivers(actions);
    SubAt(c, s);
    assert Sound(c, s);
    AppsConcat(c.sub[s].got, c.sub[s].buf);
    var stream := c.sub[s].stream;
    if s in ListOf(c.subs, stream) && forall t :: !PublishesOn(RoleAt(c, t), stream) {
      assert Caught(c, s) || exists t :: Covers(RoleAt(c, t), stream, s);
    }
  }

  /** What a subscriber has received, and what it will once its buffer is drained, are prefixes of the publish calls
      made on its stream since it registered (with the one call that was waiting for the lock then), heartbeats aside;
      at most 64 messages are buffered; and while it is listed and nobody is publishing on its stream it has been sent
      everything that was called for. */
  lemma GapFreeDelivery(actions: seq<Action>, c: State, s: nat)
    requires Run(actions) == Some(c) && PoliteRun(actions) && IsBorn(c, s)
    ensures var x, before := c.sub[s], actions[..RegisteredAt(actions, s)];
            var calls, called := StreamCalls(actions, x.stream), |StreamCalls(before, x.stream)|;
            && x.start == called - (if NobodyWaits(Run(before).value, x.stream) then 0 else 1) <= |calls|
            && Apps(x.got) <= Apps(x.got + x.buf) <= calls[x.start..] && |x.buf| <= SUBSCRIBER_BUFFER_SIZE
            && ((s in ListOf(c.subs, x.stream) && forall t :: !PublishesOn(RoleAt(c, t), x.stream)) ==>
                Apps(x.got + x.buf) == calls[x.start..])
  {
    assert s in c.sub;
    SentIsSince(actions, c, s);
    SinceIsCalls(actions, c, s);
    var stream := c.sub[s].stream;
    assert (forall t :: !PublishesOn(RoleAt(c, t), stream)) ==> NobodyWaits(c, stream) by {
      forall t ensures !PublishesOn(RoleAt(c, t), stream) ==> Pending(RoleAt(c, t), stream) == [] {}
    }
    hide *;
  }
}
