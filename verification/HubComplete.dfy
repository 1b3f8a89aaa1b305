/** Nobody on the list misses a message, however many threads publish on a stream. */
module HubComplete {
  import opened Options
  import opened Hub
  import opened HubSafety
  import opened HubMoves
  import opened HubCalls
  import opened HubHistory

  predicate FurtherOn(list: seq<nat>, i: nat, s: nat) { exists j :: i <= j < |list| && list[j] == s }

  /** Thread `t` is still to serve or drop the subscriber, and in the former case with log entry `p`. */
  ghost predicate Owes(c: State, h: History, t: nat, stream: string, s: nat, p: nat) {
    var r := RoleAt(c, t);
    || (r.Clearing? && r.stream == stream && s in r.pending)
    || (r.Fanning? && r.stream == stream
        && (s in r.drops || (CurrentOf(h, t) == p && FurtherOn(ListOf(c.subs, stream), r.i, s))))
  }

  ghost predicate Owed(c: State, h: History, stream: string, s: nat, p: nat) { exists t :: Owes(c, h, t, stream, s, p) }

  /** Entry `p` of the log, made since the subscriber registered. */
  predicate SinceThen(c: State, stream: string, s: nat, p: nat) {
    s in c.sub && c.sub[s].start <= p < |LogOf(c.log, stream)|
  }

  /** Each listed subscriber has been sent every entry made since it registered, or is owed it. */
  ghost predicate Complete(c: State, h: History) {
    forall stream, s, p: nat :: s in ListOf(c.subs, stream) && SinceThen(c, stream, s, p) ==>
      p in SourcesOf(h, s) || Owed(c, h, stream, s, p)
  }

  // ----- Steps that serve nobody -----

  /** What is owed stays owed. */
  ghost predicate DebtsStay(c: State, h: History, c': State, h': History) {
    forall t, stream, s, p: nat :: s in ListOf(c'.subs, stream) && Owes(c, h, t, stream, s, p) ==>
      Owes(c', h', t, stream, s, p)
  }

  /** Nobody joins a list, no log grows, and whoever was registered starts where it did. */
  ghost predicate NothingNew(c: State, c': State) {
    && (forall stream, s :: s in ListOf(c'.subs, stream) ==> s in ListOf(c.subs, stream))
    && (forall stream, s, p: nat :: s in ListOf(c.subs, stream) && SinceThen(c', stream, s, p) ==>
          SinceThen(c, stream, s, p))
  }

  lemma DebtsComplete(c: State, h: History, c': State, h': History)
    requires Complete(c, h) && NothingNew(c, c') && DebtsStay(c, h, c', h')
    requires forall s, p :: p in SourcesOf(h, s) ==> p in SourcesOf(h', s)
    ensures Complete(c', h')
  {
    hide SinceThen, Owes, ListOf, SourcesOf;
    forall stream, s, p: nat | s in ListOf(c'.subs, stream) && SinceThen(c', stream, s, p)
      ensures p in SourcesOf(h', s) || Owed(c', h', stream, s, p)
    {
      assert SinceThen(c, stream, s, p);
      if p !in SourcesOf(h, s) {
        var t :| Owes(c, h, t, stream, s, p);
        assert Owes(c', h', t, stream, s, p);
      }
    }
  }

  lemma QuietNew(c: State, c': State, t: nat)
    requires Quiet(c, c', t) && ListedBorn(c)
    ensures NothingNew(c, c')
  {
    hide RoleAt, OthersKeep, RoleShrinks, NobodyFans, Apps;
    forall stream, s, p: nat | s in ListOf(c.subs, stream) && SinceThen(c', stream, s, p)
      ensures SinceThen(c, stream, s, p)
    {
      assert Born(c, s, stream);
    }
  }

  lemma QuietDebts(c: State, c': State, h: History, t: nat)
    requires Quiet(c, c', t)
    ensures DebtsStay(c, h, c', h)
  {
    hide RoleAt, SubsSame, Apps, FurtherOn, CurrentOf;
    forall u, stream, s, p: nat | s in ListOf(c'.subs, stream) && Owes(c, h, u, stream, s, p)
      ensures Owes(c', h, u, stream, s, p)
    {
      assert u != t ==> RoleAt(c', u) == RoleAt(c, u);
    }
  }

  lemma StillDebts(c: State, c': State, h: History, t: nat, stream: string, body: string, x: nat)
    requires Calls(c, c', t, stream, body) || Skips(c, c', t, x) || Ends(c, c', t)
    ensures DebtsStay(c, h, c', h)
  {
    hide RoleAt, CurrentOf, LogOf;
    forall u, st, s, p: nat | s in ListOf(c'.subs, st) && Owes(c, h, u, st, s, p) ensures Owes(c', h, u, st, s, p) {
      assert u != t ==> RoleAt(c', u) == RoleAt(c, u);
      var r := RoleAt(c, u);
      if u == t && r.Fanning? && s !in r.drops {
        var list := ListOf(c.subs, st);
        var j :| r.i <= j < |list| && list[j] == s;
        if j > r.i { assert FurtherOn(list, r.i + 1, s); }
      }
    }
  }

  lemma SameNew(c: State, c': State)
    requires c'.subs == c.subs && c'.sub == c.sub && c'.log == c.log
    ensures NothingNew(c, c')
  {
  }

  // ----- A send -----

  lemma ServeDebts(c: State, c': State, h: History, h': History, t: nat, x: nat, stream: string, s: nat, p: nat)
    requires Serves(c, c', t, x)
    requires h' == h.(sources := h.sources[x := SourcesOf(h, x) + [CurrentOf(h, t)]])
    requires Owed(c, h, stream, s, p)
    ensures p in SourcesOf(h', s) || Owed(c', h', stream, s, p)
  {
    hide RoleAt, LogOf, Grows;
    var u :| Owes(c, h, u, stream, s, p);
    var r, list := RoleAt(c, u), ListOf(c.subs, stream);
    assert u != t ==> RoleAt(c', u) == r;
    if u == t && r.Fanning? && s !in r.drops {
      var j :| r.i <= j < |list| && list[j] == s;
      if j > r.i {
        assert FurtherOn(list, r.i + 1, s);
        assert Owes(c', h', u, stream, s, p);
      } else {
        assert s == x && p in SourcesOf(h', x);
      }
    } else {
      assert Owes(c', h', u, stream, s, p);
    }
  }

  lemma ServeNew(c: State, c': State, t: nat, x: nat)
    requires Serves(c, c', t, x)
    ensures NothingNew(c, c')
  {
    hide RoleAt, OthersKeep;
  }

  lemma ServeComplete(c: State, c': State, h: History, h': History, t: nat, x: nat)
    requires Complete(c, h) && Serves(c, c', t, x)
    requires h' == h.(sources := h.sources[x := SourcesOf(h, x) + [CurrentOf(h, t)]])
    ensures Complete(c', h')
  {
    ServeNew(c, c', t, x);
    assert forall s, p :: p in SourcesOf(h, s) ==> p in SourcesOf(h', s);
    hide Serves, SinceThen, Owed, ListOf, SourcesOf;
    forall stream, s, p: nat | s in ListOf(c'.subs, stream) && SinceThen(c', stream, s, p)
      ensures p in SourcesOf(h', s) || Owed(c', h', stream, s, p)
    {
      assert SinceThen(c, stream, s, p);
      if p !in SourcesOf(h, s) { ServeDebts(c, c', h, h', t, x, stream, s, p); }
    }
  }

  // ----- A fan-out starts -----

  lemma StartOwes(c: State, c': State, h: History, h': History, t: nat, st: string, body: string, stream: string,
                  s: nat, p: nat)
    requires Starts(c, c', t, st, body) && s in ListOf(c.subs, stream)
    requires h' == h.(authors := h.authors[st := AuthorsOf(h, st) + [t]],
             current := h.current[t := |LogOf(c.log, st)|])
    ensures Owed(c, h, stream, s, p) ==> Owed(c', h', stream, s, p)
    ensures stream == st ==> Owed(c', h', stream, s, |LogOf(c.log, st)|)
  {
    hide RoleAt;
    if u :| Owes(c, h, u, stream, s, p) {
      assert u != t && RoleAt(c', u) == RoleAt(c, u);
      assert Owes(c', h', u, stream, s, p);
    }
    if stream == st {
      var list := ListOf(c.subs, stream);
      var j: nat :| j < |list| && list[j] == s;
      assert FurtherOn(list, 0, s);
      assert Owes(c', h', t, stream, s, |LogOf(c.log, st)|);
    }
  }

  lemma StartComplete(c: State, c': State, h: History, h': History, t: nat, st: string, body: string)
    requires Complete(c, h) && Starts(c, c', t, st, body)
    requires h' == h.(authors := h.authors[st := AuthorsOf(h, st) + [t]],
             current := h.current[t := |LogOf(c.log, st)|])
    ensures Complete(c', h')
  {
    forall stream, s, p: nat | s in ListOf(c'.subs, stream) && SinceThen(c', stream, s, p)
      ensures p in SourcesOf(h', s) || Owed(c', h', stream, s, p)
    {
      StartOwes(c, c', h, h', t, st, body, stream, s, p);
      assert SinceThen(c, stream, s, p) || (stream == st && p == |LogOf(c.log, st)|);
      hide Owed, RoleAt, OthersKeep, ListOf;
    }
  }

  // ----- A subscriber registers -----

  lemma RegisterComplete(c: State, c': State, h: History, x: nat)
    requires Complete(c, h) && ListedBorn(c) && Registers(c, c', x)
    ensures Complete(c', h)
  {
    forall stream, s, p: nat | s in ListOf(c'.subs, stream) && SinceThen(c', stream, s, p)
      ensures p in SourcesOf(h, s) || Owed(c', h, stream, s, p)
    {
      if s in ListOf(c.subs, stream) {
        assert Born(c, s, stream);
        assert SinceThen(c, stream, s, p);
        if p !in SourcesOf(h, s) {
          var t :| Owes(c, h, t, stream, s, p);
          assert RoleAt(c', t) == RoleAt(c, t) && !RoleAt(c, t).Fanning?;
          hide RoleAt;
          assert Owes(c', h, t, stream, s, p);
        }
      }
    }
  }

  // ----- Every run -----

  lemma QuietComplete(c: State, c': State, h: History, t: nat)
    requires Complete(c, h) && ListedBorn(c) && Quiet(c, c', t)
    ensures Complete(c', h)
  {
    hide Complete, Quiet, NothingNew, DebtsStay, ListedBorn, SourcesOf;
    QuietNew(c, c', t);
    QuietDebts(c, c', h, t);
    DebtsComplete(c, h, c', h);
  }

  lemma StillComplete(c: State, c': State, h: History, t: nat, stream: string, body: string, x: nat)
    requires Complete(c, h) && (Calls(c, c', t, stream, body) || Skips(c, c', t, x) || Ends(c, c', t))
    ensures Complete(c', h)
  {
    SameNew(c, c');
    hide Complete, Calls, Skips, Ends, NothingNew, DebtsStay, SourcesOf;
    StillDebts(c, c', h, t, stream, body, x);
    DebtsComplete(c, h, c', h);
  }

  lemma CallComplete(c: State, h: History, a: Action, c': State)
    requires Complete(c, h) && ListedBorn(c) && Moves(c, a, c') && !a.Advance?
    ensures Complete(c', Observe(h, c, a))
  {
    hide Complete, ListedBorn, Quiet, Calls;
    var t := Actor(a);
    if Publishes(c.hubClosed, a) {
      StillComplete(c, c', h, t, a.stream, a.body, 0);
    } else {
      QuietComplete(c, c', h, t);
    }
  }

  lemma SendComplete(c: State, h: History, a: Action, c': State)
    requires Inv(c) && Complete(c, h) && Moves(c, a, c') && a.Advance? && a.t in c.pcs && c.pcs[a.t].FanSend?
    ensures Complete(c', Observe(h, c, a))
  {
    var t, x, h' := a.t, TargetOf(c, c.pcs[a.t]), Observe(h, c, a);
    hide *;
    TargetOpen(c, t);
    SendObserved(c, h, a, c', t, x);
    if |c.sub[x].buf| < SUBSCRIBER_BUFFER_SIZE {
      ServeComplete(c, c', h, h', t, x);
    } else {
      StillComplete(c, c', h, t, "", "", x);
    }
  }

  lemma FanComplete(c: State, h: History, a: Action, c': State)
    requires Complete(c, h) && ListedBorn(c) && Moves(c, a, c') && a.Advance? && c.pcs[a.t].Fan?
    ensures Complete(c', Observe(h, c, a))
  {
    hide Complete, ListedBorn, Quiet, Ends;
    if Quiet(c, c', a.t) { QuietComplete(c, c', h, a.t); } else { StillComplete(c, c', h, a.t, "", "", 0); }
  }

  lemma AdvanceComplete(c: State, h: History, a: Action, c': State)
    requires Complete(c, h) && ListedBorn(c) && Moves(c, a, c') && a.Advance? && !c.pcs[a.t].FanSend?
             && !c.pcs[a.t].Fan?
    ensures Complete(c', Observe(h, c, a))
  {
    hide ListedBorn, Complete, Quiet, Starts, Registers;
    var t, h' := a.t, Observe(h, c, a);
    match c.pcs[t]
    case Publishing(stream, body) => StartComplete(c, c', h, h', t, stream, body);
    case SubLocked(_, s) => RegisterComplete(c, c', h, s);
    case _ => QuietComplete(c, c', h, t);
  }

  lemma MoveComplete(c: State, h: History, a: Action, c': State)
    requires Inv(c) && Complete(c, h) && Moves(c, a, c')
    ensures Complete(c', Observe(h, c, a))
  {
    MovesThread(c, a, c');
    InvListed(c);
    hide Inv, ListedBorn, ListsOk, Complete, Moves, Observe;
    if !a.Advance? { CallComplete(c, h, a, c'); }
    else if c.pcs[a.t].FanSend? { SendComplete(c, h, a, c'); }
    else if c.pcs[a.t].Fan? { FanComplete(c, h, a, c'); }
    else { AdvanceComplete(c, h, a, c'); }
  }

  lemma {:induction false} RunComplete(actions: seq<Action>)
    requires Run(actions).Some?
    ensures Complete(Run(actions).value, Traced(actions))
  {
    if actions != [] {
      var init, a := actions[..|actions| - 1], actions[|actions| - 1];
      RunKeeps(init);
      RunComplete(init);
      hide Inv, Complete, Step, Moves, Observe;
      StepMoves(Run(init).value, a, Run(actions).value);
      MoveComplete(Run(init).value, Traced(init), a, Run(actions).value);
    }
  }

  // ----- Nobody misses a call -----

  /** Every call of the author has its entry. */
  lemma {:induction false} CallHasEntry(log: seq<string>, authors: seq<nat>, call: Call) returns (p: nat)
    requires |authors| == |log| && call.rank < |ByAuthor(log, authors, call.thread)|
    ensures p < |log| && CallAt(log, authors, p) == call
    decreases |log|
  {
    var n := |log| - 1;
    if call.rank < |ByAuthor(log[..n], authors[..n], call.thread)| {
      p := CallHasEntry(log[..n], authors[..n], call);
      assert log[..n][..p] == log[..p] && authors[..n][..p] == authors[..p];
    } else {
      p := n;
    }
  }

  /** A call not yet logged when the subscriber registered, and logged now, has an entry made since. */
  lemma CallSince(actions: seq<Action>, c: State, s: nat, call: Call) returns (p: nat)
    requires Run(actions) == Some(c) && IsBorn(c, s)
    requires var stream := c.sub[s].stream;
             && |AuthorsOf(Traced(actions), stream)| == |LogOf(c.log, stream)|
             && call.rank < |ByAuthor(LogOf(c.log, stream), AuthorsOf(Traced(actions), stream), call.thread)|
             && NotYetLogged(actions[..RegisteredAt(actions, s)], call, stream)
    ensures SinceThen(c, c.sub[s].stream, s, p)
            && CallAt(LogOf(c.log, c.sub[s].stream), AuthorsOf(Traced(actions), c.sub[s].stream), p) == call
  {
    var stream, before := c.sub[s].stream, actions[..RegisteredAt(actions, s)];
    RegisteredLogs(actions, c, s);
    var log, authors, m := LogOf(c.log, stream), AuthorsOf(Traced(actions), stream), c.sub[s].start;
    assert PublishCalls(before, call.thread, stream) == ByAuthor(log[..m], authors[..m], call.thread)
        + Pending(RoleAt(Run(before).value, call.thread), stream);
    hide Run, Traced, RegisteredAt, PublishCalls, Pending, RoleAt, LogsCalls, ByAuthor, AuthorsOf, LogOf;
    p := CallHasEntry(log, authors, call);
    if p < m {
      assert log[..m][..p] == log[..p] && authors[..m][..p] == authors[..p] && authors[..m][p] == authors[p];
      EntryIsCall(log[..m], authors[..m], p);
      assert false;
    }
  }

  lemma LoggedByNow(actions: seq<Action>, c: State, t: nat, stream: string)
    requires Run(actions) == Some(c) && !PublishesOn(RoleAt(c, t), stream)
    ensures |AuthorsOf(Traced(actions), stream)| == |LogOf(c.log, stream)|
    ensures PublishCalls(actions, t, stream) == ByAuthor(LogOf(c.log, stream), AuthorsOf(Traced(actions), stream), t)
  {
    RunLogsCalls(actions);
    assert Pending(RoleAt(c, t), stream) == [];
    hide Run, Traced, AuthorsOf, LogOf, ByAuthor, PublishCalls, Pending, RoleAt;
  }

  lemma EntryReceived(actions: seq<Action>, c: State, s: nat, p: nat)
    requires Run(actions) == Some(c) && IsBorn(c, s) && s in ListOf(c.subs, c.sub[s].stream)
    requires forall t :: !PublishesOn(RoleAt(c, t), c.sub[s].stream)
    requires SinceThen(c, c.sub[s].stream, s, p)
    ensures p in SourcesOf(Traced(actions), s)
  {
    RunComplete(actions);
    hide Run, Traced, RoleAt, ListOf, SinceThen, SourcesOf;
    var stream := c.sub[s].stream;
    forall t ensures !Owes(c, Traced(actions), t, stream, s, p) {}
  }

  /** On a stream on which nobody is publishing, a listed subscriber has been sent, or has buffered, exactly the publish
      calls that were not yet logged when it registered, each of them once. */
  lemma NobodyMisses(actions: seq<Action>, c: State, s: nat) returns (from: seq<Call>)
    requires Run(actions) == Some(c) && IsBorn(c, s) && s in ListOf(c.subs, c.sub[s].stream)
    requires forall t :: !PublishesOn(RoleAt(c, t), c.sub[s].stream)
    ensures FromCalls(actions, c, s, from)
    ensures forall call: Call ::
              call in from <==> call.rank < |PublishCalls(actions, call.thread, c.sub[s].stream)|
                                && NotYetLogged(actions[..RegisteredAt(actions, s)], call, c.sub[s].stream)
  {
    from := MessageCalls(actions, c, s);
    var stream := c.sub[s].stream;
    forall call: Call | call.rank < |PublishCalls(actions, call.thread, stream)|
                        && NotYetLogged(actions[..RegisteredAt(actions, s)], call, stream)
      ensures call in from
    {
      LoggedByNow(actions, c, call.thread, stream);
      var p := CallSince(actions, c, s, call);
      EntryReceived(actions, c, s, p);
      hide *;
      var i: nat :| i < |SourcesOf(Traced(actions), s)| && SourcesOf(Traced(actions), s)[i] == p;
      assert from[i] == call;
    }
    forall call: Call | call in from
      ensures call.rank < |PublishCalls(actions, call.thread, stream)|
              && NotYetLogged(actions[..RegisteredAt(actions, s)], call, stream)
    {
      var i :| 0 <= i < |from| && from[i] == call;
    }
    hide *;
  }
}
