/** Delivery with any number of publishers on a stream: where each received message comes from. */
module HubHistory {
  import opened Options
  import opened Hub
  import opened HubSafety
  import opened HubMoves
  import opened HubCalls

  /** What a run leaves behind beside its state: the thread that published each entry of a stream's log, the log
      position of the message each thread published last, and for each subscriber the log positions of the application
      messages its channel accepted. */
  datatype History = History(authors: map<string, seq<nat>>, current: map<nat, nat>, sources: map<nat, seq<nat>>)

  function AuthorsOf(h: History, stream: string): seq<nat> { if stream in h.authors then h.authors[stream] else [] }

  function SourcesOf(h: History, s: nat): seq<nat> { if s in h.sources then h.sources[s] else [] }

  function CurrentOf(h: History, t: nat): nat { if t in h.current then h.current[t] else 0 }

  /** The history after one more step. */
  function Observe(h: History, c: State, a: Action): History {
    if !a.Advance? || a.t !in c.pcs then h else
    match c.pcs[a.t]
    case Publishing(stream, _) =>
      h.(authors := h.authors[stream := AuthorsOf(h, stream) + [a.t]],
        current := h.current[a.t := |LogOf(c.log, stream)|])
    case FanSend(_, _, _, _) =>
      var x := TargetOf(c, c.pcs[a.t]);
      if x in c.sub && !c.sub[x].shut && |c.sub[x].buf| < SUBSCRIBER_BUFFER_SIZE
      then h.(sources := h.sources[x := SourcesOf(h, x) + [CurrentOf(h, a.t)]]) else h
    case _ => h
  }

  function Traced(actions: seq<Action>): History
    requires Run(actions).Some?
  {
    if actions == [] then History(map[], map[], map[])
    else Observe(Traced(actions[..|actions| - 1]), Run(actions[..|actions| - 1]).value, actions[|actions| - 1])
  }

  // ----- What every run keeps -----

  ghost predicate Authored(c: State, h: History) {
    forall stream :: |AuthorsOf(h, stream)| == |LogOf(c.log, stream)|
  }

  /** Each application message sent to the subscriber is an entry of its stream's log, made after it registered. */
  ghost predicate Sourced(c: State, h: History, s: nat) {
    if s !in c.sub || !c.sub[s].born then SourcesOf(h, s) == [] && (s in c.sub ==> c.sub[s].sent == []) else
    var x, log, src := c.sub[s], LogOf(c.log, c.sub[s].stream), SourcesOf(h, s);
    && x.start <= |log| && |src| == |Apps(x.sent)|
    && forall i :: 0 <= i < |src| ==> x.start <= src[i] < |log| && log[src[i]] == Apps(x.sent)[i]
  }

  /** Entries of one author come in the order of the log. */
  ghost predicate InOrder(authors: seq<nat>, src: seq<nat>) {
    && (forall i :: 0 <= i < |src| ==> src[i] < |authors|)
    && forall i, j :: 0 <= i < j < |src| && authors[src[i]] == authors[src[j]] ==> src[i] < src[j]
  }

  /** All entries by author `t` come before position `at`. */
  ghost predicate Before(authors: seq<nat>, src: seq<nat>, t: nat, at: nat) {
    forall i :: 0 <= i < |src| && src[i] < |authors| && authors[src[i]] == t ==> src[i] < at
  }

  ghost predicate AllSourced(c: State, h: History) {
    forall s :: Sourced(c, h, s) && (s in c.sub ==> InOrder(AuthorsOf(h, c.sub[s].stream), SourcesOf(h, s)))
  }

  /** A thread fanning out carries the log entry it made; those it has still to reach registered before that entry and
      have only earlier entries of its making. */
  ghost predicate Carries(c: State, h: History, t: nat) {
    var r := RoleAt(c, t);
    r.Fanning? ==>
      var list, log, authors, at := ListOf(c.subs, r.stream), LogOf(c.log, r.stream), AuthorsOf(h, r.stream),
          CurrentOf(h, t);
      && at < |log| && log[at] == r.body && at < |authors| && authors[at] == t
      && forall j :: r.i <= j < |list| ==>
           list[j] in c.sub && c.sub[list[j]].start <= at && Before(authors, SourcesOf(h, list[j]), t, at)
  }

  ghost predicate AllCarry(c: State, h: History) { forall t :: Carries(c, h, t) }

  ghost predicate Traceable(c: State, h: History) { Authored(c, h) && AllSourced(c, h) && AllCarry(c, h) }

  // ----- Steps that add nothing to the history -----

  lemma SourcedSame(c: State, c': State, h: History)
    requires AllSourced(c, h) && SubsSame(c, c') && c'.log == c.log
    ensures AllSourced(c', h)
  {
    hide Apps, InOrder;
    forall s ensures Sourced(c', h, s) && (s in c'.sub ==> InOrder(AuthorsOf(h, c'.sub[s].stream), SourcesOf(h, s))) {
      assert Sourced(c, h, s);
      if s !in c.sub { NoneInOrder(AuthorsOf(h, if s in c'.sub then c'.sub[s].stream else "")); }
    }
  }

  lemma NoneInOrder(authors: seq<nat>)
    ensures InOrder(authors, [])
  {
  }

  /** The thread's part is as before, or nearer the end of the list. */
  ghost predicate Further(r: Role, r': Role) {
    r'.Fanning? ==> r.Fanning? && r'.stream == r.stream && r'.body == r.body && r.i <= r'.i
  }

  lemma CarrySame(c: State, c': State, h: History)
    requires AllCarry(c, h) && c'.log == c.log && SubsSame(c, c')
    requires c'.subs == c.subs || NobodyFans(c)
    requires forall t :: Further(RoleAt(c, t), RoleAt(c', t))
    ensures AllCarry(c', h)
  {
    hide Before, RoleAt, Apps;
    forall t ensures Carries(c', h, t) {
      assert Carries(c, h, t) && Further(RoleAt(c, t), RoleAt(c', t));
    }
  }

  lemma QuietTraceable(c: State, c': State, h: History, t: nat)
    requires Traceable(c, h) && Quiet(c, c', t)
    ensures Traceable(c', h)
  {
    forall u ensures Further(RoleAt(c, u), RoleAt(c', u)) {}
    hide Sourced, InOrder, Carries, RoleAt, SubsSame, AllSourced, AllCarry, Further;
    SourcedSame(c, c', h);
    CarrySame(c, c', h);
  }

  /** A step of one thread that leaves subscribers, lists and logs alone. */
  ghost predicate Still(c: State, c': State, t: nat) {
    c'.sub == c.sub && c'.subs == c.subs && c'.log == c.log && OthersKeep(c, c', t)
      && Further(RoleAt(c, t), RoleAt(c', t))
  }

  lemma StillKinds(c: State, c': State, t: nat, stream: string, body: string, x: nat)
    ensures Calls(c, c', t, stream, body) || Skips(c, c', t, x) || Ends(c, c', t) ==> Still(c, c', t)
  {
    hide RoleAt, OthersKeep, ListOf;
  }

  lemma StillTraceable(c: State, c': State, h: History, t: nat)
    requires Traceable(c, h) && Still(c, c', t)
    ensures Traceable(c', h)
  {
    forall u ensures Further(RoleAt(c, u), RoleAt(c', u)) {}
    hide Sourced, InOrder, Carries, RoleAt, SubsSame, AllSourced, AllCarry, Further;
    SameSubs(c, c');
    SourcedSame(c, c', h);
    CarrySame(c, c', h);
  }

  lemma RegisterTraceable(c: State, c': State, h: History, x: nat)
    requires Traceable(c, h) && Registers(c, c', x)
    ensures Traceable(c', h)
  {
    hide InOrder, Enlist, RoleAt, NobodyFans;
    forall s ensures Sourced(c', h, s) && (s in c'.sub ==> InOrder(AuthorsOf(h, c'.sub[s].stream), SourcesOf(h, s))) {
      RegisterSourced(c, c', h, x, s);
    }
    forall u ensures Carries(c', h, u) { NoFanCarries(c, c', h, u); }
    hide Sourced, Carries;
  }

  lemma RegisterSourced(c: State, c': State, h: History, x: nat, s: nat)
    requires AllSourced(c, h) && Registers(c, c', x)
    ensures Sourced(c', h, s) && (s in c'.sub ==> InOrder(AuthorsOf(h, c'.sub[s].stream), SourcesOf(h, s)))
  {
    assert Sourced(c, h, s);
    hide InOrder, Enlist, NobodyFans, RoleAt;
  }

  lemma NoFanCarries(c: State, c': State, h: History, u: nat)
    requires NobodyFans(c) && forall t :: RoleAt(c', t) == RoleAt(c, t)
    ensures Carries(c', h, u)
  {
    assert !RoleAt(c', u).Fanning?;
    hide RoleAt;
  }

  // ----- A fan-out starts -----

  ghost predicate ListedBorn(c: State) { forall stream, s :: s in ListOf(c.subs, stream) ==> Born(c, s, stream) }

  lemma InvListed(c: State)
    requires Inv(c)
    ensures ListedBorn(c) && ListsOk(c)
  {
  }

  lemma StartTraceable(c: State, c': State, h: History, h': History, t: nat, stream: string, body: string)
    requires Traceable(c, h) && ListedBorn(c) && Starts(c, c', t, stream, body)
    requires h' == h.(authors := h.authors[stream := AuthorsOf(h, stream) + [t]],
             current := h.current[t := |LogOf(c.log, stream)|])
    ensures Traceable(c', h')
  {
    forall s
      ensures Sourced(c', h', s) && (s in c'.sub ==> InOrder(AuthorsOf(h', c'.sub[s].stream), SourcesOf(h', s)))
    {
      StartSourced(c, c', h, h', t, stream, body, s);
    }
    forall u ensures Carries(c', h', u) {
      if u == t {
        StarterCarries(c, c', h, h', t, stream, body);
      } else {
        StartCarries(c, c', h, h', t, stream, body, u);
      }
    }
    StartAuthored(c, c', h, h', t, stream, body);
    hide Sourced, InOrder, Carries, Authored, Starts;
  }

  lemma StartAuthored(c: State, c': State, h: History, h': History, t: nat, stream: string, body: string)
    requires Authored(c, h) && Starts(c, c', t, stream, body)
    requires h' == h.(authors := h.authors[stream := AuthorsOf(h, stream) + [t]],
             current := h.current[t := |LogOf(c.log, stream)|])
    ensures Authored(c', h')
  {
    hide RoleAt, OthersKeep;
    forall st ensures |AuthorsOf(h', st)| == |LogOf(c'.log, st)| { assert |AuthorsOf(h, st)| == |LogOf(c.log, st)|; }
  }

  lemma StartSourced(c: State, c': State, h: History, h': History, t: nat, stream: string, body: string, s: nat)
    requires AllSourced(c, h) && Starts(c, c', t, stream, body)
    requires h' == h.(authors := h.authors[stream := AuthorsOf(h, stream) + [t]],
             current := h.current[t := |LogOf(c.log, stream)|])
    ensures Sourced(c', h', s) && (s in c'.sub ==> InOrder(AuthorsOf(h', c'.sub[s].stream), SourcesOf(h', s)))
  {
    assert Sourced(c, h, s);
    assert SourcesOf(h', s) == SourcesOf(h, s);
  }

  lemma StarterCarries(c: State, c': State, h: History, h': History, t: nat, stream: string, body: string)
    requires Authored(c, h) && AllSourced(c, h) && ListedBorn(c) && Starts(c, c', t, stream, body)
    requires h' == h.(authors := h.authors[stream := AuthorsOf(h, stream) + [t]],
             current := h.current[t := |LogOf(c.log, stream)|])
    ensures Carries(c', h', t)
  {
    var list, at, authors := ListOf(c.subs, stream), |LogOf(c.log, stream)|, AuthorsOf(h', stream);
    hide RoleAt, OthersKeep, Apps, InOrder;
    forall j | 0 <= j < |list|
      ensures list[j] in c'.sub && c'.sub[list[j]].start <= at && Before(authors, SourcesOf(h', list[j]), t, at)
    {
      assert Born(c, list[j], stream);
      assert Sourced(c, h, list[j]);
    }
  }

  lemma StartCarries(c: State, c': State, h: History, h': History, t: nat, stream: string, body: string, u: nat)
    requires Authored(c, h) && AllCarry(c, h) && Starts(c, c', t, stream, body) && u != t
    requires h' == h.(authors := h.authors[stream := AuthorsOf(h, stream) + [t]],
             current := h.current[t := |LogOf(c.log, stream)|])
    ensures Carries(c', h', u)
  {
    assert Carries(c, h, u) && RoleAt(c', u) == RoleAt(c, u);
    hide RoleAt, OthersKeep;
  }

  // ----- A send reaches its subscriber -----

  lemma ServeSourced(c: State, c': State, h: History, h': History, t: nat, x: nat)
    requires AllSourced(c, h) && Carries(c, h, t) && Serves(c, c', t, x) && c.sub[x].born
    requires h' == h.(sources := h.sources[x := SourcesOf(h, x) + [CurrentOf(h, t)]])
    ensures AllSourced(c', h')
  {
    hide Sourced, InOrder, Carries, Serves, AuthorsOf, SourcesOf;
    forall s
      ensures Sourced(c', h', s) && (s in c'.sub ==> InOrder(AuthorsOf(h', c'.sub[s].stream), SourcesOf(h', s)))
    {
      if s == x { ServedSourced(c, c', h, h', t, x); } else { OtherSourced(c, c', h, h', t, x, s); }
    }
  }

  lemma ServeTraceable(c: State, c': State, h: History, h': History, t: nat, x: nat)
    requires Traceable(c, h) && ListsOk(c) && Serves(c, c', t, x) && c.sub[x].born
    requires h' == h.(sources := h.sources[x := SourcesOf(h, x) + [CurrentOf(h, t)]])
    ensures Traceable(c', h')
  {
    assert Carries(c, h, t) && Authored(c', h');
    hide AllSourced, Carries, Serves, Authored, ListsOk, AuthorsOf, SourcesOf;
    ServeSourced(c, c', h, h', t, x);
    forall u ensures Carries(c', h', u) { ServeCarries(c, c', h, h', t, x, u); }
  }

  lemma OtherSourced(c: State, c': State, h: History, h': History, t: nat, x: nat, s: nat)
    requires AllSourced(c, h) && Serves(c, c', t, x) && s != x
    requires h' == h.(sources := h.sources[x := SourcesOf(h, x) + [CurrentOf(h, t)]])
    ensures Sourced(c', h', s) && (s in c'.sub ==> InOrder(AuthorsOf(h', c'.sub[s].stream), SourcesOf(h', s)))
  {
    assert Sourced(c, h, s) && SourcesOf(h', s) == SourcesOf(h, s) && AuthorsOf(h', "") == AuthorsOf(h, "");
    assert (s in c.sub <==> s in c'.sub) && (s in c.sub ==> c'.sub[s] == c.sub[s]) && c'.log == c.log;
    hide InOrder, RoleAt, OthersKeep, Apps, Serves;
  }

  lemma ServedSourced(c: State, c': State, h: History, h': History, t: nat, x: nat)
    requires AllSourced(c, h) && Carries(c, h, t) && Serves(c, c', t, x) && c.sub[x].born
    requires h' == h.(sources := h.sources[x := SourcesOf(h, x) + [CurrentOf(h, t)]])
    ensures Sourced(c', h', x) && InOrder(AuthorsOf(h', c'.sub[x].stream), SourcesOf(h', x))
  {
    var r := RoleAt(c, t);
    assert Sourced(c, h, x) && InOrder(AuthorsOf(h, c.sub[x].stream), SourcesOf(h, x));
    AppsOne(c.sub[x].sent, App(r.body));
    hide RoleAt, OthersKeep, Apps;
    OrderGrows(AuthorsOf(h, r.stream), SourcesOf(h, x), t, CurrentOf(h, t));
  }

  lemma OrderGrows(authors: seq<nat>, src: seq<nat>, t: nat, at: nat)
    requires InOrder(authors, src) && Before(authors, src, t, at) && at < |authors| && authors[at] == t
    ensures InOrder(authors, src + [at])
  {
  }

  lemma BeforeGrows(authors: seq<nat>, src: seq<nat>, u: nat, at: nat, other: nat)
    requires Before(authors, src, u, at)
    ensures other < |authors| && authors[other] != u ==> Before(authors, src + [other], u, at)
  {
  }

  lemma ServeCarries(c: State, c': State, h: History, h': History, t: nat, x: nat, u: nat)
    requires AllCarry(c, h) && ListsOk(c) && Serves(c, c', t, x)
    requires h' == h.(sources := h.sources[x := SourcesOf(h, x) + [CurrentOf(h, t)]])
    ensures Carries(c', h', u)
  {
    var r := RoleAt(c, u);
    assert Carries(c, h, t) && Carries(c, h, u);
    assert u != t ==> RoleAt(c', u) == r;
    hide RoleAt, OthersKeep, Apps, Before, NoDup;
    if RoleAt(c', u).Fanning? {
      var list, authors, at := ListOf(c.subs, r.stream), AuthorsOf(h, r.stream), CurrentOf(h, u);
      forall j | RoleAt(c', u).i <= j < |list|
        ensures list[j] in c'.sub && c'.sub[list[j]].start <= at && Before(authors, SourcesOf(h', list[j]), u, at)
      {
        if u == t {
          DistinctAt(list, r.i, j);
        } else {
          BeforeGrows(authors, SourcesOf(h, list[j]), u, at, CurrentOf(h, t));
        }
      }
    }
  }

  lemma DistinctAt(list: seq<nat>, i: nat, j: nat)
    requires NoDup(list) && i < j < |list|
    ensures list[i] != list[j]
  {
  }

  // ----- Every run -----

  lemma CallTraceable(c: State, h: History, a: Action, c': State)
    requires Traceable(c, h) && Moves(c, a, c') && !a.Advance?
    ensures Traceable(c', Observe(h, c, a))
  {
    hide Traceable, Quiet, Calls, Still;
    var t := Actor(a);
    if Publishes(c.hubClosed, a) {
      StillKinds(c, c', t, a.stream, a.body, 0);
      StillTraceable(c, c', h, t);
    } else {
      QuietTraceable(c, c', h, t);
    }
  }

  lemma SendObserved(c: State, h: History, a: Action, c': State, t: nat, x: nat)
    requires Moves(c, a, c') && a.Advance? && t == a.t && t in c.pcs && c.pcs[t].FanSend? && x == TargetOf(c, c.pcs[t])
    requires x in c.sub && !c.sub[x].shut
    ensures if |c.sub[x].buf| < SUBSCRIBER_BUFFER_SIZE
            then Serves(c, c', t, x) && Observe(h, c, a) ==
              h.(sources := h.sources[x := SourcesOf(h, x) + [CurrentOf(h, t)]])
            else Skips(c, c', t, x) && Observe(h, c, a) == h
  {
    hide Serves, Skips, TargetOf, AuthorsOf, SourcesOf, CurrentOf, LogOf;
  }

  lemma SendTraceable(c: State, h: History, a: Action, c': State)
    requires Inv(c) && Traceable(c, h) && Moves(c, a, c') && a.Advance? && a.t in c.pcs && c.pcs[a.t].FanSend?
    ensures Traceable(c', Observe(h, c, a))
  {
    var t, x, h' := a.t, TargetOf(c, c.pcs[a.t]), Observe(h, c, a);
    hide *;
    TargetOpen(c, t);
    InvListed(c);
    SendObserved(c, h, a, c', t, x);
    if |c.sub[x].buf| < SUBSCRIBER_BUFFER_SIZE {
      ServeTraceable(c, c', h, h', t, x);
    } else {
      StillKinds(c, c', t, "", "", x);
      StillTraceable(c, c', h, t);
    }
  }

  lemma FanTraceable(c: State, h: History, a: Action, c': State)
    requires Traceable(c, h) && Moves(c, a, c') && a.Advance? && c.pcs[a.t].Fan?
    ensures Traceable(c', Observe(h, c, a))
  {
    hide Traceable, Quiet, Ends, Still;
    if Quiet(c, c', a.t) {
      QuietTraceable(c, c', h, a.t);
    } else {
      StillKinds(c, c', a.t, "", "", 0);
      StillTraceable(c, c', h, a.t);
    }
  }

  lemma AdvanceTraceable(c: State, h: History, a: Action, c': State)
    requires Traceable(c, h) && ListedBorn(c) && Moves(c, a, c') && a.Advance? && !c.pcs[a.t].FanSend?
             && !c.pcs[a.t].Fan?
    ensures Traceable(c', Observe(h, c, a))
  {
    hide ListedBorn, Traceable, Quiet, Starts, Registers;
    var t, h' := a.t, Observe(h, c, a);
    match c.pcs[t]
    case Publishing(stream, body) => StartTraceable(c, c', h, h', t, stream, body);
    case SubLocked(_, s) => RegisterTraceable(c, c', h, s);
    case _ => QuietTraceable(c, c', h, t);
  }

  lemma MoveTraceable(c: State, h: History, a: Action, c': State)
    requires Inv(c) && Traceable(c, h) && Moves(c, a, c')
    ensures Traceable(c', Observe(h, c, a))
  {
    assert a.Advance? ==> a.t in c.pcs;
    InvListed(c);
    hide Inv, ListedBorn, ListsOk, Traceable, Moves, Observe;
    if !a.Advance? { CallTraceable(c, h, a, c'); }
    else if c.pcs[a.t].FanSend? { SendTraceable(c, h, a, c'); }
    else if c.pcs[a.t].Fan? { FanTraceable(c, h, a, c'); }
    else { AdvanceTraceable(c, h, a, c'); }
  }

  lemma TargetOpen(c: State, t: nat)
    requires Inv(c) && t in c.pcs && c.pcs[t].FanSend?
    ensures var x := TargetOf(c, c.pcs[t]); x in c.sub && c.sub[x].born && !c.sub[x].shut
  {
  }

  lemma {:induction false} RunTraceable(actions: seq<Action>)
    requires Run(actions).Some?
    ensures Traceable(Run(actions).value, Traced(actions))
  {
    if actions != [] {
      var init, a := actions[..|actions| - 1], actions[|actions| - 1];
      RunKeeps(init);
      RunTraceable(init);
      hide Inv, Traceable, Step, Moves, Observe;
      StepMoves(Run(init).value, a, Run(actions).value);
      MoveTraceable(Run(init).value, Traced(init), a, Run(actions).value);
    }
  }

  // ----- Every entry comes from a publish call -----

  /** The entries of a log that thread `t` made. */
  function ByAuthor(log: seq<string>, authors: seq<nat>, t: nat): seq<string>
    requires |authors| == |log|
  {
    if log == [] then [] else
    var n := |log| - 1;
    ByAuthor(log[..n], authors[..n], t) + if authors[n] == t then [log[n]] else []
  }

  ghost predicate LogsCalls(c: State, h: History, actions: seq<Action>) {
    && Authored(c, h)
    && forall t, stream ::
         ByAuthor(LogOf(c.log, stream), AuthorsOf(h, stream), t) + Pending(RoleAt(c, t), stream)
           == PublishCalls(actions, t, stream)
  }

  lemma SameAuthors(c: State, h: History, a: Action)
    requires !(a.Advance? && a.t in c.pcs && c.pcs[a.t].Publishing?)
    ensures Observe(h, c, a).authors == h.authors
  {
    hide TargetOf, SourcesOf, CurrentOf;
  }

  lemma OtherLogs(c: State, h: History, c': State, h': History, actions: seq<Action>, a: Action)
    requires LogsCalls(c, h, actions) && PendingSame(c, c') && c'.log == c.log && h'.authors == h.authors
    requires !Publishes(ClosedBy(actions), a)
    ensures LogsCalls(c', h', actions + [a])
  {
    assert (actions + [a])[..|actions|] == actions;
    hide ByAuthor, Pending, RoleAt, LogOf;
    forall t, stream
      ensures AuthorsOf(h', stream) == AuthorsOf(h, stream)
              && PublishCalls(actions + [a], t, stream) == PublishCalls(actions, t, stream)
    {
    }
    hide AuthorsOf, PublishCalls;
  }

  lemma CallLogs(c: State, h: History, c': State, actions: seq<Action>, a: Action)
    requires LogsCalls(c, h, actions) && Publishes(ClosedBy(actions), a) && Calls(c, c', a.t, a.stream, a.body)
    ensures LogsCalls(c', h, actions + [a])
  {
    assert (actions + [a])[..|actions|] == actions;
    hide ByAuthor, RoleAt, LogOf, AuthorsOf;
    forall t, stream
      ensures ByAuthor(LogOf(c'.log, stream), AuthorsOf(h, stream), t) + Pending(RoleAt(c', t), stream)
              == PublishCalls(actions + [a], t, stream)
    {
      assert PublishCalls(actions, t, stream)
          == ByAuthor(LogOf(c.log, stream), AuthorsOf(h, stream), t) + Pending(RoleAt(c, t), stream);
    }
  }

  lemma StartLogs(c: State, h: History, c': State, h': History, actions: seq<Action>, a: Action, stream: string,
      body: string)
    requires LogsCalls(c, h, actions) && a.Advance? && Starts(c, c', a.t, stream, body)
    requires h' == h.(authors := h.authors[stream := AuthorsOf(h, stream) + [a.t]],
             current := h.current[a.t := |LogOf(c.log, stream)|])
    ensures LogsCalls(c', h', actions + [a])
  {
    assert (actions + [a])[..|actions|] == actions;
    StartAuthored(c, c', h, h', a.t, stream, body);
    hide RoleAt;
    forall t, st
      ensures ByAuthor(LogOf(c'.log, st), AuthorsOf(h', st), t) + Pending(RoleAt(c', t), st)
              == PublishCalls(actions + [a], t, st)
    {
      assert PublishCalls(actions, t, st)
          == ByAuthor(LogOf(c.log, st), AuthorsOf(h, st), t) + Pending(RoleAt(c, t), st);
      if st == stream { ByAuthorMore(LogOf(c.log, st), AuthorsOf(h, st), t, body, a.t); }
    }
  }

  lemma ByAuthorMore(log: seq<string>, authors: seq<nat>, t: nat, body: string, author: nat)
    requires |authors| == |log|
    ensures ByAuthor(log + [body], authors + [author], t)
            == ByAuthor(log, authors, t) + if author == t then [body] else []
  {
    assert (log + [body])[..|log|] == log && (authors + [author])[..|log|] == authors;
  }

  lemma StepLogs(c: State, h: History, actions: seq<Action>, a: Action, c': State)
    requires LogsCalls(c, h, actions) && Moves(c, a, c') && c.hubClosed == ClosedBy(actions)
    ensures LogsCalls(c', Observe(h, c, a), actions + [a])
  {
    hide LogsCalls, Moves, Calls, Starts, PendingSame, ClosedBy;
    if Publishes(c.hubClosed, a) {
      MovesCall(c, a, c');
      CallLogs(c, h, c', actions, a);
    } else if a.Advance? && a.t in c.pcs && c.pcs[a.t].Publishing? {
      MovesStart(c, a, c');
      StartLogs(c, h, c', Observe(h, c, a), actions, a, c.pcs[a.t].stream, c.pcs[a.t].body);
    } else {
      MovesThread(c, a, c');
      MovePending(c, a, c');
      SameAuthors(c, h, a);
      OtherLogs(c, h, c', Observe(h, c, a), actions, a);
    }
  }

  /** In every run, what each thread has put on the log of a stream is what it called Publish with, in the order of its
      calls, save a last call that still waits for the lock. */
  lemma {:induction false} RunLogsCalls(actions: seq<Action>)
    requires Run(actions).Some?
    ensures LogsCalls(Run(actions).value, Traced(actions), actions)
  {
    if actions != [] {
      var init, a := actions[..|actions| - 1], actions[|actions| - 1];
      assert actions == init + [a];
      RunKeeps(init);
      ClosedByCall(init);
      RunLogsCalls(init);
      hide Inv, LogsCalls, Step, Moves, Observe, ClosedBy;
      StepMoves(Run(init).value, a, Run(actions).value);
      StepLogs(Run(init).value, Traced(init), init, a, Run(actions).value);
    }
  }

  // ----- Every message received comes from one call -----

  /** The `rank`-th publish call of a thread on a stream, counted from 0. */
  datatype Call = Call(thread: nat, rank: nat)

  /** The call behind entry `p` of a log. */
  function CallAt(log: seq<string>, authors: seq<nat>, p: nat): Call
    requires |authors| == |log| && p < |log|
  {
    Call(authors[p], |ByAuthor(log[..p], authors[..p], authors[p])|)
  }

  lemma {:induction false} ByAuthorPrefix(log: seq<string>, authors: seq<nat>, n: nat, t: nat)
    requires |authors| == |log| && n <= |log|
    ensures ByAuthor(log[..n], authors[..n], t) <= ByAuthor(log, authors, t)
  {
    if n == |log| {
      assert log[..n] == log && authors[..n] == authors;
    } else {
      var m := |log| - 1;
      assert log[..m][..n] == log[..n] && authors[..m][..n] == authors[..n];
      ByAuthorPrefix(log[..m], authors[..m], n, t);
    }
  }

  lemma EntryIsCall(log: seq<string>, authors: seq<nat>, p: nat)
    requires |authors| == |log| && p < |log|
    ensures var call := CallAt(log, authors, p);
            call.rank < |ByAuthor(log, authors, call.thread)|
            && ByAuthor(log, authors, call.thread)[call.rank] == log[p]
  {
    var t := authors[p];
    assert log[..p + 1][..p] == log[..p] && authors[..p + 1][..p] == authors[..p];
    assert ByAuthor(log[..p + 1], authors[..p + 1], t) == ByAuthor(log[..p], authors[..p], t) + [log[p]];
    ByAuthorPrefix(log, authors, p + 1, t);
  }

  lemma RanksGrow(log: seq<string>, authors: seq<nat>, p: nat, q: nat)
    requires |authors| == |log| && p < q < |log| && authors[p] == authors[q]
    ensures CallAt(log, authors, p).rank < CallAt(log, authors, q).rank
  {
    EntryIsCall(log[..q], authors[..q], p);
    assert log[..q][..p] == log[..p] && authors[..q][..p] == authors[..p];
    hide ByAuthor;
  }

  lemma {:induction false} AuthorsGrow(actions: seq<Action>, n: nat, stream: string)
    requires n <= |actions| && Run(actions).Some? && Run(actions[..n]).Some?
    ensures AuthorsOf(Traced(actions[..n]), stream) <= AuthorsOf(Traced(actions), stream)
  {
    if n == |actions| {
      assert actions[..n] == actions;
    } else {
      var init := actions[..|actions| - 1];
      assert init[..n] == actions[..n];
      AuthorsGrow(init, n, stream);
      ObserveGrows(Traced(init), Run(init).value, actions[|actions| - 1], stream);
    }
  }

  lemma ObserveGrows(h: History, c: State, a: Action, stream: string)
    ensures AuthorsOf(h, stream) <= AuthorsOf(Observe(h, c, a), stream)
  {
    hide TargetOf, SourcesOf, CurrentOf;
  }

  /** The call had not yet reached the log when the given actions had been taken. */
  ghost predicate NotYetLogged(actions: seq<Action>, call: Call, stream: string)
    requires Run(actions).Some?
  {
    |PublishCalls(actions, call.thread, stream)|
      <= call.rank + |Pending(RoleAt(Run(actions).value, call.thread), stream)|
  }

  /** An entry after the first `m` is a call not yet logged when the log was those `m` entries. */
  lemma LaterIsLater(before: seq<Action>, log: seq<string>, authors: seq<nat>, stream: string, p: nat)
    requires Run(before).Some? && |authors| == |log| && p < |log|
    requires LogsCalls(Run(before).value, Traced(before), before)
    requires var m := |LogOf(Run(before).value.log, stream)|;
             m <= p && log[..m] == LogOf(Run(before).value.log, stream)
             && authors[..m] == AuthorsOf(Traced(before), stream)
    ensures NotYetLogged(before, CallAt(log, authors, p), stream)
  {
    var t, m := authors[p], |LogOf(Run(before).value.log, stream)|;
    assert log[..p][..m] == log[..m] && authors[..p][..m] == authors[..m];
    ByAuthorPrefix(log[..p], authors[..p], m, t);
    assert PublishCalls(before, t, stream) == ByAuthor(log[..m], authors[..m], t)
        + Pending(RoleAt(Run(before).value, t), stream);
    hide ByAuthor, PublishCalls, Run, Traced, LogsCalls, Pending, RoleAt;
  }

  /** Log and authors as they were when the subscriber registered are the beginning of what they are now. */
  lemma RegisteredLogs(actions: seq<Action>, c: State, s: nat)
    requires Run(actions) == Some(c) && IsBorn(c, s)
    ensures var h, stream, before := Traced(actions), c.sub[s].stream, actions[..RegisteredAt(actions, s)];
            var log, m := LogOf(Run(before).value.log, stream), c.sub[s].start;
            && m == |log| <= |LogOf(c.log, stream)| == |AuthorsOf(h, stream)|
            && LogOf(c.log, stream)[..m] == log && AuthorsOf(h, stream)[..m] == AuthorsOf(Traced(before), stream)
            && LogsCalls(Run(before).value, Traced(before), before)
  {
    var stream, n := c.sub[s].stream, RegisteredAt(actions, s);
    StartsAtEnd(actions, s);
    AuthorsGrow(actions, n, stream);
    RunLogsCalls(actions[..n]);
    RunLogsCalls(actions);
    hide Run, Traced, RegisteredAt, ByAuthor, PublishCalls, Pending, RoleAt;
  }

  lemma MessagesAreEntries(actions: seq<Action>, c: State, s: nat)
    requires Run(actions) == Some(c) && IsBorn(c, s)
    ensures s in c.sub
    ensures var h, x := Traced(actions), c.sub[s];
            var log, authors, src, msgs := LogOf(c.log, x.stream), AuthorsOf(h, x.stream), SourcesOf(h, s),
                Apps(x.got + x.buf);
            && |authors| == |log| && |src| == |msgs|
            && (forall i :: 0 <= i < |src| ==> x.start <= src[i] < |log| && log[src[i]] == msgs[i])
            && forall i, j :: 0 <= i < j < |src| && authors[src[i]] == authors[src[j]] ==> src[i] < src[j]
  {
    RunKeeps(actions);
    RunTraceable(actions);
    SubAt(c, s);
    assert Sourced(c, Traced(actions), s);
    hide Apps, Traced, Run;
  }

  lemma EntryOfRun(actions: seq<Action>, c: State, s: nat, p: nat)
    requires Run(actions) == Some(c) && IsBorn(c, s)
    requires |AuthorsOf(Traced(actions), c.sub[s].stream)| == |LogOf(c.log, c.sub[s].stream)|
    requires c.sub[s].start <= p < |LogOf(c.log, c.sub[s].stream)|
    ensures var stream := c.sub[s].stream;
            var call := CallAt(LogOf(c.log, stream), AuthorsOf(Traced(actions), stream), p);
            && call.rank < |PublishCalls(actions, call.thread, stream)|
            && LogOf(c.log, stream)[p] == PublishCalls(actions, call.thread, stream)[call.rank]
            && NotYetLogged(actions[..RegisteredAt(actions, s)], call, stream)
  {
    var stream := c.sub[s].stream;
    RegisteredLogs(actions, c, s);
    RunLogsCalls(actions);
    var log, authors := LogOf(c.log, stream), AuthorsOf(Traced(actions), stream);
    EntryIsCall(log, authors, p);
    LaterIsLater(actions[..RegisteredAt(actions, s)], log, authors, stream, p);
    var t := authors[p];
    assert PublishCalls(actions, t, stream) == ByAuthor(log, authors, t) + Pending(RoleAt(c, t), stream);
    hide *;
  }

  /** The messages a subscriber received or has buffered, call by call. */
  ghost predicate FromCalls(actions: seq<Action>, c: State, s: nat, from: seq<Call>)
    requires Run(actions) == Some(c) && IsBorn(c, s)
  {
    var msgs, stream := Apps(c.sub[s].got + c.sub[s].buf), c.sub[s].stream;
    && |from| == |msgs|
    && (forall i :: 0 <= i < |from| ==>
          && from[i].rank < |PublishCalls(actions, from[i].thread, stream)|
          && msgs[i] == PublishCalls(actions, from[i].thread, stream)[from[i].rank]
          && NotYetLogged(actions[..RegisteredAt(actions, s)], from[i], stream))
    && forall i, j :: 0 <= i < j < |from| && from[i].thread == from[j].thread ==> from[i].rank < from[j].rank
  }

  lemma MessageCalls(actions: seq<Action>, c: State, s: nat) returns (from: seq<Call>)
    requires Run(actions) == Some(c) && IsBorn(c, s)
    ensures FromCalls(actions, c, s, from)
    ensures var log, authors, src := LogOf(c.log, c.sub[s].stream), AuthorsOf(Traced(actions), c.sub[s].stream),
                SourcesOf(Traced(actions), s);
            && |authors| == |log| && |from| == |src|
            && forall i :: 0 <= i < |src| ==> src[i] < |log| && from[i] == CallAt(log, authors, src[i])
  {
    assert s in c.sub;
    hide Apps, ByAuthor, PublishCalls, Run, Traced, AuthorsOf, SourcesOf, LogOf, RegisteredAt, NotYetLogged, IsBorn;
    var stream, src := c.sub[s].stream, SourcesOf(Traced(actions), s);
    var log, authors := LogOf(c.log, stream), AuthorsOf(Traced(actions), stream);
    MessagesAreEntries(actions, c, s);
    from := seq(|src|, i requires 0 <= i < |src| => CallAt(log, authors, src[i]));
    forall i | 0 <= i < |from|
      ensures from[i].rank < |PublishCalls(actions, from[i].thread, stream)|
              && log[src[i]] == PublishCalls(actions, from[i].thread, stream)[from[i].rank]
              && NotYetLogged(actions[..RegisteredAt(actions, s)], from[i], stream)
    {
      EntryOfRun(actions, c, s, src[i]);
    }
    forall i, j | 0 <= i < j < |from| && from[i].thread == from[j].thread ensures from[i].rank < from[j].rank {
      RanksGrow(log, authors, src[i], src[j]);
    }
  }

  /** However many threads publish on a stream: every application message a subscriber received or has buffered is the
      body of a publish call on its stream that was not yet logged when it registered; no call reaches it twice; and the
      calls of one thread reach it in the order in which that thread made them. */
  lemma EachMessageHasOneSource(actions: seq<Action>, c: State, s: nat) returns (from: seq<Call>)
    requires Run(actions) == Some(c) && IsBorn(c, s)
    ensures var msgs, stream := Apps(c.sub[s].got + c.sub[s].buf), c.sub[s].stream;
            && |from| == |msgs|
            && (forall i :: 0 <= i < |from| ==>
               && from[i].rank < |PublishCalls(actions, from[i].thread, stream)|
               && msgs[i] == PublishCalls(actions, from[i].thread, stream)[from[i].rank]
               && NotYetLogged(actions[..RegisteredAt(actions, s)], from[i], stream))
            && forall i, j :: 0 <= i < j < |from| && from[i].thread == from[j].thread ==> from[i].rank < from[j].rank
  {
    from := MessageCalls(actions, c, s);
    hide Apps, PublishCalls, Run, RegisteredAt, NotYetLogged;
  }
}
