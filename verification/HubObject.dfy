/** The hub as an object whose calls run one at a time (internal/sse/hub.go). */
module HubObject {
  import H = Hub

  class Subscriber {
    const id: nat
    var buf: seq<H.Msg>        // the buffered channel
    var closed: bool         // the closed flag
    var stopped: bool        // stopHeartbeat is closed
    var shut: bool           // the channel is closed

    constructor (id: nat, shut: bool)
      ensures this.id == id && buf == [] && !closed && !stopped && this.shut == shut
    {
      this.id, buf, closed, stopped, this.shut := id, [], false, false, shut;
    }

    /** A non-blocking send; false when the buffer is full. */
    method Offer(m: H.Msg) returns (sent: bool)
      requires Open()
      modifies this`buf
      ensures Open() && (sent <==> |old(buf)| < H.SUBSCRIBER_BUFFER_SIZE)
      ensures buf == if sent then old(buf) + [m] else old(buf)
    {
      sent := |buf| < H.SUBSCRIBER_BUFFER_SIZE;
      if sent { buf := buf + [m]; }
    }

    predicate Open()
      reads this
    {
      !closed && !stopped && !shut && |buf| <= H.SUBSCRIBER_BUFFER_SIZE
    }
  }

  predicate Distinct(list: seq<Subscriber>) { forall i, j :: 0 <= i < j < |list| ==> list[i] != list[j] }

  /** The list without the subscribers of `gone`, in the same order. */
  function Minus(list: seq<Subscriber>, gone: set<Subscriber>): seq<Subscriber> {
    if list == [] then [] else
    Minus(list[..|list| - 1], gone) + if list[|list| - 1] in gone then [] else [list[|list| - 1]]
  }

  lemma {:induction false} MinusElems(list: seq<Subscriber>, gone: set<Subscriber>)
    ensures forall s :: s in Minus(list, gone) <==> s in list && s !in gone
    ensures Distinct(list) ==> Distinct(Minus(list, gone))
  {
    if list != [] {
      var init, last := list[..|list| - 1], list[|list| - 1];
      MinusElems(init, gone);
      assert list == init + [last];
    }
  }

  lemma MinusLast(list: seq<Subscriber>, last: Subscriber, gone: set<Subscriber>)
    ensures Minus(list + [last], gone) == Minus(list, gone) + if last in gone then [] else [last]
  {
  }

  lemma {:induction false} MinusUnion(list: seq<Subscriber>, a: set<Subscriber>, b: set<Subscriber>)
    ensures Minus(Minus(list, a), b) == Minus(list, a + b)
  {
    if list != [] {
      var init, last := list[..|list| - 1], list[|list| - 1];
      MinusUnion(init, a, b);
      if last in a {
        assert Minus(list, a) == Minus(init, a) && Minus(list, a + b) == Minus(init, a + b);
      } else {
        MinusLast(Minus(init, a), last, b);
      }
    }
  }

  lemma {:induction false} MinusAbsent(list: seq<Subscriber>, s: Subscriber)
    requires s !in list
    ensures Minus(list, {s}) == list
  {
    if list != [] {
      var init, last := list[..|list| - 1], list[|list| - 1];
      MinusAbsent(init, s);
      assert list == init + [last];
    }
  }

  lemma {:induction false} MinusOne(list: seq<Subscriber>, i: nat)
    requires Distinct(list) && i < |list|
    ensures Minus(list, {list[i]}) == list[..i] + list[i + 1..]
  {
    var n := |list| - 1;
    if i == n {
      MinusAbsent(list[..n], list[n]);
    } else {
      MinusOne(list[..n], i);
      assert list[..n][..i] + list[..n][i + 1..] + [list[n]] == list[..i] + list[i + 1..];
    }
  }

  class Hub {
    var subs: map<string, seq<Subscriber>>
    var nextID: nat
    var dropped: nat
    var closed: bool

    function List(stream: string): seq<Subscriber>
      reads this`subs
    {
      if stream in subs then subs[stream] else []
    }

    ghost function Registered(): set<Subscriber>
      reads this`subs
    {
      set stream, s | stream in subs && s in subs[stream] :: s
    }

    /** Every registered subscriber is open and is in one list, once. */
    ghost predicate Valid()
      reads this`subs, Registered()
    {
      && (forall s :: s in Registered() ==> s.Open())
      && (forall stream :: stream in subs ==> Distinct(subs[stream]))
      && (forall a, b, s :: a in subs && b in subs && s in subs[a] && s in subs[b] ==> a == b)
    }

    constructor ()
      ensures Valid() && subs == map[] && nextID == 0 && dropped == 0 && !closed
    {
      subs, nextID, dropped, closed := map[], 0, 0, false;
    }

    /** A new subscriber at the end of the list; on a closed hub, or without a stream, one with a closed channel. */
    method Subscribe(stream: string) returns (s: Subscriber)
      requires Valid()
      modifies this`subs, this`nextID
      ensures Valid() && fresh(s) && s.buf == []
      ensures closed || stream == "" ==> s.shut && subs == old(subs)
      ensures !closed && stream != "" ==> subs == old(subs)[stream := old(List(stream)) + [s]] && s.Open()
    {
      if closed || stream == "" {
        s := new Subscriber(0, true);
        return;
      }
      nextID := nextID + 1;
      s := new Subscriber(nextID, false);
      subs := subs[stream := List(stream) + [s]];
    }

    /** Closes at most once. */
    static method CloseSubscriber(s: Subscriber)
      requires !s.closed ==> !s.stopped && !s.shut
      modifies s
      ensures s.closed && s.buf == old(s.buf)
      ensures if old(s.closed) then s.stopped == old(s.stopped) && s.shut == old(s.shut) else s.stopped && s.shut
    {
      if s.closed { return; }
      s.closed := true;
      s.stopped := true;
      s.shut := true;
    }

    /** Takes `s` out of the stream's list; other lists and all subscribers stay as they are. */
    method Detach(stream: string, s: Subscriber) returns (found: bool)
      requires Valid()
      modifies this`subs
      ensures Valid() && (found <==> s in old(List(stream)))
      ensures subs == if found then old(subs)[stream := Minus(old(List(stream)), {s})] else old(subs)
    {
      var list := List(stream);
      for i := 0 to |list|
        invariant subs == old(subs) && s !in list[..i]
      {
        if list[i] == s {
          MinusOne(list, i);
          MinusElems(list, {s});
          subs := subs[stream := list[..i] + list[i + 1..]];
          return true;
        }
      }
      return false;
    }

    /** Detached if it was listed, and closed. */
    method RemoveSubscriber(stream: string, s: Subscriber)
      requires Valid() && (!s.closed ==> !s.stopped && !s.shut)
      requires s in Registered() ==> s in List(stream)
      modifies this`subs, s
      ensures Valid() && s.closed && s !in Registered()
      ensures subs == if s in old(List(stream)) then old(subs)[stream := Minus(old(List(stream)), {s})] else old(subs)
    {
      MinusElems(List(stream), {s});
      var _ := Detach(stream, s);
      assert s !in Registered();
      CloseSubscriber(s);
    }

    lemma ListedOpen(stream: string, s: Subscriber)
      requires Valid() && s in List(stream)
      ensures s in Registered() && s.Open()
    {
    }

    /** The slow-subscriber variant counts and closes only when it was the one to detach it. */
    method DropSlowSubscriber(stream: string, s: Subscriber)
      requires Valid()
      modifies this`subs, this`dropped, s
      ensures Valid() && s.buf == old(s.buf)
      ensures forall other :: other != stream ==> List(other) == old(List(other))
      ensures List(stream) == Minus(old(List(stream)), {s})
      ensures s in old(List(stream)) ==> s.closed && s.shut && s !in Registered() && dropped == old(dropped) + 1
      ensures s !in old(List(stream)) ==> unchanged(s) && dropped == old(dropped) && subs == old(subs)
    {
      MinusElems(List(stream), {s});
      if s in List(stream) { ListedOpen(stream, s); } else { MinusAbsent(List(stream), s); }
      var found := Detach(stream, s);
      if !found { return; }
      assert s !in Registered();
      dropped := dropped + 1;
      CloseSubscriber(s);
    }

    // ----- Publish -----

    /** The subscribers of the list whose buffer is full. */
    ghost function Full(list: seq<Subscriber>): set<Subscriber>
      reads list
    {
      set s | s in list && |s.buf| >= H.SUBSCRIBER_BUFFER_SIZE
    }

    /** The members of `list` that are in `full`, in order. */
    static ghost function Picked(list: seq<Subscriber>, full: set<Subscriber>): seq<Subscriber> {
      if list == [] then [] else
      var init, s := Picked(list[..|list| - 1], full), list[|list| - 1];
      if s in full then init + [s] else init
    }

    static lemma {:induction false} PickedFacts(list: seq<Subscriber>, full: set<Subscriber>)
      requires Distinct(list)
      ensures Distinct(Picked(list, full)) && forall s :: s in Picked(list, full) <==> s in list && s in full
    {
      if list != [] {
        var init, s := list[..|list| - 1], list[|list| - 1];
        PickedFacts(init, full);
        assert list == init + [s];
      }
    }

    /** The buffers of the list once its first `i` subscribers have been offered the message. */
    static ghost predicate Offered(list: seq<Subscriber>, i: nat, m: H.Msg, was: seq<seq<H.Msg>>)
      requires |was| == |list|
      reads list
    {
      && (forall j :: i <= j < |list| ==> list[j].Open() && list[j].buf == was[j])
      && (forall j :: 0 <= j < |list| && j < i ==>
            list[j].Open() && list[j].buf == if |was[j]| < H.SUBSCRIBER_BUFFER_SIZE then was[j] + [m] else was[j])
    }

    /** The fan-out: everybody with room gets the message, the others are returned. */
    method FanOut(list: seq<Subscriber>, m: H.Msg) returns (toDrop: seq<Subscriber>)
      requires Distinct(list) && forall s :: s in list ==> s.Open()
      modifies list
      ensures Distinct(toDrop) && forall s :: s in toDrop <==> s in old(Full(list))
      ensures forall s :: s in list ==>
              s.Open() && s.buf == if s in old(Full(list)) then old(s.buf) else old(s.buf) + [m]
    {
      hide *;
      toDrop := [];
      ghost var full, was := Full(list), Buffers(list);
      FullIs(list);
      NoneOffered(list, m, was);
      for i := 0 to |list|
        invariant toDrop == Picked(list[..i], full) && Offered(list, i, m, was)
      {
        toDrop := OfferNext(list, i, m, was, full, toDrop);
      }
      assert list[..|list|] == list;
      PickedFacts(list, full);
      AllOffered(list, m, was);
      forall s | s in list ensures s.Open() && s.buf == if s in full then old(s.buf) else old(s.buf) + [m] {
        var j :| 0 <= j < |list| && list[j] == s;
        assert was[j] == old(s.buf);
      }
    }

    static ghost function Buffers(list: seq<Subscriber>): (r: seq<seq<H.Msg>>)
      reads list
      ensures |r| == |list| && forall j :: 0 <= j < |r| ==> r[j] == list[j].buf
    {
      seq(|list|, j requires 0 <= j < |list| reads list => list[j].buf)
    }

    lemma FullIs(list: seq<Subscriber>)
      ensures forall j :: 0 <= j < |list| ==> (list[j] in Full(list) <==> |list[j].buf| >= H.SUBSCRIBER_BUFFER_SIZE)
      ensures Full(list) <= set s | s in list
    {
    }

    lemma NoneOffered(list: seq<Subscriber>, m: H.Msg, was: seq<seq<H.Msg>>)
      requires was == Buffers(list) && forall s :: s in list ==> s.Open()
      ensures Offered(list, 0, m, was) && Picked(list[..0], Full(list)) == []
    {
      hide Subscriber.Open;
      assert forall j :: 0 <= j < |list| ==> list[j] in list;
    }

    static lemma AllOffered(list: seq<Subscriber>, m: H.Msg, was: seq<seq<H.Msg>>)
      requires |was| == |list| && Offered(list, |list|, m, was)
      ensures forall j :: 0 <= j < |list| ==>
                list[j].Open() && list[j].buf == if |was[j]| < H.SUBSCRIBER_BUFFER_SIZE then was[j] + [m] else was[j]
    {
    }

    method OfferNext(list: seq<Subscriber>, i: nat, m: H.Msg, ghost was: seq<seq<H.Msg>>, ghost full: set<Subscriber>,
                     prior: seq<Subscriber>) returns (toDrop: seq<Subscriber>)
      requires Distinct(list) && |was| == |list| && i < |list| && prior == Picked(list[..i], full)
      requires list[i] in full <==> |was[i]| >= H.SUBSCRIBER_BUFFER_SIZE
      requires Offered(list, i, m, was)
      modifies list[i]
      ensures toDrop == Picked(list[..i + 1], full) && Offered(list, i + 1, m, was)
    {
      var s := list[i];
      toDrop := prior;
      assert list[..i + 1][..i] == list[..i];
      if s.closed { return; }
      var sent := s.Offer(m);
      if !sent { toDrop := toDrop + [s]; }
    }

    static ghost function SetOf(list: seq<Subscriber>): set<Subscriber> { set s | s in list }

    method DropAll(stream: string, toDrop: seq<Subscriber>)
      requires Valid() && Distinct(toDrop) && forall s :: s in toDrop ==> s in List(stream)
      modifies this`subs, this`dropped, List(stream)
      ensures Valid() && dropped == old(dropped) + |toDrop|
      ensures forall s :: s in toDrop ==> s.closed && s.shut
      ensures forall s :: s in old(List(stream)) ==> s.buf == old(s.buf)
      ensures List(stream) == Minus(old(List(stream)), SetOf(toDrop))
      ensures forall other :: other != stream ==> List(other) == old(List(other))
    {
      hide Valid, Minus, Registered;
      ghost var list := List(stream);
      MinusNone(list);
      assert SetOf(toDrop[..0]) == {};
      for i := 0 to |toDrop|
        invariant Valid() && dropped == old(dropped) + i
        invariant List(stream) == Minus(list, SetOf(toDrop[..i]))
        invariant forall other :: other != stream ==> List(other) == old(List(other))
        invariant forall j :: 0 <= j < i ==> toDrop[j].closed && toDrop[j].shut
        invariant forall s :: s in list ==> s.buf == old(s.buf)
      {
        ghost var before := SetOf(toDrop[..i]);
        MinusElems(list, before);
        MinusUnion(list, before, {toDrop[i]});
        assert toDrop[..i + 1] == toDrop[..i] + [toDrop[i]];
        assert before + {toDrop[i]} == SetOf(toDrop[..i + 1]);
        DropSlowSubscriber(stream, toDrop[i]);
      }
      assert toDrop[..|toDrop|] == toDrop;
    }

    /** Everybody on the stream with room in its buffer gets the message at the end of it; everybody without is removed,
        closed and counted, and gets nothing. Order on the list is kept and other streams see nothing. */
    method Publish(stream: string, m: H.Msg)
      requires Valid()
      modifies this`subs, this`dropped, List(stream)
      ensures Valid()
      ensures closed || stream == "" ==>
              subs == old(subs) && dropped == old(dropped) && forall s :: s in List(stream) ==> unchanged(s)
      ensures !closed && stream != "" ==> List(stream) == Minus(old(List(stream)), old(Full(List(stream))))
      ensures !closed && stream != "" ==> dropped == old(dropped) + |old(Full(List(stream)))|
      ensures forall other :: other != stream ==> List(other) == old(List(other))
      ensures !closed && stream != "" ==> forall s :: s in old(List(stream)) ==>
                s.buf == if s in old(Full(List(stream))) then old(s.buf) else old(s.buf) + [m]
      ensures !closed && stream != "" ==> forall s :: s in old(Full(List(stream))) ==> s.closed && s.shut
    {
      if closed || stream == "" { return; }
      var list := List(stream);
      ghost var full := Full(list);
      var toDrop := FanOutListed(stream, m);
      SetSize(toDrop, full);
      forall s | s in toDrop ensures s in old(List(stream)) { assert s in full; }
      DropAll(stream, toDrop);
    }

    /** The fan-out over a listed stream. */
    method FanOutListed(stream: string, m: H.Msg) returns (toDrop: seq<Subscriber>)
      requires Valid()
      modifies List(stream)
      ensures Valid() && Distinct(toDrop) && forall s :: s in toDrop <==> s in old(Full(List(stream)))
      ensures forall s :: s in List(stream) ==>
              s.buf == if s in old(Full(List(stream))) then old(s.buf) else old(s.buf) + [m]
    {
      var list := List(stream);
      forall s | s in list ensures s.Open() { ListedOpen(stream, s); }
      toDrop := FanOut(list, m);
    }

    // ----- Close -----

    /** Every registered subscriber, list after list. */
    method Gather() returns (all: seq<Subscriber>)
      ensures forall s :: s in all <==> s in Registered()
    {
      all := [];
      var todo := subs.Keys;
      while todo != {}
        invariant todo <= subs.Keys
        invariant forall s :: s in all <==> exists stream :: stream in subs && stream !in todo && s in subs[stream]
      {
        var stream :| stream in todo;
        all, todo := all + subs[stream], todo - {stream};
      }
    }

    /** The first call unregisters and closes everybody; later calls change nothing. */
    method Close()
      requires Valid()
      modifies this`subs, this`closed, Registered()
      ensures Valid() && closed
      ensures old(closed) ==> subs == old(subs) && forall s :: s in old(Registered()) ==> unchanged(s)
      ensures !old(closed) ==> subs == map[] && forall s :: s in old(Registered()) ==>
              s.closed && s.shut && s.buf == old(s.buf)
    {
      if closed { return; }
      closed := true;
      var all := Gather();
      ghost var registered := Registered();
      subs := map[];
      CloseAll(all, registered);
    }

    static method CloseAll(all: seq<Subscriber>, ghost frame: set<Subscriber>)
      requires forall s :: s in all ==> s in frame && s.Open()
      modifies frame
      ensures forall s :: s in all ==> s.closed && s.shut && s.buf == old(s.buf)
    {
      for i := 0 to |all|
        invariant forall s :: s in all ==> s.buf == old(s.buf) && (s.Open() || (s.closed && s.shut))
        invariant forall j :: 0 <= j < i ==> all[j].closed && all[j].shut
      {
        CloseSubscriber(all[i]);
      }
    }
  }

  lemma SetSize(list: seq<Subscriber>, elems: set<Subscriber>)
    requires Distinct(list) && forall s :: s in list <==> s in elems
    ensures Hub.SetOf(list) == elems && |elems| == |list|
    decreases |list|
  {
    if list == [] {
      assert elems == {};
    } else {
      var n := |list| - 1;
      assert list == list[..n] + [list[n]];
      SetSize(list[..n], elems - {list[n]});
    }
  }

  lemma {:induction false} MinusNone(list: seq<Subscriber>)
    ensures Minus(list, {}) == list
  {
    if list != [] {
      MinusNone(list[..|list| - 1]);
      assert list == list[..|list| - 1] + [list[|list| - 1]];
    }
  }
}
