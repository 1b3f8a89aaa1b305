/** The archive writer's batching (cmd/realtime-trigger/runtime_pipeline.go, runArchive). */
module Archive {
  import opened Event
  import opened Options

  const BATCH_SIZE := 50

  /** The events that carry an id, in order; only these are inserted. */
  function WithId(events: seq<Event>): seq<Event> {
    if events == [] then [] else
    var init, e := WithId(events[..|events| - 1]), events[|events| - 1];
    if e.EffectiveAnonymousID() == "" then init else init + [e]
  }

  lemma WithIdAppend(events: seq<Event>, e: Event)
    ensures WithId(events + [e]) == WithId(events) + if e.EffectiveAnonymousID() == "" then [] else [e]
  {
  }

  lemma WithIdNext(done: seq<Event>, b: seq<Event>, i: nat)
    requires i < |b|
    ensures WithId(done + b[..i + 1]) == WithId(done + b[..i]) + if b[i].EffectiveAnonymousID() == "" then []
            else [b[i]]
  {
    assert done + b[..i + 1] == (done + b[..i]) + [b[i]];
    WithIdAppend(done + b[..i], b[i]);
  }

  lemma SplitLast(xs: seq<Event>, ys: seq<Event>)
    requires ys != []
    ensures xs + ys == (xs + ys[..|ys| - 1]) + [ys[|ys| - 1]] && ys == ys[..|ys| - 1] + [ys[|ys| - 1]]
  {
  }

  lemma {:induction false} WithIdConcat(xs: seq<Event>, ys: seq<Event>)
    ensures WithId(xs + ys) == WithId(xs) + WithId(ys)
  {
    if ys == [] {
      assert xs + ys == xs;
    } else {
      hide WithId;
      SplitLast(xs, ys);
      var init, y := ys[..|ys| - 1], ys[|ys| - 1];
      WithIdConcat(xs, init);
      WithIdAppend(xs + init, y);
      WithIdAppend(init, y);
      var tail := if y.EffectiveAnonymousID() == "" then [] else [y];
      assert (WithId(xs) + WithId(init)) + tail == WithId(xs) + (WithId(init) + tail);
    }
  }

  /** `chosen` are the events at the places `at`, in order, and those are just the places of the events that carry an
      anonymous id or a user id. */
  ghost predicate Selects(events: seq<Event>, at: seq<nat>, chosen: seq<Event>) {
    && |chosen| == |at| && (forall i :: 0 <= i < |at| ==> at[i] < |events| && chosen[i] == events[at[i]])
    && (forall i, j :: 0 <= i < j < |at| ==> at[i] < at[j])
    && forall n: nat :: n < |events| ==> (n in at <==> events[n].anonymousID != "" || events[n].userID != "")
  }

  lemma SelectsNone()
    ensures Selects([], [], [])
  {
  }

  /** One more event, selected or passed over. */
  lemma SelectsNext(events: seq<Event>, at: seq<nat>, chosen: seq<Event>, e: Event)
    requires Selects(events, at, chosen)
    ensures (e.anonymousID != "" || e.userID != "") ==> Selects(events + [e], at + [|events|], chosen + [e])
    ensures !(e.anonymousID != "" || e.userID != "") ==> Selects(events + [e], at, chosen)
  {
    var more := events + [e];
    assert |events| !in at;
    assert forall n: nat :: n < |events| ==> more[n] == events[n];
    assert forall n: nat :: n in at + [|events|] <==> n in at || n == |events|;
  }

  lemma {:induction false} WithIdSelects(events: seq<Event>) returns (at: seq<nat>)
    ensures Selects(events, at, WithId(events))
  {
    hide Selects;
    if events == [] {
      at := [];
      SelectsNone();
    } else {
      var init, e := events[..|events| - 1], events[|events| - 1];
      at := WithIdSelects(init);
      assert events == init + [e];
      SelectsNext(init, at, WithId(init), e);
      if e.EffectiveAnonymousID() != "" { at := at + [|init|]; }
    }
  }

  /** What the select loop can see next: an event, the flush timer, or the end. */
  datatype Signal = Arrived(e: Event) | Timer

  /** The events among the first signals. */
  function Events(signals: seq<Signal>): seq<Event> {
    if signals == [] then [] else
    var init, s := Events(signals[..|signals| - 1]), signals[|signals| - 1];
    if s.Arrived? then init + [s.e] else init
  }

  class Archiver {
    var batch: seq<Event>
    var attempted: seq<Event>        // the insert calls made, successful or not
    ghost var received: seq<Event>

    /** Everything received with an id is attempted or pending, in arrival order, and the batch is not full. */
    ghost predicate Valid()
      reads this
    {
      |batch| < BATCH_SIZE && |batch| <= |received| && batch == received[|received| - |batch|..]
        && attempted == WithId(received[..|received| - |batch|])
    }

    constructor ()
      ensures Valid() && received == [] && attempted == [] && batch == []
    {
      batch, attempted, received := [], [], [];
    }

    method Flush(ghost done: seq<Event>)
      requires received == done + batch && attempted == WithId(done)
      modifies this`batch, this`attempted
      ensures batch == [] && attempted == WithId(received) && Valid()
    {
      hide WithId;
      var b := batch;
      assert done + b[..0] == done;
      for i := 0 to |b|
        invariant attempted == WithId(done + b[..i]) && batch == b
      {
        WithIdNext(done, b, i);
        if b[i].EffectiveAnonymousID() == "" { continue; }
        attempted := attempted + [b[i]];
      }
      assert b[..|b|] == b;
      batch := [];
      assert received[..|received|] == received && received[|received|..] == [];
    }

    method Receive(e: Event)
      requires Valid()
      modifies this
      ensures Valid() && received == old(received) + [e]
      ensures attempted == if |old(batch)| + 1 < BATCH_SIZE then old(attempted) else WithId(received)
      ensures batch == if |old(batch)| + 1 < BATCH_SIZE then old(batch) + [e] else []
    {
      ghost var done := received[..|received| - |batch|];
      batch := batch + [e];
      received := received + [e];
      assert received[..|received| - |batch|] == done && received == done + batch;
      if |batch| >= BATCH_SIZE { Flush(done); }
    }

    method Expire()
      requires Valid()
      modifies this
      ensures Valid() && received == old(received) && attempted == WithId(received) && batch == []
    {
      Flush(received[..|received| - |batch|]);
    }

    /** Attempts and pending events together are what was received. */
    lemma AttemptedThenPending()
      requires Valid()
      ensures attempted + WithId(batch) == WithId(received)
    {
      var done := received[..|received| - |batch|];
      assert received == done + batch;
      WithIdConcat(done, batch);
    }
  }

  /** The whole loop, to shutdown: every received event with an id is attempted exactly once, in arrival order. */
  method RunArchive(signals: seq<Signal>) returns (attempted: seq<Event>, ghost at: seq<nat>)
    ensures attempted == WithId(Events(signals)) && Selects(Events(signals), at, attempted)
  {
    var a := new Archiver();
    for i := 0 to |signals|
      invariant fresh(a) && a.Valid() && a.received == Events(signals[..i])
    {
      assert signals[..i + 1][..i] == signals[..i];
      match signals[i] {
        case Arrived(e) => a.Receive(e);
        case Timer => a.Expire();
      }
    }
    assert signals[..|signals|] == signals;
    a.Expire();
    at := WithIdSelects(Events(signals));
    attempted := a.attempted;
  }
}
