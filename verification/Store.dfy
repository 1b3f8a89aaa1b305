/** The sharded window store (internal/window/store.go), each public call run on its own. */
module Store {
  import opened Event
  import opened Window
  import opened Lru
  import opened Options
  import opened Snapshots

  const SHARD_COUNT := 16
  const DEFAULT_MAX_WINDOWS := 5000
  const PRUNED_BUFFER := 256

  /** A non-blocking send on the buffered channel of pruned ids. */
  function Announced(pruned: seq<string>, id: string): seq<string> {
    if |pruned| < PRUNED_BUFFER then pruned + [id] else pruned
  }

  /** The sends for `ids` in turn: as many as the channel has room for, from the front. */
  function AnnouncedAll(pruned: seq<string>, ids: seq<string>): seq<string> {
    if |pruned| + |ids| <= PRUNED_BUFFER then pruned + ids
    else if |pruned| < PRUNED_BUFFER then pruned + ids[..PRUNED_BUFFER - |pruned|] else pruned
  }

  lemma AnnouncedNext(pruned: seq<string>, ids: seq<string>, id: string)
    ensures AnnouncedAll(pruned, ids + [id]) == Announced(AnnouncedAll(pruned, ids), id)
  {
  }

  class Store {
    const hash: string -> nat
    const maxWindows: nat
    var shards: seq<map<string, UserWindow>>
    var active: int
    var pruned: seq<string>

    /** Every window sits in the shard its id hashes to, under its own id. */
    ghost predicate Shaped()
      reads this`shards
    {
      && |shards| == SHARD_COUNT
      && forall i, id :: 0 <= i < SHARD_COUNT && id in shards[i] ==> ShardOf(id) == i && shards[i][id].anonID == id
    }

    function ShardOf(id: string): nat { hash(id) % SHARD_COUNT }

    ghost function Resident(): set<string>
      reads this`shards
      requires Shaped()
    {
      set i, id | 0 <= i < SHARD_COUNT && id in shards[i] :: id
    }

    ghost function Windows(): set<UserWindow>
      reads this`shards
      requires Shaped()
    {
      set i, id | 0 <= i < SHARD_COUNT && id in shards[i] :: shards[i][id]
    }

    /** The flat map the shards stand for. */
    ghost function Contents(): map<string, Win>
      reads this`shards, Windows()
      requires Shaped()
    {
      map id | id in Resident() :: shards[ShardOf(id)][id].View()
    }

    /** The counter mirrors the number of windows, which never exceeds the cap. */
    ghost predicate Valid()
      reads this`shards, this`active
    {
      Shaped() && 0 < maxWindows && active == |Resident()| && active <= maxWindows
    }

    constructor (maxWindows: int, hash: string -> nat)
      ensures Valid() && Contents() == map[] && Windows() == {} && pruned == [] && this.hash == hash
      ensures this.maxWindows == if maxWindows <= 0 then DEFAULT_MAX_WINDOWS else maxWindows
    {
      this.maxWindows := if maxWindows <= 0 then DEFAULT_MAX_WINDOWS else maxWindows;
      this.hash := hash;
      shards := seq(SHARD_COUNT, _ => map[]);
      active := 0;
      pruned := [];
    }

    /** The window for `id`, if it is resident. */
    method Find(id: string) returns (w: UserWindow?)
      requires Shaped()
      ensures w != null <==> id in Resident()
      ensures w != null ==> w == shards[ShardOf(id)][id] && w in Windows()
    {
      var sh := shards[ShardOf(id)];
      w := if id in sh then sh[id] else null;
    }

    /** Scans all shards for a least recently touched window. */
    method ScanOldest() returns (found: bool, victim: string)
      requires Shaped()
      ensures found <==> Resident() != {}
      ensures found ==> IsOldest(Contents(), victim)
    {
      found, victim := false, "";
      var oldest := 0;
      for i := 0 to SHARD_COUNT
        invariant found ==> victim in Resident() && Contents()[victim].touched == oldest
        invariant forall j, id :: 0 <= j < i && id in shards[j] ==> found && oldest <= shards[j][id].touched
      {
        var todo := shards[i].Keys;
        while todo != {}
          invariant todo <= shards[i].Keys
          invariant found ==> victim in Resident() && Contents()[victim].touched == oldest
          invariant forall j, id :: 0 <= j < i && id in shards[j] ==> found && oldest <= shards[j][id].touched
          invariant forall id :: id in shards[i].Keys - todo ==> found && oldest <= shards[i][id].touched
        {
          var id :| id in todo;
          if !found || shards[i][id].touched < oldest {
            found, victim, oldest := true, id, shards[i][id].touched;
          }
          todo := todo - {id};
        }
      }
    }

    lemma ResidentHere(id: string)
      requires Shaped()
      ensures id in Contents() <==> id in Resident()
    {
    }

    lemma ResidentIff(id: string)
      requires Shaped()
      ensures id in Resident() <==> id in shards[ShardOf(id)]
    {
    }

    /** Deletes a window, decrements the counter and announces the id if the channel has room. */
    method Remove(id: string)
      requires Shaped() && id in Resident()
      modifies this`shards, this`active, this`pruned
      ensures Shaped() && Windows() <= old(Windows())
      ensures Resident() == old(Resident()) - {id} && active == old(active) - 1
      ensures Contents() == old(Contents()) - {id}
      ensures pruned == Announced(old(pruned), id)
    {
      var s := ShardOf(id);
      shards := shards[s := shards[s] - {id}];
      active := active - 1;
      pruned := Announced(pruned, id);
      hide UserWindow.View, Announced;
      OneFewer(id);
      OthersStay(id);
    }

    twostate lemma OneFewer(id: string)
      requires old(Shaped()) && id in old(Resident())
      requires shards == old(shards)[ShardOf(id) := old(shards)[ShardOf(id)] - {id}]
      ensures Shaped() && Resident() == old(Resident()) - {id} && Windows() <= old(Windows())
    {
      forall k ensures k in Resident() <==> k in old(Resident()) && k != id { ResidentIff(k); }
    }

    twostate lemma OthersStay(id: string)
      requires old(Shaped()) && Shaped() && unchanged(old(Windows())) && Resident() == old(Resident()) - {id}
      requires shards == old(shards)[ShardOf(id) := old(shards)[ShardOf(id)] - {id}]
      ensures Contents() == old(Contents()) - {id}
    {
      hide UserWindow.View;
    }

    twostate lemma Unmoved()
      requires old(Shaped()) && unchanged(this`shards) && unchanged(old(Windows()))
      ensures Shaped() && Contents() == old(Contents()) && Resident() == old(Resident()) && Windows() == old(Windows())
    {
      hide UserWindow.View;
    }

    /** Removes a least recently touched window; false when there is none. */
    method EvictGlobalOldest() returns (evicted: bool, ghost victim: string)
      requires Shaped() && active == |Resident()|
      modifies this`shards, this`active, this`pruned
      ensures Shaped() && active == |Resident()| && Windows() <= old(Windows())
      ensures evicted <==> old(Resident()) != {}
      ensures active == old(active) - if evicted then 1 else 0
      ensures !evicted ==> Contents() == old(Contents()) && pruned == old(pruned)
      ensures evicted ==> IsOldest(old(Contents()), victim) && Contents() == old(Contents()) - {victim}
      ensures evicted ==> pruned == Announced(old(pruned), victim)
    {
      hide UserWindow.View, IsOldest, Announced, Contents;
      var id;
      evicted, id := ScanOldest();
      Unmoved();
      victim := id;
      if evicted {
        OldestIsIn(Contents(), id);
        ResidentHere(id);
        Remove(id);
      }
    }

    method TouchResident(id: string, w: UserWindow, e: Event, receivedAt: int, fallback: int, clock: int)
      requires Shaped() && id in Resident() && w == shards[ShardOf(id)][id] && w in Windows()
      modifies w
      ensures Shaped()
      ensures Contents() == old(Contents())[id := Fold1(old(Contents()[id]), Arrival(e, receivedAt, fallback, clock))]
    {
      hide Fold1, UserWindow.View;
      w.Apply(e, receivedAt, fallback, clock);
      forall k | k in Resident() && k != id ensures Contents()[k] == old(Contents()[k]) {
        assert shards[ShardOf(k)][k] != w;
      }
    }

    method Insert(id: string, e: Event, receivedAt: int, fallback: int, created: int, clock: int)
      requires Shaped() && id !in Resident() && active == |Resident()|
      modifies this`shards, this`active
      ensures Shaped() && active == |Resident()| == old(active) + 1
      ensures fresh(Windows() - old(Windows()))
      ensures Contents() == old(Contents())[id := Fold1(NewWin(id, created), Arrival(e, receivedAt, fallback, clock))]
    {
      hide UserWindow.View, Fold1, NewWin, Contents;
      var w := Opened(id, e, receivedAt, fallback, created, clock);
      Unmoved();
      Place(id, w);
    }

    /** A new window with one event applied to it. */
    method Opened(id: string, e: Event, receivedAt: int, fallback: int, created: int,
                  clock: int) returns (w: UserWindow)
      ensures fresh(w) && w.anonID == id
              && w.View() == Fold1(NewWin(id, created), Arrival(e, receivedAt, fallback, clock))
    {
      hide Fold1, NewWin, UserWindow.View;
      w := new UserWindow(id, created);
      w.Apply(e, receivedAt, fallback, clock);
    }

    /** Stores a window under its id and counts it. */
    method Place(id: string, w: UserWindow)
      requires Shaped() && id !in Resident() && w.anonID == id
      modifies this`shards, this`active
      ensures Shaped() && Resident() == old(Resident()) + {id} && active == old(active) + 1
      ensures Windows() <= old(Windows()) + {w}
      ensures Contents() == old(Contents())[id := w.View()]
    {
      hide UserWindow.View;
      var s := ShardOf(id);
      shards, active := shards[s := shards[s][id := w]], active + 1;
      forall k ensures k in Resident() <==> k in old(Resident()) || k == id {
        ResidentIff(k);
      }
      assert Resident() == old(Resident()) + {id};
      SameWindows(id, w);
    }

    twostate lemma SameWindows(id: string, new w: UserWindow)
      requires old(Shaped()) && Shaped() && unchanged(old(Windows())) && Resident() == old(Resident()) + {id}
      requires id !in old(Resident()) && shards == old(shards)[ShardOf(id) := old(shards)[ShardOf(id)][id := w]]
      ensures Contents() == old(Contents())[id := w.View()]
    {
      hide UserWindow.View;
    }

    /** The cap loop of a new window; it stops after at most one eviction. */
    method MakeRoom() returns (ghost victim: string)
      requires Valid()
      modifies this`shards, this`active, this`pruned
      ensures Shaped() && active == |Resident()| < maxWindows && Windows() <= old(Windows())
      ensures Resident() <= old(Resident())
      ensures if old(active) < maxWindows then Contents() == old(Contents()) && pruned == old(pruned)
              else IsOldest(old(Contents()), victim) && Contents() == old(Contents()) - {victim}
                   && pruned == Announced(old(pruned), victim)
    {
      hide UserWindow.View, IsOldest, Announced;
      victim := "";
      while active >= maxWindows
        invariant Shaped() && active == |Resident()| && Windows() <= old(Windows())
        invariant active == old(active) ==> Contents() == old(Contents()) && pruned == old(pruned)
        invariant active != old(active) ==> old(active) == maxWindows == active + 1
        invariant active != old(active) ==>
                  IsOldest(old(Contents()), victim) && Contents() == old(Contents()) - {victim}
        invariant active != old(active) ==> pruned == Announced(old(pruned), victim)
      {
        var evicted;
        evicted, victim := EvictGlobalOldest();
        if !evicted { break; }
      }
      assert Resident() == Contents().Keys;
    }

    /** The path of an id that has no window yet. */
    method UpdateNew(id: string, e: Event, receivedAt: int, fallback: int, created: int, clock: int)
      requires Valid() && id == e.EffectiveAnonymousID() != "" && id !in Resident()
      modifies this`shards, this`active, this`pruned
      ensures Valid()
      ensures fresh(Windows() - old(Windows()))
      ensures MapStep(old(Contents()), maxWindows, Arrival(e, receivedAt, fallback, clock), Contents())
      ensures EvictionAnnounced(old(Contents()), Contents(), old(pruned), pruned)
    {
      hide Fold1, UserWindow.View, IsOldest, NewWin, MapStep, EvictionAnnounced, Announced;
      ghost var m, a, sent := Contents(), Arrival(e, receivedAt, fallback, clock), pruned;
      assert |m| == active by { assert m.Keys == Resident(); }
      ghost var victim := MakeRoom();
      NewIsStep(m, maxWindows, a, created, victim, Contents(), sent, pruned);
      Insert(id, e, receivedAt, fallback, created, clock);
    }

    /** The path of an id whose window is resident. */
    method UpdateResident(id: string, w: UserWindow, e: Event, receivedAt: int, fallback: int, clock: int)
      requires Valid() && id == e.EffectiveAnonymousID() != ""
      requires id in Resident() && w == shards[ShardOf(id)][id] && w in Windows()
      modifies w
      ensures MapStep(old(Contents()), maxWindows, Arrival(e, receivedAt, fallback, clock), Contents())
      ensures EvictionAnnounced(old(Contents()), Contents(), pruned, pruned)
    {
      hide Fold1, UserWindow.View, MapStep, EvictionAnnounced;
      NoEviction(Contents(), Arrival(e, receivedAt, fallback, clock), maxWindows, pruned);
      TouchResident(id, w, e, receivedAt, fallback, clock);
    }

    /** Applies one event to the window of its user, creating the window and making room for it when needed. */
    method Update(e: Event, receivedAt: int, fallback: int, created: int, clock: int)
      requires Valid()
      modifies this, Windows()
      ensures Valid()
      ensures fresh(Windows() - old(Windows()))
      ensures MapStep(old(Contents()), maxWindows, Arrival(e, receivedAt, fallback, clock), Contents())
      ensures EvictionAnnounced(old(Contents()), Contents(), old(pruned), pruned)
    {
      hide UserWindow.View, Fold1, MapStep, EvictionAnnounced;
      var id := e.EffectiveAnonymousID();
      if id == "" {
        NoEviction(Contents(), Arrival(e, receivedAt, fallback, clock), maxWindows, pruned);
        return;
      }
      ResidentIff(id);
      if id in shards[ShardOf(id)] {
        UpdateResident(id, shards[ShardOf(id)][id], e, receivedAt, fallback, clock);
      } else {
        UpdateNew(id, e, receivedAt, fallback, created, clock);
      }
    }

    /** Drops the windows last seen before `cutoff` and keeps all others; `gone` lists the dropped ids in the order in
        which they were announced. */
    method Prune(cutoff: int) returns (removed: nat, ghost gone: seq<string>)
      requires Valid()
      modifies this`shards, this`active, this`pruned
      ensures Valid() && Windows() <= old(Windows())
      ensures Contents() == Kept(old(Contents()), old(Contents()).Keys, cutoff)
      ensures removed == old(active) - active == |gone|
      ensures NoRepeats(gone) && forall id :: id in gone <==> id in old(Contents()) && id !in Contents()
      ensures pruned == AnnouncedAll(old(pruned), gone)
    {
      hide UserWindow.View, Announced, AnnouncedAll, NoRepeats;
      ghost var m, done := Contents(), {};
      removed, gone := 0, [];
      NothingDropped(m, cutoff, pruned);
      for i := 0 to SHARD_COUNT
        invariant Shaped() && active == |Resident()| && Windows() <= old(Windows())
        invariant Contents() == Kept(m, done, cutoff) && Dropped(m, done, cutoff, gone)
        invariant done == set id | id in m && ShardOf(id) < i
        invariant removed == old(active) - active == |gone| && pruned == AnnouncedAll(old(pruned), gone)
      {
        var n;
        n, gone := PruneShard(i, cutoff, m, done, gone, old(pruned));
        removed := removed + n;
        done := done + set id | id in m && ShardOf(id) == i;
      }
      assert done == m.Keys;
    }

    method PruneShard(i: nat, cutoff: int, ghost m: map<string, Win>, ghost before: set<string>,
                      ghost prior: seq<string>,
                      ghost start: seq<string>) returns (removed: nat, ghost gone: seq<string>)
      requires Shaped() && active == |Resident()| && i < SHARD_COUNT
      requires Contents() == Kept(m, before, cutoff) && Dropped(m, before, cutoff, prior)
      requires before == (set id | id in m && ShardOf(id) < i) && pruned == AnnouncedAll(start, prior)
      modifies this`shards, this`active, this`pruned
      ensures Shaped() && active == |Resident()| && Windows() <= old(Windows())
      ensures var done := before + (set id | id in m && ShardOf(id) == i);
              Contents() == Kept(m, done, cutoff) && Dropped(m, done, cutoff, gone)
      ensures removed == old(active) - active == |gone| - |prior| && pruned == AnnouncedAll(start, gone)
    {
      hide UserWindow.View, Kept, Dropped, AnnouncedAll;
      ShardKeys(i, cutoff, m, before);
      removed, gone := PruneIds(shards[i].Keys, cutoff, m, before, prior, start);
    }

    method PruneIds(ids: set<string>, cutoff: int, ghost m: map<string, Win>, ghost before: set<string>,
                    ghost prior: seq<string>, ghost start: seq<string>) returns (removed: nat, ghost gone: seq<string>)
      requires Shaped() && active == |Resident()|
      requires Contents() == Kept(m, before, cutoff) && Dropped(m, before, cutoff, prior)
      requires ids !! before && ids <= m.Keys && pruned == AnnouncedAll(start, prior)
      modifies this`shards, this`active, this`pruned
      ensures Shaped() && active == |Resident()| && Windows() <= old(Windows())
      ensures Contents() == Kept(m, before + ids, cutoff) && Dropped(m, before + ids, cutoff, gone)
      ensures removed == old(active) - active == |gone| - |prior| && pruned == AnnouncedAll(start, gone)
    {
      hide *;
      removed, gone := 0, prior;
      var todo := ids;
      ghost var done := before;
      while todo != {}
        invariant Shaped() && active == |Resident()| && Windows() <= old(Windows())
        invariant Contents() == Kept(m, done, cutoff) && Dropped(m, done, cutoff, gone)
        invariant todo <= ids && todo !! done && done + todo == before + ids
        invariant removed == old(active) - active == |gone| - |prior| && pruned == AnnouncedAll(start, gone)
      {
        var id :| id in todo;
        var stale := PruneOne(id, cutoff, m, done);
        DropStep(m, done, cutoff, gone, id);
        AnnouncedNext(start, gone, id);
        if stale { removed, gone := removed + 1, gone + [id]; }
        todo, done := todo - {id}, done + {id};
      }
      assert done == before + ids;
    }

    lemma ShardKeys(i: nat, cutoff: int, m: map<string, Win>, before: set<string>)
      requires Shaped() && i < SHARD_COUNT && Contents() == Kept(m, before, cutoff)
      requires before == set id | id in m && ShardOf(id) < i
      ensures shards[i].Keys == set id | id in m && ShardOf(id) == i
    {
      hide UserWindow.View;
      forall id ensures id in shards[i] <==> id in m && ShardOf(id) == i {
        ResidentIff(id);
        assert id in Resident() <==> id in Contents();
      }
    }

    method PruneOne(id: string, cutoff: int, ghost m: map<string, Win>, ghost done: set<string>) returns (stale: bool)
      requires Shaped() && active == |Resident()| && Contents() == Kept(m, done, cutoff)
      requires id in m && id !in done
      modifies this`shards, this`active, this`pruned
      ensures Shaped() && active == |Resident()| && Windows() <= old(Windows())
      ensures Contents() == Kept(m, done + {id}, cutoff) && (stale <==> m[id].lastSeen < cutoff)
      ensures active == old(active) - if stale then 1 else 0
      ensures pruned == if stale then Announced(old(pruned), id) else old(pruned)
    {
      hide UserWindow.View, Announced;
      hide *;
      KeptStep(m, done, id, cutoff);
      ResidentHere(id);
      stale := LastSeen(id) < cutoff;
      if stale { Remove(id); }
    }

    /** The view of one user's window. */
    method Snapshot(id: string, now: int) returns (r: Option<Snapshot>)
      requires Valid()
      ensures r == if id != "" && id in Contents() then Some(TakeAt(Contents()[id], now)) else None
    {
      hide UserWindow.View, TakeAt;
      if id == "" { return None; }
      var w := Find(id);
      r := if w == null then None else Some(TakeAt(w.View(), now));
    }

    /** Views of exactly the windows idle for at least `least`, each once. */
    method ScanIdle(least: int, now: int) returns (out: seq<Snapshot>)
      requires Valid()
      ensures IdleViews(Contents(), Contents().Keys, least, now, out)
    {
      hide UserWindow.View, IdleViews;
      out := [];
      ghost var seen := {};
      NoViews(Contents(), least, now);
      for i := 0 to SHARD_COUNT
        invariant IdleViews(Contents(), seen, least, now, out)
        invariant seen == set id | id in Contents() && ShardOf(id) < i
      {
        ContentsOfShard(i);
        out := ScanIds(shards[i].Keys, least, now, seen, out);
        seen := seen + shards[i].Keys;
      }
      assert seen == Contents().Keys;
    }

    method ScanIds(ids: set<string>, least: int, now: int, ghost before: set<string>, prior: seq<Snapshot>)
      returns (out: seq<Snapshot>)
      requires Shaped() && ids <= Resident() && ids !! before && IdleViews(Contents(), before, least, now, prior)
      ensures IdleViews(Contents(), before + ids, least, now, out)
    {
      hide UserWindow.View, IdleViews, TakeAt;
      out := prior;
      var todo := ids;
      ghost var seen := before;
      while todo != {}
        invariant todo <= ids && todo !! seen && seen + todo == before + ids
        invariant IdleViews(Contents(), seen, least, now, out)
      {
        var id :| id in todo;
        ContentsId(id);
        IdleStep(Contents(), seen, least, now, out, id);
        if now - LastSeen(id) >= least {
          out := out + [TakeAt(shards[ShardOf(id)][id].View(), now)];
        }
        todo, seen := todo - {id}, seen + {id};
      }
      assert seen == before + ids;
    }

    lemma ContentsOfShard(i: nat)
      requires Shaped() && i < SHARD_COUNT
      ensures shards[i].Keys == set id | id in Contents() && ShardOf(id) == i
    {
    }

    lemma ContentsId(id: string)
      requires Shaped() && id in Resident()
      ensures id in Contents() && Contents()[id].anonID == id
    {
    }

    /** Drops every window. */
    method Reset() returns (total: nat)
      requires Valid()
      modifies this`shards, this`active
      ensures Valid() && Resident() == {} && total == old(active)
    {
      total := 0;
      for i := 0 to SHARD_COUNT
        invariant Shaped() && total + |Resident()| == old(active)
        invariant forall j :: 0 <= j < i ==> shards[j] == map[]
      {
        var n := ClearShard(i);
        total := total + n;
      }
      assert Resident() == {};
      active := 0;
    }

    method ClearShard(i: nat) returns (n: nat)
      requires Shaped() && i < SHARD_COUNT
      modifies this`shards
      ensures Shaped() && shards == old(shards)[i := map[]] && n + |Resident()| == |old(Resident())|
    {
      n := |shards[i]|;
      ghost var mine := shards[i].Keys;
      assert mine <= Resident();
      shards := shards[i := map[]];
      forall id ensures id in Resident() <==> id in old(Resident()) && id !in mine { ResidentIff(id); }
      assert Resident() == old(Resident()) - mine;
    }

    function LastSeen(id: string): (t: int)
      requires Shaped() && id in Resident()
      reads this`shards, Windows()
      ensures t == Contents()[id].lastSeen
    {
      shards[ShardOf(id)][id].lastSeen
    }
  }

  /** The update loop on a fresh store: whatever the log, with clock readings that strictly increase, the resident ids
      are the `maxWindows` most recently updated ones and each window is the fold of the arrivals since it was created.
      */
  method UpdateAll(maxWindows: int, hash: string -> nat, log: seq<Arrival>) returns (s: Store)
    requires forall i, j :: 0 <= i < j < |log| ==> log[i].touched < log[j].touched
    ensures s.Valid() && fresh(s) && fresh(s.Windows())
    ensures s.Contents().Keys == Elems(Top(Recent(log), s.maxWindows))
    ensures forall id :: id in s.Contents() ==>
      s.Contents()[id] == Fold(NewWin(id, 0), SinceCreation(log, id, s.maxWindows))
  {
    hide UserWindow.View, Fold1, MapStep, IsOldest, Represents;
    s := new Store(maxWindows, hash);
    ghost var cap := s.maxWindows;
    assert Represents(map[], FlatRun([], cap)) by { EmptyRun(cap); }
    for i := 0 to |log|
      invariant s.Valid() && fresh(s) && fresh(s.Windows()) && s.maxWindows == cap
      invariant Represents(s.Contents(), FlatRun(log[..i], cap))
      invariant OlderThan(s.Contents(), log, i)
    {
      UpdateNext(s, log, i);
    }
    assert log[..|log|] == log;
    RunHoldsMostRecent(log, cap);
    RepresentedWins(s.Contents(), FlatRun(log, cap));
    forall id | id in s.Contents() { RunFoldsSinceCreation(log, cap, id); }
  }

  /** One turn of the update loop. */
  method UpdateNext(s: Store, log: seq<Arrival>, i: nat)
    requires s.Valid() && i < |log| && forall i, j :: 0 <= i < j < |log| ==> log[i].touched < log[j].touched
    requires Represents(s.Contents(), FlatRun(log[..i], s.maxWindows)) && OlderThan(s.Contents(), log, i)
    modifies s, s.Windows()
    ensures s.Valid() && fresh(s.Windows() - old(s.Windows()))
    ensures Represents(s.Contents(), FlatRun(log[..i + 1], s.maxWindows)) && OlderThan(s.Contents(), log, i + 1)
  {
    hide UserWindow.View, Fold1, MapStep, IsOldest, Represents, OlderThan;
    var a := log[i];
    ghost var m := s.Contents();
    assert |m| <= s.maxWindows by { assert m.Keys == s.Resident(); }
    s.Update(a.event, a.receivedAt, a.fallback, a.touched, a.touched);
    RunStep(m, log, i, s.maxWindows, s.Contents());
  }

  /** `out` holds one view of every window of `ids` idle for at least `least`, and nothing else. */
  ghost predicate IdleViews(m: map<string, Win>, ids: set<string>, least: int, now: int, out: seq<Snapshot>) {
    && (forall id :: id in ids && id in m && now - m[id].lastSeen >= least ==> TakeAt(m[id], now) in out)
    && (forall s :: s in out ==>
          && s.anonID in ids && s.anonID in m && now - m[s.anonID].lastSeen >= least
          && s == TakeAt(m[s.anonID], now))
    && (forall i, j :: 0 <= i < j < |out| ==> out[i].anonID != out[j].anonID)
  }

  lemma NoViews(m: map<string, Win>, least: int, now: int)
    ensures IdleViews(m, {}, least, now, [])
  {
  }

  lemma IdleStep(m: map<string, Win>, ids: set<string>, least: int, now: int, out: seq<Snapshot>, id: string)
    requires IdleViews(m, ids, least, now, out) && id !in ids && id in m && m[id].anonID == id
    ensures IdleViews(m, ids + {id}, least, now,
              if now - m[id].lastSeen >= least then out + [TakeAt(m[id], now)] else out)
  {
    assert TakeAt(m[id], now).anonID == id;
    hide TakeAt;
  }

  /** `m` without the windows of `done` last seen before `cutoff`. */
  ghost function Kept(m: map<string, Win>, done: set<string>, cutoff: int): map<string, Win> {
    map id | id in m && (id in done ==> m[id].lastSeen >= cutoff) :: m[id]
  }

  lemma KeptStep(m: map<string, Win>, done: set<string>, id: string, cutoff: int)
    requires id in m && id !in done
    ensures id in Kept(m, done, cutoff) && Kept(m, done, cutoff)[id] == m[id]
    ensures Kept(m, done + {id}, cutoff) == Kept(m, done, cutoff) - if m[id].lastSeen < cutoff then {id} else {}
  {
  }

  ghost predicate NoRepeats(ids: seq<string>) { forall i, j :: 0 <= i < j < |ids| ==> ids[i] != ids[j] }

  /** `gone` lists each window of `done` last seen before `cutoff` once. */
  ghost predicate Dropped(m: map<string, Win>, done: set<string>, cutoff: int, gone: seq<string>) {
    NoRepeats(gone) && forall id :: id in gone <==> id in m && id in done && m[id].lastSeen < cutoff
  }

  lemma NothingDropped(m: map<string, Win>, cutoff: int, pruned: seq<string>)
    ensures Kept(m, {}, cutoff) == m && Dropped(m, {}, cutoff, [])
    ensures AnnouncedAll(pruned, []) == pruned
  {
  }

  lemma DropStep(m: map<string, Win>, done: set<string>, cutoff: int, gone: seq<string>, id: string)
    requires Dropped(m, done, cutoff, gone) && id in m && id !in done
    ensures Dropped(m, done + {id}, cutoff, if m[id].lastSeen < cutoff then gone + [id] else gone)
  {
  }

  lemma OldestIsIn(m: map<string, Win>, id: string)
    requires IsOldest(m, id)
    ensures id in m
  {
  }

  lemma RoomAnnounced(m: map<string, Win>, id: string, victim: string, m': map<string, Win>, full: bool,
                      pruned: seq<string>, pruned': seq<string>)
    requires id !in m && m'.Keys == (if full then m.Keys - {victim} else m.Keys) + {id}
    requires if full then victim in m && pruned' == Announced(pruned, victim) else pruned' == pruned
    ensures EvictionAnnounced(m, m', pruned, pruned')
  {
    hide Announced;
    if full { assert victim in m.Keys && victim !in m'.Keys; }
  }

  lemma NewIsStep(m: map<string, Win>, cap: nat, a: Arrival, created: int, victim: string, room: map<string, Win>,
                  pruned: seq<string>, pruned': seq<string>)
    requires Id(a) != "" && Id(a) !in m
    requires if |m| < cap then room == m && pruned' == pruned
             else IsOldest(m, victim) && room == m - {victim} && pruned' == Announced(pruned, victim)
    ensures var m' := room[Id(a) := Fold1(NewWin(Id(a), created), a)];
            MapStep(m, cap, a, m') && EvictionAnnounced(m, m', pruned, pruned')
  {
    assert |m| >= cap ==> victim in m;
    hide *;
    InsertIsStep(m, cap, a, created, victim, room);
    NewAnnounces(m, cap, Id(a), Fold1(NewWin(Id(a), created), a), victim, room, pruned, pruned');
  }

  lemma NewAnnounces(m: map<string, Win>, cap: nat, id: string, w: Win, victim: string, room: map<string, Win>,
                     pruned: seq<string>, pruned': seq<string>)
    requires id !in m
    requires if |m| < cap then room == m && pruned' == pruned
             else victim in m && room == m - {victim} && pruned' == Announced(pruned, victim)
    ensures EvictionAnnounced(m, room[id := w], pruned, pruned')
  {
    hide Announced;
    assert room[id := w].Keys == room.Keys + {id};
    RoomAnnounced(m, id, victim, room[id := w], |m| >= cap, pruned, pruned');
  }

  /** An event without an id changes nothing; one for a resident window pushes none out. */
  lemma NoEviction(m: map<string, Win>, a: Arrival, cap: nat, pruned: seq<string>)
    ensures Id(a) == "" ==> MapStep(m, cap, a, m) && EvictionAnnounced(m, m, pruned, pruned)
    ensures Id(a) != "" && Id(a) in m ==>
              var m' := m[Id(a) := Fold1(m[Id(a)], a)];
                  MapStep(m, cap, a, m') && EvictionAnnounced(m, m', pruned, pruned)
  {
    hide Fold1;
  }

  /** An update that pushes a window out announces it, and no other update announces anything. */
  ghost predicate EvictionAnnounced(m: map<string, Win>, m': map<string, Win>, pruned: seq<string>,
                                    pruned': seq<string>) {
    && (m.Keys <= m'.Keys ==> pruned' == pruned)
    && (forall id :: id in m && id !in m' ==> pruned' == Announced(pruned, id))
  }
}
