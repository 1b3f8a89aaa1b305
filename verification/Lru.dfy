/** The window cache as a flat LRU list, and what it holds after any run of updates. */
module Lru {
  import opened Event
  import opened Window

  function Id(a: Arrival): string { a.event.EffectiveAnonymousID() }

  // ----- Lists of distinct ids -----

  datatype List = Nil | Cons(head: string, tail: List)

  function Elems(ids: List): set<string> {
    match ids case Nil => {} case Cons(x, rest) => {x} + Elems(rest)
  }

  function Length(ids: List): nat {
    match ids case Nil => 0 case Cons(_, rest) => 1 + Length(rest)
  }

  predicate Distinct(ids: List) {
    ids.Cons? ==> ids.head !in Elems(ids.tail) && Distinct(ids.tail)
  }

  function Without(ids: List, id: string): List {
    match ids
    case Nil => Nil
    case Cons(x, rest) => if x == id then Without(rest, id) else Cons(x, Without(rest, id))
  }

  function Top(ids: List, n: nat): List {
    if n == 0 || ids.Nil? then Nil else Cons(ids.head, Top(ids.tail, n - 1))
  }

  lemma WithoutElems(ids: List, id: string)
    ensures Elems(Without(ids, id)) == Elems(ids) - {id}
    ensures id !in Elems(ids) ==> Without(ids, id) == ids
  {
  }

  lemma {:induction false} WithoutDistinct(ids: List, id: string)
    requires Distinct(ids)
    ensures Distinct(Without(ids, id))
    ensures Length(Without(ids, id)) == Length(ids) - if id in Elems(ids) then 1 else 0
  {
    if ids.Cons? {
      WithoutDistinct(ids.tail, id);
      WithoutElems(ids.tail, id);
    }
  }

  lemma {:induction false} TopElems(ids: List, n: nat)
    ensures Elems(Top(ids, n)) <= Elems(ids)
    ensures Distinct(ids) ==> Distinct(Top(ids, n))
    ensures Length(ids) <= n ==> Top(ids, n) == ids
    ensures Length(Top(ids, n)) <= n
  {
    if ids.Cons? && n > 0 {
      TopElems(ids.tail, n - 1);
    }
  }

  /** Cutting before or after the removal makes no difference to the first `n` ids. */
  lemma {:induction false} TopWithout(ids: List, id: string, n: nat)
    requires Distinct(ids)
    ensures Top(Without(Top(ids, n + 1), id), n) == Top(Without(ids, id), n)
  {
    if ids.Cons? && n > 0 {
      if ids.head == id {
        WithoutElems(ids.tail, id);
        TopElems(ids.tail, n);
        WithoutElems(Top(ids.tail, n), id);
        TopTwice(ids.tail, n);
      } else {
        TopWithout(ids.tail, id, n - 1);
      }
    }
  }

  lemma {:induction false} TopTwice(ids: List, n: nat)
    ensures Top(Top(ids, n), n) == Top(ids, n)
  {
    if ids.Cons? && n > 0 {
      TopTwice(ids.tail, n - 1);
    }
  }

  lemma {:induction false} DistinctSize(ids: List)
    requires Distinct(ids)
    ensures |Elems(ids)| == Length(ids)
  {
    if ids.Cons? {
      DistinctSize(ids.tail);
    }
  }

  // ----- The reference -----

  /** Ids most recently updated first, with their windows. */
  datatype Flat = Flat(order: List, wins: map<string, Win>)

  /** The window for the arrival's id once the arrival is folded in. */
  function Updated(m: map<string, Win>, a: Arrival): Win {
    Fold1(if Id(a) in m then m[Id(a)] else NewWin(Id(a), 0), a)
  }

  /** `id` moves to the front with window `w`; whatever falls off the end is forgotten. */
  function FlatPut(flat: Flat, cap: nat, id: string, w: Win): Flat {
    var order := Top(Cons(id, Without(flat.order, id)), cap);
    Flat(order, (map k | k in flat.wins && k in Elems(order) :: flat.wins[k])[id := w])
  }

  function FlatStep(flat: Flat, cap: nat, a: Arrival): Flat {
    if Id(a) == "" then flat else FlatPut(flat, cap, Id(a), Updated(flat.wins, a))
  }

  function Only(ids: List, keep: set<string>): List {
    match ids
    case Nil => Nil
    case Cons(x, rest) => if x in keep then Cons(x, Only(rest, keep)) else Only(rest, keep)
  }

  /** The windows last seen before `cutoff` are forgotten. */
  function FlatPrune(flat: Flat, cutoff: int): Flat {
    var wins := map id | id in flat.wins && flat.wins[id].lastSeen >= cutoff :: flat.wins[id];
    Flat(Only(flat.order, wins.Keys), wins)
  }

  function FlatRun(log: seq<Arrival>, cap: nat): Flat {
    if log == [] then Flat(Nil, map[]) else FlatStep(FlatRun(log[..|log| - 1], cap), cap, log[|log| - 1])
  }

  // ----- What the list holds, in terms of the log alone -----

  /** The distinct ids of the log, most recently updated first. */
  function Recent(log: seq<Arrival>): List {
    if log == [] then Nil else
    var r, id := Recent(log[..|log| - 1]), Id(log[|log| - 1]);
    if id == "" then r else Cons(id, Without(r, id))
  }

  /** The arrivals for `id` since its current window was created. */
  function SinceCreation(log: seq<Arrival>, id: string, cap: nat): seq<Arrival> {
    if log == [] then [] else
    var init, a := log[..|log| - 1], log[|log| - 1];
    if Id(a) != id then SinceCreation(init, id, cap)
    else if id in Elems(Top(Recent(init), cap)) then SinceCreation(init, id, cap) + [a]
    else [a]
  }

  /** Position of the last update of `id`, -1 if there is none. */
  function LastUpdate(log: seq<Arrival>, id: string): (p: int)
    ensures -1 <= p < |log|
    ensures p >= 0 ==> Id(log[p]) == id
    ensures forall i :: p < i < |log| ==> Id(log[i]) != id
  {
    if log == [] then -1 else if Id(log[|log| - 1]) == id then |log| - 1 else LastUpdate(log[..|log| - 1], id)
  }

  /** Each id was last updated after all the ids behind it. */
  ghost predicate ByLastUpdate(log: seq<Arrival>, ids: List) {
    ids.Cons? ==>
      && (forall x :: x in Elems(ids.tail) ==> LastUpdate(log, ids.head) > LastUpdate(log, x))
      && ByLastUpdate(log, ids.tail)
  }

  lemma {:induction false} ExtendLog(init: seq<Arrival>, log: seq<Arrival>, ids: List)
    requires log != [] && log[..|log| - 1] == init
    requires ByLastUpdate(init, ids) && Id(log[|log| - 1]) !in Elems(ids)
    ensures ByLastUpdate(log, ids)
  {
    if ids.Cons? {
      ExtendLog(init, log, ids.tail);
    }
  }

  lemma {:induction false} WithoutKeepsOrder(log: seq<Arrival>, ids: List, id: string)
    requires ByLastUpdate(log, ids)
    ensures ByLastUpdate(log, Without(ids, id))
  {
    if ids.Cons? {
      WithoutKeepsOrder(log, ids.tail, id);
      WithoutElems(ids.tail, id);
    }
  }

  /** `Recent` lists exactly the updated ids, once each, every id before those updated longer ago. */
  lemma {:induction false} RecentByLastUpdate(log: seq<Arrival>)
    ensures ByLastUpdate(log, Recent(log)) && Distinct(Recent(log))
    ensures forall id :: id in Elems(Recent(log)) <==> id != "" && LastUpdate(log, id) >= 0
  {
    if log != [] {
      var init, id, r := log[..|log| - 1], Id(log[|log| - 1]), Recent(log[..|log| - 1]);
      RecentByLastUpdate(init);
      WithoutElems(r, id);
      if id == "" {
        ExtendLog(init, log, r);
      } else {
        WithoutKeepsOrder(init, r, id);
        WithoutDistinct(r, id);
        ExtendLog(init, log, Without(r, id));
      }
    }
  }

  lemma FoldKeepsId(w: Win, a: Arrival)
    ensures Fold1(w, a).anonID == w.anonID && Fold1(w, a).touched == a.touched
    ensures forall t :: Fold1(w.(touched := t), a) == Fold1(w, a)
  {
  }

  lemma FoldStep(w: Win, h: seq<Arrival>, a: Arrival)
    ensures Fold(w, h + [a]) == Fold1(Fold(w, h), a)
  {
  }

  lemma {:induction false} RunKeys(log: seq<Arrival>, cap: nat)
    requires cap > 0
    ensures FlatRun(log, cap).wins.Keys == Elems(FlatRun(log, cap).order)
  {
    if log != [] {
      var flat, a := FlatRun(log[..|log| - 1], cap), log[|log| - 1];
      RunKeys(log[..|log| - 1], cap);
      PutKeys(flat, cap, Id(a), Updated(flat.wins, a));
    }
  }

  /** After any log, the flat LRU lists exactly the `cap` most recently updated ids. */
  lemma {:induction false} RunHoldsMostRecent(log: seq<Arrival>, cap: nat)
    requires cap > 0
    ensures FlatRun(log, cap).order == Top(Recent(log), cap)
    ensures FlatRun(log, cap).wins.Keys == Elems(Top(Recent(log), cap))
  {
    if log != [] {
      var init := log[..|log| - 1];
      RunHoldsMostRecent(init, cap);
      RecentByLastUpdate(init);
      TopWithout(Recent(init), Id(log[|log| - 1]), cap - 1);
    }
    RunKeys(log, cap);
  }

  /** Each window it holds is the fold of the arrivals since the window's creation. */
  lemma {:induction false} RunFoldsSinceCreation(log: seq<Arrival>, cap: nat, id: string)
    requires cap > 0 && id in FlatRun(log, cap).wins
    ensures FlatRun(log, cap).wins[id] == Fold(NewWin(id, 0), SinceCreation(log, id, cap))
  {
    if log != [] {
      var init, a := log[..|log| - 1], log[|log| - 1];
      var flat := FlatRun(init, cap);
      RunHoldsMostRecent(init, cap);
      RunHasNoEmptyId(log, cap);
      if id in flat.wins {
        RunFoldsSinceCreation(init, cap, id);
      }
      StepHistory(init, log, cap);
      if Id(a) != "" {
        PutKeys(flat, cap, Id(a), Updated(flat.wins, a));
      }
    }
  }

  lemma RunHasNoEmptyId(log: seq<Arrival>, cap: nat)
    requires cap > 0
    ensures "" !in FlatRun(log, cap).wins
  {
  }

  lemma PutKeys(flat: Flat, cap: nat, id: string, w: Win)
    requires cap > 0 && flat.wins.Keys == Elems(flat.order)
    ensures var flat' := FlatPut(flat, cap, id, w);
            && flat'.wins.Keys == Elems(flat'.order)
            && forall k :: k in flat'.wins ==>
               if k == id then flat'.wins[k] == w else k in flat.wins && flat'.wins[k] == flat.wins[k]
  {
    var rest := Without(flat.order, id);
    TopElems(rest, cap - 1);
    WithoutElems(flat.order, id);
    assert Elems(Top(Cons(id, rest), cap)) == {id} + Elems(Top(rest, cap - 1));
  }

  /** How the history of one id grows; only the updated id's does. */
  lemma StepHistory(init: seq<Arrival>, log: seq<Arrival>, cap: nat)
    requires cap > 0 && log != [] && init == log[..|log| - 1]
    ensures var a := log[|log| - 1];
            && (forall id :: Id(a) != id ==> SinceCreation(log, id, cap) == SinceCreation(init, id, cap))
            && Fold(NewWin(Id(a), 0), SinceCreation(log, Id(a), cap)) ==
               Fold1(if Id(a) in Elems(Top(Recent(init), cap))
                 then Fold(NewWin(Id(a), 0), SinceCreation(init, Id(a), cap))
                     else NewWin(Id(a), 0), a)
  {
    var a := log[|log| - 1];
    var id := Id(a);
    FoldStep(NewWin(id, 0), SinceCreation(init, id, cap), a);
    FoldStep(NewWin(id, 0), [], a);
    assert [] + [a] == [a];
  }

  // ----- The store's view: a map of windows, ordered only by their touch stamps -----

  ghost predicate IsOldest(m: map<string, Win>, id: string) {
    id in m && forall k :: k in m ==> m[id].touched <= m[k].touched
  }

  /** `m'` is `m` with window `w` for `id`: an oldest window makes room when a new id needs it. */
  ghost predicate MapPut(m: map<string, Win>, cap: nat, id: string, w: Win, m': map<string, Win>) {
    if id in m || |m| < cap then m' == m[id := w]
    else exists victim :: IsOldest(m, victim) && m' == (m - {victim})[id := w]
  }

  ghost predicate MapStep(m: map<string, Win>, cap: nat, a: Arrival, m': map<string, Win>) {
    if Id(a) == "" then m' == m else MapPut(m, cap, Id(a), Updated(m, a), m')
  }

  lemma InsertIsStep(m: map<string, Win>, cap: nat, a: Arrival, created: int, victim: string, room: map<string, Win>)
    requires Id(a) != "" && Id(a) !in m
    requires if |m| < cap then room == m else IsOldest(m, victim) && room == m - {victim}
    ensures MapStep(m, cap, a, room[Id(a) := Fold1(NewWin(Id(a), created), a)])
  {
    FoldKeepsId(NewWin(Id(a), created), a);
    assert Fold1(NewWin(Id(a), created), a) == Updated(m, a);
  }

  /** Stamps strictly decrease along the list. */
  ghost predicate ByStamp(m: map<string, Win>, ids: List) {
    ids.Cons? ==>
      && (forall x :: x in Elems(ids.tail) && x in m && ids.head in m ==> m[ids.head].touched > m[x].touched)
      && ByStamp(m, ids.tail)
  }

  /** `m` holds the windows of the list, stamped in list order. */
  ghost predicate Represents(m: map<string, Win>, flat: Flat) {
    m == flat.wins && m.Keys == Elems(flat.order) && Distinct(flat.order) && ByStamp(m, flat.order)
  }

  lemma {:induction false} StampsFrame(m: map<string, Win>, m': map<string, Win>, ids: List)
    requires ByStamp(m, ids)
    requires forall x :: x in Elems(ids) && x in m' ==> x in m && m'[x].touched == m[x].touched
    ensures ByStamp(m', ids)
  {
    if ids.Cons? {
      StampsFrame(m, m', ids.tail);
    }
  }

  lemma {:induction false} WithoutKeepsStamps(m: map<string, Win>, ids: List, id: string)
    requires ByStamp(m, ids)
    ensures ByStamp(m, Without(ids, id))
  {
    if ids.Cons? {
      WithoutKeepsStamps(m, ids.tail, id);
      WithoutElems(ids.tail, id);
    }
  }

  lemma {:induction false} TopKeepsStamps(m: map<string, Win>, ids: List, n: nat)
    requires ByStamp(m, ids)
    ensures ByStamp(m, Top(ids, n))
  {
    if ids.Cons? && n > 0 {
      TopKeepsStamps(m, ids.tail, n - 1);
      TopElems(ids.tail, n - 1);
    }
  }

  /** The oldest of a full list is the one that falls off. */
  lemma {:induction false} CutDropsOldest(m: map<string, Win>, ids: List, x: string)
    requires ids.Cons? && Distinct(ids) && ByStamp(m, ids) && Elems(ids) <= m.Keys
    requires x in Elems(ids) && forall k :: k in Elems(ids) ==> m[x].touched <= m[k].touched
    ensures Elems(Top(ids, Length(ids) - 1)) == Elems(ids) - {x}
  {
    if ids.tail.Cons? {
      assert ids.tail.head in Elems(ids.tail);
      CutDropsOldest(m, ids.tail, x);
    }
  }

  lemma PutValues(m: map<string, Win>, cap: nat, id: string, w: Win, m': map<string, Win>)
    requires MapPut(m, cap, id, w, m')
    ensures forall k :: k in m' ==> if k == id then m'[k] == w else k in m && m'[k] == m[k]
  {
  }

  lemma PutRoomy(order: List, cap: nat, id: string)
    requires cap > 0 && Distinct(order) && (Length(order) < cap || (id in Elems(order) && Length(order) <= cap))
    ensures Elems(Top(Cons(id, Without(order, id)), cap)) == Elems(order) + {id}
  {
    WithoutElems(order, id);
    WithoutDistinct(order, id);
    TopElems(Without(order, id), cap - 1);
  }

  lemma PutRoomyKeys(m: map<string, Win>, order: List, cap: nat, id: string, w: Win, m': map<string, Win>)
    requires cap > 0 && m.Keys == Elems(order) && Distinct(order) && Length(order) <= cap
    requires (id in m || Length(order) < cap) && m' == m[id := w]
    ensures m'.Keys == Elems(Top(Cons(id, Without(order, id)), cap))
  {
    PutRoomy(order, cap, id);
  }

  lemma PutFull(m: map<string, Win>, order: List, id: string, victim: string)
    requires m.Keys == Elems(order) && Distinct(order) && ByStamp(m, order) && order.Cons?
    requires id !in m && IsOldest(m, victim)
    ensures Elems(Top(Cons(id, Without(order, id)), Length(order))) == m.Keys - {victim} + {id}
  {
    WithoutElems(order, id);
    CutDropsOldest(m, order, victim);
  }

  lemma PutFullKeys(m: map<string, Win>, order: List, cap: nat, id: string, w: Win, m': map<string, Win>)
    requires cap > 0 && m.Keys == Elems(order) && Distinct(order) && Length(order) == cap && ByStamp(m, order)
    requires id !in m && exists victim :: IsOldest(m, victim) && m' == (m - {victim})[id := w]
    ensures m'.Keys == Elems(Top(Cons(id, Without(order, id)), cap))
  {
    var victim :| IsOldest(m, victim) && m' == (m - {victim})[id := w];
    PutFull(m, order, id, victim);
  }

  lemma PutWins(m: map<string, Win>, flat: Flat, cap: nat, id: string, w: Win, m': map<string, Win>)
    requires cap > 0 && Represents(m, flat) && |m| <= cap && MapPut(m, cap, id, w, m')
    ensures m' == FlatPut(flat, cap, id, w).wins
  {
    DistinctSize(flat.order);
    if id in m || |m| < cap {
      PutRoomyKeys(m, flat.order, cap, id, w, m');
    } else {
      PutFullKeys(m, flat.order, cap, id, w, m');
    }
    PutKeys(flat, cap, id, w);
    PutValues(m, cap, id, w, m');
    SameMap(m', FlatPut(flat, cap, id, w).wins, m, id, w);
  }

  lemma SameMap(p: map<string, Win>, q: map<string, Win>, m: map<string, Win>, id: string, w: Win)
    requires p.Keys == q.Keys
    requires forall k :: k in p ==> if k == id then p[k] == w else k in m && p[k] == m[k]
    requires forall k :: k in q ==> if k == id then q[k] == w else k in m && q[k] == m[k]
    ensures p == q
  {
  }

  lemma RestIsStamped(m: map<string, Win>, order: List, id: string, n: nat)
    requires Distinct(order) && ByStamp(m, order)
    ensures var rest := Top(Without(order, id), n);
            ByStamp(m, rest) && Distinct(rest) && id !in Elems(rest) && Elems(rest) <= Elems(order)
  {
    WithoutElems(order, id);
    WithoutDistinct(order, id);
    TopElems(Without(order, id), n);
    WithoutKeepsStamps(m, order, id);
    TopKeepsStamps(m, Without(order, id), n);
  }

  lemma PutStamps(m: map<string, Win>, flat: Flat, cap: nat, id: string, w: Win)
    requires cap > 0 && Represents(m, flat)
    requires forall k :: k in m ==> m[k].touched < w.touched
    ensures var flat' := FlatPut(flat, cap, id, w); ByStamp(flat'.wins, flat'.order) && Distinct(flat'.order)
  {
    var m', rest := FlatPut(flat, cap, id, w).wins, Top(Without(flat.order, id), cap - 1);
    assert Top(Cons(id, Without(flat.order, id)), cap) == Cons(id, rest);
    RestIsStamped(m, flat.order, id, cap - 1);
    PutKeys(flat, cap, id, w);
    FrontIsNewest(m, m', rest, id);
  }

  lemma FrontIsNewest(m: map<string, Win>, m': map<string, Win>, rest: List, id: string)
    requires ByStamp(m, rest) && id in m' && id !in Elems(rest)
    requires forall x :: x in m' && x != id ==> x in m && m'[x] == m[x] && m[x].touched < m'[id].touched
    ensures ByStamp(m', Cons(id, rest))
  {
  }

  /** Eviction by oldest stamp is eviction from the end of the list, whenever the clock reading is newer than every
      stamp. */
  lemma MapStepRefinesFlat(m: map<string, Win>, flat: Flat, cap: nat, a: Arrival, m': map<string, Win>)
    requires cap > 0 && Represents(m, flat) && |m| <= cap && MapStep(m, cap, a, m')
    requires forall id :: id in m ==> m[id].touched < a.touched
    ensures Represents(m', FlatStep(flat, cap, a)) && |m'| <= cap
  {
    var id, w := Id(a), Updated(m, a);
    if id != "" {
      var flat' := FlatPut(flat, cap, id, w);
      FoldKeepsId(if id in m then m[id] else NewWin(id, 0), a);
      PutWins(m, flat, cap, id, w, m');
      PutKeys(flat, cap, id, w);
      PutStamps(m, flat, cap, id, w);
      DistinctSize(flat'.order);
      TopElems(Cons(id, Without(flat.order, id)), cap);
    }
  }

  /** After a step every window keeps its stamp, except the updated one. */
  lemma StepStamps(m: map<string, Win>, cap: nat, a: Arrival, m': map<string, Win>)
    requires MapStep(m, cap, a, m')
    ensures forall id :: id in m' ==> m'[id].touched == a.touched || (id in m && m'[id].touched == m[id].touched)
  {
    FoldKeepsId(if Id(a) in m then m[Id(a)] else NewWin(Id(a), 0), a);
    hide Fold1, NewWin;
    if Id(a) != "" {
      PutValues(m, cap, Id(a), Updated(m, a), m');
    }
  }

  lemma EmptyRun(cap: nat)
    ensures Represents(map[], FlatRun([], cap))
  {
  }

  lemma RepresentedWins(m: map<string, Win>, flat: Flat)
    requires Represents(m, flat)
    ensures m == flat.wins
  {
  }

  /** Every stamp in `m` is older than the clock readings from position `i` on. */
  ghost predicate OlderThan(m: map<string, Win>, log: seq<Arrival>, i: nat) {
    forall id, j :: id in m && i <= j < |log| ==> m[id].touched < log[j].touched
  }

  /** One more update keeps the store's map equal to the flat list's. */
  lemma RunStep(m: map<string, Win>, log: seq<Arrival>, i: nat, cap: nat, m': map<string, Win>)
    requires i < |log| && forall i, j :: 0 <= i < j < |log| ==> log[i].touched < log[j].touched
    requires cap > 0 && |m| <= cap && Represents(m, FlatRun(log[..i], cap)) && OlderThan(m, log, i)
    requires MapStep(m, cap, log[i], m')
    ensures Represents(m', FlatRun(log[..i + 1], cap)) && OlderThan(m', log, i + 1)
  {
    hide Fold1, MapStep, Represents;
    assert log[..i + 1][..i] == log[..i];
    MapStepRefinesFlat(m, FlatRun(log[..i], cap), cap, log[i], m');
    StepStamps(m, cap, log[i], m');
  }
}
