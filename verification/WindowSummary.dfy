/** The incremental window is a batch summary of the arrivals it has seen. */
module WindowSummary {
  import opened Json
  import opened Event
  import opened Options
  import opened Window

  // ----- Batch notions, each defined over the whole history -----

  function Occurrences(h: seq<Arrival>, key: Arrival -> string, k: string): nat {
    if h == [] then 0
    else Occurrences(h[..|h| - 1], key, k) + if key(h[|h| - 1]) == k then 1 else 0
  }

  /** `m` counts how often each non-empty key occurs, and holds no other key. */
  ghost predicate IsTally(m: map<string, nat>, h: seq<Arrival>, key: Arrival -> string) {
    forall k :: (k in m <==> k != "" && Occurrences(h, key, k) > 0) && (k in m ==> m[k] == Occurrences(h, key, k))
  }

  /** The value of the last arrival that has one. */
  function LastSome<T>(h: seq<Arrival>, f: Arrival -> Option<T>): (r: Option<T>)
    ensures r.None? <==> forall i :: 0 <= i < |h| ==> f(h[i]).None?
    ensures r.Some? ==> exists i :: 0 <= i < |h| && f(h[i]) == r && forall j :: i < j < |h| ==> f(h[j]).None?
  {
    if h == [] then None else
    var init, a := h[..|h| - 1], h[|h| - 1];
    if f(a).Some? then f(a) else LastSome(init, f)
  }

  /** The value of the first arrival that has one. */
  function FirstSome<T>(h: seq<Arrival>, f: Arrival -> Option<T>): (r: Option<T>)
    ensures r.None? <==> forall i :: 0 <= i < |h| ==> f(h[i]).None?
    ensures r.Some? ==> exists i :: 0 <= i < |h| && f(h[i]) == r && forall j :: 0 <= j < i ==> f(h[j]).None?
  {
    if h == [] then None else
    var init, a := h[..|h| - 1], h[|h| - 1];
    FirstSome(init, f).Or(f(a))
  }

  /** The largest value any arrival has. */
  function MaxSome(h: seq<Arrival>, f: Arrival -> Option<real>): (r: Option<real>)
    ensures forall i :: 0 <= i < |h| && f(h[i]).Some? ==> r.Some? && f(h[i]).value <= r.value
    ensures r.Some? ==> exists i :: 0 <= i < |h| && f(h[i]) == r
  {
    if h == [] then None else
    var rest, a := MaxSome(h[..|h| - 1], f), h[|h| - 1];
    if f(a).Some? && (rest.Some? ==> f(a).value > rest.value) then f(a) else rest
  }

  // ----- What one arrival contributes -----

  function TypeOf(): Arrival -> string { (a: Arrival) => a.event.typ }
  function NameOf(): Arrival -> string { (a: Arrival) => a.event.name }
  function PathOf(): Arrival -> string { (a: Arrival) => a.event.path }
  function Suburb(): Arrival -> string {
    (a: Arrival) => if "suburb" in a.Props() && a.Props()["suburb"].Str? then a.Props()["suburb"].s else ""
  }

  function NonEmpty(s: string): Option<string> { if s == "" then None else Some(s) }
  function NonZero(n: int): Option<int> { if n == 0 then None else Some(n) }
  function NonVoid(m: map<string, Value>): Option<map<string, Value>> { if m == map[] then None else Some(m) }

  function PathSeen(): Arrival -> Option<string> { (a: Arrival) => NonEmpty(a.event.path) }
  function User(): Arrival -> Option<string> { (a: Arrival) => NonEmpty(a.event.userID) }
  function Session(): Arrival -> Option<int> { (a: Arrival) => NonZero(a.event.sessionID) }
  function Prop(k: string): Arrival -> Option<Value> { (a: Arrival) => Lookup(a.Props(), k) }
  function NumProp(k: string): Arrival -> Option<real> {
    (a: Arrival) => if k in a.Props() && a.Props()[k].Num? then Some(a.Props()[k].n) else None
  }
  function IdentifyTrait(k: string): Arrival -> Option<Value> {
    (a: Arrival) => if a.event.typ == "identify" then Lookup(a.event.TraitsMap(), k) else None
  }
  function ContextTrait(k: string): Arrival -> Option<Value> {
    (a: Arrival) => Lookup(a.event.contextTraits.m, k)
  }
  function PropsOf(name: string): Arrival -> Option<map<string, Value>> {
    (a: Arrival) => if a.event.name == name then NonVoid(a.Props()) else None
  }
  function ErrorOf(): Arrival -> Option<EventRef> {
    (a: Arrival) => if a.event.HasErrorEventName() then Some(NewEventRef(a.event, ERROR_PROPERTY_KEYS)) else None
  }

  // ----- Incremental equals batch -----

  lemma EmptyTally(key: Arrival -> string)
    ensures IsTally(map[], [], key)
  {
  }

  lemma TallyStep(m: map<string, nat>, h: seq<Arrival>, key: Arrival -> string, a: Arrival)
    requires IsTally(m, h, key)
    ensures IsTally(Bump(m, key(a)), h + [a], key)
  {
  }

  lemma CountsStep(w: Win, a: Arrival)
    ensures var w' := Fold1(w, a);
            && w'.anonID == w.anonID && w'.eventCount == w.eventCount + 1
            && w'.typeCount == Bump(w.typeCount, TypeOf()(a)) && w'.nameCount == Bump(w.nameCount, NameOf()(a))
            && w'.paths == Bump(w.paths, PathOf()(a)) && w'.suburbs == Bump(w.suburbs, Suburb()(a))
  {
    hide NextDominant, TrackLast, TrackMax, MergedTraits, NewEventRef;
  }

  ghost predicate Tallied(w: Win, id: string, h: seq<Arrival>) {
    && w.anonID == id && w.eventCount == |h|
    && IsTally(w.typeCount, h, TypeOf()) && IsTally(w.nameCount, h, NameOf())
    && IsTally(w.paths, h, PathOf()) && IsTally(w.suburbs, h, Suburb())
  }

  lemma NewTallied(id: string, t: int)
    ensures Tallied(NewWin(id, t), id, [])
  {
    EmptyTally(TypeOf());
    EmptyTally(NameOf());
    EmptyTally(PathOf());
    EmptyTally(Suburb());
    hide IsTally;
  }

  lemma TalliedNext(w: Win, id: string, h: seq<Arrival>, a: Arrival)
    requires Tallied(w, id, h)
    ensures Tallied(Fold1(w, a), id, h + [a])
  {
    hide Fold1, IsTally, Bump;
    CountsStep(w, a);
    TallyStep(w.typeCount, h, TypeOf(), a);
    TallyStep(w.nameCount, h, NameOf(), a);
    TallyStep(w.paths, h, PathOf(), a);
    TallyStep(w.suburbs, h, Suburb(), a);
  }

  lemma {:induction false} FoldTallied(id: string, t: int, h: seq<Arrival>)
    ensures Tallied(Fold(NewWin(id, t), h), id, h)
  {
    hide Fold1, Tallied;
    if h == [] {
      NewTallied(id, t);
    } else {
      FoldTallied(id, t, h[..|h| - 1]);
      TalliedNext(Fold(NewWin(id, t), h[..|h| - 1]), id, h[..|h| - 1], h[|h| - 1]);
      assert h[..|h| - 1] + [h[|h| - 1]] == h;
    }
  }

  /** Event, type, name, path and suburb counts are the frequencies in the history. */
  lemma CountsAreFrequencies(id: string, t: int, h: seq<Arrival>)
    ensures var w := Fold(NewWin(id, t), h);
            && w.anonID == id && w.eventCount == |h|
            && IsTally(w.typeCount, h, TypeOf()) && IsTally(w.nameCount, h, NameOf())
            && IsTally(w.paths, h, PathOf()) && IsTally(w.suburbs, h, Suburb())
  {
    FoldTallied(id, t, h);
    hide Fold, IsTally;
  }

  lemma ScalarsStep(w: Win, a: Arrival)
    ensures var w' := Fold1(w, a);
            && NonEmpty(w'.pathLatest) == PathSeen()(a).Or(NonEmpty(w.pathLatest))
            && NonEmpty(w'.userID) == NonEmpty(w.userID).Or(User()(a))
            && NonZero(w'.sessionID) == Session()(a).Or(NonZero(w.sessionID))
  {
    hide NextDominant, TrackLast, TrackMax, MergedTraits, NewEventRef, Bump;
  }

  /** The latest path and session are the last ones in the history; the user id is the first. */
  lemma {:induction false} LatestScalars(id: string, t: int, h: seq<Arrival>)
    ensures var w := Fold(NewWin(id, t), h);
            && NonEmpty(w.pathLatest) == LastSome(h, PathSeen())
            && NonEmpty(w.userID) == FirstSome(h, User())
            && NonZero(w.sessionID) == LastSome(h, Session())
  {
    if h != [] {
      LatestScalars(id, t, h[..|h| - 1]);
      hide Fold1, NewWin, PathSeen, User, Session, NonEmpty, NonZero;
      ScalarsStep(Fold(NewWin(id, t), h[..|h| - 1]), h[|h| - 1]);
    } else {
      hide Fold1;
    }
  }

  lemma PayloadsStep(w: Win, a: Arrival)
    ensures var w' := Fold1(w, a);
            && NonVoid(w'.listingProps) == PropsOf("Listing Viewed")(a).Or(NonVoid(w.listingProps))
            && NonVoid(w'.filterProps) == PropsOf("Filter Applied")(a).Or(NonVoid(w.filterProps))
            && (if w'.hasError then Some(w'.lastError) else None) ==
               ErrorOf()(a).Or(if w.hasError then Some(w.lastError) else None)
  {
    hide NextDominant, TrackLast, TrackMax, MergedTraits, NewEventRef, Bump;
  }

  /** The listing and filter properties kept are the last non-empty ones; the error kept is the last one. */
  lemma {:induction false} LatestPayloads(id: string, t: int, h: seq<Arrival>)
    ensures var w := Fold(NewWin(id, t), h);
            && NonVoid(w.listingProps) == LastSome(h, PropsOf("Listing Viewed"))
            && NonVoid(w.filterProps) == LastSome(h, PropsOf("Filter Applied"))
            && (if w.hasError then Some(w.lastError) else None) == LastSome(h, ErrorOf())
  {
    if h != [] {
      LatestPayloads(id, t, h[..|h| - 1]);
      hide Fold1, NewWin, PropsOf, ErrorOf, NonVoid;
      PayloadsStep(Fold(NewWin(id, t), h[..|h| - 1]), h[|h| - 1]);
    } else {
      hide Fold1;
    }
  }

  lemma TrackLookup(last: map<string, Value>, max: map<string, real>, props: map<string, Value>, keys: seq<string>,
                    k: string)
    ensures Lookup(TrackLast(last, props, keys), k) ==
            if k in props && k in keys then Some(props[k]) else Lookup(last, k)
    ensures Lookup(TrackMax(max, props, keys), k) ==
            if k in props && k in keys && props[k].Num? && (k in max ==> props[k].n > max[k]) then Some(props[k].n)
            else Lookup(max, k)
  {
    if keys != [] {
      var init, last' := keys[..|keys| - 1], keys[|keys| - 1];
      assert keys == init + [last'];
      TrackLookup(last, max, props, init, k);
    }
  }

  /** Per tracked key: the last value seen and the largest number seen. Untracked keys are never held. */
  lemma TrackedStep(w: Win, a: Arrival)
    ensures var w' := Fold1(w, a);
            w'.propLast == TrackLast(w.propLast, a.Props(), PROPERTY_TRACK_KEYS)
              && w'.maxNum == TrackMax(w.maxNum, a.Props(), PROPERTY_TRACK_KEYS)
  {
    hide NextDominant, TrackLast, TrackMax, MergedTraits, NewEventRef, Bump;
  }

  lemma {:induction false} TrackedValues(id: string, t: int, h: seq<Arrival>, k: string)
    ensures var w := Fold(NewWin(id, t), h);
            && Lookup(w.propLast, k) == (if k in PROPERTY_TRACK_KEYS then LastSome(h, Prop(k)) else None)
            && Lookup(w.maxNum, k) == (if k in PROPERTY_TRACK_KEYS then MaxSome(h, NumProp(k)) else None)
  {
    if h != [] {
      var init, a := h[..|h| - 1], h[|h| - 1];
      var w := Fold(NewWin(id, t), init);
      TrackedValues(id, t, init, k);
      TrackLookup(w.propLast, w.maxNum, a.Props(), PROPERTY_TRACK_KEYS, k);
      hide Fold1, NewWin, TrackLast, TrackMax;
      TrackedStep(w, a);
    }
  }

  /** A trait is the last identify value if any identify carried the key, else the first context value. */
  lemma {:induction false} TraitValues(id: string, t: int, h: seq<Arrival>, k: string)
    ensures Lookup(Fold(NewWin(id, t), h).traits, k) == LastSome(h, IdentifyTrait(k)).Or(FirstSome(h, ContextTrait(k)))
  {
    if h != [] {
      TraitValues(id, t, h[..|h| - 1], k);
    }
  }

  function Earliest(h: seq<Arrival>): (m: int)
    requires h != []
    ensures (forall i :: 0 <= i < |h| ==> m <= h[i].Time()) && exists i :: 0 <= i < |h| && m == h[i].Time()
  {
    var init, a := h[..|h| - 1], h[|h| - 1];
    if init == [] || a.Time() < Earliest(init) then a.Time() else Earliest(init)
  }

  function Latest(h: seq<Arrival>): (m: int)
    requires h != []
    ensures (forall i :: 0 <= i < |h| ==> m >= h[i].Time()) && exists i :: 0 <= i < |h| && m == h[i].Time()
  {
    var init, a := h[..|h| - 1], h[|h| - 1];
    if init == [] || a.Time() > Latest(init) then a.Time() else Latest(init)
  }

  /** When an arrival counts as having happened: when it was received, or failing that the time of the event, or failing
      that the clock. */
  predicate HappenedAt(a: Arrival, t: int) {
    && (a.receivedAt != 0 ==> t == a.receivedAt)
    && (a.receivedAt == 0 && a.event.originalTimestamp != 0 ==> t == a.event.originalTimestamp)
    && (a.receivedAt == 0 && a.event.originalTimestamp == 0 ==> t == a.fallback)
  }

  lemma {:induction false} SeenExtremes(id: string, t: int, h: seq<Arrival>)
    requires h != [] && forall i :: 0 <= i < |h| ==> h[i].Time() != 0
    ensures var w := Fold(NewWin(id, t), h); w.firstSeen == Earliest(h) && w.lastSeen == Latest(h)
  {
    if |h| > 1 {
      SeenExtremes(id, t, h[..|h| - 1]);
    }
  }

  lemma HappenedIs(a: Arrival, at: int)
    ensures HappenedAt(a, at) <==> at == a.Time()
  {
  }

  /** `first` and `last` are the times of an earliest and of a latest arrival. */
  ghost predicate Spans(h: seq<Arrival>, first: int, last: int) {
    && (exists i :: 0 <= i < |h| && HappenedAt(h[i], first))
    && (exists i :: 0 <= i < |h| && HappenedAt(h[i], last))
    && forall i, at :: 0 <= i < |h| && HappenedAt(h[i], at) ==> first <= at <= last
  }

  lemma {:induction false} ExtremesSpan(h: seq<Arrival>)
    requires h != []
    ensures Spans(h, Earliest(h), Latest(h))
  {
    hide HappenedAt, Arrival.Time;
    var first, last := Earliest(h), Latest(h);
    var i :| 0 <= i < |h| && first == h[i].Time();
    var j :| 0 <= j < |h| && last == h[j].Time();
    HappenedIs(h[i], first);
    HappenedIs(h[j], last);
    forall k, at | 0 <= k < |h| && HappenedAt(h[k], at) ensures first <= at <= last { HappenedIs(h[k], at); }
  }

  /** First and last seen are the times of the earliest and the latest arrival. */
  lemma {:induction false} SeenTimes(id: string, t: int, h: seq<Arrival>)
    requires h != [] && forall i :: 0 <= i < |h| ==> !HappenedAt(h[i], 0)
    ensures Spans(h, Fold(NewWin(id, t), h).firstSeen, Fold(NewWin(id, t), h).lastSeen)
  {
    forall i | 0 <= i < |h| ensures h[i].Time() != 0 { HappenedIs(h[i], 0); }
    SeenExtremes(id, t, h);
    ExtremesSpan(h);
    hide Fold, NewWin, HappenedAt, Spans, Arrival.Time;
  }

  // ----- The dominant suburb -----

  /** Position of the last arrival counted for `s`, -1 if there is none. */
  function LastAt(h: seq<Arrival>, s: string): (p: int)
    ensures -1 <= p < |h|
    ensures p >= 0 ==> Suburb()(h[p]) == s
    ensures forall i :: p < i < |h| ==> Suburb()(h[i]) != s
  {
    if h == [] then -1
    else if Suburb()(h[|h| - 1]) == s then |h| - 1
    else LastAt(h[..|h| - 1], s)
  }

  /** `d` is a suburb of maximal frequency and, among those tied at the maximum, the one seen most recently; it is ""
      exactly while none was seen. */
  ghost predicate IsRecentArgmax(d: string, h: seq<Arrival>) {
    var n := if d == "" then 0 else Occurrences(h, Suburb(), d);
    && (d != "" ==> n > 0)
    && (forall s :: s != "" ==> Occurrences(h, Suburb(), s) <= n)
    && (d != "" ==> forall s :: s != "" && s != d && Occurrences(h, Suburb(), s) == n ==> LastAt(h, s) < LastAt(h, d))
  }

  lemma ArgmaxStep(d: string, h: seq<Arrival>, counts: map<string, nat>, a: Arrival)
    requires IsRecentArgmax(d, h) && IsTally(counts, h + [a], Suburb())
    ensures IsRecentArgmax(NextDominant(d, counts, SuburbOf(a.event)), h + [a])
  {
    var h', s0 := h + [a], SuburbOf(a.event);
    assert h'[..|h|] == h;
    assert forall s :: s != "" ==> Get(counts, s) == Occurrences(h', Suburb(), s);
    assert forall s :: Occurrences(h', Suburb(), s) == Occurrences(h, Suburb(), s) + if s == s0 then 1 else 0;
    assert forall s :: LastAt(h', s) == if s == s0 then |h| else LastAt(h, s);
  }

  /** The dominant suburb is at all times the recency-tie-broken argmax. */
  lemma {:induction false} DominantIsRecentArgmax(id: string, t: int, h: seq<Arrival>)
    ensures IsRecentArgmax(Fold(NewWin(id, t), h).dominant, h)
  {
    if h != [] {
      var init, a := h[..|h| - 1], h[|h| - 1];
      var w := Fold(NewWin(id, t), init);
      assert init + [a] == h;
      DominantIsRecentArgmax(id, t, init);
      CountsAreFrequencies(id, t, h);
      ArgmaxStep(w.dominant, init, Fold1(w, a).suburbs, a);
    }
  }

  // ----- Order of arrival -----

  lemma {:induction false} OccurrencesInsert(h: seq<Arrival>, i: nat, key: Arrival -> string, k: string)
    requires i < |h|
    ensures Occurrences(h, key, k) == Occurrences(h[..i] + h[i + 1..], key, k) + if key(h[i]) == k then 1 else 0
  {
    var n, rest := |h| - 1, h[..i] + h[i + 1..];
    if i < n {
      OccurrencesInsert(h[..n], i, key, k);
      assert rest[..|rest| - 1] == h[..n][..i] + h[..n][i + 1..];
    } else {
      assert rest == h[..n];
    }
  }

  lemma DropCommon<T>(h: seq<T>, g: seq<T>, i: nat)
    requires h != [] && i < |g| && g[i] == h[|h| - 1] && multiset(h) == multiset(g)
    ensures multiset(h[..|h| - 1]) == multiset(g[..i] + g[i + 1..])
  {
    LessLast(h);
    LessAt(g, i);
  }

  lemma LessLast<T>(h: seq<T>)
    requires h != []
    ensures multiset(h[..|h| - 1]) == multiset(h) - multiset{h[|h| - 1]}
  {
    assert h == h[..|h| - 1] + [h[|h| - 1]];
  }

  lemma LessAt<T>(g: seq<T>, i: nat)
    requires i < |g|
    ensures multiset(g[..i] + g[i + 1..]) == multiset(g) - multiset{g[i]}
  {
    assert g == g[..i] + [g[i]] + g[i + 1..];
  }

  lemma {:induction false} OccurrencesPermute(h: seq<Arrival>, g: seq<Arrival>, key: Arrival -> string, k: string)
    requires multiset(h) == multiset(g)
    ensures Occurrences(h, key, k) == Occurrences(g, key, k)
  {
    assert |h| == |multiset(h)| == |multiset(g)| == |g|;
    if h != [] {
      var a := h[|h| - 1];
      assert a in multiset(h);
      var i :| 0 <= i < |g| && g[i] == a;
      DropCommon(h, g, i);
      OccurrencesInsert(g, i, key, k);
      OccurrencesPermute(h[..|h| - 1], g[..i] + g[i + 1..], key, k);
    }
  }

  lemma TallyUnique(m: map<string, nat>, n: map<string, nat>, h: seq<Arrival>, g: seq<Arrival>, key: Arrival -> string)
    requires multiset(h) == multiset(g) && IsTally(m, h, key) && IsTally(n, g, key)
    ensures m == n
  {
    forall k ensures (k in m <==> k in n) && (k in m ==> m[k] == n[k]) {
      OccurrencesPermute(h, g, key, k);
    }
  }

  lemma SameArrivals(h: seq<Arrival>, g: seq<Arrival>)
    requires multiset(h) == multiset(g)
    ensures forall i :: 0 <= i < |h| ==> h[i] in g
    ensures forall i :: 0 <= i < |g| ==> g[i] in h
  {
    assert forall a :: a in h <==> a in multiset(h);
    assert forall a :: a in g <==> a in multiset(g);
  }

  /** Counts do not depend on the order of arrival. */
  lemma CountsIgnoreOrder(id: string, t: int, h: seq<Arrival>, g: seq<Arrival>)
    requires multiset(h) == multiset(g)
    ensures var w, v := Fold(NewWin(id, t), h), Fold(NewWin(id, t), g);
            && w.eventCount == v.eventCount && w.typeCount == v.typeCount && w.nameCount == v.nameCount
            && w.paths == v.paths && w.suburbs == v.suburbs
  {
    CountsAreFrequencies(id, t, h);
    CountsAreFrequencies(id, t, g);
    assert |h| == |multiset(h)| == |multiset(g)| == |g|;
    var w, v := Fold(NewWin(id, t), h), Fold(NewWin(id, t), g);
    TallyUnique(w.typeCount, v.typeCount, h, g, TypeOf());
    TallyUnique(w.nameCount, v.nameCount, h, g, NameOf());
    TallyUnique(w.paths, v.paths, h, g, PathOf());
    TallyUnique(w.suburbs, v.suburbs, h, g, Suburb());
  }

  lemma MaxBelow(h: seq<Arrival>, g: seq<Arrival>, f: Arrival -> Option<real>)
    requires forall i :: 0 <= i < |h| ==> h[i] in g
    ensures var r, q := MaxSome(h, f), MaxSome(g, f); r.Some? ==> q.Some? && r.value <= q.value
  {
  }

  lemma MaxPermute(h: seq<Arrival>, g: seq<Arrival>, f: Arrival -> Option<real>)
    requires multiset(h) == multiset(g)
    ensures MaxSome(h, f) == MaxSome(g, f)
  {
    SameArrivals(h, g);
    MaxBelow(h, g, f);
    MaxBelow(g, h, f);
  }

  lemma TimesPermute(h: seq<Arrival>, g: seq<Arrival>)
    requires multiset(h) == multiset(g) && h != [] && g != []
    ensures Earliest(h) == Earliest(g) && Latest(h) == Latest(g)
  {
    SameArrivals(h, g);
  }

  lemma PresencePermute<T>(h: seq<Arrival>, g: seq<Arrival>, f: Arrival -> Option<T>)
    requires multiset(h) == multiset(g)
    ensures LastSome(h, f).Some? == LastSome(g, f).Some?
  {
    SameArrivals(h, g);
  }

  /** Neither do the maxima, the seen times and the error flag. */
  lemma ExtremesIgnoreOrder(id: string, t: int, h: seq<Arrival>, g: seq<Arrival>, k: string)
    requires multiset(h) == multiset(g)
    requires h != [] && forall i :: 0 <= i < |h| ==> h[i].Time() != 0
    ensures var w, v := Fold(NewWin(id, t), h), Fold(NewWin(id, t), g);
            && Lookup(w.maxNum, k) == Lookup(v.maxNum, k)
            && w.firstSeen == v.firstSeen && w.lastSeen == v.lastSeen && w.hasError == v.hasError
  {
    assert |h| == |multiset(h)| == |multiset(g)| == |g|;
    SameArrivals(h, g);
    TrackedValues(id, t, h, k);
    TrackedValues(id, t, g, k);
    MaxPermute(h, g, NumProp(k));
    SeenExtremes(id, t, h);
    SeenExtremes(id, t, g);
    TimesPermute(h, g);
    LatestPayloads(id, t, h);
    LatestPayloads(id, t, g);
    PresencePermute(h, g, ErrorOf());
  }
}
