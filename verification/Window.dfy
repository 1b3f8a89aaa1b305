/** Per-user windows: what one event does to a window (internal/window/window.go).

    Times are integers and 0 is Go's zero time. Clock readings are inputs. */
module Window {
  import opened Json
  import opened Event

  const ERROR_PROPERTY_KEYS: seq<string> := [
    "error_code", "error_message", "destination_type", "source_type", "step", "elapsed_seconds_in_step"]

  const PROPERTY_TRACK_KEYS: seq<string> := [
    "price", "bedrooms", "sq_ft", "results_count", "elapsed_seconds_in_step", "elapsed_seconds_in_setup",
    "setup_minutes_so_far", "view_count", "listed_days_ago", "beds_min", "price_min", "price_max"]

  /** The value of a window. */
  datatype Win = Win(
    anonID: string,
    userID: string,
    eventCount: nat,
    typeCount: map<string, nat>,
    nameCount: map<string, nat>,
    paths: map<string, nat>,
    pathLatest: string,
    maxNum: map<string, real>,
    propLast: map<string, Value>,
    hasError: bool,
    lastError: EventRef,
    firstSeen: int,
    lastSeen: int,
    traits: map<string, Value>,
    sessionID: int,
    listingProps: map<string, Value>,
    filterProps: map<string, Value>,
    dominant: string,
    suburbs: map<string, nat>,
    triggered: map<string, int>,
    touched: int)

  function NewWin(anonID: string, now: int): Win {
    Win(anonID, "", 0, map[], map[], map[], "", map[], map[], false, NO_EVENT, 0, 0, map[], 0,
        map[], map[], "", map[], map[], now)
  }

  /** One call of `apply`: the event, when it was received, and the two clock readings the call may take (the fallback
      time and the LRU stamp). */
  datatype Arrival = Arrival(event: Event, receivedAt: int, fallback: int, touched: int) {
    function Time(): int {
      if receivedAt != 0 then receivedAt
      else if event.originalTimestamp != 0 then event.originalTimestamp
      else fallback
    }

    function Props(): map<string, Value> { event.PropertiesMap() }

  }

  /** The suburb an event counts for, "" when it counts for none. */
  function SuburbOf(e: Event): string {
    var props := e.PropertiesMap();
    if "suburb" in props && props["suburb"].Str? then props["suburb"].s else ""
  }

  function Get(m: map<string, nat>, k: string): nat { if k in m then m[k] else 0 }

  function Bump(m: map<string, nat>, k: string): map<string, nat> {
    if k == "" then m else m[k := Get(m, k) + 1]
  }

  /** Last tracked values after an event with properties `props`, looking at the keys `keys`. */
  function TrackLast(last: map<string, Value>, props: map<string, Value>, keys: seq<string>): map<string, Value> {
    if keys == [] then last else
    var k, before := keys[|keys| - 1], TrackLast(last, props, keys[..|keys| - 1]);
    if k in props then before[k := props[k]] else before
  }

  function TrackMax(max: map<string, real>, props: map<string, Value>, keys: seq<string>): map<string, real> {
    if keys == [] then max else
    var k, before := keys[|keys| - 1], TrackMax(max, props, keys[..|keys| - 1]);
    if k in props && props[k].Num? && (k in before ==> props[k].n > before[k]) then before[k := props[k].n] else before
  }

  lemma TrackNothing(last: map<string, Value>, max: map<string, real>, keys: seq<string>)
    ensures TrackLast(last, map[], keys) == last && TrackMax(max, map[], keys) == max
  {
  }

  /** Identify traits overwrite; context traits only fill gaps. */
  function MergedTraits(traits: map<string, Value>, e: Event): map<string, Value> {
    e.contextTraits.m + (if e.typ == "identify" then traits + e.TraitsMap() else traits)
  }

  function NextDominant(dominant: string, counts: map<string, nat>, suburb: string): string {
    if suburb != "" && Get(counts, suburb) >= Get(counts, dominant) then suburb else dominant
  }

  function Counted(w: Win, e: Event): Win {
    w.(eventCount := w.eventCount + 1,
       typeCount := Bump(w.typeCount, e.typ),
       nameCount := Bump(w.nameCount, e.name))
  }

  function Visited(w: Win, path: string): Win {
    w.(paths := Bump(w.paths, path), pathLatest := if path != "" then path else w.pathLatest)
  }

  function Identified(w: Win, e: Event): Win {
    w.(userID := if e.userID != "" && w.userID == "" then e.userID else w.userID,
       sessionID := if e.sessionID != 0 then e.sessionID else w.sessionID)
  }

  function Captured(w: Win, e: Event): Win {
    var props := e.PropertiesMap();
    w.(listingProps := if e.name == "Listing Viewed" && props != map[] then props else w.listingProps,
       filterProps := if e.name == "Filter Applied" && props != map[] then props else w.filterProps)
  }

  function WithProperties(w: Win, e: Event): Win {
    var props, suburbs := e.PropertiesMap(), Bump(w.suburbs, SuburbOf(e));
    w.(propLast := TrackLast(w.propLast, props, PROPERTY_TRACK_KEYS),
       maxNum := TrackMax(w.maxNum, props, PROPERTY_TRACK_KEYS),
       suburbs := suburbs,
       dominant := NextDominant(w.dominant, suburbs, SuburbOf(e)))
  }

  function WithTraits(w: Win, e: Event): Win { w.(traits := MergedTraits(w.traits, e)) }

  function WithError(w: Win, e: Event): Win {
    if e.HasErrorEventName() then w.(hasError := true, lastError := NewEventRef(e, ERROR_PROPERTY_KEYS)) else w
  }

  function Stamped(w: Win, now: int, touched: int): Win {
    w.(firstSeen := if w.firstSeen == 0 || now < w.firstSeen then now else w.firstSeen,
       lastSeen := if w.lastSeen == 0 || now > w.lastSeen then now else w.lastSeen,
       touched := touched)
  }

  /** The window after one more arrival. */
  function Fold1(w: Win, a: Arrival): Win {
    var e := a.event;
    var counted := Visited(Identified(Counted(w, e), e), e.path);
    var observed := Captured(WithProperties(counted, e), e);
    Stamped(WithError(WithTraits(observed, e), e), a.Time(), a.touched)
  }

  function Fold(w: Win, history: seq<Arrival>): Win {
    if history == [] then w else Fold1(Fold(w, history[..|history| - 1]), history[|history| - 1])
  }

  /** The window object, updated field by field as events arrive. */
  class UserWindow {
    const anonID: string
    var userID: string
    var eventCount: nat
    var typeCount: map<string, nat>
    var nameCount: map<string, nat>
    var paths: map<string, nat>
    var pathLatest: string
    var maxNum: map<string, real>
    var propLast: map<string, Value>
    var hasError: bool
    var lastError: EventRef
    var firstSeen: int
    var lastSeen: int
    var traits: map<string, Value>
    var sessionID: int
    var listingProps: map<string, Value>
    var filterProps: map<string, Value>
    var dominant: string
    var suburbs: map<string, nat>
    var triggered: map<string, int>
    var touched: int

    constructor (id: string, now: int)
      ensures View() == NewWin(id, now)
      ensures anonID == id
    {
      anonID, userID, eventCount, pathLatest := id, "", 0, "";
      typeCount, nameCount, paths, suburbs := map[], map[], map[], map[];
      maxNum, propLast, traits, listingProps, filterProps := map[], map[], map[], map[], map[];
      hasError, lastError, firstSeen, lastSeen, sessionID := false, NO_EVENT, 0, 0, 0;
      dominant, triggered, touched := "", map[], now;
    }

    function View(): Win
      reads this
    {
      Win(anonID, userID, eventCount, typeCount, nameCount, paths, pathLatest, maxNum, propLast, hasError,
          lastError, firstSeen, lastSeen, traits, sessionID, listingProps, filterProps, dominant, suburbs,
          triggered, touched)
    }

    /** Folds one event into the window. */
    method Apply(e: Event, receivedAt: int, fallback: int, clock: int)
      modifies this
      ensures View() == Fold1(old(View()), Arrival(e, receivedAt, fallback, clock))
    {
      var now := receivedAt;
      if now == 0 { now := e.originalTimestamp; }
      if now == 0 { now := fallback; }
      CountEvent(e);
      Identify(e);
      Visit(e.path);
      ApplyProperties(e);
      Capture(e);
      MergeTraits(e);
      RecordError(e);
      Stamp(now, clock);
    }

    method RecordError(e: Event)
      modifies this`hasError, this`lastError
      ensures View() == WithError(old(View()), e)
    {
      if e.HasErrorEventName() {
        hasError := true;
        lastError := NewEventRef(e, ERROR_PROPERTY_KEYS);
      }
    }

    method Stamp(now: int, clock: int)
      modifies this`firstSeen, this`lastSeen, this`touched
      ensures View() == Stamped(old(View()), now, clock)
    {
      if firstSeen == 0 || now < firstSeen { firstSeen := now; }
      if lastSeen == 0 || now > lastSeen { lastSeen := now; }
      touched := clock;
    }

    method CountEvent(e: Event)
      modifies this`eventCount, this`typeCount, this`nameCount
      ensures View() == Counted(old(View()), e)
    {
      eventCount := eventCount + 1;
      CountNames(e);
    }

    method CountNames(e: Event)
      modifies this`typeCount, this`nameCount
      ensures typeCount == Bump(old(typeCount), e.typ) && nameCount == Bump(old(nameCount), e.name)
    {
      if e.typ != "" { typeCount := typeCount[e.typ := Get(typeCount, e.typ) + 1]; }
      if e.name != "" { nameCount := nameCount[e.name := Get(nameCount, e.name) + 1]; }
    }

    method Visit(path: string)
      modifies this`paths, this`pathLatest
      ensures View() == Visited(old(View()), path)
    {
      if path != "" {
        paths := paths[path := Get(paths, path) + 1];
        pathLatest := path;
      }
    }

    method Identify(e: Event)
      modifies this`userID, this`sessionID
      ensures View() == Identified(old(View()), e)
    {
      if e.userID != "" && userID == "" { userID := e.userID; }
      if e.sessionID != 0 { sessionID := e.sessionID; }
    }

    /** Tracked properties and the dominant suburb. */
    method ApplyProperties(e: Event)
      modifies this`propLast, this`maxNum, this`suburbs, this`dominant
      ensures View() == WithProperties(old(View()), e)
    {
      hide TrackLast, TrackMax, NextDominant, Bump, SuburbOf;
      TrackProperties(e.PropertiesMap(), PROPERTY_TRACK_KEYS);
      CountSuburb(SuburbOf(e));
    }

    /** The latest listing and filter property maps. */
    method Capture(e: Event)
      modifies this`listingProps, this`filterProps
      ensures View() == Captured(old(View()), e)
    {
      var props := e.PropertiesMap();
      if props != map[] {
        if e.name == "Listing Viewed" { listingProps := props; }
        if e.name == "Filter Applied" { filterProps := props; }
      }
    }

    method CountSuburb(suburb: string)
      modifies this`suburbs, this`dominant
      ensures suburbs == Bump(old(suburbs), suburb) && dominant == NextDominant(old(dominant), suburbs, suburb)
    {
      if suburb != "" {
        suburbs := suburbs[suburb := Get(suburbs, suburb) + 1];
        if Get(suburbs, suburb) >= Get(suburbs, dominant) { dominant := suburb; }
      }
    }

    /** The loop over the tracked property keys. */
    method TrackProperties(props: map<string, Value>, keys: seq<string>)
      modifies this`propLast, this`maxNum
      ensures propLast == TrackLast(old(propLast), props, keys)
      ensures maxNum == TrackMax(old(maxNum), props, keys)
    {
      if props == map[] {
        TrackNothing(propLast, maxNum, keys);
        return;
      }
      for i := 0 to |keys|
        invariant propLast == TrackLast(old(propLast), props, keys[..i])
        invariant maxNum == TrackMax(old(maxNum), props, keys[..i])
      {
        var k := keys[i];
        assert keys[..i + 1][..i] == keys[..i];
        if k in props {
          propLast := propLast[k := props[k]];
          if props[k].Num? && (k !in maxNum || props[k].n > maxNum[k]) {
            maxNum := maxNum[k := props[k].n];
          }
        }
      }
      assert keys[..|keys|] == keys;
    }

    /** The two trait loops: identify traits overwrite, context traits only fill gaps. */
    method MergeTraits(e: Event)
      modifies this`traits
      ensures View() == WithTraits(old(View()), e)
    {
      var t := traits;
      if e.typ == "identify" {
        t := Overwrite(t, e.TraitsMap());
      }
      traits := FillGaps(t, e.contextTraits.m);
    }

    static method Overwrite(base: map<string, Value>, given: map<string, Value>) returns (t: map<string, Value>)
      ensures t == base + given
    {
      t := base;
      var todo := given.Keys;
      while todo != {}
        invariant todo <= given.Keys
        invariant t.Keys == base.Keys + (given.Keys - todo)
        invariant forall k :: k in t ==> t[k] == if k in given && k !in todo then given[k] else base[k]
      {
        var k :| k in todo;
        t := t[k := given[k]];
        todo := todo - {k};
      }
    }

    static method FillGaps(base: map<string, Value>, given: map<string, Value>) returns (t: map<string, Value>)
      ensures t == given + base
    {
      t := base;
      var todo := given.Keys;
      while todo != {}
        invariant todo <= given.Keys
        invariant t.Keys == base.Keys + (given.Keys - todo)
        invariant forall k :: k in t ==> t[k] == if k in base then base[k] else given[k]
      {
        var k :| k in todo;
        if k !in t { t := t[k := given[k]]; }
        todo := todo - {k};
      }
    }
  }
}
