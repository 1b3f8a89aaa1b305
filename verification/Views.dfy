/** What a snapshot tells of the events of its user, field by field (internal/window/snapshot.go). */
module Views {
  import opened Json
  import opened Options
  import opened Event
  import opened Window
  import opened WindowSummary
  import opened Snapshots
  import opened Verdicts

  /** The view of a window into which the events of `h` have been folded, its idle figure filled in at `now`. */
  function ViewOf(id: string, t: int, h: seq<Arrival>, now: int): Snapshot { TakeAt(Fold(NewWin(id, t), h), now) }

  /** Counts are frequencies; user, latest path and session are the first or last non-empty ones. */
  lemma {:induction false} ViewCounts(id: string, t: int, h: seq<Arrival>, now: int)
    ensures var s := ViewOf(id, t, h, now);
            && s.anonID == id && s.eventCount == |h|
            && IsTally(s.typeCount, h, TypeOf()) && IsTally(s.nameCount, h, NameOf()) && IsTally(s.paths, h, PathOf())
            && NonEmpty(s.pathLatest) == LastSome(h, PathSeen()) && NonEmpty(s.userID) == FirstSome(h, User())
            && NonZero(s.sessionID) == LastSome(h, Session())
  {
    CountsAreFrequencies(id, t, h);
    LatestScalars(id, t, h);
    hide Fold, IsTally, LastSome, FirstSome, NonEmpty, NonZero;
  }

  /** Tracked properties, their largest numbers and traits, key by key; the last listing and the last filter seen. */
  lemma {:induction false} ViewValues(id: string, t: int, h: seq<Arrival>, now: int, k: string)
    ensures var s := ViewOf(id, t, h, now);
            && Lookup(s.propLast, k) == (if k in PROPERTY_TRACK_KEYS then LastSome(h, Prop(k)) else None)
            && Lookup(s.maxNum, k) == (if k in PROPERTY_TRACK_KEYS then MaxSome(h, NumProp(k)) else None)
            && Lookup(s.traits, k) == LastSome(h, IdentifyTrait(k)).Or(FirstSome(h, ContextTrait(k)))
            && NonVoid(s.listingProps) == LastSome(h, PropsOf("Listing Viewed"))
            && NonVoid(s.filterProps) == LastSome(h, PropsOf("Filter Applied"))
            && IsRecentArgmax(s.dominant, h)
  {
    TrackedValues(id, t, h, k);
    TraitValues(id, t, h, k);
    LatestPayloads(id, t, h);
    DominantIsRecentArgmax(id, t, h);
    hide Fold, IsRecentArgmax, LastSome, FirstSome, MaxSome, NonVoid, Lookup;
  }

  /** The summary of an event: its own id, name, type and time, and those of its properties that have one of the keys.
      */
  ghost predicate Summarises(r: EventRef, e: Event, keys: seq<string>) {
    && r.messageID == e.messageID && r.name == e.name && r.typ == e.typ && r.occurredAt == e.originalTimestamp
    && forall k :: (k in r.properties <==> k in keys && k in e.PropertiesMap())
                   && (k in r.properties ==> r.properties[k] == e.PropertiesMap()[k])
  }

  ghost predicate LastError(h: seq<Arrival>, i: nat) {
    && i < |h| && EndsIn(h[i].event.name, "Error")
    && forall j :: i < j < |h| ==> !EndsIn(h[j].event.name, "Error")
  }

  lemma RefSummarises(e: Event, keys: seq<string>)
    ensures Summarises(NewEventRef(e, keys), e, keys)
  {
  }

  lemma {:induction false} LastErrorIs(h: seq<Arrival>, i: nat)
    requires LastError(h, i)
    ensures LastSome(h, ErrorOf()) == Some(NewEventRef(h[i].event, ERROR_PROPERTY_KEYS))
  {
    forall j | 0 <= j < |h| ensures ErrorOf()(h[j]).Some? <==> EndsIn(h[j].event.name, "Error") {
      ErrorNameIff(h[j].event);
    }
    ErrorNameIff(h[i].event);
    hide LastSome, EndsIn, NewEventRef, Event.HasErrorEventName;
  }

  lemma {:induction false} LastErrorExists(h: seq<Arrival>) returns (i: nat)
    requires LastSome(h, ErrorOf()).Some?
    ensures LastError(h, i)
  {
    forall j | 0 <= j < |h| ensures ErrorOf()(h[j]).Some? <==> EndsIn(h[j].event.name, "Error") {
      ErrorNameIff(h[j].event);
    }
    var r := LastSome(h, ErrorOf());
    hide LastSome, EndsIn, NewEventRef, Event.HasErrorEventName;
    i :| i < |h| && ErrorOf()(h[i]) == r && forall j :: i < j < |h| ==> ErrorOf()(h[j]).None?;
  }

  /** The view shows an error exactly if some event was one, and then the last of them, with just the error keys. */
  lemma {:induction false} ViewError(id: string, t: int, h: seq<Arrival>, now: int)
    ensures ViewOf(id, t, h, now).hasError <==> exists i: nat :: LastError(h, i)
    ensures forall i: nat :: LastError(h, i) ==>
              Summarises(ViewOf(id, t, h, now).lastError, h[i].event, ERROR_PROPERTY_KEYS)
  {
    LatestPayloads(id, t, h);
    var s := ViewOf(id, t, h, now);
    assert (if s.hasError then Some(s.lastError) else None) == LastSome(h, ErrorOf());
    hide Fold, ViewOf, LastSome, NewEventRef, EndsIn, LastError, Summarises, ErrorOf;
    if s.hasError { var i := LastErrorExists(h); }
    forall i: nat | LastError(h, i)
      ensures i < |h| && s.hasError && Summarises(s.lastError, h[i].event, ERROR_PROPERTY_KEYS)
    {
      LastErrorIs(h, i);
      InHistory(h, i);
      RefSummarises(h[i].event, ERROR_PROPERTY_KEYS);
    }
  }

  lemma InHistory(h: seq<Arrival>, i: nat)
    requires LastError(h, i)
    ensures i < |h|
  {
  }

  /** The idle figure is the whole seconds since the latest arrival, and 0 when that lies in the future. */
  lemma {:induction false} ViewIdle(id: string, t: int, h: seq<Arrival>, now: int)
    requires h != [] && forall i :: 0 <= i < |h| ==> !HappenedAt(h[i], 0)
    ensures var s := ViewOf(id, t, h, now);
            && Spans(h, s.firstSeen, s.lastSeen)
            && var silent := if s.lastSeen <= now then now - s.lastSeen else 0;
               s.idleSeconds * NANOS_PER_SECOND <= silent < (s.idleSeconds + 1) * NANOS_PER_SECOND
  {
    SeenTimes(id, t, h);
    var w := Fold(NewWin(id, t), h);
    assert w.lastSeen != 0;
    hide Fold, Spans, HappenedAt;
  }
}
