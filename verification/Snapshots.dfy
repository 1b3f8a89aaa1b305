/** Immutable views of windows (internal/window/snapshot.go). */
module Snapshots {
  import opened Json
  import opened Event
  import opened Window

  const NANOS_PER_SECOND := 1_000_000_000

  datatype Snapshot = Snapshot(
    anonID: string,
    userID: string,
    eventCount: nat,
    typeCount: map<string, nat>,
    nameCount: map<string, nat>,
    paths: map<string, nat>,
    pathLatest: string,
    maxNum: map<string, real>,
    propLast: map<string, Value>,
    hasError: bool,
    lastError: EventRef,
    firstSeen: int,
    lastSeen: int,
    traits: map<string, Value>,
    sessionID: int,
    triggered: map<string, int>,
    listingProps: map<string, Value>,
    filterProps: map<string, Value>,
    dominant: string,
    idleSeconds: int)
  {
    /** Idle time in nanoseconds, clamped at zero. */
    function IdleFor(now: int): nat {
      if lastSeen == 0 || now < lastSeen then 0 else now - lastSeen
    }
  }

  /** The view of a window; the suburb counters and the LRU stamp stay behind. */
  function Take(w: Win): Snapshot {
    Snapshot(w.anonID, w.userID, w.eventCount, w.typeCount, w.nameCount, w.paths, w.pathLatest, w.maxNum, w.propLast,
             w.hasError, w.lastError, w.firstSeen, w.lastSeen, w.traits, w.sessionID, w.triggered, w.listingProps,
             w.filterProps, w.dominant, 0)
  }

  /** The view with its idle figure filled in, in whole seconds. */
  function TakeAt(w: Win, now: int): Snapshot {
    var s := Take(w);
    s.(idleSeconds := s.IdleFor(now) / NANOS_PER_SECOND)
  }
}
