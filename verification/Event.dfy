/** The event fields that filtering, aggregation and archiving read (internal/event/event.go). */
module Event {
  import opened Json

  /** A raw JSON field: absent, malformed or not an object; or an object. */
  datatype Raw = Opaque | Parsed(obj: Obj)

  datatype Event = Event(
    typ: string,
    name: string,
    anonymousID: string,
    userID: string,
    messageID: string,
    originalTimestamp: int,
    sessionID: int,
    path: string,
    contextTraits: Obj,
    deniedConsent: seq<string>,
    properties: Raw,
    traits: Raw)
  {
    function EffectiveAnonymousID(): string {
      if anonymousID != "" then anonymousID else userID
    }

    function PropertiesMap(): map<string, Value> { Decode(properties) }

    function TraitsMap(): map<string, Value> { Decode(traits) }

    predicate HasErrorEventName() {
      |name| >= 5 && name[|name| - 5..] == "Error"
    }
  }

  function Decode(r: Raw): map<string, Value> {
    if r.Parsed? then r.obj.m else map[]
  }

  /** A compact summary of an event; `properties` is empty when nothing was kept. */
  datatype EventRef = EventRef(messageID: string, name: string, typ: string, occurredAt: int,
                               properties: map<string, Value>)

  const NO_EVENT := EventRef("", "", "", 0, map[])

  function NewEventRef(e: Event, keys: seq<string>): EventRef {
    EventRef(e.messageID, e.name, e.typ, e.originalTimestamp,
             map k | k in e.PropertiesMap() && k in keys :: e.PropertiesMap()[k])
  }
}
