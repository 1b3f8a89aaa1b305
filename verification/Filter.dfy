/** Dropping events and redacting fields (internal/filter/filter.go). */
module Filter {
  import opened Json
  import opened Event
  import opened Options

  const REDACTED: Value := Str("[REDACTED]")

  // ----- Paths -----

  function IndexOf(s: string, c: char): (i: nat)
    ensures i <= |s| && c !in s[..i] && (i < |s| ==> s[i] == c)
  {
    if s == "" || s[0] == c then 0 else
    var i := 1 + IndexOf(s[1..], c);
    assert s[..i] == [s[0]] + s[1..][..i - 1];
    i
  }

  function Join(parts: seq<string>): string {
    if parts == [] then "" else if |parts| == 1 then parts[0] else parts[0] + "." + Join(parts[1..])
  }

  /** At most `n` parts, split at the first dots. */
  function SplitN(s: string, n: nat): (parts: seq<string>)
    requires n > 0
    ensures 0 < |parts| <= n && Join(parts) == s
    ensures forall i :: 0 <= i < |parts| - 1 ==> '.' !in parts[i]
    ensures |parts| < n ==> '.' !in parts[|parts| - 1]
    decreases n
  {
    var i := IndexOf(s, '.');
    if n == 1 || i == |s| then assert s[..|s|] == s; [s]
    else
      var rest := SplitN(s[i + 1..], n - 1);
      assert s == s[..i] + "." + s[i + 1..];
      assert forall j :: 0 < j < |rest| + 1 ==> ([s[..i]] + rest)[j] == rest[j - 1];
      assert ([s[..i]] + rest)[1..] == rest;
      [s[..i]] + rest
  }

  /** What one redaction path names. */
  datatype Target = Property(key: string) | Trait(key: string) | ContextTrait(key: string) | Nothing

  function TargetOf(path: string): Target {
    var parts := SplitN(path, 3);
    if |parts| < 2 then Nothing
    else if parts[0] == "properties" && |parts| == 2 then Property(parts[1])
    else if parts[0] == "traits" && |parts| == 2 then Trait(parts[1])
    else if parts[0] == "context" && |parts| >= 3 && parts[1] == "traits" then ContextTrait(parts[2])
    else Nothing
  }

  /** Two texts cut at their first dot are cut at the same place. */
  lemma FirstDot(a: string, x: string, b: string, y: string)
    requires a + "." + x == b + "." + y && '.' !in a && '.' !in b
    ensures a == b && x == y
  {
    var s, t := a + "." + x, b + "." + y;
    assert s[|a|] == '.' && t[|b|] == '.';
    assert a == s[..|a|] && b == t[..|b|] && x == s[|a| + 1..] && y == t[|b| + 1..];
  }

  /** The first part of a text with a dot is what comes before it. */
  lemma SplitFirst(s: string, n: nat, a: string, x: string)
    requires n > 1 && s == a + "." + x && '.' !in a
    ensures var parts := SplitN(s, n);
            |parts| > 1 && parts[0] == a && Join(parts[1..]) == x
            && (forall i :: 0 <= i < |parts[1..]| - 1 ==> '.' !in parts[1..][i])
            && (|parts| < n ==> '.' !in parts[|parts| - 1])
  {
    var parts := SplitN(s, n);
    assert s[|a|] == '.';
    assert |parts| > 1;
    FirstDot(parts[0], Join(parts[1..]), a, x);
    hide SplitN;
  }

  lemma JoinedHasDot(parts: seq<string>)
    requires |parts| > 1
    ensures '.' in Join(parts)
  {
    assert Join(parts)[|parts[0]|] == '.';
  }

  lemma NamesField(path: string, top: string, key: string)
    requires '.' !in top && '.' !in key && path == top + "." + key
    ensures SplitN(path, 3) == [top, key]
  {
    SplitFirst(path, 3, top, key);
    var parts := SplitN(path, 3);
    hide SplitN;
    if |parts[1..]| > 1 { JoinedHasDot(parts[1..]); }
  }

  lemma NamesNested(path: string, key: string)
    requires path == "context" + "." + ("traits" + "." + key)
    ensures SplitN(path, 3) == ["context", "traits", key]
  {
    SplitFirst(path, 3, "context", "traits" + "." + key);
    var parts := SplitN(path, 3);
    hide SplitN;
    assert ("traits" + "." + key)[6] == '.';
    assert |parts| == 3;
    assert Join(parts[1..]) == parts[1] + "." + parts[2];
    FirstDot(parts[1], parts[2], "traits", key);
  }

  lemma SplitIsPath(path: string)
    ensures var parts := SplitN(path, 3);
            && (|parts| == 2 ==> path == parts[0] + "." + parts[1] && '.' !in parts[0] && '.' !in parts[1])
            && (|parts| == 3 ==> path == parts[0] + "." + (parts[1] + "." + parts[2]) && '.' !in parts[0])
  {
    var parts := SplitN(path, 3);
    hide SplitN;
    if |parts| == 3 { assert parts[1..][1..] == [parts[2]]; }
  }

  lemma TargetIfNamed(path: string, key: string)
    ensures path == "properties." + key && '.' !in key ==> TargetOf(path) == Property(key)
    ensures path == "traits." + key && '.' !in key ==> TargetOf(path) == Trait(key)
    ensures path == "context.traits." + key ==> TargetOf(path) == ContextTrait(key)
  {
    assert "properties." + key == "properties" + "." + key && "traits." + key == "traits" + "." + key;
    assert "context.traits." + key == "context" + "." + ("traits" + "." + key);
    hide SplitN, Join;
    if path == "properties." + key && '.' !in key { NamesField(path, "properties", key); }
    if path == "traits." + key && '.' !in key { NamesField(path, "traits", key); }
    if path == "context.traits." + key { NamesNested(path, key); }
  }

  lemma NamedIfTarget(path: string, key: string)
    ensures TargetOf(path) == Property(key) ==> path == "properties." + key && '.' !in key
    ensures TargetOf(path) == Trait(key) ==> path == "traits." + key && '.' !in key
    ensures TargetOf(path) == ContextTrait(key) ==> path == "context.traits." + key
  {
    assert "properties." + key == "properties" + "." + key && "traits." + key == "traits" + "." + key;
    assert "context.traits." + key == "context" + "." + ("traits" + "." + key);
    SplitIsPath(path);
    hide SplitN, Join;
  }

  predicate NamesKey(path: string, key: string) {
    (path == "properties." + key && '.' !in key) || (path == "traits." + key && '.' !in key)
      || path == "context.traits." + key
  }

  /** Exactly which paths name something: a property or trait key is taken whole and has no dot in it, a context trait
      key may have dots, and every other path names nothing. */
  lemma TargetIsPath(path: string)
    ensures forall key :: TargetOf(path) == Property(key) <==> path == "properties." + key && '.' !in key
    ensures forall key :: TargetOf(path) == Trait(key) <==> path == "traits." + key && '.' !in key
    ensures forall key :: TargetOf(path) == ContextTrait(key) <==> path == "context.traits." + key
    ensures TargetOf(path) == Nothing <==> !exists key :: NamesKey(path, key)
  {
    hide TargetOf;
    forall key
      ensures TargetOf(path) == Property(key) <==> path == "properties." + key && '.' !in key
      ensures TargetOf(path) == Trait(key) <==> path == "traits." + key && '.' !in key
      ensures TargetOf(path) == ContextTrait(key) <==> path == "context.traits." + key
    {
      TargetIfNamed(path, key);
      NamedIfTarget(path, key);
    }
    match TargetOf(path) {
      case Property(key) => assert NamesKey(path, key);
      case Trait(key) => assert NamesKey(path, key);
      case ContextTrait(key) => assert NamesKey(path, key);
      case Nothing =>
    }
  }

  // ----- What a list of paths names -----

  predicate NamesProperty(paths: seq<string>, key: string) { '.' !in key && "properties." + key in paths }

  predicate NamesTrait(paths: seq<string>, key: string) { '.' !in key && "traits." + key in paths }

  predicate NamesContextTrait(paths: seq<string>, key: string) { "context.traits." + key in paths }

  // ----- Redaction -----

  /** The keys to hide in each container. */
  datatype Mask = Mask(props: set<string>, traits: set<string>, context: set<string>)

  function MaskOf(paths: seq<string>): Mask {
    if paths == [] then Mask({}, {}, {}) else
    MaskWith(MaskOf(paths[..|paths| - 1]), TargetOf(paths[|paths| - 1]))
  }

  function MaskWith(mask: Mask, target: Target): Mask {
    match target
    case Property(key) => mask.(props := mask.props + {key})
    case Trait(key) => mask.(traits := mask.traits + {key})
    case ContextTrait(key) => mask.(context := mask.context + {key})
    case Nothing => mask
  }

  function Hide(m: map<string, Value>, keys: set<string>): (r: map<string, Value>)
    ensures r.Keys == m.Keys
  {
    map k | k in m :: if k in keys then REDACTED else m[k]
  }

  function HideRaw(raw: Raw, keys: set<string>): Raw {
    if raw.Parsed? then Parsed(Obj(Hide(raw.obj.m, keys))) else raw
  }

  /** The event with every masked key that it carries overwritten. */
  function Redact(e: Event, mask: Mask): Event {
    e.(properties := HideRaw(e.properties, mask.props),
       traits := HideRaw(e.traits, mask.traits),
       contextTraits := Obj(Hide(e.contextTraits.m, mask.context)))
  }

  /** The event carries a masked key. */
  ghost predicate Touched(e: Event, mask: Mask) {
    || (exists k :: k in e.PropertiesMap() && k in mask.props)
    || (exists k :: k in e.TraitsMap() && k in mask.traits)
    || (exists k :: k in e.contextTraits.m && k in mask.context)
  }

  lemma HideMore(m: map<string, Value>, keys: set<string>, key: string)
    ensures Hide(m, keys + {key}) == if key in m then Hide(m, keys)[key := REDACTED] else Hide(m, keys)
  {
  }

  lemma HideNothing(m: map<string, Value>)
    ensures Hide(m, {}) == m
  {
  }

  /** The mask of a list of paths has just the keys that the paths name. */
  lemma {:induction false} MaskIsPaths(paths: seq<string>, key: string)
    ensures key in MaskOf(paths).props <==> NamesProperty(paths, key)
    ensures key in MaskOf(paths).traits <==> NamesTrait(paths, key)
    ensures key in MaskOf(paths).context <==> NamesContextTrait(paths, key)
  {
    if paths != [] {
      var init, path := paths[..|paths| - 1], paths[|paths| - 1];
      assert paths == init + [path];
      MaskIsPaths(init, key);
      TargetIsPath(path);
      hide TargetOf;
    }
  }

  /** In a container the keys are as they were; the named ones read "[REDACTED]" and the others keep their values. */
  ghost predicate Overwritten(m: map<string, Value>, m': map<string, Value>, named: string -> bool) {
    m'.Keys == m.Keys && forall k :: k in m ==> m'[k] == if named(k) then Str("[REDACTED]") else m[k]
  }

  /** `e'` is `e` with the keys named by the paths overwritten, and nothing else changed. */
  ghost predicate RedactedBy(e: Event, e': Event, paths: seq<string>) {
    && Overwritten(e.PropertiesMap(), e'.PropertiesMap(), k => NamesProperty(paths, k))
    && Overwritten(e.TraitsMap(), e'.TraitsMap(), k => NamesTrait(paths, k))
    && Overwritten(e.contextTraits.m, e'.contextTraits.m, k => NamesContextTrait(paths, k))
    && e'.properties.Opaque? == e.properties.Opaque? && e'.traits.Opaque? == e.traits.Opaque?
    && e' == e.(properties := e'.properties, traits := e'.traits, contextTraits := e'.contextTraits)
  }

  /** The event carries a key that one of the paths names. */
  ghost predicate Carries(e: Event, paths: seq<string>) {
    || (exists k :: k in e.PropertiesMap() && NamesProperty(paths, k))
    || (exists k :: k in e.TraitsMap() && NamesTrait(paths, k))
    || (exists k :: k in e.contextTraits.m && NamesContextTrait(paths, k))
  }

  lemma RedactIsPaths(e: Event, paths: seq<string>)
    ensures RedactedBy(e, Redact(e, MaskOf(paths)), paths)
    ensures Touched(e, MaskOf(paths)) <==> Carries(e, paths)
  {
    forall key
      ensures key in MaskOf(paths).props <==> NamesProperty(paths, key)
      ensures key in MaskOf(paths).traits <==> NamesTrait(paths, key)
      ensures key in MaskOf(paths).context <==> NamesContextTrait(paths, key)
    {
      MaskIsPaths(paths, key);
    }
    hide MaskOf, NamesProperty, NamesTrait, NamesContextTrait;
  }

  datatype Config = Config(allowedWriteKeys: map<string, bool>, redactPaths: seq<string>,
           dropOnConsentDeny: seq<string>)

  /** `event` is `None` for Go's nil pointer. */
  datatype ProcessedEvent = ProcessedEvent(event: Option<Event>, writeKey: string, receivedAt: int)

  class Filter {
    const cfg: Config
    const deniedSet: set<string>
    var dropped: nat
    var redacted: nat
    var passed: nat

    ghost predicate Valid() { forall id :: id in deniedSet <==> id in cfg.dropOnConsentDeny }

    constructor (cfg: Config)
      ensures Valid() && this.cfg == cfg && dropped == 0 && redacted == 0 && passed == 0
    {
      this.cfg, dropped, redacted, passed := cfg, 0, 0, 0;
      deniedSet := set id | id in cfg.dropOnConsentDeny;
    }

    /** Kept exactly when the write key is allowed and no denied consent is on the drop list; then every key named by a
        configured path is overwritten and nothing else changes. Each event is counted once as dropped or passed, and
        once as redacted when it carried such a key. */
    method Process(pe: ProcessedEvent) returns (out: ProcessedEvent, keep: bool)
      requires Valid()
      modifies this
      ensures keep <==>
                (cfg.allowedWriteKeys == map[]
                 || (pe.writeKey in cfg.allowedWriteKeys && cfg.allowedWriteKeys[pe.writeKey]))
                && (pe.event.Some? ==> forall id :: id in pe.event.value.deniedConsent ==> id !in cfg.dropOnConsentDeny)
      ensures out == if keep && pe.event.Some? then pe.(event := Some(Redact(pe.event.value, MaskOf(cfg.redactPaths))))
              else pe
      ensures dropped == old(dropped) + (if keep then 0 else 1) && passed == old(passed) + (if keep then 1 else 0)
      ensures keep && pe.event.Some? ==> out.event.Some? && RedactedBy(pe.event.value, out.event.value, cfg.redactPaths)
      ensures redacted == old(redacted) + if keep && pe.event.Some? && Carries(pe.event.value, cfg.redactPaths) then 1
              else 0
    {
      if pe.event.Some? { RedactIsPaths(pe.event.value, cfg.redactPaths); }
      if |cfg.allowedWriteKeys| > 0 {
        if !(pe.writeKey in cfg.allowedWriteKeys && cfg.allowedWriteKeys[pe.writeKey]) {
          dropped := dropped + 1;
          return pe, false;
        }
      }
      var denied := IsConsentDenied(pe.event);
      if denied {
        dropped := dropped + 1;
        return pe, false;
      }
      if |cfg.redactPaths| > 0 && pe.event.Some? {
        var e, any := RedactEvent(pe.event.value);
        if any { redacted := redacted + 1; }
        passed := passed + 1;
        return pe.(event := Some(e)), true;
      }
      passed := passed + 1;
      if pe.event.Some? {
        var e := pe.event.value;
        HideNothing(e.contextTraits.m);
        HideNothing(e.PropertiesMap());
        HideNothing(e.TraitsMap());
      }
      return pe, true;
    }

    method IsConsentDenied(e: Option<Event>) returns (denied: bool)
      requires Valid()
      ensures denied <==> e.Some? && exists id :: id in e.value.deniedConsent && id in cfg.dropOnConsentDeny
    {
      if e.None? || |deniedSet| == 0 { return false; }
      var ids := e.value.deniedConsent;
      for i := 0 to |ids|
        invariant forall j :: 0 <= j < i ==> ids[j] !in deniedSet
      {
        if ids[i] in deniedSet { return true; }
      }
      return false;
    }

    /** Applies the paths one by one. */
    method RedactEvent(e: Event) returns (out: Event, any: bool)
      ensures out == Redact(e, MaskOf(cfg.redactPaths)) && (any <==> Touched(e, MaskOf(cfg.redactPaths)))
    {
      out, any := e, false;
      HideNothing(e.contextTraits.m);
      HideNothing(e.PropertiesMap());
      HideNothing(e.TraitsMap());
      for i := 0 to |cfg.redactPaths|
        invariant out == Redact(e, MaskOf(cfg.redactPaths[..i]))
        invariant any <==> Touched(e, MaskOf(cfg.redactPaths[..i]))
      {
        assert cfg.redactPaths[..i + 1][..i] == cfg.redactPaths[..i];
        var hit;
        out, hit := RedactPath(out, TargetOf(cfg.redactPaths[i]), e, MaskOf(cfg.redactPaths[..i]));
        any := any || hit;
      }
      assert cfg.redactPaths[..|cfg.redactPaths|] == cfg.redactPaths;
    }

    static method RedactPath(e: Event, target: Target, ghost original: Event, ghost mask: Mask)
      returns (out: Event, hit: bool)
      requires e == Redact(original, mask)
      ensures out == Redact(original, MaskWith(mask, target))
      ensures Touched(original, MaskWith(mask, target)) <==> Touched(original, mask) || hit
    {
      match target {
        case Property(key) =>
          HideMore(original.PropertiesMap(), mask.props, key);
          var raw; raw, hit := RedactRawField(e.properties, key);
          out := e.(properties := raw);
        case Trait(key) =>
          HideMore(original.TraitsMap(), mask.traits, key);
          var raw; raw, hit := RedactRawField(e.traits, key);
          out := e.(traits := raw);
        case ContextTrait(key) =>
          HideMore(original.contextTraits.m, mask.context, key);
          var m; m, hit := RedactKey(e.contextTraits.m, key);
          out := e.(contextTraits := Obj(m));
        case Nothing => out, hit := e, false;
      }
    }

    static method RedactRawField(raw: Raw, key: string) returns (out: Raw, hit: bool)
      ensures hit <==> key in Decode(raw)
      ensures out == if hit then Parsed(Obj(Decode(raw)[key := REDACTED])) else raw
    {
      if raw.Opaque? { return raw, false; }
      var m; m, hit := RedactKey(raw.obj.m, key);
      out := Parsed(Obj(m));
    }

    static method RedactKey(m: map<string, Value>, key: string) returns (out: map<string, Value>, hit: bool)
      ensures hit <==> key in m
      ensures out == if hit then m[key := REDACTED] else m
    {
      if key !in m { return m, false; }
      return m[key := REDACTED], true;
    }
  }
}
