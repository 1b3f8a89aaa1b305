/** Redaction changes no verdict that does not read a redacted value: filter, windows, rules and cooldown together. */
module NonInterference {
  import opened Json
  import opened Options
  import opened Event
  import opened Window
  import opened Snapshots
  import opened Filter
  import opened Predicates
  import opened Expr
  import opened Engine
  import opened Lru
  import opened Service

  function RedactArrival(a: Arrival, mask: Mask): Arrival { a.(event := Redact(a.event, mask)) }

  function RedactAll(h: seq<Arrival>, mask: Mask): seq<Arrival> {
    seq(|h|, i requires 0 <= i < |h| => RedactArrival(h[i], mask))
  }

  // ----- How a window built from redacted events differs from one built from raw events -----

  /** `hidden` is `raw` with the values of `keys` overwritten. */
  ghost predicate Masked(raw: map<string, Value>, hidden: map<string, Value>, keys: set<string>) {
    && raw.Keys == hidden.Keys
    && forall k :: k in raw ==> hidden[k] == if k in keys then REDACTED else raw[k]
  }

  /** Maxima of hidden keys are missing, since the placeholder is not a number. */
  ghost predicate MaximaMasked(raw: map<string, real>, hidden: map<string, real>, keys: set<string>) {
    hidden == raw - keys
  }

  /** A trait comes from identify traits or context traits: it is surely hidden when its key is masked in both,
      untouched when masked in neither, and one or the other otherwise. */
  ghost predicate TraitsMasked(raw: map<string, Value>, hidden: map<string, Value>, mask: Mask) {
    && raw.Keys == hidden.Keys
    && forall k :: k in raw ==>
         && (k in mask.traits && k in mask.context ==> hidden[k] == REDACTED)
         && (k !in mask.traits && k !in mask.context ==> hidden[k] == raw[k])
         && (hidden[k] == REDACTED || hidden[k] == raw[k])
  }

  /** With the suburb masked, the only suburb the window can hold is the placeholder. */
  ghost predicate SuburbsMasked(raw: Win, hidden: Win, mask: Mask) {
    if "suburb" in mask.props then hidden.suburbs.Keys <= {REDACTED.s}
      && (hidden.dominant == "" || hidden.dominant == REDACTED.s)
    else hidden.suburbs == raw.suburbs && hidden.dominant == raw.dominant
  }

  ghost predicate ErrorMasked(raw: EventRef, hidden: EventRef, keys: set<string>) {
    hidden == raw.(properties := hidden.properties) && Masked(raw.properties, hidden.properties, keys)
  }

  ghost predicate SameScalars(raw: Win, hidden: Win) {
    && hidden.anonID == raw.anonID && hidden.userID == raw.userID && hidden.eventCount == raw.eventCount
    && hidden.typeCount == raw.typeCount && hidden.nameCount == raw.nameCount
    && hidden.paths == raw.paths && hidden.pathLatest == raw.pathLatest
    && hidden.hasError == raw.hasError && hidden.firstSeen == raw.firstSeen && hidden.lastSeen == raw.lastSeen
    && hidden.sessionID == raw.sessionID && hidden.triggered == raw.triggered && hidden.touched == raw.touched
  }

  ghost predicate Agree(raw: Win, hidden: Win, mask: Mask) {
    && SameScalars(raw, hidden)
    && Masked(raw.propLast, hidden.propLast, mask.props)
    && MaximaMasked(raw.maxNum, hidden.maxNum, mask.props)
    && Masked(raw.listingProps, hidden.listingProps, mask.props)
    && Masked(raw.filterProps, hidden.filterProps, mask.props)
    && ErrorMasked(raw.lastError, hidden.lastError, mask.props)
    && TraitsMasked(raw.traits, hidden.traits, mask)
    && SuburbsMasked(raw, hidden, mask)
  }

  // ----- One event -----

  lemma RedactedProps(e: Event, mask: Mask)
    ensures Masked(e.PropertiesMap(), Redact(e, mask).PropertiesMap(), mask.props)
    ensures Masked(e.TraitsMap(), Redact(e, mask).TraitsMap(), mask.traits)
    ensures Masked(e.contextTraits.m, Redact(e, mask).contextTraits.m, mask.context)
  {
  }

  lemma {:induction false} LastMasked(last: map<string, Value>, last': map<string, Value>, props: map<string, Value>,
                                      props': map<string, Value>, track: seq<string>, keys: set<string>)
    requires Masked(last, last', keys) && Masked(props, props', keys)
    ensures Masked(TrackLast(last, props, track), TrackLast(last', props', track), keys)
  {
    if track != [] { LastMasked(last, last', props, props', track[..|track| - 1], keys); }
  }

  lemma {:induction false} MaxMasked(max: map<string, real>, max': map<string, real>, props: map<string, Value>,
                                     props': map<string, Value>, track: seq<string>, keys: set<string>)
    requires MaximaMasked(max, max', keys) && Masked(props, props', keys)
    ensures MaximaMasked(TrackMax(max, props, track), TrackMax(max', props', track), keys)
  {
    if track != [] {
      var init, k := track[..|track| - 1], track[|track| - 1];
      MaxMasked(max, max', props, props', init, keys);
      var before, before' := TrackMax(max, props, init), TrackMax(max', props', init);
      assert k in before' <==> k in before && k !in keys;
    }
  }

  lemma MergeMasked(traits: map<string, Value>, traits': map<string, Value>, e: Event, mask: Mask)
    requires TraitsMasked(traits, traits', mask)
    ensures TraitsMasked(MergedTraits(traits, e), MergedTraits(traits', Redact(e, mask)), mask)
  {
    RedactedProps(e, mask);
    assert Redact(e, mask).typ == e.typ;
    hide Redact, TraitsMasked, Masked;
    var e' := Redact(e, mask);
    if e.typ == "identify" { OverMasked(traits, traits', e.TraitsMap(), e'.TraitsMap(), mask); }
    var over := if e.typ == "identify" then traits + e.TraitsMap() else traits;
    var over' := if e.typ == "identify" then traits' + e'.TraitsMap() else traits';
    UnderMasked(over, over', e.contextTraits.m, e'.contextTraits.m, mask);
  }

  /** Identify traits go over the traits so far. */
  lemma OverMasked(traits: map<string, Value>, traits': map<string, Value>, over: map<string, Value>,
                   over': map<string, Value>, mask: Mask)
    requires TraitsMasked(traits, traits', mask) && Masked(over, over', mask.traits)
    ensures TraitsMasked(traits + over, traits' + over', mask)
  {
  }

  /** Context traits go under them. */
  lemma UnderMasked(traits: map<string, Value>, traits': map<string, Value>, below: map<string, Value>,
                    below': map<string, Value>, mask: Mask)
    requires TraitsMasked(traits, traits', mask) && Masked(below, below', mask.context)
    ensures TraitsMasked(below + traits, below' + traits', mask)
  {
  }

  lemma SuburbMasked(raw: Win, hidden: Win, e: Event, mask: Mask)
    requires SuburbsMasked(raw, hidden, mask)
    ensures SuburbsMasked(WithProperties(raw, e), WithProperties(hidden, Redact(e, mask)), mask)
  {
    SuburbHidden(e, mask);
    hide Redact, TrackLast, TrackMax, SuburbOf;
  }

  lemma SuburbHidden(e: Event, mask: Mask)
    ensures var suburb := SuburbOf(Redact(e, mask));
            if "suburb" in mask.props then suburb == "" || suburb == REDACTED.s else suburb == SuburbOf(e)
  {
    RedactedProps(e, mask);
    hide Redact;
  }

  lemma CountsAgree(raw: Win, hidden: Win, e: Event, mask: Mask)
    requires Agree(raw, hidden, mask)
    ensures var e' := Redact(e, mask);
            Agree(Visited(Identified(Counted(raw, e), e), e.path),
              Visited(Identified(Counted(hidden, e'), e'), e'.path), mask)
  {
  }

  lemma PropertiesAgree(raw: Win, hidden: Win, e: Event, mask: Mask)
    requires Agree(raw, hidden, mask)
    ensures Agree(WithProperties(raw, e), WithProperties(hidden, Redact(e, mask)), mask)
  {
    var e' := Redact(e, mask);
    RedactedProps(e, mask);
    LastMasked(raw.propLast, hidden.propLast, e.PropertiesMap(), e'.PropertiesMap(), PROPERTY_TRACK_KEYS, mask.props);
    MaxMasked(raw.maxNum, hidden.maxNum, e.PropertiesMap(), e'.PropertiesMap(), PROPERTY_TRACK_KEYS, mask.props);
    SuburbMasked(raw, hidden, e, mask);
    hide Masked, MaximaMasked, TraitsMasked, ErrorMasked, SuburbsMasked, TrackLast, TrackMax, Redact, Bump,
         NextDominant, SuburbOf;
  }

  lemma CapturesAgree(raw: Win, hidden: Win, e: Event, mask: Mask)
    requires Agree(raw, hidden, mask)
    ensures Agree(Captured(raw, e), Captured(hidden, Redact(e, mask)), mask)
  {
    var e' := Redact(e, mask);
    RedactedProps(e, mask);
    assert e'.PropertiesMap() == map[] <==> e.PropertiesMap() == map[];
    hide Masked, MaximaMasked, TraitsMasked, ErrorMasked;
  }

  lemma TraitsAgree(raw: Win, hidden: Win, e: Event, mask: Mask)
    requires Agree(raw, hidden, mask)
    ensures Agree(WithTraits(raw, e), WithTraits(hidden, Redact(e, mask)), mask)
  {
    MergeMasked(raw.traits, hidden.traits, e, mask);
    hide Masked, MaximaMasked, TraitsMasked, ErrorMasked, Redact, MergedTraits;
  }

  lemma ErrorRefMasked(e: Event, mask: Mask, keys: seq<string>)
    ensures ErrorMasked(NewEventRef(e, keys), NewEventRef(Redact(e, mask), keys), mask.props)
  {
  }

  lemma ErrorsAgree(raw: Win, hidden: Win, e: Event, mask: Mask)
    requires Agree(raw, hidden, mask)
    ensures Agree(WithError(raw, e), WithError(hidden, Redact(e, mask)), mask)
  {
    ErrorRefMasked(e, mask, ERROR_PROPERTY_KEYS);
    hide Masked, MaximaMasked, TraitsMasked, ErrorMasked, NewEventRef;
  }

  lemma StampsAgree(raw: Win, hidden: Win, now: int, touched: int, mask: Mask)
    requires Agree(raw, hidden, mask)
    ensures Agree(Stamped(raw, now, touched), Stamped(hidden, now, touched), mask)
  {
  }

  lemma StepAgrees(raw: Win, hidden: Win, a: Arrival, mask: Mask)
    requires Agree(raw, hidden, mask)
    ensures Agree(Fold1(raw, a), Fold1(hidden, RedactArrival(a, mask)), mask)
  {
    var e, e' := a.event, Redact(a.event, mask);
    var w1, h1 := Visited(Identified(Counted(raw, e), e), e.path),
        Visited(Identified(Counted(hidden, e'), e'), e'.path);
    assert RedactArrival(a, mask).Time() == a.Time();
    CountsAgree(raw, hidden, e, mask);
    PropertiesAgree(w1, h1, e, mask);
    hide Agree, Redact, Visited, Identified, Counted, WithProperties, Captured, WithTraits, WithError, Stamped;
    var w2, h2 := WithProperties(w1, e), WithProperties(h1, e');
    CapturesAgree(w2, h2, e, mask);
    TraitsAgree(Captured(w2, e), Captured(h2, e'), e, mask);
    ErrorsAgree(WithTraits(Captured(w2, e), e), WithTraits(Captured(h2, e'), e'), e, mask);
    StampsAgree(WithError(WithTraits(Captured(w2, e), e), e), WithError(WithTraits(Captured(h2, e'), e'), e'), a.Time(),
      a.touched, mask);
  }

  /** For any history the two windows agree except at hidden keys, with the same key sets. */
  lemma {:induction false} WindowsAgree(id: string, t: int, h: seq<Arrival>, mask: Mask)
    ensures Agree(Fold(NewWin(id, t), h), Fold(NewWin(id, t), RedactAll(h, mask)), mask)
  {
    if h == [] {
    } else {
      var init := h[..|h| - 1];
      WindowsAgree(id, t, init, mask);
      assert RedactAll(h, mask)[..|h| - 1] == RedactAll(init, mask);
      hide Agree, Fold1;
      StepAgrees(Fold(NewWin(id, t), init), Fold(NewWin(id, t), RedactAll(init, mask)), h[|h| - 1], mask);
    }
  }

  /** Masking a trait key in both containers is what it takes to hide it: masked in one only, some history shows its raw
      value in the window. */
  lemma TraitHiddenIffMaskedTwice(id: string, t: int, mask: Mask, k: string)
    ensures k in mask.traits && k in mask.context <==>
            forall h :: k in Fold(NewWin(id, t), RedactAll(h, mask)).traits ==>
              Fold(NewWin(id, t), RedactAll(h, mask)).traits[k] == REDACTED
  {
    if k in mask.traits && k in mask.context {
      forall h | k in Fold(NewWin(id, t), RedactAll(h, mask)).traits
        ensures Fold(NewWin(id, t), RedactAll(h, mask)).traits[k] == REDACTED
      {
        WindowsAgree(id, t, h, mask);
      }
    } else {
      var h := LeakingHistory(id, t, mask, k);
      assert Fold(NewWin(id, t), RedactAll(h, mask)).traits[k] == Num(1.0);
    }
  }

  lemma LeakingHistory(id: string, t: int, mask: Mask, k: string) returns (h: seq<Arrival>)
    requires !(k in mask.traits && k in mask.context)
    ensures var w := Fold(NewWin(id, t), RedactAll(h, mask)); k in w.traits && w.traits[k] == Num(1.0)
  {
    var secret := Obj(map[k := Num(1.0)]);
    var e := if k !in mask.traits
             then Event("identify", "", id, "", "", 0, 0, "", EMPTY_OBJ, [], Opaque, Parsed(secret))
             else Event("track", "", id, "", "", 0, 0, "", secret, [], Opaque, Opaque);
    var a := Arrival(e, 1, 1, 1);
    h := [a];
    assert RedactAll(h, mask) == [RedactArrival(a, mask)];
    var e' := Redact(e, mask);
    assert k in MergedTraits(map[], e') && MergedTraits(map[], e')[k] == Num(1.0);
    OneEventTraits(NewWin(id, t), RedactArrival(a, mask));
  }

  lemma OneEventTraits(w: Win, a: Arrival)
    ensures Fold(w, [a]).traits == MergedTraits(w.traits, a.event)
  {
  }

  // ----- Verdicts -----

  /** The test looks at a value the mask may have changed. */
  predicate ReadsHidden(t: Test, mask: Mask) {
    (t.PropertyValue? && t.key in mask.props) || (t.TraitValue? && t.key in mask.traits + mask.context)
  }

  ghost predicate Blind(e: Expr, mask: Mask) {
    match e
    case AllOf(children) => forall i :: 0 <= i < |children| ==> Blind(children[i], mask)
    case AnyOf(children) => forall i :: 0 <= i < |children| ==> Blind(children[i], mask)
    case Not(child) => child.Some? ==> Blind(child.value, mask)
    case Pred(_, _, fn, _) => fn.Some? ==> !ReadsHidden(fn.value, mask)
  }

  lemma SameTest(t: Test, env: Env, raw: Win, hidden: Win, mask: Mask, now: int)
    requires Agree(raw, hidden, mask) && !ReadsHidden(t, mask)
    ensures RunTest(env, t, Take(raw), now) == RunTest(env, t, Take(hidden), now)
  {
    hide MaximaMasked, ErrorMasked, SuburbsMasked, Compare;
  }

  /** An expression that reads no hidden value has the same verdict on both windows. */
  lemma {:induction false} SameVerdict(e: Expr, env: Env, raw: Win, hidden: Win, mask: Mask, now: int)
    requires Agree(raw, hidden, mask) && Blind(e, mask)
    ensures Eval(e, env, Take(raw), now) == Eval(e, env, Take(hidden), now)
  {
    hide Agree, RunTest, Take;
    match e
    case AllOf(children) =>
      forall i | 0 <= i < |children|
        ensures Eval(children[i], env, Take(raw), now) == Eval(children[i], env, Take(hidden), now)
      {
        SameVerdict(children[i], env, raw, hidden, mask, now);
      }
    case AnyOf(children) =>
      forall i | 0 <= i < |children|
        ensures Eval(children[i], env, Take(raw), now) == Eval(children[i], env, Take(hidden), now)
      {
        SameVerdict(children[i], env, raw, hidden, mask, now);
      }
    case Not(child) => if child.Some? { SameVerdict(child.value, env, raw, hidden, mask, now); }
    case Pred(_, _, fn, _) => if fn.Some? { SameTest(fn.value, env, raw, hidden, mask, now); }
  }

  // ----- Whole runs -----

  ghost predicate AllBlind(rules: seq<Rule>, mask: Mask) {
    forall i :: 0 <= i < |rules| && rules[i].when.Some? ==> Blind(rules[i].when.value, mask)
  }

  lemma SameViewVerdict(e: Expr, env: Env, raw: Win, hidden: Win, mask: Mask, scan: int, now: int)
    requires Agree(raw, hidden, mask) && Blind(e, mask)
    ensures Eval(e, env, TakeAt(raw, scan), now) == Eval(e, env, TakeAt(hidden, scan), now)
  {
    SameVerdict(e, env, raw, hidden, mask, now);
    IdleFigureUnread(e, env, Take(raw), TakeAt(raw, scan).idleSeconds, now);
    IdleFigureUnread(e, env, Take(hidden), TakeAt(hidden, scan).idleSeconds, now);
  }

  /** A sweep depends on its snapshot only through the id and which rules are due. */
  lemma {:induction false} SweepOfSameDue(env: Env, rules: seq<Rule>, g: Gate, s: Snapshot, s': Snapshot,
                                          persona: string,
                                          now: int, timeOnly: bool)
    requires s.anonID == s'.anonID
    requires forall r :: r in rules ==>
             Due(env, r, s, persona, now, timeOnly) == Due(env, r, s', persona, now, timeOnly)
    ensures Sweep(env, rules, g, s, persona, now, timeOnly) == Sweep(env, rules, g, s', persona, now, timeOnly)
  {
    hide Due;
    if rules != [] { SweepOfSameDue(env, rules[..|rules| - 1], g, s, s', persona, now, timeOnly); }
  }

  lemma SameSweep(env: Env, rules: seq<Rule>, g: Gate, raw: Win, hidden: Win, mask: Mask, persona: string, scan: int,
                  now: int, timeOnly: bool)
    requires Agree(raw, hidden, mask) && AllBlind(rules, mask)
    ensures Sweep(env, rules, g, TakeAt(raw, scan), persona, now, timeOnly)
            == Sweep(env, rules, g, TakeAt(hidden, scan), persona, now, timeOnly)
  {
    var s, s' := TakeAt(raw, scan), TakeAt(hidden, scan);
    forall r | r in rules ensures Due(env, r, s, persona, now, timeOnly) == Due(env, r, s', persona, now, timeOnly) {
      if r.when.Some? {
        var i :| 0 <= i < |rules| && rules[i] == r;
        assert Blind(r.when.value, mask);
        hide Agree, Blind, AllBlind, TakeAt, Eval;
        SameViewVerdict(r.when.value, env, raw, hidden, mask, scan, now);
      }
    }
    assert s.anonID == s'.anonID;
    hide *;
    SweepOfSameDue(env, rules, g, s, s', persona, now, timeOnly);
  }

  lemma {:induction false} SameSweeps(env: Env, rules: seq<Rule>, g: Gate, raw: Win, hidden: Win, mask: Mask, scan: int,
                                      now: int, timeOnly: bool, personas: seq<string>)
    requires Agree(raw, hidden, mask) && AllBlind(rules, mask)
    ensures SweepPersonas(env, rules, g, TakeAt(raw, scan), now, timeOnly, personas)
            == SweepPersonas(env, rules, g, TakeAt(hidden, scan), now, timeOnly, personas)
  {
    hide Agree, AllBlind, TakeAt, Sweep;
    if personas != [] {
      var init := personas[..|personas| - 1];
      SameSweeps(env, rules, g, raw, hidden, mask, scan, now, timeOnly, init);
      var before := SweepPersonas(env, rules, g, TakeAt(raw, scan), now, timeOnly, init);
      SameSweep(env, rules, before.gate, raw, hidden, mask, personas[|personas| - 1], scan, now, timeOnly);
    }
  }

  function RedactInput(x: Input, mask: Mask): Input {
    if x.Arrived? then x.(arrival := RedactArrival(x.arrival, mask)) else x
  }

  function RedactInputs(log: seq<Input>, mask: Mask): seq<Input> {
    seq(|log|, i requires 0 <= i < |log| => RedactInput(log[i], mask))
  }

  /** The two caches hold the same ids in the same order, with windows that agree. */
  ghost predicate CachesAgree(raw: Flat, hidden: Flat, mask: Mask) {
    && raw.order == hidden.order && raw.wins.Keys == hidden.wins.Keys
    && forall id :: id in raw.wins ==> Agree(raw.wins[id], hidden.wins[id], mask)
  }

  lemma NewAgrees(id: string, mask: Mask)
    ensures Agree(NewWin(id, 0), NewWin(id, 0), mask)
  {
  }

  lemma PutAgrees(raw: Flat, hidden: Flat, cap: nat, id: string, w: Win, w': Win, mask: Mask)
    requires CachesAgree(raw, hidden, mask) && Agree(w, w', mask)
    ensures CachesAgree(FlatPut(raw, cap, id, w), FlatPut(hidden, cap, id, w'), mask)
  {
  }

  lemma CacheStepAgrees(raw: Flat, hidden: Flat, cap: nat, a: Arrival, mask: Mask)
    requires CachesAgree(raw, hidden, mask)
    ensures CachesAgree(FlatStep(raw, cap, a), FlatStep(hidden, cap, RedactArrival(a, mask)), mask)
    ensures Id(RedactArrival(a, mask)) == Id(a)
  {
    var id, a' := Id(a), RedactArrival(a, mask);
    assert Id(a') == id;
    NewAgrees(id, mask);
    var w := if id in raw.wins then raw.wins[id] else NewWin(id, 0);
    var w' := if id in hidden.wins then hidden.wins[id] else NewWin(id, 0);
    assert Agree(w, w', mask) by { hide Agree; }
    hide Agree, Fold1, RedactArrival, Id, FlatPut, NewWin, CachesAgree;
    StepAgrees(w, w', a, mask);
    PutAgrees(raw, hidden, cap, id, Fold1(w, a), Fold1(w', a'), mask);
    assert raw.wins.Keys == hidden.wins.Keys by { KeysAgree(raw, hidden, mask); }
  }

  lemma KeysAgree(raw: Flat, hidden: Flat, mask: Mask)
    requires CachesAgree(raw, hidden, mask)
    ensures raw.wins.Keys == hidden.wins.Keys
  {
  }

  lemma PruneAgrees(raw: Flat, hidden: Flat, cutoff: int, mask: Mask)
    requires CachesAgree(raw, hidden, mask)
    ensures CachesAgree(FlatPrune(raw, cutoff), FlatPrune(hidden, cutoff), mask)
  {
    forall id | id in raw.wins ensures raw.wins[id].lastSeen == hidden.wins[id].lastSeen {
      assert Agree(raw.wins[id], hidden.wins[id], mask);
    }
    hide Agree;
    assert FlatPrune(raw, cutoff).wins.Keys == FlatPrune(hidden, cutoff).wins.Keys;
  }

  ghost predicate SameService(raw: Served, hidden: Served, mask: Mask) {
    && raw.rules == hidden.rules && AllBlind(raw.rules, mask)
    && CachesAgree(raw.flat, hidden.flat, mask) && raw.gate == hidden.gate && raw.firings == hidden.firings
  }

  lemma SameProbe(env: Env, raw: Served, hidden: Served, mask: Mask, id: string, scan: int, now: int, timeOnly: bool)
    requires SameService(raw, hidden, mask) && id in raw.flat.wins && id in hidden.flat.wins
    ensures SameService(Probe(env, raw, id, TakeAt(raw.flat.wins[id], scan), now, timeOnly),
                        Probe(env, hidden, id, TakeAt(hidden.flat.wins[id], scan), now, timeOnly), mask)
  {
    hide Agree, TakeAt, SweepPersonas, AllBlind, FiringsOf;
    SameSweeps(env, raw.rules, raw.gate, raw.flat.wins[id], hidden.flat.wins[id], mask, scan, now, timeOnly, PERSONAS);
  }

  lemma SameIdle(raw: Flat, hidden: Flat, mask: Mask, id: string, scan: int)
    requires CachesAgree(raw, hidden, mask)
    ensures IdleAt(raw.wins, id, scan) == IdleAt(hidden.wins, id, scan)
  {
  }

  lemma {:induction false} SameTick(env: Env, raw: Served, hidden: Served, mask: Mask, scan: int, looks: seq<Look>)
    requires SameService(raw, hidden, mask)
    ensures SameService(Tick(env, raw, scan, looks), Tick(env, hidden, scan, looks), mask)
  {
    if looks != [] {
      var init, x := looks[..|looks| - 1], looks[|looks| - 1];
      SameTick(env, raw, hidden, mask, scan, init);
      SameIdle(raw.flat, hidden.flat, mask, x.id, scan);
      hide SameService, CachesAgree, Probe, TakeAt;
      if IdleAt(raw.flat.wins, x.id, scan) {
        SameProbe(env, Tick(env, raw, scan, init), Tick(env, hidden, scan, init), mask, x.id, scan, x.now, true);
      }
    }
  }

  lemma SameArrive(env: Env, cap: nat, raw: Served, hidden: Served, mask: Mask, a: Arrival, now: int)
    requires SameService(raw, hidden, mask)
    ensures SameService(Arrive(env, cap, raw, a, now), Arrive(env, cap, hidden, RedactArrival(a, mask), now), mask)
  {
    CacheStepAgrees(raw.flat, hidden.flat, cap, a, mask);
    var raw', hidden' := raw.(flat := FlatStep(raw.flat, cap, a)),
        hidden.(flat := FlatStep(hidden.flat, cap, RedactArrival(a, mask)));
    hide Agree, FlatStep, Probe, TakeAt, AllBlind, RedactArrival, Id;
    assert SameService(raw', hidden', mask);
    if Id(a) in raw'.flat.wins { SameProbe(env, raw', hidden', mask, Id(a), now, now, false); }
  }

  ghost predicate ReloadsBlind(log: seq<Input>, mask: Mask) {
    forall i :: 0 <= i < |log| && log[i].Reloaded? && log[i].loaded.Some? ==> AllBlind(log[i].loaded.value, mask)
  }

  lemma SameStep(env: Env, cap: nat, raw: Served, hidden: Served, mask: Mask, x: Input)
    requires SameService(raw, hidden, mask)
    requires x.Reloaded? && x.loaded.Some? ==> AllBlind(x.loaded.value, mask)
    ensures SameService(ServeOne(env, cap, raw, x), ServeOne(env, cap, hidden, RedactInput(x, mask)), mask)
  {
    match x
    case Arrived(arrival, now) => hide Arrive, SameService; SameArrive(env, cap, raw, hidden, mask, arrival, now);
    case Ticked(scan, looks) => hide Tick, SameService; SameTick(env, raw, hidden, mask, scan, looks);
    case Pruned(cutoff) => hide AllBlind, CachesAgree; PruneAgrees(raw.flat, hidden.flat, cutoff, mask);
    case Reloaded(_) => hide AllBlind, CachesAgree;
    case DemoReset => hide AllBlind;
  }

  lemma {:induction false} ServicesAgree(env: Env, cap: nat, initial: seq<Rule>, log: seq<Input>, mask: Mask)
    requires AllBlind(initial, mask) && ReloadsBlind(log, mask)
    ensures SameService(Serve(env, cap, initial, log), Serve(env, cap, initial, RedactInputs(log, mask)), mask)
  {
    if log != [] {
      var init, x, hidden := log[..|log| - 1], log[|log| - 1], RedactInputs(log, mask);
      assert hidden[..|log| - 1] == RedactInputs(init, mask) && hidden[|log| - 1] == RedactInput(x, mask);
      ServicesAgree(env, cap, initial, init, mask);
      hide SameService, ServeOne, RedactInput, AllBlind;
      SameStep(env, cap, Serve(env, cap, initial, init), Serve(env, cap, initial, RedactInputs(init, mask)), mask, x);
    }
  }

  /** End to end, over arrivals, ticks, reloads, resets and prunes: with rules that read no hidden value, redaction
      changes neither which rules fire, for whom, when, in which order, nor the cooldown gate, nor which windows are
      resident. */
  lemma RedactionChangesNoFiring(env: Env, cap: nat, initial: seq<Rule>, log: seq<Input>, mask: Mask)
    requires AllBlind(initial, mask) && ReloadsBlind(log, mask)
    ensures var raw, hidden := Serve(env, cap, initial, log), Serve(env, cap, initial, RedactInputs(log, mask));
            CachesAgree(raw.flat, hidden.flat, mask) && raw.gate == hidden.gate && raw.firings == hidden.firings
  {
    ServicesAgree(env, cap, initial, log, mask);
  }
}
