/** The values the alias-aware YAML parser keeps between calls and the pure
    rules its methods follow: queued events, anchor bookkeeping, the
    replay of captured events, the level count of `skip`, and the
    conversions behind the number accessors. */
module ParserState {
  import opened Wrappers
  import opened Json
  import opened CoreSchema
  import opened NumberParsing
  import opened RawEvents
  import opened AliasExpansion
  import opened JsonBuilder

  /** One entry of the six lock-step queues: the raw event, whether it was
      produced by replaying an alias, the JSON event, the number type, the
      text and the number. */
  datatype Pending = Pending(raw: RawEvent, expansion: bool, event: JsonEvent, numberType: NumberType, value: string, number: Decimal)

  /** An open anchor: its name and the depth at which it was declared. */
  datatype AnchorMeta = AnchorMeta(name: string, startDepth: int)

  /** The open anchors (innermost first) and the events captured so far
      for every declared anchor name. */
  datatype Anchoring = Anchoring(stack: seq<AnchorMeta>, events: AnchorMap)

  /** The exceptions the parser raises, by cause. */
  datatype ParseError =
    | UnknownEvent(id: string)                  // an event id outside the known set
    | AliasOfMissingAnchor(name: string)        // an alias names no declared anchor
    | KeyAliasNotScalar(name: string)           // an alias in key position captures other than one event
    | TooManyScalars(name: string, count: int)  // an alias reaches the expansion ceiling
    | ExpansionNeverEnds(name: string)          // the expansion count recurses forever
    | BadNumber(numberError: NumberError)       // a number text that does not parse
    | CastFailure                               // a captured non-alias event without data
    | TooDeep                                   // nesting beyond the 200 key flags
    | DepthOutOfRange(index: int)               // a key flag stored outside the 200 flags
    | EndWithoutStart                           // an end event with no open structure
    | NothingPending                            // `next` with no event left
    | NotNumberEvent(found: Option<JsonEvent>)  // a number accessor off a number
    | NotStringEvent(event: JsonEvent)          // `getString` off a key, string or number
    | NotValueEvent(event: JsonEvent)           // an infinity or NaN query off a value
    | UnexpectedState(expected: JsonEvent, found: Option<JsonEvent>)
    | NullDereference                           // a null event or number was used
    | BuildFailed(buildError: BuildError)       // materialising the value failed
    | OutOfFuel                                 // the event bound of the model ran out

  /** The number of key flags, and so of nesting levels. */
  const MaxDepth: int := 200

  /** Stream and document brackets produce no JSON event. */
  predicate Silent(raw: RawEvent) {
    raw.kind.StreamStart? || raw.kind.StreamEnd? || raw.kind.DocumentStart? || raw.kind.DocumentEnd?
  }

  // ---------------------------------------------------------------------------
  // Depth and key expectation
  // ---------------------------------------------------------------------------

  /** The key flag of the innermost structure, none at the top level or in
      a sequence. */
  function KeyExpectedAt(flags: seq<Option<bool>>, depth: int): Option<bool>
    requires depth < |flags|
  {
    if depth > -1 then flags[depth] else None
  }

  /** The flags after a structure opens at `depth + 1`: a parent mapping
      will expect a key once the structure closes, and the new level takes
      its own flag (a key for a mapping, none for a sequence). */
  function Opened(flags: seq<Option<bool>>, depth: int, keyExpected: Option<bool>): (r: seq<Option<bool>>)
    requires -1 <= depth && depth + 1 < |flags|
    ensures |r| == |flags| && r[depth + 1] == keyExpected
    ensures depth >= 0 ==> r[depth] == (if flags[depth].Some? then Some(true) else None)
    ensures forall i :: 0 <= i < |flags| && i != depth && i != depth + 1 ==> r[i] == flags[i]
  {
    var parent := if depth >= 0 && flags[depth].Some? then flags[depth := Some(true)] else flags;
    parent[depth + 1 := keyExpected]
  }

  /** The flags after a scalar or alias at `depth`: inside a mapping a key
      is followed by a value and a value by a key. */
  function Flipped(flags: seq<Option<bool>>, depth: int, keyExpected: Option<bool>): (r: seq<Option<bool>>)
    requires keyExpected.Some? ==> 0 <= depth < |flags|
    ensures |r| == |flags|
    ensures keyExpected.Some? ==> r[depth] == Some(!keyExpected.value)
    ensures forall i :: 0 <= i < |flags| && (keyExpected.None? || i != depth) ==> r[i] == flags[i]
  {
    if keyExpected.Some? then flags[depth := Some(!keyExpected.value)] else flags
  }

  /** Inside a mapping two scalars in a row bring the key flag back: key,
      value, key. */
  lemma FlipTwice(flags: seq<Option<bool>>, depth: int, key: bool)
    requires 0 <= depth < |flags| && flags[depth] == Some(key)
    ensures Flipped(Flipped(flags, depth, Some(key)), depth, Some(!key)) == flags
  {
    assert Flipped(Flipped(flags, depth, Some(key)), depth, Some(!key)) == flags[depth := Some(key)];
  }

  /** A sequence level never asks for a key: its flag stays none through
      the scalars inside it and the structures opened under it. */
  lemma SequenceNeverKeyed(flags: seq<Option<bool>>, depth: int)
    requires 0 <= depth && depth + 1 < |flags| && flags[depth].None?
    ensures Flipped(flags, depth, KeyExpectedAt(flags, depth))[depth].None?
    ensures Opened(flags, depth, None)[depth].None? && Opened(flags, depth, None)[depth + 1].None?
  {
  }

  // ---------------------------------------------------------------------------
  // Scalar classification
  // ---------------------------------------------------------------------------

  /** The JSON event and number type `enqueueDataElement` gives a scalar:
      a key is never resolved, an empty plain scalar is null, any other
      plain scalar is resolved by the Core Schema and a quoted one is a
      string. */
  function Classify(text: string, plain: bool, keyExpected: Option<bool>): Resolution
  {
    if keyExpected == Some(true) then Resolution(KeyName, NoNumber)
    else if plain && text == "" then Resolution(ValueNull, NoNumber)
    else if plain then Resolve(text)
    else Resolution(ValueString, NoNumber)
  }

  /** Only plain scalars out of key position carry a number type or any
      event other than a key or a string. */
  lemma ClassifyCases(text: string, plain: bool, keyExpected: Option<bool>)
    ensures keyExpected == Some(true) ==> Classify(text, plain, keyExpected) == Resolution(KeyName, NoNumber)
    ensures Classify(text, plain, keyExpected).event == KeyName ==> keyExpected == Some(true)
    ensures plain && text == "" && keyExpected != Some(true) ==> Classify(text, plain, keyExpected) == Resolution(ValueNull, NoNumber)
    ensures !plain && keyExpected != Some(true) ==> Classify(text, plain, keyExpected) == Resolution(ValueString, NoNumber)
    ensures plain && keyExpected != Some(true) && text != "" ==> Classify(text, plain, keyExpected) == Resolve(text)
    ensures Classify(text, plain, keyExpected).event == ValueNumber ==>
              plain && Classify(text, plain, keyExpected).numberType in {Integer, Float, Octal, Hexadecimal}
  {
    if keyExpected != Some(true) && plain && text != "" {
      var r := Resolve(text);
      assert r.event != KeyName;
    }
  }

  // ---------------------------------------------------------------------------
  // Anchor capture
  // ---------------------------------------------------------------------------

  /** Every open anchor names a declared anchor. */
  predicate MetasDeclared(a: Anchoring) {
    forall i :: 0 <= i < |a.stack| ==> a.stack[i].name in a.events
  }

  /** The number of open anchors named `name` that enclose `depth`. */
  function Enclosing(metas: seq<AnchorMeta>, depth: int, name: string): nat
  {
    if |metas| == 0 then 0
    else (if metas[0].name == name && metas[0].startDepth <= depth then 1 else 0) + Enclosing(metas[1..], depth, name)
  }

  function Copies(item: Anchored, k: nat): (r: seq<Anchored>)
    ensures |r| == k && forall i :: 0 <= i < k ==> r[i] == item
  {
    if k == 0 then [] else [item] + Copies(item, k - 1)
  }

  /** `addAnchoredEvent`: the event is appended to the capture of every
      open anchor declared at or above the current depth, visiting the
      open anchors innermost first. */
  function Captured(anchors: AnchorMap, metas: seq<AnchorMeta>, depth: int, item: Anchored): (r: AnchorMap)
    requires forall i :: 0 <= i < |metas| ==> metas[i].name in anchors
    ensures r.Keys == anchors.Keys
  {
    if |metas| == 0 then anchors
    else
      var next := if metas[0].startDepth <= depth then anchors[metas[0].name := anchors[metas[0].name] + [item]] else anchors;
      Captured(next, metas[1..], depth, item)
  }

  /** Each capture grows by the event once for every open declaration of
      its name that encloses the depth, and is otherwise untouched. */
  lemma {:induction false} CapturedAppends(anchors: AnchorMap, metas: seq<AnchorMeta>, depth: int, item: Anchored, name: string)
    requires forall i :: 0 <= i < |metas| ==> metas[i].name in anchors
    requires name in anchors
    ensures Captured(anchors, metas, depth, item)[name] == anchors[name] + Copies(item, Enclosing(metas, depth, name))
  {
    if |metas| > 0 {
      var next := if metas[0].startDepth <= depth then anchors[metas[0].name := anchors[metas[0].name] + [item]] else anchors;
      CapturedAppends(next, metas[1..], depth, item, name);
      var k := Enclosing(metas[1..], depth, name);
      if metas[0].name == name && metas[0].startDepth <= depth {
        assert [item] + Copies(item, k) == Copies(item, k + 1);
        assert next[name] + Copies(item, k) == anchors[name] + Copies(item, k + 1);
      }
    }
  }

  /** `addAnchorMetadata`: a declared anchor starts an empty capture,
      discarding any earlier capture under the same name, and opens at
      the current depth. */
  function Declared(a: Anchoring, anchor: Option<string>, depth: int): (r: Anchoring)
    ensures anchor.Some? ==> r.stack == [AnchorMeta(anchor.value, depth)] + a.stack && r.events == a.events[anchor.value := []]
    ensures anchor.None? ==> r == a
  {
    if anchor.Some? then Anchoring([AnchorMeta(anchor.value, depth)] + a.stack, a.events[anchor.value := []]) else a
  }

  /** `removeAnchorMetadata`: the innermost open anchor closes when it was
      declared at `depth`; a closing structure event is captured into it
      first. */
  function Unwound(a: Anchoring, depth: int, raw: RawEvent, closing: Option<JsonEvent>): (r: Anchoring)
    ensures |a.stack| > 0 && a.stack[0].startDepth == depth ==> r.stack == a.stack[1..]
    ensures !(|a.stack| > 0 && a.stack[0].startDepth == depth) ==> r == a
    ensures r.events.Keys == a.events.Keys
    ensures closing.None? ==> r.events == a.events
  {
    if |a.stack| > 0 && a.stack[0].startDepth == depth then
      var name := a.stack[0].name;
      var events := if closing.Some? && name in a.events
                    then a.events[name := a.events[name] + [AnchoredData(raw, closing.value, "", NoNumber, Some(Unset))]]
                    else a.events;
      Anchoring(a.stack[1..], events)
    else a
  }

  /** Every non-empty capture starts with an event that is not an alias. */
  predicate HeadsAreData(anchors: AnchorMap) {
    forall n :: n in anchors && |anchors[n]| > 0 ==> AliasOf(anchors[n][0].raw).None?
  }

  predicate NoEmptyCapture(anchors: AnchorMap) {
    forall n :: n in anchors ==> anchors[n] != []
  }

  /** An empty capture only exists while its anchoring event is the one
      queued event, not yet current, and an open declaration of the name
      encloses the depth, so that event becomes the head of the capture. */
  predicate EmptyWhileFilling(anchors: AnchorMap, queue: seq<Pending>, metas: seq<AnchorMeta>, depth: int) {
    forall n :: n in anchors && anchors[n] == [] ==>
      |queue| == 1 && !queue[0].expansion && AliasOf(queue[0].raw).None? && Enclosing(metas, depth, n) > 0
  }

  /** With no empty capture nothing is being filled. */
  lemma NotFillingWithoutEmpty(anchors: AnchorMap, queue: seq<Pending>, metas: seq<AnchorMeta>, depth: int)
    requires NoEmptyCapture(anchors)
    ensures EmptyWhileFilling(anchors, queue, metas, depth)
  {
  }

  /** Closing an anchor keeps every capture non-empty and keeps its head. */
  lemma UnwoundKeeps(a: Anchoring, depth: int, raw: RawEvent, closing: Option<JsonEvent>)
    requires MetasDeclared(a) && HeadsAreData(a.events) && NoEmptyCapture(a.events)
    ensures MetasDeclared(Unwound(a, depth, raw, closing))
    ensures forall n :: n in a.events ==> |Unwound(a, depth, raw, closing).events[n]| > 0 &&
                                          Unwound(a, depth, raw, closing).events[n][0] == a.events[n][0]
  {
    var r := Unwound(a, depth, raw, closing);
    if |a.stack| > 0 && a.stack[0].startDepth == depth {
      forall i | 0 <= i < |r.stack| ensures r.stack[i].name in r.events {
        assert r.stack[i] == a.stack[i + 1];
      }
    }
  }

  /** Declaring an anchor right before its event is queued keeps the
      capture invariants. */
  lemma DeclaredKeeps(a: Anchoring, anchor: Option<string>, declaredAt: int, depth: int, queue: seq<Pending>)
    requires MetasDeclared(a) && HeadsAreData(a.events) && NoEmptyCapture(a.events)
    requires declaredAt <= depth
    requires |queue| == 1 && !queue[0].expansion && AliasOf(queue[0].raw).None?
    ensures var r := Declared(a, anchor, declaredAt);
            MetasDeclared(r) && HeadsAreData(r.events) && EmptyWhileFilling(r.events, queue, r.stack, depth)
  {
    var r := Declared(a, anchor, declaredAt);
    if anchor.Some? {
      forall i | 0 <= i < |r.stack| ensures r.stack[i].name in r.events {
        if i > 0 {
          assert r.stack[i] == a.stack[i - 1];
        }
      }
      assert Enclosing(r.stack, depth, anchor.value) > 0;
    }
  }

  /** The fields describing the current event: the raw event, the JSON
      event, the text, the number type and the number. */
  datatype CurrentState = CurrentState(raw: Option<RawEvent>, event: Option<JsonEvent>, value: string, numberType: NumberType, number: Option<Decimal>)

  /** The current event once a queue entry is taken: an entry without a
      number type carries no number. */
  function Taken(p: Pending): (r: CurrentState)
    ensures r.raw == Some(p.raw) && r.event == Some(p.event) && r.value == p.value && r.numberType == p.numberType
    ensures r.number.None? <==> p.numberType == NoNumber
  {
    CurrentState(Some(p.raw), Some(p.event), p.value, p.numberType, if p.numberType == NoNumber then None else Some(p.number))
  }

  /** What is captured of an entry when it becomes current: an alias as
      its raw event, any other event with its data. */
  function CaptureOf(p: Pending): (r: Anchored)
    ensures r.raw == p.raw && (r.AnchoredAlias? <==> AliasOf(p.raw).Some?)
  {
    if AliasOf(p.raw).Some? then AnchoredAlias(p.raw)
    else AnchoredData(p.raw, p.event, p.value, p.numberType, Taken(p).number)
  }

  /** The captures once an entry becomes current: replayed entries are not
      captured again. */
  function AfterCapture(anchors: AnchorMap, metas: seq<AnchorMeta>, depth: int, p: Pending): (r: AnchorMap)
    requires MetasDeclared(Anchoring(metas, anchors))
    ensures r.Keys == anchors.Keys
  {
    if p.expansion then anchors else Captured(anchors, metas, depth, CaptureOf(p))
  }

  /** The event an alias imposes on its replay: a key alias makes the
      replayed scalar a key, a value alias (queued as null) keeps the
      captured events. */
  function Override(p: Pending): (r: Option<JsonEvent>)
    ensures r.Some? ==> r.value == p.event && p.event != ValueNull
  {
    if p.event != ValueNull then Some(p.event) else None
  }

  /** With nothing queued, no capture is empty. */
  lemma NothingQueuedNoneEmpty(anchors: AnchorMap, metas: seq<AnchorMeta>, depth: int)
    requires EmptyWhileFilling(anchors, [], metas, depth)
    ensures NoEmptyCapture(anchors)
  {
  }

  /** Taking the front entry fills the capture that was waiting for it and
      keeps the head of every other capture, so afterwards every capture
      is non-empty and starts with an event that is not an alias. */
  lemma CaptureKeeps(anchors: AnchorMap, metas: seq<AnchorMeta>, depth: int, queue: seq<Pending>)
    requires MetasDeclared(Anchoring(metas, anchors)) && HeadsAreData(anchors)
    requires EmptyWhileFilling(anchors, queue, metas, depth) && |queue| > 0
    ensures NoEmptyCapture(AfterCapture(anchors, metas, depth, queue[0]))
    ensures HeadsAreData(AfterCapture(anchors, metas, depth, queue[0]))
    ensures AliasOf(queue[0].raw).Some? ==> NoEmptyCapture(anchors)
  {
    var r: AnchorMap := AfterCapture(anchors, metas, depth, queue[0]);
    if !queue[0].expansion {
      var item := CaptureOf(queue[0]);
      forall n: string | n in anchors ensures |r[n]| > 0 && AliasOf(r[n][0].raw).None? {
        CapturedAppends(anchors, metas, depth, item, n);
      }
    }
  }

  /** Capturing keeps the open anchors declared. */
  lemma CaptureKeepsMetas(anchors: AnchorMap, metas: seq<AnchorMeta>, depth: int, p: Pending)
    requires MetasDeclared(Anchoring(metas, anchors))
    ensures MetasDeclared(Anchoring(metas, AfterCapture(anchors, metas, depth, p)))
  {
  }

  // ---------------------------------------------------------------------------
  // Accepting an alias
  // ---------------------------------------------------------------------------

  /** `enqueueAlias` accepts an alias of a declared anchor when, in key
      position, the capture is one event, and elsewhere the cut-off count
      stays below the ceiling (unless the ceiling is `LongMax`). */
  predicate AliasAccepted(anchors: AnchorMap, name: string, keyExpected: Option<bool>, limit: int)
  {
    name in anchors &&
    if keyExpected == Some(true) then |anchors[name]| == 1
    else limit >= LongMax || (CountExpansion(anchors, name, limit, {}).Ok? && CountExpansion(anchors, name, limit, {}).value < limit)
  }

  /** With a defined full count, a value alias under a finite ceiling is
      accepted exactly when its full scalar count is below the ceiling. */
  lemma AliasAcceptedByFullCount(anchors: AnchorMap, name: string, keyExpected: Option<bool>, limit: int)
    requires keyExpected != Some(true) && limit < LongMax
    requires FullCount(anchors, name, {}).Ok?
    ensures AliasAccepted(anchors, name, keyExpected, limit) <==> FullCount(anchors, name, {}).value < limit
  {
    CutOffAgrees(anchors, name, limit, {});
  }

  /** With ranked anchors, no value alias of a declared anchor fails for
      any reason but the ceiling. */
  lemma RankedAliasAccepted(anchors: AnchorMap, rank: string -> nat, name: string, keyExpected: Option<bool>, limit: int)
    requires Ranked(anchors, rank) && name in anchors && keyExpected != Some(true)
    ensures FullCount(anchors, name, {}).Ok?
    ensures AliasAccepted(anchors, name, keyExpected, limit) <==>
              limit >= LongMax || FullCount(anchors, name, {}).value < limit
  {
    RankedCountIsDefined(anchors, rank, name, {});
    if limit < LongMax {
      CutOffAgrees(anchors, name, limit, {});
    }
  }

  // ---------------------------------------------------------------------------
  // Replay of captured events
  // ---------------------------------------------------------------------------

  /** The queue entry a captured event replays as: a nested alias as an
      alias (to be expanded when it becomes current), any other event
      with its data, under the alias's own event when that is not null
      (a key alias turns the replayed scalar into a key). */
  function ReplayEntry(a: Anchored, override: Option<JsonEvent>, readDecimal: string -> Option<Decimal>): (r: Result<Pending, ParseError>)
    ensures r.Ok? ==> r.value.raw == a.raw && r.value.expansion
    ensures AliasOf(a.raw).Some? ==> r == Ok(Pending(a.raw, true, ValueNull, NoNumber, "", Unset))
    ensures r.Ok? && AliasOf(a.raw).None? ==>
              a.AnchoredData? && r.value.event == (if override.Some? then override.value else a.event) &&
              r.value.numberType == a.numberType && r.value.value == a.value
  {
    if AliasOf(a.raw).Some? then Ok(Pending(a.raw, true, ValueNull, NoNumber, "", Unset))
    else if a.AnchoredAlias? then Err(CastFailure)
    else
      var event := if override.Some? then override.value else a.event;
      var number := NumberValue(event, a.numberType, a.value, a.number, readDecimal);
      if number.Err? then Err(BadNumber(number.error))
      else Ok(Pending(a.raw, true, event, a.numberType, a.value, number.value))
  }

  /** The captured events replayed in their original order (built from the
      last one backwards, as the queue is prepended). */
  function Replay(events: seq<Anchored>, override: Option<JsonEvent>, readDecimal: string -> Option<Decimal>): (r: Result<seq<Pending>, ParseError>)
    ensures r.Ok? ==> |r.value| == |events|
    ensures r.Ok? ==> forall i :: 0 <= i < |events| ==> ReplayEntry(events[i], override, readDecimal) == Ok(r.value[i])
  {
    if |events| == 0 then Ok([])
    else
      var last := ReplayEntry(events[|events| - 1], override, readDecimal);
      if last.Err? then Err(last.error)
      else
        var init := Replay(events[..|events| - 1], override, readDecimal);
        if init.Err? then init else Ok(init.value + [last.value])
  }

  /** A replay that succeeds entry by entry succeeds as a whole. */
  lemma {:induction false} ReplayOk(events: seq<Anchored>, override: Option<JsonEvent>, readDecimal: string -> Option<Decimal>)
    requires forall i :: 0 <= i < |events| ==> ReplayEntry(events[i], override, readDecimal).Ok?
    ensures Replay(events, override, readDecimal).Ok?
  {
    if |events| > 0 {
      ReplayOk(events[..|events| - 1], override, readDecimal);
    }
  }

  /** What an alias entry expands to once it is current: the replay of its
      anchor's captures, or a null dereference when the anchor is unknown. */
  function Expansion(captured: AnchorMap, front: Pending, readDecimal: string -> Option<Decimal>): (r: Result<seq<Pending>, ParseError>)
    requires AliasOf(front.raw).Some?
    ensures AliasOf(front.raw).value !in captured ==> r == Err(NullDereference)
    ensures r.Ok? ==> var events := captured[AliasOf(front.raw).value];
              |r.value| == |events| &&
              forall i :: 0 <= i < |events| ==> r.value[i].raw == events[i].raw && r.value[i].expansion
  {
    var name := AliasOf(front.raw).value;
    if name in captured then Replay(captured[name], Override(front), readDecimal) else Err(NullDereference)
  }

  // ---------------------------------------------------------------------------
  // An alias of an anchor still open
  // ---------------------------------------------------------------------------

  /** The captures when the alias of `&a [ *a ]` is read: `a` is still open
      and holds only the start of its sequence. */
  function OpenSelfSequence(): AnchorMap {
    map["a" := [AnchoredData(RawEvent(SequenceStart(Some("a")), None), StartArray, "", NoNumber, None)]]
  }

  /** The queue entry of `*a` in value position. */
  function SelfAlias(): Pending {
    Pending(RawEvent(Alias("a"), None), false, ValueNull, NoNumber, "", Unset)
  }

  /** `&a [ *a ]` as written.  The alias is counted while `a` holds only
      the sequence start, so the count is 0 and any positive ceiling lets
      it through.  Becoming current, the alias is captured into `a`
      itself; its replay is the sequence start followed by the alias,
      replayed, which is not captured again and expands to the very same
      replay.  So `next` reports the start of an array without end, and
      the ceiling never applies. */
  lemma SelfAliasReplaysForever(limit: int, readDecimal: string -> Option<Decimal>)
    requires limit > 0
    ensures CountExpansion(OpenSelfSequence(), "a", limit, {}) == Ok(0)
    ensures AliasAccepted(OpenSelfSequence(), "a", None, limit)
    ensures var metas := [AnchorMeta("a", -1)];
            var captured := AfterCapture(OpenSelfSequence(), metas, 0, SelfAlias());
            var replay := Expansion(captured, SelfAlias(), readDecimal);
            replay.Ok? && |replay.value| == 2 &&
            replay.value[0].event == StartArray && AfterCapture(captured, metas, 0, replay.value[0]) == captured &&
            replay.value[1].raw == SelfAlias().raw && AfterCapture(captured, metas, 0, replay.value[1]) == captured &&
            Expansion(captured, replay.value[1], readDecimal) == replay
  {
    var anchors := OpenSelfSequence();
    var events := anchors["a"];
    assert CountEvents(anchors, events[1..], limit, 0, {"a"}) == Ok(0);
    var none: set<string> := {};
    assert none + {"a"} == {"a"};
    var metas := [AnchorMeta("a", -1)];
    var item := CaptureOf(SelfAlias());
    assert Captured(anchors, metas[1..], 0, item) == anchors;
    var captured := AfterCapture(anchors, metas, 0, SelfAlias());
    assert captured == map["a" := events + [item]];
    var start := ReplayEntry(captured["a"][0], None, readDecimal);
    var again := ReplayEntry(captured["a"][1], None, readDecimal);
    assert start.Ok? && again.Ok?;
    var first := captured["a"][..1];
    assert first == [captured["a"][0]] && first[..0] == [];
    assert Replay(first[..0], None, readDecimal) == Ok([]);
    assert Replay(first, None, readDecimal) == Ok([] + [start.value]);
  }

  /** The rule the ceiling evidently intends: besides the checks of
      `enqueueAlias`, an alias of an anchor that is still open is refused,
      as its expansion would contain the alias itself. */
  predicate ClosedAliasAccepted(anchors: AnchorMap, metas: seq<AnchorMeta>, name: string, keyExpected: Option<bool>, limit: int)
  {
    AliasAccepted(anchors, name, keyExpected, limit) &&
    forall i :: 0 <= i < |metas| ==> metas[i].name != name
  }

  /** No open anchor of the name encloses any depth. */
  lemma {:induction false} NoneEnclosing(metas: seq<AnchorMeta>, depth: int, name: string)
    requires forall i :: 0 <= i < |metas| ==> metas[i].name != name
    ensures Enclosing(metas, depth, name) == 0
  {
    if |metas| > 0 {
      NoneEnclosing(metas[1..], depth, name);
    }
  }

  /** Under the corrected rule, an accepted alias is never captured into
      its own anchor: when it becomes current, what it replays is exactly
      the captures that were counted against the ceiling. */
  lemma ClosedAliasNeverSelfCaptured(anchors: AnchorMap, metas: seq<AnchorMeta>, depth: int, p: Pending,
                                     name: string, keyExpected: Option<bool>, limit: int,
                                     readDecimal: string -> Option<Decimal>)
    requires MetasDeclared(Anchoring(metas, anchors))
    requires ClosedAliasAccepted(anchors, metas, name, keyExpected, limit) && AliasOf(p.raw) == Some(name)
    ensures AfterCapture(anchors, metas, depth, p)[name] == anchors[name]
    ensures Expansion(AfterCapture(anchors, metas, depth, p), p, readDecimal) == Replay(anchors[name], Override(p), readDecimal)
  {
    if !p.expansion {
      CapturedAppends(anchors, metas, depth, CaptureOf(p), name);
      NoneEnclosing(metas, depth, name);
    }
  }

  /** The corrected rule refuses the alias of `&a [ *a ]`, whatever the
      ceiling. */
  lemma SelfAliasRefused(limit: int)
    ensures !ClosedAliasAccepted(OpenSelfSequence(), [AnchorMeta("a", -1)], "a", None, limit)
  {
    var metas := [AnchorMeta("a", -1)];
    assert metas[0].name == "a";
  }

  // ---------------------------------------------------------------------------
  // Levels of `skip`
  // ---------------------------------------------------------------------------

  function Delta(e: JsonEvent): int {
    if IsStartEvent(e) then 1 else if IsEndEvent(e) then -1 else 0
  }

  /** The level after a run of events from a starting level. */
  function Level(start: int, events: seq<JsonEvent>): int
  {
    if |events| == 0 then start else Level(start, events[..|events| - 1]) + Delta(events[|events| - 1])
  }

  /** The starting level of `skip`, which undoes the depth change the
      current event already made, so that the first event brings the level
      back to the depth. */
  function SkipStart(depth: int, current: JsonEvent): (r: int)
    ensures Level(r, [current]) == depth
  {
    assert [current][..0] == [];
    if IsStartEvent(current) then depth - 1 else if IsEndEvent(current) then depth + 1 else depth
  }

  /** The events of a run of tokens. */
  function Kinds(tokens: seq<Token>): (r: seq<JsonEvent>)
    ensures |r| == |tokens| && forall i :: 0 <= i < |tokens| ==> r[i] == tokens[i].event
  {
    seq(|tokens|, i requires 0 <= i < |tokens| => tokens[i].event)
  }

  /** One more recorded token adds its event to the kinds. */
  lemma KindsAppend(tokens: seq<Token>, t: Token)
    ensures Kinds(tokens + [t]) == Kinds(tokens) + [t.event]
  {
  }

  /** Every non-empty proper prefix of the run keeps the level at or above
      the terminal position. */
  predicate AboveTerminal(start: int, run: seq<JsonEvent>, terminal: int) {
    forall k :: 1 <= k < |run| ==> Level(start, run[..k]) >= terminal
  }

  /** What `skip` reads: a run that stays at or above the terminal
      position until its last event takes the level below it. */
  predicate SkippedTo(start: int, run: seq<JsonEvent>, terminal: int) {
    Level(start, run) < terminal && AboveTerminal(start, run, terminal)
  }

  /** The loop of `skip` goes on while the level stays at or above the
      terminal position, so every prefix it has read did. */
  lemma PrefixLevels(start: int, run: seq<JsonEvent>, e: JsonEvent, terminal: int)
    requires AboveTerminal(start, run, terminal) && Level(start, run) >= terminal
    ensures AboveTerminal(start, run + [e], terminal)
    ensures Level(start, run + [e]) == Level(start, run) + Delta(e)
  {
    assert (run + [e])[..|run|] == run;
    forall k | 1 <= k < |run + [e]| ensures Level(start, (run + [e])[..k]) >= terminal {
      if k < |run| {
        assert (run + [e])[..k] == run[..k];
      }
    }
  }

  /** The index of the last occurrence, or -1. */
  function LastIndexOf(s: seq<JsonEvent>, e: JsonEvent): (r: int)
    ensures -1 <= r < |s|
    ensures r == -1 <==> e !in s
    ensures r >= 0 ==> s[r] == e && forall j :: r < j < |s| ==> s[j] != e
  {
    if |s| == 0 then -1
    else if s[|s| - 1] == e then |s| - 1
    else LastIndexOf(s[..|s| - 1], e)
  }

  /** Once the level drops below the terminal level after staying at or
      above it, the last event was an end event. */
  lemma SkipEndsOnEnd(start: int, events: seq<JsonEvent>, terminal: int)
    requires |events| >= 2 && SkippedTo(start, events, terminal)
    ensures IsEndEvent(events[|events| - 1])
  {
    assert Level(start, events[..|events| - 1]) >= terminal;
  }

  // ---------------------------------------------------------------------------
  // Number accessors
  // ---------------------------------------------------------------------------

  const IntMin: int := -0x8000_0000
  const IntMax: int := 0x7FFF_FFFF

  function Pow10(n: nat): (r: nat)
    ensures r >= 1
  {
    if n == 0 then 1 else 10 * Pow10(n - 1)
  }

  /** The integer part of a decimal, rounded toward zero. */
  function Truncated(d: Decimal): (r: int)
    ensures d.scale <= 0 ==> r == d.unscaled * Pow10(-d.scale)
    ensures d.scale > 0 && d.unscaled >= 0 ==> 0 <= r * Pow10(d.scale) <= d.unscaled < (r + 1) * Pow10(d.scale)
    ensures d.scale > 0 && d.unscaled < 0 ==> (r - 1) * Pow10(d.scale) < d.unscaled <= r * Pow10(d.scale) <= 0
  {
    if d.scale <= 0 then d.unscaled * Pow10(-d.scale)
    else if d.unscaled >= 0 then DivBounds(d.unscaled, Pow10(d.scale)); d.unscaled / Pow10(d.scale)
    else NegatedDivBounds(-d.unscaled, Pow10(d.scale)); -((-d.unscaled) / Pow10(d.scale))
  }

  /** The same bounds for a quotient rounded toward zero from below. */
  lemma NegatedDivBounds(n: int, p: int)
    requires n >= 0 && p > 0
    ensures (-(n / p) - 1) * p < -n <= -(n / p) * p <= 0
  {
    DivBounds(n, p);
    var q := n / p;
    assert -q * p == -(q * p);
    assert (-q - 1) * p == -((q + 1) * p);
  }

  lemma DivBounds(n: nat, p: nat)
    requires p > 0
    ensures 0 <= (n / p) * p <= n < (n / p + 1) * p
  {
    assert n == (n / p) * p + n % p;
  }

  /** The low 64 bits of an integer, read as a signed `long`. */
  function WrapLong(x: int): (r: int)
    ensures LongMin <= r <= LongMax
    ensures (r - x) % 0x1_0000_0000_0000_0000 == 0
    ensures LongMin <= x <= LongMax ==> r == x
  {
    (x - LongMin) % 0x1_0000_0000_0000_0000 + LongMin
  }

  /** The low 32 bits of an integer, read as a signed `int`. */
  function WrapInt(x: int): (r: int)
    ensures IntMin <= r <= IntMax
    ensures (r - x) % 0x1_0000_0000 == 0
    ensures IntMin <= x <= IntMax ==> r == x
  {
    (x - IntMin) % 0x1_0000_0000 + IntMin
  }

  /** A reported location: one-based line and column, zero-based offset,
      or -1 for each when the event has no mark. */
  datatype Location = Location(line: int, column: int, offset: int)

  const UnknownLocation: Location := Location(-1, -1, -1)

  /** A decimal integer in the long range reads back as itself through
      `longValue` and is integral. */
  lemma LongValueOfInteger(n: int)
    requires LongMin <= n <= LongMax
    ensures WrapLong(Truncated(Decimal(n, 0))) == n && Decimal(n, 0).scale == 0
  {
  }

  /** `longValue` on numbers outside the integral long range: `1.5` gives
      1 and `-2.7` gives -2 (truncated toward zero), and 2^63 gives the
      least long (cut to 64 bits). */
  lemma LongValueExamples()
    ensures WrapLong(Truncated(Decimal(15, 1))) == 1
    ensures WrapLong(Truncated(Decimal(-27, 1))) == -2
    ensures WrapLong(Truncated(Decimal(0x8000_0000_0000_0000, 0))) == LongMin
  {
    assert Pow10(1) == 10 * Pow10(0);
    assert Truncated(Decimal(15, 1)) == 1;
    assert Truncated(Decimal(-27, 1)) == -2;
  }
}
