/** The alias-aware streaming parser: it pulls raw YAML events, turns each
    into at most one queued JSON event, tracks nesting and key positions,
    captures the events under open anchors and replays them at aliases,
    and serves the JSON pull-parser queries on the current event. */
module YamlParsing {
  import opened Wrappers
  import opened Json
  import opened CoreSchema
  import opened NumberParsing
  import opened RawEvents
  import opened AliasExpansion
  import opened JsonBuilder
  import opened ParserState

  class YamlParser {
    /** The raw events not yet pulled from the YAML reader. */
    var input: seq<RawEvent>
    /** The alias expansion ceiling; `LongMax` switches the check off. */
    const maxAliasExpansionSize: int
    /** The decimal reader used for floats; it may parse nothing. */
    const readDecimal: string -> Option<Decimal>

    /** The six lock-step queues, one entry per pending event. */
    var queue: seq<Pending>

    var currentRaw: Option<RawEvent>
    var currentEvent: Option<JsonEvent>
    var currentNumberType: NumberType
    var currentValue: string
    var currentNumber: Option<Decimal>

    /** Per nesting level: a key is expected next (mapping), a value is
        (mapping), or none (sequence). */
    var valueIsKey: seq<Option<bool>>
    /** The start event of every open structure, outermost first. */
    var eventStack: seq<JsonEvent>
    var depth: int
    /** The open anchors, innermost first. */
    var anchorStack: seq<AnchorMeta>
    var anchoredEvents: AnchorMap

    /** The events `next` has returned, with the text and number each had. */
    ghost var history: seq<Token>

    ghost predicate Shape()
      reads this
    {
      |valueIsKey| == MaxDepth && -1 <= depth < MaxDepth && |eventStack| == depth + 1 &&
      MetasDeclared(Anchors())
    }

    ghost predicate Valid()
      reads this
    {
      Shape() && HeadsAreData(anchoredEvents) && EmptyWhileFilling(anchoredEvents, queue, anchorStack, depth)
    }

    function Anchors(): Anchoring
      reads this
    {
      Anchoring(anchorStack, anchoredEvents)
    }

    function Current(): CurrentState
      reads this
    {
      CurrentState(currentRaw, currentEvent, currentValue, currentNumberType, currentNumber)
    }

    /** What `getJsonValue` reads at the current event. */
    function CurrentToken(): (t: Token)
      reads this
      requires currentEvent.Some?
      ensures t.event == currentEvent.value && t.text == currentValue && t.number == currentNumber
    {
      Token(currentEvent.value, currentValue, currentNumber)
    }

    constructor (events: seq<RawEvent>, maxAliasExpansionSize: int, readDecimal: string -> Option<Decimal>)
      ensures Valid()
      ensures input == events && queue == [] && history == []
      ensures this.maxAliasExpansionSize == maxAliasExpansionSize && this.readDecimal == readDecimal
      ensures currentRaw.None? && currentEvent.None? && currentNumber.None?
      ensures depth == -1 && anchorStack == [] && anchoredEvents == map[]
      ensures forall i :: 0 <= i < MaxDepth ==> valueIsKey[i].None?
    {
      input := events;
      this.maxAliasExpansionSize := maxAliasExpansionSize;
      this.readDecimal := readDecimal;
      queue := [];
      currentRaw := None;
      currentEvent := None;
      currentNumberType := NoNumber;
      currentValue := "";
      currentNumber := None;
      valueIsKey := seq(MaxDepth, _ => None);
      eventStack := [];
      depth := -1;
      anchorStack := [];
      anchoredEvents := map[];
      history := [];
    }

    /** Everything but the queue is ready for the next raw event: nothing
        is queued and no capture is empty. */
    ghost predicate Settled()
      reads this
    {
      Shape() && HeadsAreData(anchoredEvents) && NoEmptyCapture(anchoredEvents) && queue == []
    }

    // -------------------------------------------------------------------------
    // Queueing
    // -------------------------------------------------------------------------

    /** Appends an entry read from the YAML events; the number is the stored
        one or the parsed text. */
    method Enqueue(raw: RawEvent, event: JsonEvent, numberType: NumberType, value: string, stored: Option<Decimal>)
      returns (r: Outcome<ParseError>)
      modifies this`queue
      ensures var n := NumberValue(event, numberType, value, stored, readDecimal);
              if n.Ok? then r == Pass && queue == old(queue) + [Pending(raw, false, event, numberType, value, n.value)]
              else r == Fail(BadNumber(n.error)) && queue == old(queue)
    {
      var n := NumberValue(event, numberType, value, stored, readDecimal);
      if n.Err? {
        return Fail(BadNumber(n.error));
      }
      queue := queue + [Pending(raw, false, event, numberType, value, n.value)];
      return Pass;
    }

    /** Opens a structure one level deeper; the key flags have no room
        beyond `MaxDepth` levels. */
    method IncrementDepth(levelEvent: JsonEvent, keyExpected: Option<bool>) returns (r: Outcome<ParseError>)
      requires Shape()
      modifies this`valueIsKey, this`depth, this`eventStack
      ensures old(depth) + 1 < MaxDepth ==>
                r == Pass && depth == old(depth) + 1 && eventStack == old(eventStack) + [levelEvent] &&
                valueIsKey == Opened(old(valueIsKey), old(depth), keyExpected)
      ensures old(depth) + 1 >= MaxDepth ==> r == Fail(TooDeep)
      ensures r.Pass? ==> Shape()
    {
      if depth + 1 >= MaxDepth {
        return Fail(TooDeep);
      }
      valueIsKey := Opened(valueIsKey, depth, keyExpected);
      depth := depth + 1;
      eventStack := eventStack + [levelEvent];
      return Pass;
    }

    /** Closes the innermost structure; with none open the stack removal
        fails. */
    method DecrementDepth() returns (r: Outcome<ParseError>)
      requires Shape()
      modifies this`depth, this`eventStack
      ensures old(depth) >= 0 ==> r == Pass && depth == old(depth) - 1 && eventStack == old(eventStack)[..old(depth)]
      ensures old(depth) < 0 ==> r == Fail(EndWithoutStart)
      ensures r.Pass? ==> Shape()
    {
      if depth < 0 {
        return Fail(EndWithoutStart);
      }
      eventStack := eventStack[..depth];
      depth := depth - 1;
      return Pass;
    }

    method AddAnchorMetadata(anchor: Option<string>)
      modifies this`anchorStack, this`anchoredEvents
      ensures Anchors() == Declared(old(Anchors()), anchor, depth)
    {
      if anchor.Some? {
        anchoredEvents := anchoredEvents[anchor.value := []];
        anchorStack := [AnchorMeta(anchor.value, depth)] + anchorStack;
      }
    }

    method RemoveAnchorMetadata(raw: RawEvent, closing: Option<JsonEvent>)
      modifies this`anchorStack, this`anchoredEvents
      ensures Anchors() == Unwound(old(Anchors()), depth, raw, closing)
    {
      if |anchorStack| > 0 && anchorStack[0].startDepth == depth {
        var name := anchorStack[0].name;
        if closing.Some? && name in anchoredEvents {
          anchoredEvents := anchoredEvents[name := anchoredEvents[name] + [AnchoredData(raw, closing.value, "", NoNumber, Some(Unset))]];
        }
        anchorStack := anchorStack[1..];
      }
    }

    /** Appends an event to the capture of every open anchor declared at or
        above the current depth. */
    method AddAnchoredEvent(item: Anchored)
      requires MetasDeclared(Anchors())
      modifies this`anchoredEvents
      ensures anchoredEvents == Captured(old(anchoredEvents), anchorStack, depth, item)
    {
      var i := 0;
      while i < |anchorStack|
        invariant 0 <= i <= |anchorStack|
        invariant anchoredEvents.Keys == old(anchoredEvents).Keys
        invariant Captured(anchoredEvents, anchorStack[i..], depth, item) == Captured(old(anchoredEvents), anchorStack, depth, item)
      {
        var meta := anchorStack[i];
        assert anchorStack[i..][1..] == anchorStack[i + 1..];
        if meta.startDepth <= depth {
          anchoredEvents := anchoredEvents[meta.name := anchoredEvents[meta.name] + [item]];
        }
        i := i + 1;
      }
    }

    /** `enqueueDataElement`: a scalar is queued under the event and number
        type its key position, style and text give it. */
    method EnqueueDataElement(raw: RawEvent, text: string, plain: bool, keyExpected: Option<bool>)
      returns (r: Outcome<ParseError>)
      modifies this`queue
      ensures var c := Classify(text, plain, keyExpected);
              var n := NumberValue(c.event, c.numberType, text, if c.numberType == NoNumber then Some(Unset) else None, readDecimal);
              if n.Ok? then r == Pass && queue == old(queue) + [Pending(raw, false, c.event, c.numberType, text, n.value)]
              else r == Fail(BadNumber(n.error)) && queue == old(queue)
    {
      var c: Resolution;
      if keyExpected == Some(true) {
        c := Resolution(KeyName, NoNumber);
      } else if plain {
        if text == "" {
          c := Resolution(ValueNull, NoNumber);
        } else {
          c := ResolvePlain(text);
        }
      } else {
        c := Resolution(ValueString, NoNumber);
      }
      r := Enqueue(raw, c.event, c.numberType, text, if c.numberType == NoNumber then Some(Unset) else None);
    }

    /** `countExpansion`: the scalar count of an alias, stopping once the
        limit is reached.  A name met again on the recursion path is
        reported instead of recursing without end. */
    method CountAliasExpansion(alias: string, limit: int, visiting: set<string>) returns (r: Result<int, CountError>)
      ensures r == CountExpansion(anchoredEvents, alias, limit, visiting)
      decreases anchoredEvents.Keys - visiting, 0
    {
      if alias !in anchoredEvents {
        return Err(MissingAnchor(alias));
      }
      if alias in visiting {
        return Err(Diverges(alias));
      }
      var anchored := anchoredEvents[alias];
      var count := 0;
      var i := 0;
      while i < |anchored|
        invariant 0 <= i <= |anchored|
        invariant CountEvents(anchoredEvents, anchored[i..], limit, count, visiting + {alias}) == CountExpansion(anchoredEvents, alias, limit, visiting)
      {
        var raw := anchored[i].raw;
        var nested := AliasOf(raw);
        if nested.Some? {
          var sub := CountAliasExpansion(nested.value, limit, visiting + {alias});
          if sub.Err? {
            return Err(sub.error);
          }
          count := count + sub.value;
        } else if IsScalar(raw) {
          count := count + 1;
        }
        assert anchored[i..][1..] == anchored[i + 1..];
        if count >= limit {
          return Ok(count);
        }
        i := i + 1;
      }
      return Ok(count);
    }

    /** `enqueueAlias`: an alias must name a declared anchor; in key
        position its capture must be a single event, elsewhere its
        expansion must stay below the ceiling unless the ceiling is
        `LongMax`. */
    method EnqueueAlias(raw: RawEvent, name: string, keyExpected: Option<bool>) returns (r: Outcome<ParseError>)
      modifies this`queue
      ensures name !in anchoredEvents ==> r == Fail(AliasOfMissingAnchor(name)) && queue == old(queue)
      ensures name in anchoredEvents && keyExpected == Some(true) ==>
                if |anchoredEvents[name]| == 1 then r == Pass && queue == old(queue) + [Pending(raw, false, KeyName, NoNumber, "", Unset)]
                else r == Fail(KeyAliasNotScalar(name)) && queue == old(queue)
      ensures name in anchoredEvents && keyExpected != Some(true) ==>
                var count := CountExpansion(anchoredEvents, name, maxAliasExpansionSize, {});
                if maxAliasExpansionSize < LongMax && count.Err? then
                  r == Fail(if count.error.Diverges? then ExpansionNeverEnds(count.error.name) else NullDereference)
                else if maxAliasExpansionSize < LongMax && count.value >= maxAliasExpansionSize then
                  r == Fail(TooManyScalars(name, count.value))
                else r == Pass && queue == old(queue) + [Pending(raw, false, ValueNull, NoNumber, "", Unset)]
    {
      if name !in anchoredEvents {
        return Fail(AliasOfMissingAnchor(name));
      }
      if keyExpected == Some(true) {
        if |anchoredEvents[name]| != 1 {
          return Fail(KeyAliasNotScalar(name));
        }
        r := Enqueue(raw, KeyName, NoNumber, "", Some(Unset));
      } else {
        if maxAliasExpansionSize < LongMax {
          var count := CountAliasExpansion(name, maxAliasExpansionSize, {});
          if count.Err? {
            return Fail(if count.error.Diverges? then ExpansionNeverEnds(count.error.name) else NullDereference);
          }
          if count.value >= maxAliasExpansionSize {
            return Fail(TooManyScalars(name, count.value));
          }
        }
        r := Enqueue(raw, ValueNull, NoNumber, "", Some(Unset));
      }
    }

    // -------------------------------------------------------------------------
    // Translating one raw event
    // -------------------------------------------------------------------------

    /** A sequence or mapping start: the anchor opens at the parent depth,
        the depth grows, and the start event is queued. */
    method OpenStructure(raw: RawEvent, anchor: Option<string>, start: JsonEvent, keyExpected: Option<bool>)
      returns (r: Result<bool, ParseError>)
      requires Settled() && AliasOf(raw).None? && start != ValueNumber
      modifies this`anchorStack, this`anchoredEvents, this`valueIsKey, this`depth, this`eventStack, this`queue
      ensures old(depth) + 1 < MaxDepth ==>
                r == Ok(true) && queue == [Pending(raw, false, start, NoNumber, "", Unset)] &&
                Anchors() == Declared(old(Anchors()), anchor, old(depth)) &&
                depth == old(depth) + 1 && eventStack == old(eventStack) + [start] &&
                valueIsKey == Opened(old(valueIsKey), old(depth), keyExpected)
      ensures old(depth) + 1 >= MaxDepth ==> r == Err(TooDeep)
      ensures r.Ok? ==> Valid()
    {
      ghost var before := Anchors();
      AddAnchorMetadata(anchor);
      var grown := IncrementDepth(start, keyExpected);
      if grown.Fail? {
        return Err(grown.error);
      }
      var queued := Enqueue(raw, start, NoNumber, "", Some(Unset));
      DeclaredKeeps(before, anchor, old(depth), depth, queue);
      return Ok(true);
    }

    /** A sequence or mapping end: the end event is queued, the depth
        shrinks, and an anchor opened at the new depth closes, capturing
        the end event. */
    method CloseStructure(raw: RawEvent, end: JsonEvent) returns (r: Result<bool, ParseError>)
      requires Settled() && end != ValueNumber
      modifies this`anchorStack, this`anchoredEvents, this`depth, this`eventStack, this`queue
      ensures old(depth) >= 0 ==>
                r == Ok(true) && queue == [Pending(raw, false, end, NoNumber, "", Unset)] &&
                depth == old(depth) - 1 && eventStack == old(eventStack)[..old(depth)] &&
                Anchors() == Unwound(old(Anchors()), old(depth) - 1, raw, Some(end))
      ensures old(depth) < 0 ==> r == Err(EndWithoutStart)
      ensures r.Ok? ==> Valid()
    {
      var queued := Enqueue(raw, end, NoNumber, "", Some(Unset));
      var shrunk := DecrementDepth();
      if shrunk.Fail? {
        return Err(shrunk.error);
      }
      UnwoundKeeps(Anchors(), depth, raw, Some(end));
      RemoveAnchorMetadata(raw, Some(end));
      return Ok(true);
    }

    /** A scalar: its anchor opens at the current depth, it is queued as
        classified, and a mapping's key flag flips. */
    method EnqueueScalar(raw: RawEvent, anchor: Option<string>, text: string, plain: bool)
      returns (r: Result<bool, ParseError>)
      requires Settled() && AliasOf(raw).None?
      modifies this`anchorStack, this`anchoredEvents, this`valueIsKey, this`queue
      ensures var k := KeyExpectedAt(old(valueIsKey), depth);
              var c := Classify(text, plain, k);
              var n := NumberValue(c.event, c.numberType, text, if c.numberType == NoNumber then Some(Unset) else None, readDecimal);
              if n.Ok? then
                r == Ok(true) && queue == [Pending(raw, false, c.event, c.numberType, text, n.value)] &&
                Anchors() == Declared(old(Anchors()), anchor, depth) &&
                valueIsKey == Flipped(old(valueIsKey), depth, k)
              else r == Err(BadNumber(n.error))
      ensures r.Ok? ==> Valid()
    {
      ghost var before := Anchors();
      AddAnchorMetadata(anchor);
      var k := KeyExpectedAt(valueIsKey, depth);
      var queued := EnqueueDataElement(raw, text, plain, k);
      if queued.Fail? {
        return Err(queued.error);
      }
      valueIsKey := Flipped(valueIsKey, depth, k);
      DeclaredKeeps(before, anchor, depth, depth, queue);
      return Ok(true);
    }

    /** An alias: it is checked and queued (as a key or as null), and a
        mapping's key flag flips. */
    method EnqueueAliasEvent(raw: RawEvent, name: string) returns (r: Result<bool, ParseError>)
      requires Settled() && raw.kind == Alias(name)
      modifies this`valueIsKey, this`queue
      ensures var k := KeyExpectedAt(old(valueIsKey), depth);
              (name !in anchoredEvents ==> r == Err(AliasOfMissingAnchor(name))) &&
              (r.Ok? <==> AliasAccepted(anchoredEvents, name, k, maxAliasExpansionSize)) &&
              (r.Ok? ==> r.value && queue == [Pending(raw, false, if k == Some(true) then KeyName else ValueNull, NoNumber, "", Unset)] &&
                         valueIsKey == Flipped(old(valueIsKey), depth, k))
      ensures r.Ok? ==> Valid()
    {
      var k := KeyExpectedAt(valueIsKey, depth);
      var queued := EnqueueAlias(raw, name, k);
      if queued.Fail? {
        return Err(queued.error);
      }
      valueIsKey := Flipped(valueIsKey, depth, k);
      return Ok(true);
    }

    /** The structure events of `enqueueEvent`. */
    method TranslateStructure(raw: RawEvent) returns (r: Result<bool, ParseError>)
      requires Valid() && queue == []
      requires raw.kind.SequenceStart? || raw.kind.MappingStart? || raw.kind.SequenceEnd? || raw.kind.MappingEnd?
      modifies this`currentNumber, this`anchorStack, this`anchoredEvents, this`valueIsKey, this`depth, this`eventStack, this`queue
      ensures currentNumber.None?
      ensures r.Ok? ==> Valid() && r.value && |queue| == 1
      ensures raw.kind.SequenceStart? || raw.kind.MappingStart? ==>
                var start := if raw.kind.SequenceStart? then StartArray else StartObject;
                if old(depth) + 1 < MaxDepth then
                  r == Ok(true) && queue == [Pending(raw, false, start, NoNumber, "", Unset)] &&
                  Anchors() == Declared(Unwound(old(Anchors()), old(depth), raw, None), raw.kind.anchor, old(depth)) &&
                  depth == old(depth) + 1 && eventStack == old(eventStack) + [start] &&
                  valueIsKey == Opened(old(valueIsKey), old(depth), if raw.kind.SequenceStart? then None else Some(true))
                else r == Err(TooDeep)
      ensures raw.kind.SequenceEnd? || raw.kind.MappingEnd? ==>
                var end := if raw.kind.SequenceEnd? then EndArray else EndObject;
                if old(depth) >= 0 then
                  r == Ok(true) && queue == [Pending(raw, false, end, NoNumber, "", Unset)] &&
                  depth == old(depth) - 1 && eventStack == old(eventStack)[..old(depth)] && valueIsKey == old(valueIsKey) &&
                  Anchors() == Unwound(Unwound(old(Anchors()), old(depth), raw, None), old(depth) - 1, raw, Some(end))
                else r == Err(EndWithoutStart)
    {
      Settle(raw);
      match raw.kind {
        case SequenceStart(anchor) => r := OpenStructure(raw, anchor, StartArray, None);
        case MappingStart(anchor) => r := OpenStructure(raw, anchor, StartObject, Some(true));
        case SequenceEnd => r := CloseStructure(raw, EndArray);
        case MappingEnd => r := CloseStructure(raw, EndObject);
      }
    }

    /** What `enqueueEvent` does before looking at the event: the current
        number is cleared and an anchor opened at the current depth
        closes. */
    method Settle(raw: RawEvent)
      requires Valid() && queue == []
      modifies this`currentNumber, this`anchorStack, this`anchoredEvents
      ensures currentNumber.None? && Settled()
      ensures Anchors() == Unwound(old(Anchors()), depth, raw, None)
    {
      currentNumber := None;
      NothingQueuedNoneEmpty(anchoredEvents, anchorStack, depth);
      UnwoundKeeps(Anchors(), depth, raw, None);
      RemoveAnchorMetadata(raw, None);
    }

    /** The other events of `enqueueEvent`. */
    method TranslateLeaf(raw: RawEvent) returns (r: Result<bool, ParseError>)
      requires Valid() && queue == []
      requires !(raw.kind.SequenceStart? || raw.kind.MappingStart? || raw.kind.SequenceEnd? || raw.kind.MappingEnd?)
      modifies this`currentNumber, this`anchorStack, this`anchoredEvents, this`valueIsKey, this`queue
      ensures currentNumber.None?
      ensures r.Ok? ==> Valid() && (r.value <==> !Silent(raw)) && (r.value <==> |queue| == 1) && (!r.value <==> queue == [])
      ensures Silent(raw) ==>
                r == Ok(false) && Anchors() == Unwound(old(Anchors()), old(depth), raw, None) &&
                depth == old(depth) && eventStack == old(eventStack) && valueIsKey == old(valueIsKey)
      ensures raw.kind.Scalar? ==>
                var k := KeyExpectedAt(old(valueIsKey), old(depth));
                var c := Classify(raw.kind.text, raw.kind.plain, k);
                var n := NumberValue(c.event, c.numberType, raw.kind.text, if c.numberType == NoNumber then Some(Unset) else None, readDecimal);
                if n.Ok? then
                  r == Ok(true) && queue == [Pending(raw, false, c.event, c.numberType, raw.kind.text, n.value)] &&
                  Anchors() == Declared(Unwound(old(Anchors()), old(depth), raw, None), raw.kind.anchor, old(depth)) &&
                  depth == old(depth) && eventStack == old(eventStack) && valueIsKey == Flipped(old(valueIsKey), old(depth), k)
                else r == Err(BadNumber(n.error))
      ensures raw.kind.Alias? ==>
                var k := KeyExpectedAt(old(valueIsKey), old(depth));
                var name := raw.kind.target;
                var anchors := old(anchoredEvents);
                (name !in anchors ==> r == Err(AliasOfMissingAnchor(name))) &&
                (r.Ok? <==> AliasAccepted(anchors, name, k, maxAliasExpansionSize)) &&
                (r.Ok? ==> queue == [Pending(raw, false, if k == Some(true) then KeyName else ValueNull, NoNumber, "", Unset)] &&
                           Anchors() == Unwound(old(Anchors()), old(depth), raw, None) &&
                           depth == old(depth) && eventStack == old(eventStack) && valueIsKey == Flipped(old(valueIsKey), old(depth), k))
      ensures raw.kind.Unknown? ==> r == Err(UnknownEvent(raw.kind.id))
    {
      Settle(raw);
      match raw.kind {
        case Scalar(anchor, text, plain) => r := EnqueueScalar(raw, anchor, text, plain);
        case Alias(name) => r := EnqueueAliasEvent(raw, name);
        case Unknown(id) => r := Err(UnknownEvent(id));
        case _ => r := Ok(false);
      }
    }

    /** `enqueueEvent`: translates one raw event, with nothing queued, and
        tells whether it queued a JSON event.  The current number is
        cleared whatever the event. */
    method EnqueueEvent(raw: RawEvent) returns (r: Result<bool, ParseError>)
      requires Valid() && queue == []
      modifies this`currentNumber, this`anchorStack, this`anchoredEvents, this`valueIsKey, this`depth, this`eventStack, this`queue
      ensures currentNumber.None?
      ensures r.Ok? ==> Valid() && (r.value <==> !Silent(raw)) && (r.value <==> |queue| == 1) && (!r.value <==> queue == [])
      ensures Silent(raw) ==>
                r == Ok(false) && Anchors() == Unwound(old(Anchors()), old(depth), raw, None) &&
                depth == old(depth) && eventStack == old(eventStack) && valueIsKey == old(valueIsKey)
      ensures raw.kind.SequenceStart? || raw.kind.MappingStart? ==>
                var start := if raw.kind.SequenceStart? then StartArray else StartObject;
                if old(depth) + 1 < MaxDepth then
                  r == Ok(true) && queue == [Pending(raw, false, start, NoNumber, "", Unset)] &&
                  Anchors() == Declared(Unwound(old(Anchors()), old(depth), raw, None), raw.kind.anchor, old(depth)) &&
                  depth == old(depth) + 1 && eventStack == old(eventStack) + [start] &&
                  valueIsKey == Opened(old(valueIsKey), old(depth), if raw.kind.SequenceStart? then None else Some(true))
                else r == Err(TooDeep)
      ensures raw.kind.SequenceEnd? || raw.kind.MappingEnd? ==>
                var end := if raw.kind.SequenceEnd? then EndArray else EndObject;
                if old(depth) >= 0 then
                  r == Ok(true) && queue == [Pending(raw, false, end, NoNumber, "", Unset)] &&
                  depth == old(depth) - 1 && eventStack == old(eventStack)[..old(depth)] && valueIsKey == old(valueIsKey) &&
                  Anchors() == Unwound(Unwound(old(Anchors()), old(depth), raw, None), old(depth) - 1, raw, Some(end))
                else r == Err(EndWithoutStart)
      ensures raw.kind.Scalar? ==>
                var k := KeyExpectedAt(old(valueIsKey), old(depth));
                var c := Classify(raw.kind.text, raw.kind.plain, k);
                var n := NumberValue(c.event, c.numberType, raw.kind.text, if c.numberType == NoNumber then Some(Unset) else None, readDecimal);
                if n.Ok? then
                  r == Ok(true) && queue == [Pending(raw, false, c.event, c.numberType, raw.kind.text, n.value)] &&
                  Anchors() == Declared(Unwound(old(Anchors()), old(depth), raw, None), raw.kind.anchor, old(depth)) &&
                  depth == old(depth) && eventStack == old(eventStack) && valueIsKey == Flipped(old(valueIsKey), old(depth), k)
                else r == Err(BadNumber(n.error))
      ensures raw.kind.Alias? ==>
                var k := KeyExpectedAt(old(valueIsKey), old(depth));
                var name := raw.kind.target;
                var anchors := old(anchoredEvents);
                (name !in anchors ==> r == Err(AliasOfMissingAnchor(name))) &&
                (r.Ok? <==> AliasAccepted(anchors, name, k, maxAliasExpansionSize)) &&
                (r.Ok? ==> queue == [Pending(raw, false, if k == Some(true) then KeyName else ValueNull, NoNumber, "", Unset)] &&
                           Anchors() == Unwound(old(Anchors()), old(depth), raw, None) &&
                           depth == old(depth) && eventStack == old(eventStack) && valueIsKey == Flipped(old(valueIsKey), old(depth), k))
      ensures raw.kind.Unknown? ==> r == Err(UnknownEvent(raw.kind.id))
    {
      if raw.kind.SequenceStart? || raw.kind.MappingStart? || raw.kind.SequenceEnd? || raw.kind.MappingEnd? {
        r := TranslateStructure(raw);
      } else {
        r := TranslateLeaf(raw);
      }
    }

    // -------------------------------------------------------------------------
    // Taking the next event
    // -------------------------------------------------------------------------

    /** `advanceEvent`: the front entry becomes current and, unless it was
        replayed, is captured into the open anchors.  An alias is then
        replaced by its anchor's captured events, in their original order
        and marked as replayed, and the first of them becomes current. */
    method AdvanceEvent() returns (r: Outcome<ParseError>)
      requires Valid()
      modifies this`queue, this`currentRaw, this`currentEvent, this`currentValue, this`currentNumberType, this`currentNumber, this`anchoredEvents
      ensures r.Pass? ==> Valid() && currentRaw.Some? && AliasOf(currentRaw.value).None? && currentEvent.Some?
      ensures old(queue) == [] ==> r == Fail(NothingPending)
      ensures old(queue) != [] && AliasOf(old(queue)[0].raw).None? ==>
                r == Pass && Current() == Taken(old(queue)[0]) && queue == old(queue)[1..] &&
                anchoredEvents == AfterCapture(old(anchoredEvents), anchorStack, depth, old(queue)[0])
      ensures old(queue) != [] && AliasOf(old(queue)[0].raw).Some? ==>
                var captured := AfterCapture(old(anchoredEvents), anchorStack, depth, old(queue)[0]);
                var replay := Expansion(captured, old(queue)[0], readDecimal);
                (replay.Err? ==> r == Fail(replay.error)) &&
                (replay.Ok? ==> r == Pass && |replay.value| > 0 && Current() == Taken(replay.value[0]) &&
                                queue == replay.value[1..] + old(queue)[1..] && anchoredEvents == captured)
      decreases if queue != [] && AliasOf(queue[0].raw).Some? then 1 else 0, |queue|
    {
      if queue == [] {
        return Fail(NothingPending);
      }
      var front := TakeFront();
      if AliasOf(front.raw).None? {
        return Pass;
      }
      ghost var rest := queue;
      r := ExpandAlias(front);
      if r.Fail? {
        return;
      }
      assert queue[1..] == Expansion(anchoredEvents, front, readDecimal).value[1..] + rest;
      r := AdvanceEvent();
    }

    /** The alias that just became current is replaced, in front of the
        queue, by its anchor's captured events; the replay carries the
        alias's own event unless that is a null. */
    method ExpandAlias(front: Pending) returns (r: Outcome<ParseError>)
      requires Valid() && NoEmptyCapture(anchoredEvents)
      requires AliasOf(front.raw).Some? && currentEvent == Some(front.event)
      modifies this`queue
      ensures var replay := Expansion(anchoredEvents, front, readDecimal);
              (replay.Err? ==> r == Fail(replay.error)) &&
              (replay.Ok? ==> r == Pass && queue == replay.value + old(queue) && Valid() &&
                              |replay.value| > 0 && AliasOf(replay.value[0].raw).None?)
    {
      var alias := AliasOf(front.raw);
      var override := if currentEvent != Some(ValueNull) then currentEvent else None;
      if alias.value !in anchoredEvents {
        return Fail(NullDereference);
      }
      var replayed := ReplayAnchored(anchoredEvents[alias.value], override);
      if replayed.Err? {
        return Fail(replayed.error);
      }
      queue := replayed.value + queue;
      NotFillingWithoutEmpty(anchoredEvents, queue, anchorStack, depth);
      r := Pass;
    }

    /** The first half of `advanceEvent`: the front entry is removed from
        the queue, becomes current and is captured unless replayed. */
    method TakeFront() returns (front: Pending)
      requires Valid() && queue != []
      modifies this`queue, this`currentRaw, this`currentEvent, this`currentValue, this`currentNumberType, this`currentNumber, this`anchoredEvents
      ensures front == old(queue)[0] && queue == old(queue)[1..] && Current() == Taken(front)
      ensures anchoredEvents == AfterCapture(old(anchoredEvents), anchorStack, depth, front)
      ensures Valid() && NoEmptyCapture(anchoredEvents)
    {
      ghost var pending := queue;
      front := queue[0];
      CaptureKeeps(anchoredEvents, anchorStack, depth, pending);
      CaptureKeepsMetas(anchoredEvents, anchorStack, depth, front);
      queue := queue[1..];
      MakeCurrent(front);
      if !front.expansion {
        var item := if AliasOf(front.raw).Some? then AnchoredAlias(front.raw)
                    else AnchoredData(front.raw, currentEvent.value, currentValue, currentNumberType, currentNumber);
        CaptureCurrent(front, item);
      }
      NotFillingWithoutEmpty(anchoredEvents, queue, anchorStack, depth);
    }

    /** The current fields take the entry's event, text, number type and,
        unless there is none, number. */
    method MakeCurrent(front: Pending)
      modifies this`currentRaw, this`currentEvent, this`currentValue, this`currentNumberType, this`currentNumber
      ensures Current() == Taken(front)
    {
      currentRaw := Some(front.raw);
      currentEvent := Some(front.event);
      currentValue := front.value;
      currentNumberType := front.numberType;
      currentNumber := Some(front.number);
      if currentNumberType == NoNumber {
        currentNumber := None;
      }
    }

    /** The entry just made current is captured as the current fields give
        it, which is its capture. */
    method CaptureCurrent(front: Pending, item: Anchored)
      requires MetasDeclared(Anchors()) && !front.expansion && item == CaptureOf(front)
      modifies this`anchoredEvents
      ensures anchoredEvents == AfterCapture(old(anchoredEvents), anchorStack, depth, front)
    {
      AddAnchoredEvent(item);
    }

    /** The loop of `advanceEvent` that walks the captured events from the
        last one back, putting each in front of the queue. */
    method ReplayAnchored(events: seq<Anchored>, override: Option<JsonEvent>) returns (r: Result<seq<Pending>, ParseError>)
      ensures r == Replay(events, override, readDecimal)
    {
      var i := |events|;
      var replayed: seq<Pending> := [];
      assert events[..i] == events;
      assert forall p: seq<Pending> :: p + [] == p;
      while i > 0
        invariant 0 <= i <= |events|
        invariant var init := Replay(events[..i], override, readDecimal);
                  Replay(events, override, readDecimal) == (if init.Err? then Err(init.error) else Ok(init.value + replayed))
      {
        var entry := ReplayEntry(events[i - 1], override, readDecimal);
        assert events[..i][..i - 1] == events[..i - 1] && events[..i][i - 1] == events[i - 1];
        if entry.Err? {
          return Err(entry.error);
        }
        ghost var init := Replay(events[..i - 1], override, readDecimal);
        if init.Ok? {
          assert init.value + [entry.value] + replayed == init.value + ([entry.value] + replayed);
        }
        replayed := [entry.value] + replayed;
        i := i - 1;
      }
      assert events[..0] == [] && [] + replayed == replayed;
      return Ok(replayed);
    }

    /** `fillQueues`: with nothing queued, pulls raw events until one
        queues a JSON event or the input ends. */
    method FillQueues() returns (r: Outcome<ParseError>)
      requires Valid()
      modifies this`input, this`currentNumber, this`anchorStack, this`anchoredEvents, this`valueIsKey, this`depth, this`eventStack, this`queue
      ensures r.Pass? ==> Valid()
      ensures old(queue) != [] || old(input) == [] ==> r == Pass && unchanged(this)
      ensures |input| <= |old(input)| && input == old(input)[|old(input)| - |input|..]
      ensures r.Pass? ==> queue != [] || input == []
      ensures r.Pass? && old(queue) == [] && queue == [] ==> forall j :: 0 <= j < |old(input)| ==> Silent(old(input)[j])
      ensures r.Pass? && old(queue) == [] && queue != [] ==>
                |queue| == 1 && |input| < |old(input)| && !Silent(old(input)[|old(input)| - |input| - 1]) &&
                forall j :: 0 <= j < |old(input)| - |input| - 1 ==> Silent(old(input)[j])
      ensures |input| < |old(input)| ==> currentNumber.None?
      ensures old(queue) == [] && old(input) != [] ==> |input| < |old(input)|
    {
      if queue != [] {
        return Pass;
      }
      ghost var taken := 0;
      while |input| > 0
        invariant Valid() && queue == []
        invariant 0 <= taken <= |old(input)| && input == old(input)[taken..]
        invariant forall j :: 0 <= j < taken ==> Silent(old(input)[j])
        invariant taken > 0 ==> currentNumber.None?
        invariant taken == 0 ==> unchanged(this)
      {
        var found := PullEvent();
        taken := taken + 1;
        if found.Err? {
          return Fail(found.error);
        }
        if found.value {
          return Pass;
        }
      }
      return Pass;
    }

    /** One turn of `fillQueues`: the next raw event is taken from the
        input and translated. */
    method PullEvent() returns (found: Result<bool, ParseError>)
      requires Valid() && queue == [] && |input| > 0
      modifies this`input, this`currentNumber, this`anchorStack, this`anchoredEvents, this`valueIsKey, this`depth, this`eventStack, this`queue
      ensures input == old(input)[1..] && currentNumber.None?
      ensures found.Ok? ==> Valid() && (found.value <==> !Silent(old(input)[0])) &&
                            (found.value ==> |queue| == 1) && (!found.value ==> queue == [])
    {
      var raw := input[0];
      input := input[1..];
      found := EnqueueEvent(raw);
    }

    /** `next`: fills the queue if needed and takes the front entry. */
    method Next() returns (r: Result<JsonEvent, ParseError>)
      requires Valid()
      modifies this`input, this`currentNumber, this`anchorStack, this`anchoredEvents, this`valueIsKey, this`depth, this`eventStack, this`queue
      modifies this`currentRaw, this`currentEvent, this`currentValue, this`currentNumberType, this`history
      ensures r.Ok? ==> Valid() && currentEvent == Some(r.value) && history == old(history) + [CurrentToken()]
      ensures r.Err? ==> history == old(history)
      ensures r.Ok? ==> currentRaw.Some? && AliasOf(currentRaw.value).None?
      ensures |input| <= |old(input)| && input == old(input)[|old(input)| - |input|..]
      ensures old(queue) == [] && old(input) == [] ==> r == Err(NothingPending)
      ensures old(queue) != [] ==> input == old(input)
      ensures old(queue) != [] && AliasOf(old(queue)[0].raw).None? ==>
                r == Ok(old(queue)[0].event) && Current() == Taken(old(queue)[0]) && queue == old(queue)[1..]
    {
      var advanced := FillAndAdvance();
      if advanced.Fail? {
        return Err(advanced.error);
      }
      history := history + [CurrentToken()];
      return Ok(currentEvent.value);
    }

    /** The work of `next` before it reports the event: the queue is filled
        if needed and its front entry becomes current. */
    method FillAndAdvance() returns (r: Outcome<ParseError>)
      requires Valid()
      modifies this`input, this`currentNumber, this`anchorStack, this`anchoredEvents, this`valueIsKey, this`depth, this`eventStack, this`queue
      modifies this`currentRaw, this`currentEvent, this`currentValue, this`currentNumberType
      ensures r.Pass? ==> Valid() && currentEvent.Some? && currentRaw.Some? && AliasOf(currentRaw.value).None?
      ensures |input| <= |old(input)| && input == old(input)[|old(input)| - |input|..]
      ensures old(queue) == [] && old(input) == [] ==> r == Fail(NothingPending)
      ensures old(queue) != [] ==> input == old(input)
      ensures old(queue) != [] && AliasOf(old(queue)[0].raw).None? ==>
                r == Pass && Current() == Taken(old(queue)[0]) && queue == old(queue)[1..]
    {
      r := FillQueues();
      if r.Fail? {
        return;
      }
      r := AdvanceEvent();
    }

    /** `next` as the reading loops of `getJsonValue` and `skip` see it. */
    method Advance() returns (r: Result<JsonEvent, ParseError>)
      requires Valid()
      modifies this`input, this`currentNumber, this`anchorStack, this`anchoredEvents, this`valueIsKey, this`depth, this`eventStack, this`queue
      modifies this`currentRaw, this`currentEvent, this`currentValue, this`currentNumberType, this`history
      ensures r.Ok? ==> Valid() && currentEvent == Some(r.value) && history == old(history) + [CurrentToken()]
      ensures r.Err? ==> history == old(history)
    {
      r := Next();
    }

    /** `next` as the loop of `skip` sees it: the event read is added to the
        kinds of the events recorded since `h0`. */
    method NextKind(ghost h0: seq<Token>) returns (r: Result<JsonEvent, ParseError>)
      requires Valid() && |h0| <= |history| && history[..|h0|] == h0
      modifies this`input, this`currentNumber, this`anchorStack, this`anchoredEvents, this`valueIsKey, this`depth, this`eventStack, this`queue
      modifies this`currentRaw, this`currentEvent, this`currentValue, this`currentNumberType, this`history
      ensures |h0| <= |history| && history[..|h0|] == h0
      ensures r.Ok? ==> Valid() && Kinds(history[|h0|..]) == Kinds(old(history)[|h0|..]) + [r.value]
      ensures r.Err? ==> history == old(history)
    {
      r := Advance();
      if r.Ok? {
        assert history[|h0|..] == old(history)[|h0|..] + [CurrentToken()];
        KindsAppend(old(history)[|h0|..], CurrentToken());
      }
    }

    /** `hasNext`: fills the queue if it is empty and tells whether an event
        is pending.  Filling clears the current number. */
    method HasNext() returns (r: Result<bool, ParseError>)
      requires Valid()
      modifies this`input, this`currentNumber, this`anchorStack, this`anchoredEvents, this`valueIsKey, this`depth, this`eventStack, this`queue
      ensures r.Ok? ==> Valid() && (r.value <==> queue != [])
      ensures old(queue) != [] ==> r == Ok(true) && unchanged(this)
      ensures r == Ok(false) ==> input == [] && forall j :: 0 <= j < |old(input)| ==> Silent(old(input)[j])
      ensures |input| < |old(input)| ==> currentNumber.None?
      ensures old(queue) == [] && old(input) != [] ==> |input| < |old(input)|
    {
      var filled := FillQueues();
      if filled.Fail? {
        return Err(filled.error);
      }
      return Ok(queue != []);
    }

    /** `hasNext` as evidently intended: the current event, number
        included, is untouched by looking ahead. */
    method HasNextKeepingNumber() returns (r: Result<bool, ParseError>)
      requires Valid()
      modifies this`input, this`currentNumber, this`anchorStack, this`anchoredEvents, this`valueIsKey, this`depth, this`eventStack, this`queue
      ensures r.Ok? ==> Valid() && (r.value <==> queue != [])
      ensures old(queue) != [] ==> r == Ok(true) && unchanged(this)
      ensures r == Ok(false) ==> input == [] && forall j :: 0 <= j < |old(input)| ==> Silent(old(input)[j])
      ensures Current() == old(Current())
    {
      var number := currentNumber;
      var filled := FillQueues();
      currentNumber := number;
      if filled.Fail? {
        return Err(filled.error);
      }
      return Ok(queue != []);
    }

    // -------------------------------------------------------------------------
    // Values of the current event
    // -------------------------------------------------------------------------

    /** `getBigDecimal`: the number of a number event, which is none once
        the number has been cleared. */
    function GetBigDecimal(): (r: Result<Option<Decimal>, ParseError>)
      reads this
      ensures r.Ok? <==> currentEvent == Some(ValueNumber)
      ensures r.Err? ==> r.error == NotNumberEvent(currentEvent)
      ensures r.Ok? ==> r.value == currentNumber
    {
      if currentEvent != Some(ValueNumber) then Err(NotNumberEvent(currentEvent)) else Ok(currentNumber)
    }

    /** `getLong`: the number truncated toward zero and cut to 64 bits as
        `BigDecimal.longValue` does. */
    function GetLong(): (r: Result<int, ParseError>)
      reads this
      ensures r.Ok? ==> currentEvent == Some(ValueNumber) && currentNumber.Some? && LongMin <= r.value <= LongMax
      ensures currentEvent != Some(ValueNumber) ==> r == Err(NotNumberEvent(currentEvent))
      ensures currentEvent == Some(ValueNumber) && currentNumber.None? ==> r == Err(NullDereference)
      ensures (currentEvent == Some(ValueNumber) && currentNumber.Some? && currentNumber.value.scale == 0 &&
               LongMin <= currentNumber.value.unscaled <= LongMax) ==> r == Ok(currentNumber.value.unscaled)
      ensures r.Ok? ==> (r.value - Truncated(currentNumber.value)) % 0x1_0000_0000_0000_0000 == 0
    {
      if currentEvent != Some(ValueNumber) then Err(NotNumberEvent(currentEvent))
      else if currentNumber.None? then Err(NullDereference)
      else
        LongValueOfInteger(if LongMin <= currentNumber.value.unscaled <= LongMax then currentNumber.value.unscaled else 0);
        Ok(WrapLong(Truncated(currentNumber.value)))
    }

    /** `getInt`: the long value cut to 32 bits. */
    function GetInt(): (r: Result<int, ParseError>)
      reads this
      ensures r.Ok? <==> GetLong().Ok?
      ensures r.Ok? ==> IntMin <= r.value <= IntMax && (r.value - GetLong().value) % 0x1_0000_0000 == 0
      ensures GetLong().Ok? && IntMin <= GetLong().value <= IntMax ==> r == GetLong()
    {
      var l := GetLong();
      if l.Err? then Err(l.error) else Ok(WrapInt(l.value))
    }

    /** `getString`: the text of a key, string or number event. */
    function GetString(): (r: Result<string, ParseError>)
      reads this
      ensures r.Ok? <==> currentEvent.Some? && currentEvent.value in {KeyName, ValueString, ValueNumber}
      ensures currentEvent.None? ==> r == Err(NullDereference)
      ensures r.Ok? ==> r.value == currentValue
    {
      match currentEvent
      case None => Err(NullDereference)
      case Some(e) => if e in {KeyName, ValueString, ValueNumber} then Ok(currentValue) else Err(NotStringEvent(e))
    }

    /** `isIntegralNumber`: whether the number has no fraction digits. */
    function IsIntegralNumber(): (r: Result<bool, ParseError>)
      reads this
      ensures r.Ok? <==> currentEvent == Some(ValueNumber) && currentNumber.Some?
      ensures r.Ok? ==> (r.value <==> currentNumber.value.scale == 0)
      ensures r.Ok? && r.value ==> GetLong().Ok? && (LongMin <= currentNumber.value.unscaled <= LongMax ==> GetLong().value == currentNumber.value.unscaled)
    {
      if currentEvent != Some(ValueNumber) then Err(NotNumberEvent(currentEvent))
      else if currentNumber.None? then Err(NullDereference)
      else Ok(currentNumber.value.scale == 0)
    }

    /** The check the non-finite queries make: the current event is a value. */
    function ValueCheck(): (r: Outcome<ParseError>)
      reads this
      ensures r.Pass? <==> currentEvent.Some? && IsValueEvent(currentEvent.value)
    {
      match currentEvent
      case None => Fail(NullDereference)
      case Some(e) => if IsValueEvent(e) then Pass else Fail(NotValueEvent(e))
    }

    /** `isPositiveInfinity`, `isNegativeInfinity` and `isNaN`: the number
        type the core schema gave the value's text. */
    function IsNumberType(t: NumberType): (r: Result<bool, ParseError>)
      reads this
      ensures r.Ok? <==> ValueCheck().Pass?
      ensures r.Ok? ==> (r.value <==> currentNumberType == t)
    {
      var check := ValueCheck();
      if check.Fail? then Err(check.error) else Ok(currentNumberType == t)
    }

    function IsPositiveInfinity(): (r: Result<bool, ParseError>)
      reads this
      ensures r.Ok? ==> (r.value <==> currentNumberType == PositiveInfinity)
      ensures r.Ok? <==> ValueCheck().Pass?
    {
      IsNumberType(PositiveInfinity)
    }

    function IsNegativeInfinity(): (r: Result<bool, ParseError>)
      reads this
      ensures r.Ok? ==> (r.value <==> currentNumberType == NegativeInfinity)
      ensures r.Ok? <==> ValueCheck().Pass?
    {
      IsNumberType(NegativeInfinity)
    }

    function IsNaN(): (r: Result<bool, ParseError>)
      reads this
      ensures r.Ok? ==> (r.value <==> currentNumberType == NaN)
      ensures r.Ok? <==> ValueCheck().Pass?
    {
      IsNumberType(NaN)
    }

    /** `isInfinite`: either infinity, evaluated left to right. */
    function IsInfinite(): (r: Result<bool, ParseError>)
      reads this
      ensures r.Ok? <==> ValueCheck().Pass?
      ensures r.Ok? ==> (r.value <==> currentNumberType in {PositiveInfinity, NegativeInfinity})
    {
      var positive := IsPositiveInfinity();
      if positive.Err? then positive
      else if positive.value then Ok(true)
      else IsNegativeInfinity()
    }

    /** `getLocation`: the start mark of the current raw event, line and
        column counted from one (a `long` addition, which cannot wrap for
        `int` marks). */
    function GetLocation(): (r: Location)
      reads this
      ensures currentRaw.None? || currentRaw.value.mark.None? ==> r == UnknownLocation
      ensures currentRaw.Some? && currentRaw.value.mark.Some? ==>
                var m := currentRaw.value.mark.value;
                r.line - 1 == m.line && r.column - 1 == m.column && r.offset == m.index
    {
      if currentRaw.None? || currentRaw.value.mark.None? then UnknownLocation
      else
        var m := currentRaw.value.mark.value;
        Location(m.line + 1, m.column + 1, m.index)
    }

    // -------------------------------------------------------------------------
    // Materialising and skipping
    // -------------------------------------------------------------------------

    /** `getJsonValue`: the value that starts at the current event, read
        by calling `next` until every structure it opened is closed (a
        `fuel` bound stands in for the end of the input).  The events read
        are the current one followed by those `next` recorded, and the
        value is what `Materialize` builds from them, with no event left
        over. */
    method GetJsonValue(required: Option<JsonEvent>, fuel: nat) returns (r: Result<JsonValue, ParseError>)
      requires Valid()
      modifies this`input, this`currentNumber, this`anchorStack, this`anchoredEvents, this`valueIsKey, this`depth, this`eventStack, this`queue
      modifies this`currentRaw, this`currentEvent, this`currentValue, this`currentNumberType, this`history
      ensures required.Some? && old(currentEvent) != required ==> r == Err(UnexpectedState(required.value, old(currentEvent)))
      ensures old(currentEvent).None? ==> r.Err?
      ensures |old(history)| <= |history| && history[..|old(history)|] == old(history)
      ensures r.Ok? ==> Valid() && old(currentEvent).Some? &&
                        Materialize([old(CurrentToken())] + history[|old(history)|..]) == Ok((r.value, []))
      ensures r.Ok? && required == Some(StartObject) ==> r.value.JObject?
      ensures r.Ok? && required == Some(StartArray) ==> r.value.JArray?
    {
      if required.Some? && currentEvent != required {
        return Err(UnexpectedState(required.value, currentEvent));
      }
      if currentEvent.None? {
        return Err(NullDereference);
      }
      ghost var tokens := [CurrentToken()];
      ghost var h0 := history;
      r := ReadValue(fuel);
      if r.Ok? && required.Some? && IsStartEvent(required.value) {
        MaterializeKeepsKind(tokens + history[|h0|..]);
      }
    }

    /** The loop of `getJsonValue`. */
    method ReadValue(fuel: nat) returns (r: Result<JsonValue, ParseError>)
      requires Valid() && currentEvent.Some?
      modifies this`input, this`currentNumber, this`anchorStack, this`anchoredEvents, this`valueIsKey, this`depth, this`eventStack, this`queue
      modifies this`currentRaw, this`currentEvent, this`currentValue, this`currentNumberType, this`history
      ensures |old(history)| <= |history| && history[..|old(history)|] == old(history)
      ensures r.Ok? ==> Valid() && Materialize([old(CurrentToken())] + history[|old(history)|..]) == Ok((r.value, []))
    {
      ghost var h0 := history;
      ghost var first := CurrentToken();
      ghost var seen: seq<Token> := [];
      var token := CurrentToken();
      var b := Init;
      var left := fuel;
      while true
        invariant Valid() && currentEvent.Some?
        invariant |h0| <= |history| && history[..|h0|] == h0
        invariant [first] + history[|h0|..] == seen + [token]
        invariant forall rest: seq<Token> :: Feed(Init, seen + [token] + rest) == Feed(b, [token] + rest)
        decreases left
      {
        var step := Step(b, token);
        if step.Err? {
          return Err(BuildFailed(step.error));
        }
        if |step.value.frames| == 0 {
          assert Feed(Init, seen + [token] + []) == Ok(Run(step.value, []));
          assert seen + [token] + [] == [first] + history[|h0|..];
          var v := Finish(step.value);
          if v.Err? {
            return Err(BuildFailed(v.error));
          }
          return Ok(v.value);
        }
        if left == 0 {
          return Err(OutOfFuel);
        }
        left := left - 1;
        ghost var h1 := history;
        var e := Advance();
        if e.Err? {
          return Err(e.error);
        }
        var next := CurrentToken();
        FeedShift(b, seen, token, next);
        assert history[|h0|..] == h1[|h0|..] + [next];
        seen := seen + [token];
        b := step.value;
        token := next;
      }
    }

    /** `getValue`, `getObject` and `getArray`. */
    method GetValue(fuel: nat) returns (r: Result<JsonValue, ParseError>)
      requires Valid()
      modifies this`input, this`currentNumber, this`anchorStack, this`anchoredEvents, this`valueIsKey, this`depth, this`eventStack, this`queue
      modifies this`currentRaw, this`currentEvent, this`currentValue, this`currentNumberType, this`history
      ensures |old(history)| <= |history| && history[..|old(history)|] == old(history)
      ensures r.Ok? ==> Valid() && old(currentEvent).Some? &&
                        Materialize([old(CurrentToken())] + history[|old(history)|..]) == Ok((r.value, []))
    {
      r := GetJsonValue(None, fuel);
    }

    method GetObject(fuel: nat) returns (r: Result<JsonValue, ParseError>)
      requires Valid()
      modifies this`input, this`currentNumber, this`anchorStack, this`anchoredEvents, this`valueIsKey, this`depth, this`eventStack, this`queue
      modifies this`currentRaw, this`currentEvent, this`currentValue, this`currentNumberType, this`history
      ensures |old(history)| <= |history| && history[..|old(history)|] == old(history)
      ensures old(currentEvent) != Some(StartObject) ==> r == Err(UnexpectedState(StartObject, old(currentEvent)))
      ensures r.Ok? ==> r.value.JObject? && Valid() && old(currentEvent).Some? &&
                        Materialize([old(CurrentToken())] + history[|old(history)|..]) == Ok((r.value, []))
    {
      r := GetJsonValue(Some(StartObject), fuel);
    }

    method GetArray(fuel: nat) returns (r: Result<JsonValue, ParseError>)
      requires Valid()
      modifies this`input, this`currentNumber, this`anchorStack, this`anchoredEvents, this`valueIsKey, this`depth, this`eventStack, this`queue
      modifies this`currentRaw, this`currentEvent, this`currentValue, this`currentNumberType, this`history
      ensures |old(history)| <= |history| && history[..|old(history)|] == old(history)
      ensures old(currentEvent) != Some(StartArray) ==> r == Err(UnexpectedState(StartArray, old(currentEvent)))
      ensures r.Ok? ==> r.value.JArray? && Valid() && old(currentEvent).Some? &&
                        Materialize([old(CurrentToken())] + history[|old(history)|..]) == Ok((r.value, []))
    {
      r := GetJsonValue(Some(StartArray), fuel);
    }

    /** `skip`: when the structure kind is open on the reading stack, reads
        events until the level, started from the depth the current event
        left and moved by each start and end event, falls below the
        innermost position of that kind.  The events read are the current
        one and those `next` recorded: every proper prefix keeps the level
        at or above that position, the whole run drops below it, and the
        run, when longer than the current event, ends with an end event. */
    method Skip(structural: JsonEvent, fuel: nat) returns (r: Outcome<ParseError>)
      requires Valid()
      modifies this`input, this`currentNumber, this`anchorStack, this`anchoredEvents, this`valueIsKey, this`depth, this`eventStack, this`queue
      modifies this`currentRaw, this`currentEvent, this`currentValue, this`currentNumberType, this`history
      ensures structural !in old(eventStack) ==> r == Pass && unchanged(this)
      ensures structural in old(eventStack) && old(currentEvent).None? ==> r == Fail(NullDereference)
      ensures |old(history)| <= |history| && history[..|old(history)|] == old(history)
      ensures r.Pass? && structural in old(eventStack) ==>
                Valid() && old(currentEvent).Some? &&
                var run := [old(currentEvent).value] + Kinds(history[|old(history)|..]);
                SkippedTo(SkipStart(old(depth), old(currentEvent).value), run, LastIndexOf(old(eventStack), structural)) &&
                (|run| >= 2 ==> IsEndEvent(run[|run| - 1]))
    {
      var terminal := LastIndexOf(eventStack, structural);
      if terminal < 0 {
        return Pass;
      }
      if currentEvent.None? {
        return Fail(NullDereference);
      }
      r := SkipLevels(terminal, fuel);
    }

    /** The loop of `skip`, down to the terminal position. */
    method SkipLevels(terminal: int, fuel: nat) returns (r: Outcome<ParseError>)
      requires Valid() && currentEvent.Some?
      modifies this`input, this`currentNumber, this`anchorStack, this`anchoredEvents, this`valueIsKey, this`depth, this`eventStack, this`queue
      modifies this`currentRaw, this`currentEvent, this`currentValue, this`currentNumberType, this`history
      ensures |old(history)| <= |history| && history[..|old(history)|] == old(history)
      ensures r.Pass? ==>
                Valid() &&
                var run := [old(currentEvent).value] + Kinds(history[|old(history)|..]);
                SkippedTo(SkipStart(old(depth), old(currentEvent).value), run, terminal) &&
                (|run| >= 2 ==> IsEndEvent(run[|run| - 1]))
    {
      ghost var h0 := history;
      var current := currentEvent.value;
      var start := SkipStart(depth, current);
      var level := start + Delta(current);
      ghost var run := [current];
      var left := fuel;
      while level >= terminal
        invariant Valid()
        invariant |h0| <= |history| && history[..|h0|] == h0
        invariant run == [current] + Kinds(history[|h0|..])
        invariant level == Level(start, run) && AboveTerminal(start, run, terminal)
        decreases left
      {
        if left == 0 {
          return Fail(OutOfFuel);
        }
        left := left - 1;
        var e := NextKind(h0);
        if e.Err? {
          return Fail(e.error);
        }
        PrefixLevels(start, run, e.value, terminal);
        run := run + [e.value];
        level := level + Delta(e.value);
      }
      if |run| >= 2 {
        SkipEndsOnEnd(start, run, terminal);
      }
      return Pass;
    }

    /** `skipObject` and `skipArray`. */
    method SkipObject(fuel: nat) returns (r: Outcome<ParseError>)
      requires Valid()
      modifies this`input, this`currentNumber, this`anchorStack, this`anchoredEvents, this`valueIsKey, this`depth, this`eventStack, this`queue
      modifies this`currentRaw, this`currentEvent, this`currentValue, this`currentNumberType, this`history
      ensures |old(history)| <= |history|
      ensures StartObject !in old(eventStack) ==> r == Pass && unchanged(this)
      ensures r.Pass? && StartObject in old(eventStack) ==>
                Valid() && old(currentEvent).Some? &&
                Level(SkipStart(old(depth), old(currentEvent).value), [old(currentEvent).value] + Kinds(history[|old(history)|..])) <
                  LastIndexOf(old(eventStack), StartObject)
    {
      r := Skip(StartObject, fuel);
    }

    method SkipArray(fuel: nat) returns (r: Outcome<ParseError>)
      requires Valid()
      modifies this`input, this`currentNumber, this`anchorStack, this`anchoredEvents, this`valueIsKey, this`depth, this`eventStack, this`queue
      modifies this`currentRaw, this`currentEvent, this`currentValue, this`currentNumberType, this`history
      ensures |old(history)| <= |history|
      ensures StartArray !in old(eventStack) ==> r == Pass && unchanged(this)
      ensures r.Pass? && StartArray in old(eventStack) ==>
                Valid() && old(currentEvent).Some? &&
                Level(SkipStart(old(depth), old(currentEvent).value), [old(currentEvent).value] + Kinds(history[|old(history)|..])) <
                  LastIndexOf(old(eventStack), StartArray)
    {
      r := Skip(StartArray, fuel);
    }
  }

  // ---------------------------------------------------------------------------
  // Looking ahead loses the current number
  // ---------------------------------------------------------------------------

  /** The plain scalars `10` and `20` in a row: once `next` has made the
      first current, its number reads as 10; `hasNext` then reads the
      second from the YAML events, which clears the current number, and
      `getBigDecimal` at the very same number event returns null. */
  method HasNextClearsNumber() returns (before: Result<Option<Decimal>, ParseError>, after: Result<Option<Decimal>, ParseError>)
    ensures before == Ok(Some(Decimal(10, 0)))
    ensures after == Ok(None)
  {
    var parser := AtFirstOfTwoNumbers();
    before := parser.GetBigDecimal();
    var more := parser.HasNext();
    after := parser.GetBigDecimal();
  }

  /** The same two scalars with the corrected look-ahead: the number of the
      current event survives. */
  method HasNextKeepingNumberKeepsIt() returns (before: Result<Option<Decimal>, ParseError>, after: Result<Option<Decimal>, ParseError>)
    ensures before == Ok(Some(Decimal(10, 0)))
    ensures after == before
  {
    var parser := AtFirstOfTwoNumbers();
    before := parser.GetBigDecimal();
    var more := parser.HasNextKeepingNumber();
    after := parser.GetBigDecimal();
  }

  /** A parser over the plain scalars `10` and `20` once `next` has made
      the first current. */
  method AtFirstOfTwoNumbers() returns (parser: YamlParser)
    ensures fresh(parser) && parser.Valid() && parser.queue == [] && |parser.input| == 1
    ensures parser.currentEvent == Some(ValueNumber) && parser.currentNumber == Some(Decimal(10, 0))
  {
    parser := FirstOfTwoNumbersQueued();
    var advanced := parser.AdvanceEvent();
  }

  /** The same parser once `fillQueues` has translated the first scalar. */
  method FirstOfTwoNumbersQueued() returns (parser: YamlParser)
    ensures fresh(parser) && parser.Valid() && |parser.input| == 1
    ensures parser.queue == [Pending(RawEvent(Scalar(None, "10", true), None), false, ValueNumber, Integer, "10", Decimal(10, 0))]
  {
    var first := RawEvent(Scalar(None, "10", true), None);
    var second := RawEvent(Scalar(None, "20", true), None);
    var readDecimal := (text: string) => None;
    parser := new YamlParser([second], LongMax, readDecimal);
    ResolveIntegerExamples();
    assert Digits(10, 10) == "10";
    IntegerNumberRoundTrip(10, readDecimal);
    assert Classify("10", true, None) == Resolution(ValueNumber, Integer);
    assert NumberValue(ValueNumber, Integer, "10", None, readDecimal) == Ok(Decimal(10, 0));
    var found := parser.EnqueueEvent(first);
  }
}
