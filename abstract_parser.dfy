/** The YAML 1.1 parser's base: the same translation of raw YAML events to
    JSON events without anchors and aliases.  An alias produces no event,
    the number of a number event is parsed when the event becomes
    current, an end event lowers the depth unchecked, and every queued
    entry carries the raw event last read. */
module AbstractParsing {
  import opened Wrappers
  import opened Json
  import opened CoreSchema
  import opened NumberParsing
  import opened RawEvents
  import opened ParserState

  /** One entry of the four lock-step queues: the raw event, the JSON
      event, the number type (none when not given) and the text (empty
      when not given). */
  datatype Entry = Entry(raw: RawEvent, event: JsonEvent, numberType: NumberType, value: string)

  /** Raw events that queue nothing: stream and document brackets, and
      aliases, which this parser does not support. */
  predicate Ignored(raw: RawEvent) {
    Silent(raw) || raw.kind.Alias?
  }

  /** The entry a known raw event that is not ignored queues, under the key
      flags and depth in force before it: a bracket its start or end event,
      a scalar its classification with the key flag of the current level. */
  function QueuedEntry(raw: RawEvent, flags: seq<Option<bool>>, depth: int): Entry
    requires !Ignored(raw) && !raw.kind.Unknown? && depth < |flags|
  {
    if raw.kind.SequenceStart? then Entry(raw, StartArray, NoNumber, "")
    else if raw.kind.MappingStart? then Entry(raw, StartObject, NoNumber, "")
    else if raw.kind.SequenceEnd? then Entry(raw, EndArray, NoNumber, "")
    else if raw.kind.MappingEnd? then Entry(raw, EndObject, NoNumber, "")
    else
      var c := Classify(raw.kind.text, raw.kind.plain, KeyExpectedAt(flags, depth));
      Entry(raw, c.event, c.numberType, raw.kind.text)
  }

  /** Filling took the raw events of `before` that `after` no longer
      holds: all of them ignored but the last, which queues an entry. */
  predicate PulledOne(before: seq<RawEvent>, after: seq<RawEvent>)
  {
    |after| < |before| &&
    var k := |before| - |after| - 1;
    !Ignored(before[k]) && !before[k].kind.Unknown? && forall j :: 0 <= j < k ==> Ignored(before[j])
  }

  /** What `next` reports once the entry `f` becomes current, with the
      current number `before` and `after` the step: the entry's event,
      leaving the number alone, unless it is a number event, whose text is
      parsed into the new current number or fails to parse. */
  ghost predicate Advanced(f: Entry, readDecimal: string -> Option<Decimal>, r: Result<JsonEvent, ParseError>,
                           after: Option<Decimal>, before: Option<Decimal>)
  {
    if f.event != ValueNumber then r == Ok(f.event) && after == before
    else
      var parsed := ParseNumber(f.numberType, f.value, readDecimal);
      if parsed.Err? then r == Err(BadNumber(parsed.error))
      else r == Ok(ValueNumber) && after == parsed.value
  }

  class AbstractYamlParser {
    /** The raw events not yet pulled from the YAML reader. */
    var input: seq<RawEvent>
    /** The reading of a float text, standing in for `DecimalFormat`. */
    const readDecimal: string -> Option<Decimal>

    var queue: seq<Entry>

    var currentRaw: Option<RawEvent>
    var currentEvent: Option<JsonEvent>
    var currentNumberType: NumberType
    var currentValue: string
    var currentNumber: Option<Decimal>

    /** Per nesting level: whether a key is expected next (none in a
        sequence). */
    var valueIsKey: seq<Option<bool>>
    var depth: int

    /** The 200 key flags exist and the depth never passed the last one:
        raising the depth past it fails.  End events may take the depth
        below -1. */
    ghost predicate Valid()
      reads this
    {
      |valueIsKey| == MaxDepth && depth < MaxDepth
    }

    constructor (events: seq<RawEvent>, readDecimal: string -> Option<Decimal>)
      ensures Valid()
      ensures input == events && queue == [] && this.readDecimal == readDecimal
      ensures currentRaw.None? && currentEvent.None? && currentNumber.None?
      ensures depth == -1 && forall i :: 0 <= i < MaxDepth ==> valueIsKey[i].None?
    {
      input := events;
      this.readDecimal := readDecimal;
      queue := [];
      currentRaw := None;
      currentEvent := None;
      currentNumberType := NoNumber;
      currentValue := "";
      currentNumber := None;
      valueIsKey := seq(MaxDepth, _ => None);
      depth := -1;
    }

    // -------------------------------------------------------------------------
    // Queueing
    // -------------------------------------------------------------------------

    /** `incrementDepth`: the parent mapping will expect a key once the new
        structure closes, and the new level takes its own flag.  Storing
        the flag outside the array fails. */
    method IncrementDepth(keyExpected: Option<bool>) returns (r: Outcome<ParseError>)
      requires Valid()
      modifies this`valueIsKey, this`depth
      ensures -1 <= old(depth) && old(depth) + 1 < MaxDepth ==>
                r == Pass && Valid() && depth == old(depth) + 1 && valueIsKey == Opened(old(valueIsKey), old(depth), keyExpected)
      ensures !(-1 <= old(depth) && old(depth) + 1 < MaxDepth) ==> r == Fail(DepthOutOfRange(old(depth) + 1))
    {
      if KeyExpectedAt(valueIsKey, depth).Some? {
        valueIsKey := valueIsKey[depth := Some(true)];
      }
      depth := depth + 1;
      if depth < 0 || depth >= MaxDepth {
        return Fail(DepthOutOfRange(depth));
      }
      valueIsKey := valueIsKey[depth := keyExpected];
      return Pass;
    }

    /** `enqueueDataElement`: a key, a null, a Core Schema resolution or a
        string, queued with the text and no number. */
    method EnqueueDataElement(text: string, plain: bool, keyExpected: Option<bool>)
      requires currentRaw.Some?
      modifies this`queue
      ensures var c := Classify(text, plain, keyExpected);
              queue == old(queue) + [Entry(currentRaw.value, c.event, c.numberType, text)]
    {
      var c: Resolution;
      if keyExpected == Some(true) {
        c := Resolution(KeyName, NoNumber);
      } else if plain {
        if text == "" {
          c := Resolution(ValueNull, NoNumber);
        } else {
          c := ResolvePlain(text);
        }
      } else {
        c := Resolution(ValueString, NoNumber);
      }
      queue := queue + [Entry(currentRaw.value, c.event, c.numberType, text)];
    }

    /** `enqueueEvent`: the raw event becomes the current one and the
        current number is cleared; then the event queues its JSON event,
        or nothing for a stream or document bracket or an alias, or fails
        for an unknown event. */
    method EnqueueEvent(raw: RawEvent) returns (r: Result<bool, ParseError>)
      requires Valid()
      modifies this`currentRaw, this`currentNumber, this`valueIsKey, this`depth, this`queue
      ensures currentRaw == Some(raw) && currentNumber.None?
      ensures r.Ok? ==> Valid() && (r.value <==> !Ignored(raw)) && (r.value <==> |queue| == |old(queue)| + 1)
      ensures r.Ok? && !r.value ==> queue == old(queue)
      ensures r.Ok? && !Ignored(raw) && !raw.kind.Unknown? ==>
                queue == old(queue) + [QueuedEntry(raw, old(valueIsKey), old(depth))]
      ensures Ignored(raw) ==> r == Ok(false) && depth == old(depth) && valueIsKey == old(valueIsKey)
      ensures raw.kind.Unknown? ==> r == Err(UnknownEvent(raw.kind.id))
      ensures raw.kind.SequenceStart? || raw.kind.MappingStart? ==>
                var start := if raw.kind.SequenceStart? then StartArray else StartObject;
                var flag := if raw.kind.SequenceStart? then None else Some(true);
                if -1 <= old(depth) && old(depth) + 1 < MaxDepth then
                  r == Ok(true) && queue == old(queue) + [Entry(raw, start, NoNumber, "")] &&
                  depth == old(depth) + 1 && valueIsKey == Opened(old(valueIsKey), old(depth), flag)
                else r == Err(DepthOutOfRange(old(depth) + 1))
      ensures raw.kind.SequenceEnd? || raw.kind.MappingEnd? ==>
                var end := if raw.kind.SequenceEnd? then EndArray else EndObject;
                r == Ok(true) && queue == old(queue) + [Entry(raw, end, NoNumber, "")] &&
                depth == old(depth) - 1 && valueIsKey == old(valueIsKey)
      ensures raw.kind.Scalar? ==>
                var k := KeyExpectedAt(old(valueIsKey), old(depth));
                var c := Classify(raw.kind.text, raw.kind.plain, k);
                r == Ok(true) && queue == old(queue) + [Entry(raw, c.event, c.numberType, raw.kind.text)] &&
                depth == old(depth) && valueIsKey == Flipped(old(valueIsKey), old(depth), k)
    {
      currentRaw := Some(raw);
      currentNumber := None;
      match raw.kind
      case StreamStart => return Ok(false);
      case StreamEnd => return Ok(false);
      case DocumentStart => return Ok(false);
      case DocumentEnd => return Ok(false);
      case Alias(_) => return Ok(false);
      case Unknown(id) => return Err(UnknownEvent(id));
      case SequenceStart(_) =>
        var raised := IncrementDepth(None);
        if raised.Fail? {
          return Err(raised.error);
        }
        queue := queue + [Entry(raw, StartArray, NoNumber, "")];
        return Ok(true);
      case MappingStart(_) =>
        var raised := IncrementDepth(Some(true));
        if raised.Fail? {
          return Err(raised.error);
        }
        queue := queue + [Entry(raw, StartObject, NoNumber, "")];
        return Ok(true);
      case SequenceEnd =>
        depth := depth - 1;
        queue := queue + [Entry(raw, EndArray, NoNumber, "")];
        return Ok(true);
      case MappingEnd =>
        depth := depth - 1;
        queue := queue + [Entry(raw, EndObject, NoNumber, "")];
        return Ok(true);
      case Scalar(_, text, plain) =>
        var k := KeyExpectedAt(valueIsKey, depth);
        EnqueueDataElement(text, plain, k);
        if k.Some? {
          valueIsKey := valueIsKey[depth := Some(!k.value)];
        }
        return Ok(true);
    }

    // -------------------------------------------------------------------------
    // Taking the next event
    // -------------------------------------------------------------------------

    /** `advanceEvent`: the front entry becomes current; a number event's
        text is parsed now, and any other event leaves the current number
        as it was. */
    method AdvanceEvent() returns (r: Outcome<ParseError>)
      modifies this`queue, this`currentRaw, this`currentEvent, this`currentNumberType, this`currentValue, this`currentNumber
      ensures old(queue) == [] ==> r == Fail(NothingPending) && unchanged(this)
      ensures old(queue) != [] ==>
                var f := old(queue)[0];
                queue == old(queue)[1..] && currentRaw == Some(f.raw) && currentEvent == Some(f.event) &&
                currentNumberType == f.numberType && currentValue == f.value
      ensures old(queue) != [] ==>
                Advanced(old(queue)[0], readDecimal, if r.Pass? then Ok(old(queue)[0].event) else Err(r.error),
                         currentNumber, old(currentNumber))
    {
      if queue == [] {
        return Fail(NothingPending);
      }
      var front := queue[0];
      queue := queue[1..];
      currentRaw := Some(front.raw);
      currentEvent := Some(front.event);
      currentNumberType := front.numberType;
      currentValue := front.value;
      if front.event == ValueNumber {
        var parsed := ParseNumber(currentNumberType, currentValue, readDecimal);
        if parsed.Err? {
          return Fail(BadNumber(parsed.error));
        }
        currentNumber := parsed.value;
      }
      return Pass;
    }

    /** `fillQueues`: with nothing queued, pulls raw events until one
        queues a JSON event or the input ends. */
    method FillQueues() returns (r: Outcome<ParseError>)
      requires Valid()
      modifies this`input, this`currentRaw, this`currentNumber, this`valueIsKey, this`depth, this`queue
      ensures r.Pass? ==> Valid()
      ensures r.Fail? ==> r.error.UnknownEvent? || r.error.DepthOutOfRange?
      ensures old(queue) != [] || old(input) == [] ==> r == Pass && unchanged(this)
      ensures |input| <= |old(input)| && input == old(input)[|old(input)| - |input|..]
      ensures old(queue) == [] && old(input) != [] ==>
                |input| < |old(input)| && currentRaw == Some(old(input)[|old(input)| - |input| - 1]) && currentNumber.None?
      ensures r.Pass? ==> queue != [] || input == []
      ensures r.Pass? && old(queue) == [] && queue == [] ==> forall j :: 0 <= j < |old(input)| ==> Ignored(old(input)[j])
      ensures r.Pass? && old(queue) == [] && queue != [] ==>
                PulledOne(old(input), input) &&
                queue == [QueuedEntry(old(input)[|old(input)| - |input| - 1], old(valueIsKey), old(depth))]
    {
      if queue != [] {
        return Pass;
      }
      ghost var taken := 0;
      while |input| > 0
        invariant Valid() && queue == []
        invariant 0 <= taken <= |old(input)| && input == old(input)[taken..]
        invariant forall j :: 0 <= j < taken ==> Ignored(old(input)[j])
        invariant taken > 0 ==> currentRaw == Some(old(input)[taken - 1]) && currentNumber.None?
        invariant taken == 0 ==> unchanged(this)
        invariant depth == old(depth) && valueIsKey == old(valueIsKey)
      {
        var raw := input[0];
        input := input[1..];
        taken := taken + 1;
        var found := EnqueueEvent(raw);
        if found.Err? {
          return Fail(found.error);
        }
        if found.value {
          return Pass;
        }
      }
      return Pass;
    }

    /** `next`: fills the queue if needed and takes the front entry. */
    method Next() returns (r: Result<JsonEvent, ParseError>)
      requires Valid()
      modifies this`input, this`currentRaw, this`currentNumber, this`valueIsKey, this`depth, this`queue
      modifies this`currentEvent, this`currentNumberType, this`currentValue
      ensures r.Ok? || r.error.BadNumber? || r.error.NothingPending? ==> Valid()
      ensures r.Ok? ==> currentEvent == Some(r.value)
      ensures |input| <= |old(input)| && input == old(input)[|old(input)| - |input|..]
      ensures old(queue) == [] && old(input) == [] ==> r == Err(NothingPending)
      ensures r == Err(NothingPending) ==> input == [] && forall j :: 0 <= j < |old(input)| ==> Ignored(old(input)[j])
      ensures old(queue) != [] ==>
                input == old(input) && queue == old(queue)[1..] &&
                currentRaw == Some(old(queue)[0].raw) && currentEvent == Some(old(queue)[0].event) &&
                Advanced(old(queue)[0], readDecimal, r, currentNumber, old(currentNumber))
      ensures old(queue) == [] && old(input) != [] && (r.Ok? || r.error.BadNumber?) ==>
                PulledOne(old(input), input) && queue == [] &&
                var pulled := old(input)[|old(input)| - |input| - 1];
                currentRaw == Some(pulled) &&
                Advanced(QueuedEntry(pulled, old(valueIsKey), old(depth)), readDecimal, r, currentNumber, None)
    {
      var filled := FillQueues();
      if filled.Fail? {
        return Err(filled.error);
      }
      var advanced := AdvanceEvent();
      if advanced.Fail? {
        return Err(advanced.error);
      }
      return Ok(currentEvent.value);
    }

    /** `hasNext`: fills the queue if it is empty and tells whether an event
        is pending.  Reading ahead makes the raw event read the current
        one, which moves the location, and clears the current number. */
    method HasNext() returns (r: Result<bool, ParseError>)
      requires Valid()
      modifies this`input, this`currentRaw, this`currentNumber, this`valueIsKey, this`depth, this`queue
      ensures r.Ok? ==> Valid() && (r.value <==> queue != [])
      ensures old(queue) != [] ==> r == Ok(true) && unchanged(this)
      ensures r == Ok(false) ==> input == [] && forall j :: 0 <= j < |old(input)| ==> Ignored(old(input)[j])
      ensures old(queue) == [] && old(input) != [] ==>
                |input| < |old(input)| && currentRaw == Some(old(input)[|old(input)| - |input| - 1]) && currentNumber.None?
    {
      var filled := FillQueues();
      if filled.Fail? {
        return Err(filled.error);
      }
      return Ok(queue != []);
    }

    // -------------------------------------------------------------------------
    // Values of the current event
    // -------------------------------------------------------------------------

    function GetBigDecimal(): (r: Result<Option<Decimal>, ParseError>)
      reads this
      ensures r.Ok? <==> currentEvent == Some(ValueNumber)
      ensures r.Err? ==> r.error == NotNumberEvent(currentEvent)
      ensures r.Ok? ==> r.value == currentNumber
    {
      if currentEvent != Some(ValueNumber) then Err(NotNumberEvent(currentEvent)) else Ok(currentNumber)
    }

    function GetLong(): (r: Result<int, ParseError>)
      reads this
      ensures r.Ok? ==> currentEvent == Some(ValueNumber) && currentNumber.Some? && LongMin <= r.value <= LongMax
      ensures currentEvent != Some(ValueNumber) ==> r == Err(NotNumberEvent(currentEvent))
      ensures currentEvent == Some(ValueNumber) && currentNumber.None? ==> r == Err(NullDereference)
      ensures (currentEvent == Some(ValueNumber) && currentNumber.Some? && currentNumber.value.scale == 0 &&
               LongMin <= currentNumber.value.unscaled <= LongMax) ==> r == Ok(currentNumber.value.unscaled)
      ensures r.Ok? ==> (r.value - Truncated(currentNumber.value)) % 0x1_0000_0000_0000_0000 == 0
    {
      if currentEvent != Some(ValueNumber) then Err(NotNumberEvent(currentEvent))
      else if currentNumber.None? then Err(NullDereference)
      else
        LongValueOfInteger(if LongMin <= currentNumber.value.unscaled <= LongMax then currentNumber.value.unscaled else 0);
        Ok(WrapLong(Truncated(currentNumber.value)))
    }

    function GetString(): (r: Result<string, ParseError>)
      reads this
      ensures r.Ok? <==> currentEvent.Some? && currentEvent.value in {KeyName, ValueString, ValueNumber}
      ensures currentEvent.None? ==> r == Err(NullDereference)
      ensures r.Ok? ==> r.value == currentValue
    {
      match currentEvent
      case None => Err(NullDereference)
      case Some(e) => if e in {KeyName, ValueString, ValueNumber} then Ok(currentValue) else Err(NotStringEvent(e))
    }

    function IsIntegralNumber(): (r: Result<bool, ParseError>)
      reads this
      ensures r.Ok? <==> currentEvent == Some(ValueNumber) && currentNumber.Some?
      ensures r.Ok? ==> (r.value <==> currentNumber.value.scale == 0)
    {
      if currentEvent != Some(ValueNumber) then Err(NotNumberEvent(currentEvent))
      else if currentNumber.None? then Err(NullDereference)
      else Ok(currentNumber.value.scale == 0)
    }

    /** `isPositiveInfinity`, `isNegativeInfinity` and `isNaN`: at a value
        event, whether the core schema gave its text that number type. */
    function IsNumberType(t: NumberType): (r: Result<bool, ParseError>)
      reads this
      ensures r.Ok? <==> currentEvent.Some? && IsValueEvent(currentEvent.value)
      ensures currentEvent.None? ==> r == Err(NullDereference)
      ensures r.Ok? ==> (r.value <==> currentNumberType == t)
    {
      match currentEvent
      case None => Err(NullDereference)
      case Some(e) => if IsValueEvent(e) then Ok(currentNumberType == t) else Err(NotValueEvent(e))
    }

    function IsPositiveInfinity(): (r: Result<bool, ParseError>)
      reads this
      ensures r.Ok? <==> currentEvent.Some? && IsValueEvent(currentEvent.value)
      ensures r.Ok? ==> (r.value <==> currentNumberType == PositiveInfinity)
    {
      IsNumberType(PositiveInfinity)
    }

    function IsNegativeInfinity(): (r: Result<bool, ParseError>)
      reads this
      ensures r.Ok? <==> currentEvent.Some? && IsValueEvent(currentEvent.value)
      ensures r.Ok? ==> (r.value <==> currentNumberType == NegativeInfinity)
    {
      IsNumberType(NegativeInfinity)
    }

    function IsNaN(): (r: Result<bool, ParseError>)
      reads this
      ensures r.Ok? <==> currentEvent.Some? && IsValueEvent(currentEvent.value)
      ensures r.Ok? ==> (r.value <==> currentNumberType == NaN)
    {
      IsNumberType(NaN)
    }

    /** `getLineNumber`, `getColumnNumber` and `getStreamOffset`: the mark
        of the raw event last read, line and column counted from one by an
        `int` addition that wraps, -1 without a mark. */
    function GetLineNumber(): (r: int)
      reads this
      ensures currentRaw.None? || currentRaw.value.mark.None? ==> r == -1
      ensures currentRaw.Some? && currentRaw.value.mark.Some? && IntMin <= currentRaw.value.mark.value.line < IntMax ==>
                r == currentRaw.value.mark.value.line + 1
      ensures currentRaw.Some? && currentRaw.value.mark.Some? && currentRaw.value.mark.value.line == IntMax ==> r == IntMin
    {
      if currentRaw.None? || currentRaw.value.mark.None? then -1 else WrapInt(currentRaw.value.mark.value.line + 1)
    }

    function GetColumnNumber(): (r: int)
      reads this
      ensures currentRaw.None? || currentRaw.value.mark.None? ==> r == -1
      ensures currentRaw.Some? && currentRaw.value.mark.Some? && IntMin <= currentRaw.value.mark.value.column < IntMax ==>
                r == currentRaw.value.mark.value.column + 1
      ensures currentRaw.Some? && currentRaw.value.mark.Some? && currentRaw.value.mark.value.column == IntMax ==> r == IntMin
    {
      if currentRaw.None? || currentRaw.value.mark.None? then -1 else WrapInt(currentRaw.value.mark.value.column + 1)
    }

    function GetStreamOffset(): (r: int)
      reads this
      ensures currentRaw.None? || currentRaw.value.mark.None? ==> r == -1
      ensures currentRaw.Some? && currentRaw.value.mark.Some? ==> r == currentRaw.value.mark.value.index
    {
      if currentRaw.None? || currentRaw.value.mark.None? then -1 else currentRaw.value.mark.value.index
    }
  }
}
