/** Reading back what a generator writes: the events a parser makes of an
    emitted trace, assuming the emitter and the YAML reader between them
    keep each scalar's text and whether it is plain, and the proof that a
    value written by `write(JsonValue)` is read back as that value. */
module ReadingBack {
  import opened Wrappers
  import opened Json
  import opened CoreSchema
  import opened NumberParsing
  import opened StringQuoting
  import opened JsonBuilder
  import opened YamlNumbers
  import opened Emission
  import ParserState

  // ---------------------------------------------------------------------------
  // What the tree builder reads of an event
  // ---------------------------------------------------------------------------

  /** The part of an event the tree builder reads: the text of a key or a
      string and the number of a number event. */
  function Visible(t: Token): (r: Token)
    ensures r.event == t.event
  {
    Token(t.event,
          if t.event == KeyName || t.event == ValueString then t.text else "",
          if t.event == ValueNumber then t.number else None)
  }

  /** The builder reads nothing beyond the visible part. */
  lemma StepReadsVisible(b: Builder, t: Token)
    ensures Step(b, t) == Step(b, Visible(t))
  {
  }

  // ---------------------------------------------------------------------------
  // The key flags as a stack
  // ---------------------------------------------------------------------------

  /** The key flag of the innermost open level (none at the top). */
  function Top(flags: seq<Option<bool>>): Option<bool> {
    if |flags| == 0 then None else flags[|flags| - 1]
  }

  /** After a scalar a mapping level turns from key to value and back. */
  function AfterScalar(flags: seq<Option<bool>>): (r: seq<Option<bool>>)
    ensures |r| == |flags|
  {
    if Top(flags).Some? then flags[..|flags| - 1] + [Some(!Top(flags).value)] else flags
  }

  /** After a structure start a parent mapping expects a key once the
      structure is done, and the new level takes its own flag. */
  function AfterOpen(flags: seq<Option<bool>>, inner: Option<bool>): (r: seq<Option<bool>>)
    ensures |r| == |flags| + 1 && Top(r) == inner
  {
    (if Top(flags).Some? then flags[..|flags| - 1] + [Some(true)] else flags) + [inner]
  }

  function AfterClose(flags: seq<Option<bool>>): seq<Option<bool>> {
    if |flags| == 0 then flags else flags[..|flags| - 1]
  }

  /** The stack is the parser's fixed array of key flags cut at the depth:
      its top is the flag the parser consults, and opening a structure or
      reading a scalar changes it as the parser changes the array. */
  lemma FlagStackAgrees(flags: seq<Option<bool>>, depth: int, inner: Option<bool>)
    requires -1 <= depth && depth + 1 < |flags|
    ensures Top(flags[..depth + 1]) == ParserState.KeyExpectedAt(flags, depth)
    ensures AfterOpen(flags[..depth + 1], inner) == ParserState.Opened(flags, depth, inner)[..depth + 2]
    ensures AfterScalar(flags[..depth + 1]) == ParserState.Flipped(flags, depth, ParserState.KeyExpectedAt(flags, depth))[..depth + 1]
    ensures AfterClose(flags[..depth + 2]) == flags[..depth + 1]
  {
    var stack := flags[..depth + 1];
    var grown := ParserState.Opened(flags, depth, inner);
    if depth >= 0 {
      assert stack[..|stack| - 1] == flags[..depth];
      assert grown[..depth + 2] == grown[..depth] + [grown[depth], grown[depth + 1]];
      assert grown[..depth] == flags[..depth];
    } else {
      assert grown[..depth + 2] == [inner];
    }
  }

  // ---------------------------------------------------------------------------
  // Reading a trace
  // ---------------------------------------------------------------------------

  /** The event the parser makes of an emitted scalar under a key flag: it
      is classified as `enqueueDataElement` classifies a raw scalar that is
      plain exactly when the emitted style is, and a number is parsed. */
  function ScalarToken(text: string, style: Style, keyExpected: Option<bool>, readDecimal: string -> Option<Decimal>): Result<Token, NumberError>
  {
    var c := ParserState.Classify(text, style == Plain, keyExpected);
    var n := NumberValue(c.event, c.numberType, text, if c.numberType == NoNumber then Some(Unset) else None, readDecimal);
    if n.Err? then Err(n.error) else Ok(Visible(Token(c.event, text, Some(n.value))))
  }

  function Then(tokens: seq<Token>, r: Result<seq<Token>, NumberError>): Result<seq<Token>, NumberError> {
    if r.Err? then r else Ok(tokens + r.value)
  }

  /** The visible events the parser yields for one emitted event under
      the key flags, and the flags after it: stream and document events
      yield none, structure starts and ends open and close a level, and a
      scalar is classified under the innermost flag. */
  function ReadEvent(e: Emitted, flags: seq<Option<bool>>, readDecimal: string -> Option<Decimal>): Result<(seq<Token>, seq<Option<bool>>), NumberError>
  {
    match e
    case MappingStartEvent => Ok(([Token(StartObject, "", None)], AfterOpen(flags, Some(true))))
    case SequenceStartEvent => Ok(([Token(StartArray, "", None)], AfterOpen(flags, None)))
    case MappingEndEvent => Ok(([Token(EndObject, "", None)], AfterClose(flags)))
    case SequenceEndEvent => Ok(([Token(EndArray, "", None)], AfterClose(flags)))
    case ScalarEvent(text, style) =>
      var t := ScalarToken(text, style, Top(flags), readDecimal);
      if t.Err? then Err(t.error) else Ok(([t.value], AfterScalar(flags)))
    case _ => Ok(([], flags))
  }

  /** The visible events the parser yields for an emitted trace, starting
      with the key flags `flags`. */
  function ReadTrace(trace: seq<Emitted>, flags: seq<Option<bool>>, readDecimal: string -> Option<Decimal>): Result<seq<Token>, NumberError>
    decreases |trace|
  {
    if |trace| == 0 then Ok([])
    else
      var r := ReadEvent(trace[0], flags, readDecimal);
      if r.Err? then Err(r.error) else Then(r.value.0, ReadTrace(trace[1..], r.value.1, readDecimal))
  }

  lemma ReadCons(e: Emitted, rest: seq<Emitted>, flags: seq<Option<bool>>, readDecimal: string -> Option<Decimal>)
    requires ReadEvent(e, flags, readDecimal).Ok?
    ensures ReadTrace([e] + rest, flags, readDecimal) ==
            Then(ReadEvent(e, flags, readDecimal).value.0, ReadTrace(rest, ReadEvent(e, flags, readDecimal).value.1, readDecimal))
  {
    assert ([e] + rest)[0] == e && ([e] + rest)[1..] == rest;
  }

  // ---------------------------------------------------------------------------
  // Which values read back
  // ---------------------------------------------------------------------------

  /** A string is read back as a string: it is quoted, or it is plain and
      the Core Schema resolves its text to a string. */
  predicate StringReadsBack(rule: Rule, t: string) {
    StringStyle(rule, t, NeedToQuoteValue(t)) == Plain ==> t != "" && Resolve(t).event == ValueString
  }

  /** Every number is integral and fits a long, and every string reads back. */
  predicate ReadsBack(v: JsonValue, rule: Rule)
    decreases v
  {
    match v
    case JNumber(d) => d.scale == 0 && LongMin <= d.unscaled <= LongMax
    case JString(t) => StringReadsBack(rule, t)
    case JArray(items) => forall i :: 0 <= i < |items| ==> ReadsBack(items[i], rule)
    case JObject(members) => forall i :: 0 <= i < |members| ==> ReadsBack(members[i].value, rule)
    case _ => true
  }

  /** Not minimising quotes, every string reads back.  Otherwise a plain
      string is never read as null or a boolean, and it reads back exactly
      when its text does not resolve to a number. */
  lemma StringReadsBackCases(rule: Rule, t: string)
    ensures rule.Minimizing? && !rule.minimizeQuotes ==> StringReadsBack(rule, t)
    ensures StringStyle(rule, t, NeedToQuoteValue(t)) == Plain ==>
              t != "" && (StringReadsBack(rule, t) <==> Resolve(t).event != ValueNumber)
  {
    if StringStyle(rule, t, NeedToQuoteValue(t)) == Plain {
      PlainPassesQuoteCheck(rule, t);
    }
  }

  /** Under the quoting checker modelled here, whose value check has no
      number test, the string `10`, written with quotes minimised or by the
      quote character rule, is plain, and the reader takes it for the
      number 10. */
  lemma NumericStringReadsAsNumber(readDecimal: string -> Option<Decimal>)
    ensures StringStyle(Minimizing(true, false), "10", NeedToQuoteValue("10")) == Plain
    ensures StringStyle(QuoteCharacters, "10", NeedToQuoteValue("10")) == Plain
    ensures ScalarToken("10", Plain, None, readDecimal) == Ok(Token(ValueNumber, "", Some(Decimal(10, 0))))
    ensures !StringReadsBack(QuoteCharacters, "10") && !StringReadsBack(Minimizing(true, false), "10")
  {
    var t := "10";
    TenNeedsNoQuotes();
    TenReadsAsNumber(readDecimal);
    assert '\n' !in t && '"' !in t && '\'' !in t by {
      assert t == ['1', '0'];
    }
    assert StringStyle(Minimizing(true, false), t, false) == Plain;
    assert StringStyle(QuoteCharacters, t, false) == Plain;
  }

  lemma TenReadsAsNumber(readDecimal: string -> Option<Decimal>)
    ensures Resolve("10").event == ValueNumber
    ensures ScalarToken("10", Plain, None, readDecimal) == Ok(Token(ValueNumber, "", Some(Decimal(10, 0))))
  {
    ResolveIntegerExamples();
    IntegerNumberRoundTrip(10, readDecimal);
    assert Digits(10, 10) == "10" by {
      assert Digits(1, 10) == "1";
    }
    assert LongText(10, 10) == "10";
  }

  lemma TenNeedsNoQuotes()
    ensures !NeedToQuoteValue("10")
  {
    var t := "10";
    forall k | 0 <= k < |t| ensures !QuotableAt(t, k) {
    }
    NoQuotableAt(t);
  }

  // ---------------------------------------------------------------------------
  // The round trip
  // ---------------------------------------------------------------------------

  lemma ThenNothing(r: Result<seq<Token>, NumberError>)
    ensures Then([], r) == r
  {
    if r.Ok? {
      assert [] + r.value == r.value;
    }
  }

  lemma ThenThen(a: seq<Token>, b: seq<Token>, r: Result<seq<Token>, NumberError>)
    ensures Then(a, Then(b, r)) == Then(a + b, r)
  {
    if r.Ok? {
      assert a + (b + r.value) == (a + b) + r.value;
    }
  }

  /** Stream and document events are passed over. */
  lemma {:induction false} ReadSkipsDelimiters(delimiters: seq<Emitted>, rest: seq<Emitted>, flags: seq<Option<bool>>, readDecimal: string -> Option<Decimal>)
    requires forall i :: 0 <= i < |delimiters| ==>
               delimiters[i].StreamStartEvent? || delimiters[i].StreamEndEvent? ||
               delimiters[i].DocumentStartEvent? || delimiters[i].DocumentEndEvent?
    ensures ReadTrace(delimiters + rest, flags, readDecimal) == ReadTrace(rest, flags, readDecimal)
    decreases |delimiters|
  {
    if |delimiters| > 0 {
      var tail := delimiters[1..];
      assert delimiters + rest == [delimiters[0]] + (tail + rest);
      assert ReadEvent(delimiters[0], flags, readDecimal) == Ok(([], flags));
      ReadCons(delimiters[0], tail + rest, flags, readDecimal);
      ThenNothing(ReadTrace(tail + rest, flags, readDecimal));
      ReadSkipsDelimiters(tail, rest, flags, readDecimal);
    } else {
      assert delimiters + rest == rest;
    }
  }

  lemma ReadSkipsBrackets(s: Styling, outermost: bool, rest: seq<Emitted>, flags: seq<Option<bool>>, readDecimal: string -> Option<Decimal>)
    ensures ReadTrace(Opening(s, outermost) + rest, flags, readDecimal) == ReadTrace(rest, flags, readDecimal)
    ensures ReadTrace(Closing(s, outermost) + rest, flags, readDecimal) == ReadTrace(rest, flags, readDecimal)
  {
    if outermost {
      ReadSkipsDelimiters(Opening(s, outermost), rest, flags, readDecimal);
      ReadSkipsDelimiters(Closing(s, outermost), rest, flags, readDecimal);
    } else {
      assert Opening(s, outermost) + rest == rest;
      assert Closing(s, outermost) + rest == rest;
    }
  }

  /** A scalar value in value position reads back as its own event. */
  lemma ReadScalar(v: JsonValue, s: Styling, outermost: bool, flags: seq<Option<bool>>, rest: seq<Emitted>, readDecimal: string -> Option<Decimal>)
    requires !v.JArray? && !v.JObject? && ReadsBack(v, s.rule) && Top(flags) != Some(true)
    ensures ReadTrace(ValueTrace(v, s, outermost) + rest, flags, readDecimal) ==
            Then(Events(v), ReadTrace(rest, AfterScalar(flags), readDecimal))
  {
    var e := ValueTrace(v, s, outermost)[0];
    ScalarReadsBack(v, s, outermost, Top(flags), readDecimal);
    assert ReadEvent(e, flags, readDecimal) == Ok((Events(v), AfterScalar(flags)));
    ReadCons(e, rest, flags, readDecimal);
  }

  /** The one event of a scalar value is classified, out of key position,
      as that value's own event. */
  lemma ScalarReadsBack(v: JsonValue, s: Styling, outermost: bool, keyExpected: Option<bool>, readDecimal: string -> Option<Decimal>)
    requires !v.JArray? && !v.JObject? && ReadsBack(v, s.rule) && keyExpected != Some(true)
    ensures ValueTrace(v, s, outermost) == [ValueTrace(v, s, outermost)[0]]
    ensures var e := ValueTrace(v, s, outermost)[0];
            e.ScalarEvent? && ScalarToken(e.text, e.style, keyExpected, readDecimal) == Ok(Events(v)[0])
  {
    ScalarTraceIsArgument(v, s, outermost, false);
    match v
    case JNumber(d) =>
      WrittenIntegerReadsBack(s.rule, false, d.unscaled, keyExpected, readDecimal);
    case JNull =>
      WrittenNullReadsBack(s.rule, false, keyExpected, readDecimal);
    case JTrue =>
      WrittenBooleanReadsBack(s.rule, false, true, keyExpected, readDecimal);
    case JFalse =>
      WrittenBooleanReadsBack(s.rule, false, false, keyExpected, readDecimal);
    case JString(t) =>
  }

  /** A key reads back as a key event with its text, whatever its style. */
  lemma ReadKey(s: Styling, name: string, flags: seq<Option<bool>>, rest: seq<Emitted>, readDecimal: string -> Option<Decimal>)
    requires Top(flags) == Some(true)
    ensures ReadTrace([KeyEvent(s, name)] + rest, flags, readDecimal) ==
            Then([Token(KeyName, name, None)], ReadTrace(rest, AfterScalar(flags), readDecimal))
  {
    var e := KeyEvent(s, name);
    assert ScalarToken(e.text, e.style, Top(flags), readDecimal) == Ok(Token(KeyName, name, None));
    ReadCons(e, rest, flags, readDecimal);
  }

  /** A structure bracket reads back as its start or end event. */
  lemma ReadBracket(e: Emitted, rest: seq<Emitted>, flags: seq<Option<bool>>, readDecimal: string -> Option<Decimal>)
    requires e.MappingStartEvent? || e.SequenceStartEvent? || e.MappingEndEvent? || e.SequenceEndEvent?
    ensures ReadEvent(e, flags, readDecimal).Ok?
    ensures ReadTrace([e] + rest, flags, readDecimal) ==
            Then(ReadEvent(e, flags, readDecimal).value.0, ReadTrace(rest, ReadEvent(e, flags, readDecimal).value.1, readDecimal))
  {
    ReadCons(e, rest, flags, readDecimal);
  }

  /** The round trip of a value, and of the items and members of a
      structure: read in value position, the trace of a value yields the
      events of the value, and leaves the key flags as one scalar would. */
  lemma {:induction false} ReadValue(v: JsonValue, s: Styling, outermost: bool, flags: seq<Option<bool>>, rest: seq<Emitted>, readDecimal: string -> Option<Decimal>)
    requires ReadsBack(v, s.rule) && Top(flags) != Some(true)
    ensures ReadTrace(ValueTrace(v, s, outermost) + rest, flags, readDecimal) ==
            Then(Events(v), ReadTrace(rest, AfterScalar(flags), readDecimal))
    decreases v, 2
  {
    match v
    case JArray(items) =>
      ReadArray(items, s, outermost, flags, rest, readDecimal);
    case JObject(members) =>
      ReadObject(members, s, outermost, flags, rest, readDecimal);
    case _ =>
      ReadScalar(v, s, outermost, flags, rest, readDecimal);
  }

  lemma {:induction false} ReadArray(items: seq<JsonValue>, s: Styling, outermost: bool, flags: seq<Option<bool>>, rest: seq<Emitted>, readDecimal: string -> Option<Decimal>)
    requires ReadsBack(JArray(items), s.rule) && Top(flags) != Some(true)
    ensures ReadTrace(ValueTrace(JArray(items), s, outermost) + rest, flags, readDecimal) ==
            Then(Events(JArray(items)), ReadTrace(rest, AfterScalar(flags), readDecimal))
    decreases JArray(items), 1
  {
    var closing := Closing(s, outermost) + rest;
    var body := [SequenceStartEvent] + (ItemsTrace(items, s) + ([SequenceEndEvent] + closing));
    StructureTrace(JArray(items), s, outermost);
    Regroup(Opening(s, outermost), SequenceStartEvent, ItemsTrace(items, s), SequenceEndEvent, Closing(s, outermost), rest);
    ReadSkipsBrackets(s, outermost, body, flags, readDecimal);
    ReadSequence(items, s, flags, closing, readDecimal);
    ReadSkipsBrackets(s, outermost, rest, AfterScalar(flags), readDecimal);
  }

  lemma Regroup(opening: seq<Emitted>, start: Emitted, middle: seq<Emitted>, end: Emitted, closing: seq<Emitted>, rest: seq<Emitted>)
    ensures opening + [start] + middle + [end] + closing + rest == opening + ([start] + (middle + ([end] + (closing + rest))))
  {
  }

  /** A sequence between its start and end events reads back as the
      array's events. */
  lemma {:induction false} ReadSequence(items: seq<JsonValue>, s: Styling, flags: seq<Option<bool>>, rest: seq<Emitted>, readDecimal: string -> Option<Decimal>)
    requires ReadsBack(JArray(items), s.rule) && Top(flags) != Some(true)
    ensures ReadTrace([SequenceStartEvent] + (ItemsTrace(items, s) + ([SequenceEndEvent] + rest)), flags, readDecimal) ==
            Then(Events(JArray(items)), ReadTrace(rest, AfterScalar(flags), readDecimal))
    decreases JArray(items), 0
  {
    var inner := AfterOpen(flags, None);
    var closed := AfterScalar(flags);
    assert AfterClose(inner) == closed;
    var after := ReadTrace(rest, closed, readDecimal);
    var tail := [SequenceEndEvent] + rest;
    ReadBracket(SequenceStartEvent, ItemsTrace(items, s) + tail, flags, readDecimal);
    ReadItems(items, s, inner, tail, readDecimal);
    ReadBracket(SequenceEndEvent, rest, inner, readDecimal);
    ThenThen(ItemEvents(items), [Token(EndArray, "", None)], after);
    ThenThen([Token(StartArray, "", None)], ItemEvents(items) + [Token(EndArray, "", None)], after);
    assert Events(JArray(items)) == [Token(StartArray, "", None)] + (ItemEvents(items) + [Token(EndArray, "", None)]);
  }

  lemma {:induction false} ReadObject(members: seq<Member>, s: Styling, outermost: bool, flags: seq<Option<bool>>, rest: seq<Emitted>, readDecimal: string -> Option<Decimal>)
    requires ReadsBack(JObject(members), s.rule) && Top(flags) != Some(true)
    ensures ReadTrace(ValueTrace(JObject(members), s, outermost) + rest, flags, readDecimal) ==
            Then(Events(JObject(members)), ReadTrace(rest, AfterScalar(flags), readDecimal))
    decreases JObject(members), 1
  {
    var closing := Closing(s, outermost) + rest;
    var body := [MappingStartEvent] + (MembersTrace(members, s) + ([MappingEndEvent] + closing));
    StructureTrace(JObject(members), s, outermost);
    Regroup(Opening(s, outermost), MappingStartEvent, MembersTrace(members, s), MappingEndEvent, Closing(s, outermost), rest);
    ReadSkipsBrackets(s, outermost, body, flags, readDecimal);
    ReadMapping(members, s, flags, closing, readDecimal);
    ReadSkipsBrackets(s, outermost, rest, AfterScalar(flags), readDecimal);
  }

  /** A mapping between its start and end events reads back as the
      object's events. */
  lemma {:induction false} ReadMapping(members: seq<Member>, s: Styling, flags: seq<Option<bool>>, rest: seq<Emitted>, readDecimal: string -> Option<Decimal>)
    requires ReadsBack(JObject(members), s.rule) && Top(flags) != Some(true)
    ensures ReadTrace([MappingStartEvent] + (MembersTrace(members, s) + ([MappingEndEvent] + rest)), flags, readDecimal) ==
            Then(Events(JObject(members)), ReadTrace(rest, AfterScalar(flags), readDecimal))
    decreases JObject(members), 0
  {
    var inner := AfterOpen(flags, Some(true));
    var closed := AfterScalar(flags);
    assert AfterClose(inner) == closed;
    var after := ReadTrace(rest, closed, readDecimal);
    var tail := [MappingEndEvent] + rest;
    ReadBracket(MappingStartEvent, MembersTrace(members, s) + tail, flags, readDecimal);
    ReadMembers(members, s, inner, tail, readDecimal);
    ReadBracket(MappingEndEvent, rest, inner, readDecimal);
    ThenThen(MemberEvents(members), [Token(EndObject, "", None)], after);
    ThenThen([Token(StartObject, "", None)], MemberEvents(members) + [Token(EndObject, "", None)], after);
    assert Events(JObject(members)) == [Token(StartObject, "", None)] + (MemberEvents(members) + [Token(EndObject, "", None)]);
  }

  lemma {:induction false} ReadItems(items: seq<JsonValue>, s: Styling, flags: seq<Option<bool>>, rest: seq<Emitted>, readDecimal: string -> Option<Decimal>)
    requires forall i :: 0 <= i < |items| ==> ReadsBack(items[i], s.rule)
    requires Top(flags) == None
    ensures ReadTrace(ItemsTrace(items, s) + rest, flags, readDecimal) == Then(ItemEvents(items), ReadTrace(rest, flags, readDecimal))
    decreases items, 0
  {
    if |items| == 0 {
      assert ItemsTrace(items, s) + rest == rest;
      ThenNothing(ReadTrace(rest, flags, readDecimal));
    } else {
      var init := items[..|items| - 1];
      var last := items[|items| - 1];
      var tail := ValueTrace(last, s, false) + rest;
      ItemsSnoc(items, s, rest);
      assert forall i :: 0 <= i < |init| ==> ReadsBack(init[i], s.rule) by {
        forall i | 0 <= i < |init| ensures ReadsBack(init[i], s.rule) {
          assert init[i] == items[i];
        }
      }
      ReadItems(init, s, flags, tail, readDecimal);
      assert AfterScalar(flags) == flags;
      ReadValue(last, s, false, flags, rest, readDecimal);
      ThenThen(ItemEvents(init), Events(last), ReadTrace(rest, flags, readDecimal));
    }
  }

  /** Splitting off the last item, both of the trace and of the events. */
  lemma ItemsSnoc(items: seq<JsonValue>, s: Styling, rest: seq<Emitted>)
    requires |items| > 0
    ensures ItemsTrace(items, s) + rest ==
            ItemsTrace(items[..|items| - 1], s) + (ValueTrace(items[|items| - 1], s, false) + rest)
    ensures ItemEvents(items) == ItemEvents(items[..|items| - 1]) + Events(items[|items| - 1])
  {
  }

  lemma {:induction false} ReadMembers(members: seq<Member>, s: Styling, flags: seq<Option<bool>>, rest: seq<Emitted>, readDecimal: string -> Option<Decimal>)
    requires forall i :: 0 <= i < |members| ==> ReadsBack(members[i].value, s.rule)
    requires Top(flags) == Some(true)
    ensures ReadTrace(MembersTrace(members, s) + rest, flags, readDecimal) == Then(MemberEvents(members), ReadTrace(rest, flags, readDecimal))
    decreases members, 0
  {
    if |members| == 0 {
      assert MembersTrace(members, s) + rest == rest;
      ThenNothing(ReadTrace(rest, flags, readDecimal));
    } else {
      var init := members[..|members| - 1];
      var last := members[|members| - 1];
      var valueTail := ValueTrace(last.value, s, false) + rest;
      var key := Token(KeyName, last.key, None);
      assert MembersTrace(members, s) + rest == MembersTrace(init, s) + ([KeyEvent(s, last.key)] + valueTail);
      ReadMembers(init, s, flags, [KeyEvent(s, last.key)] + valueTail, readDecimal);
      ReadMember(last.key, last.value, s, flags, rest, readDecimal);
      ThenThen(MemberEvents(init), [key] + Events(last.value), ReadTrace(rest, flags, readDecimal));
      assert MemberEvents(members) == MemberEvents(init) + ([key] + Events(last.value));
    }
  }

  /** One member reads back as its key event followed by the events of
      its value, and the mapping again expects a key. */
  lemma {:induction false} ReadMember(name: string, value: JsonValue, s: Styling, flags: seq<Option<bool>>, rest: seq<Emitted>, readDecimal: string -> Option<Decimal>)
    requires ReadsBack(value, s.rule) && Top(flags) == Some(true)
    ensures ReadTrace([KeyEvent(s, name)] + (ValueTrace(value, s, false) + rest), flags, readDecimal) ==
            Then([Token(KeyName, name, None)] + Events(value), ReadTrace(rest, flags, readDecimal))
    decreases value, 3
  {
    var valueFlags := AfterScalar(flags);
    ReadKey(s, name, flags, ValueTrace(value, s, false) + rest, readDecimal);
    assert Top(valueFlags) == Some(false);
    assert AfterScalar(valueFlags) == flags;
    ReadValue(value, s, false, valueFlags, rest, readDecimal);
    ThenThen([Token(KeyName, name, None)], Events(value), ReadTrace(rest, flags, readDecimal));
  }

  /** The scalars of the typed `write` overloads read back, out of key
      position, as the values written: `writeNull` as null, a boolean as
      itself, an integer or an integral `BigDecimal` that fits a long as
      that number, and the non-finite doubles as the Core Schema's
      infinities and NaN. */
  lemma WrittenNullReadsBack(rule: Rule, plainBigDecimal: bool, keyExpected: Option<bool>, readDecimal: string -> Option<Decimal>)
    requires keyExpected != Some(true)
    ensures var e := ArgumentEvent(rule, plainBigDecimal, NullArg);
            ScalarToken(e.text, e.style, keyExpected, readDecimal) == Ok(Token(ValueNull, "", None))
  {
    assert "null" in NullValues;
  }

  lemma WrittenBooleanReadsBack(rule: Rule, plainBigDecimal: bool, b: bool, keyExpected: Option<bool>, readDecimal: string -> Option<Decimal>)
    requires keyExpected != Some(true)
    ensures var e := ArgumentEvent(rule, plainBigDecimal, BooleanArg(b));
            ScalarToken(e.text, e.style, keyExpected, readDecimal) == Ok(Token(if b then ValueTrue else ValueFalse, "", None))
  {
    assert "true" in TrueValues && "false" in FalseValues;
  }

  lemma WrittenIntegerReadsBack(rule: Rule, plainBigDecimal: bool, n: int, keyExpected: Option<bool>, readDecimal: string -> Option<Decimal>)
    requires keyExpected != Some(true) && LongMin <= n <= LongMax
    ensures var e := ArgumentEvent(rule, plainBigDecimal, IntegralArg(n));
            ScalarToken(e.text, e.style, keyExpected, readDecimal) == Ok(Token(ValueNumber, "", Some(Decimal(n, 0))))
    ensures var e := ArgumentEvent(rule, plainBigDecimal, BigDecimalArg(Decimal(n, 0)));
            ScalarToken(e.text, e.style, keyExpected, readDecimal) == Ok(Token(ValueNumber, "", Some(Decimal(n, 0))))
  {
    IntegralDecimalText(Decimal(n, 0));
    LongTextResolvesAsInteger(n);
    IntegerNumberRoundTrip(n, readDecimal);
  }

  lemma WrittenNonFiniteClassifies(rule: Rule, plainBigDecimal: bool, x: DoubleValue, keyExpected: Option<bool>)
    requires keyExpected != Some(true) && !x.FiniteDouble?
    ensures var e := ArgumentEvent(rule, plainBigDecimal, DoubleArg(x));
            ParserState.Classify(e.text, e.style == Plain, keyExpected) ==
            Resolution(ValueString, if x.PlusInfinity? then PositiveInfinity else if x.MinusInfinity? then NegativeInfinity else NaN)
  {
    assert CanonicalPositiveInfinity in InfinityValues && CanonicalNegativeInfinity in InfinityValues;
    assert CanonicalNaN in NaNValues;
  }

  /** What `write(JsonValue)` emits on an empty context is read back, by the
      parser's classification and tree building, as the value written:
      keys keep their text whatever their style, and strings, integral
      long numbers, booleans and null keep their type and value. */
  lemma RoundTrip(v: JsonValue, s: Styling, readDecimal: string -> Option<Decimal>)
    requires UniqueKeys(v) && ReadsBack(v, s.rule)
    ensures ReadTrace(ValueTrace(v, s, true), [], readDecimal) == Ok(Events(v))
    ensures Materialize(Events(v)) == Ok((v, []))
  {
    ReadValue(v, s, true, [], [], readDecimal);
    assert ValueTrace(v, s, true) + [] == ValueTrace(v, s, true);
    assert Events(v) + [] == Events(v);
    MaterializeEvents(v, []);
  }
}
