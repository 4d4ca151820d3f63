/** The generator side of the translation: the abstract emitter events the
    generators produce, the scalar styles and the two style rules of the
    generator revisions, the text the written values take, and the events
    `write(JsonValue)` produces for a whole value. */
module Emission {
  import opened Wrappers
  import opened Json
  import opened YamlNumbers
  import opened CoreSchema
  import opened NumberParsing
  import opened StringQuoting

  /** The scalar styles of the emitter. */
  datatype Style = Plain | Literal | Folded | SingleQuoted | DoubleQuoted

  /** The emitter events.  A document marker is `Some(true)` for an
      explicit `---`/`...`, `Some(false)` for the default one, and `None`
      when the revision leaves the choice to its event adapter. */
  datatype Emitted =
    | StreamStartEvent
    | StreamEndEvent
    | DocumentStartEvent(explicit: Option<bool>)
    | DocumentEndEvent(explicit: Option<bool>)
    | MappingStartEvent
    | MappingEndEvent
    | SequenceStartEvent
    | SequenceEndEvent
    | ScalarEvent(text: string, style: Style)

  /** An open structure of the generator's context stack. */
  datatype ContextType = ArrayContext | ObjectContext

  /** The event that closes an open structure. */
  function EndEvent(c: ContextType): Emitted {
    if c == ObjectContext then MappingEndEvent else SequenceEndEvent
  }

  datatype GenerationError =
    | NotInObjectContext          // a key outside an object
    | NotInArrayOrObjectContext   // an end with nothing open
    | IncompleteOutput            // closed with structures still open

  // ---------------------------------------------------------------------------
  // The text of written values (`String.valueOf`)
  // ---------------------------------------------------------------------------

  const NullText: string := "null"

  function BooleanText(b: bool): string {
    if b then "true" else "false"
  }

  function Abs(n: int): nat {
    if n < 0 then -n else n
  }

  function Zeros(n: nat): (s: string)
    ensures |s| == n && forall i :: 0 <= i < n ==> s[i] == '0'
  {
    seq(n, _ => '0')
  }

  /** The digits of an unscaled value with a decimal point `scale` places
      from the right, padded with leading zeros and a `0.` when the digits
      are fewer than the places. */
  function PointAt(digits: string, scale: nat): string {
    if |digits| > scale then digits[..|digits| - scale] + "." + digits[|digits| - scale..]
    else "0." + Zeros(scale - |digits|) + digits
  }

  /** The digits of a scientific notation: a point after the first digit
      when there are more. */
  function Mantissa(digits: string): string {
    if |digits| > 1 then digits[..1] + "." + digits[1..] else digits
  }

  /** `BigDecimal.toString`: the unscaled digits with a point when the
      scale is positive and the adjusted exponent is at least -6, and
      otherwise in scientific notation with an `E` and a signed adjusted
      exponent. */
  function DecimalText(d: Decimal): string {
    var digits := Digits(Abs(d.unscaled), 10);
    var sign := if d.unscaled < 0 then "-" else "";
    var adjusted := (|digits| - 1) - d.scale;
    if d.scale == 0 then sign + digits
    else if d.scale > 0 && adjusted >= -6 then sign + PointAt(digits, d.scale)
    else sign + Mantissa(digits) + (if adjusted != 0 then "E" + (if adjusted > 0 then "+" else "") + LongText(adjusted, 10) else "")
  }

  /** `BigDecimal.toPlainString`: never an exponent; a negative scale
      appends zeros (zero itself stays `0`). */
  function PlainDecimalText(d: Decimal): string {
    var digits := Digits(Abs(d.unscaled), 10);
    var sign := if d.unscaled < 0 then "-" else "";
    if d.scale == 0 then sign + digits
    else if d.scale < 0 then (if d.unscaled == 0 then "0" else sign + digits + Zeros(-d.scale))
    else sign + PointAt(digits, d.scale)
  }

  /** A `double` as far as the generators look at it: the non-finite values,
      and a finite value with the text `String.valueOf` gives it. */
  datatype DoubleValue = FiniteDouble(text: string) | PlusInfinity | MinusInfinity | NotANumber

  /** Infinities and NaN are written as the canonical YAML words. */
  function DoubleText(x: DoubleValue): (s: string)
    ensures x.PlusInfinity? ==> s == CanonicalPositiveInfinity
    ensures x.MinusInfinity? ==> s == CanonicalNegativeInfinity
    ensures x.NotANumber? ==> s == CanonicalNaN
    ensures x.FiniteDouble? ==> s == x.text
  {
    match x
    case FiniteDouble(t) => t
    case PlusInfinity => CanonicalPositiveInfinity
    case MinusInfinity => CanonicalNegativeInfinity
    case NotANumber => CanonicalNaN
  }

  /** The argument of the typed `write` overloads (and `writeNull`); the
      `int`, `long` and `BigInteger` overloads all write an integer. */
  datatype Argument =
    | StringArg(s: string)
    | BigDecimalArg(d: Decimal)
    | IntegralArg(n: int)
    | DoubleArg(x: DoubleValue)
    | BooleanArg(b: bool)
    | NullArg

  // ---------------------------------------------------------------------------
  // The style rules
  // ---------------------------------------------------------------------------

  /** The style rule of the revision with the `minimizeQuotes` and
      `literalBlockStyle` settings: minimising, a newline asks for a
      literal block, a failed quote check for double quotes, and anything
      else is plain; not minimising, every string is double-quoted unless
      literal blocks are enabled and it has a newline. */
  function MinimizingStyle(text: string, needsQuotes: bool, minimizeQuotes: bool, literalBlockStyle: bool): (r: Style)
    ensures r == Plain ==> minimizeQuotes && '\n' !in text && !needsQuotes
    ensures r == Literal ==> '\n' in text && (minimizeQuotes || literalBlockStyle)
    ensures r in {Plain, Literal, DoubleQuoted}
    ensures !minimizeQuotes && !literalBlockStyle ==> r == DoubleQuoted
  {
    if minimizeQuotes then
      if '\n' in text then Literal
      else if needsQuotes then DoubleQuoted
      else Plain
    else if literalBlockStyle && '\n' in text then Literal
    else DoubleQuoted
  }

  /** The style rule driven by the quote characters in the text: a newline
      or both quote characters ask for a literal block, one kind of quote
      character for the other kind of quotes, a failed quote check for
      single quotes, and anything else is plain. */
  function QuoteCharacterStyle(text: string, needsQuotes: bool): (r: Style)
    ensures r == Plain ==> '\n' !in text && '"' !in text && '\'' !in text && !needsQuotes
    ensures r == SingleQuoted ==> '\'' !in text && '\n' !in text
    ensures r == DoubleQuoted ==> '"' !in text && '\'' in text && '\n' !in text
    ensures r == Literal <==> '\n' in text || ('"' in text && '\'' in text)
    ensures r != Folded
  {
    if '\n' in text then Literal
    else if '"' in text && '\'' in text then Literal
    else if '"' in text then SingleQuoted
    else if '\'' in text then DoubleQuoted
    else if needsQuotes then SingleQuoted
    else Plain
  }

  /** Which of the two rules a generator follows. */
  datatype Rule = Minimizing(minimizeQuotes: bool, literalBlockStyle: bool) | QuoteCharacters

  function StringStyle(rule: Rule, text: string, needsQuotes: bool): Style {
    match rule
    case Minimizing(m, l) => MinimizingStyle(text, needsQuotes, m, l)
    case QuoteCharacters => QuoteCharacterStyle(text, needsQuotes)
  }

  /** What a generator decides for the events of a whole value: its style
      rule and the markers of its document events. */
  datatype Styling = Styling(rule: Rule, startMarker: Option<bool>, endMarker: Option<bool>)

  /** Every rule writes a string plain only when it has no newline and
      passes the quote check, so never the empty string, which a reader
      takes for null, nor a word it resolves to null or a boolean. */
  lemma PlainPassesQuoteCheck(rule: Rule, text: string)
    requires StringStyle(rule, text, NeedToQuoteValue(text)) == Plain
    ensures '\n' !in text && !NeedToQuoteValue(text) && text != ""
    ensures Resolve(text).event !in {ValueNull, ValueTrue, ValueFalse}
  {
    ReservedIffConstant(text);
  }

  // ---------------------------------------------------------------------------
  // The events of `write(JsonValue)`
  // ---------------------------------------------------------------------------

  /** The stream and document start a structure opens with on an empty
      context, and the end its closing appends. */
  function Opening(s: Styling, outermost: bool): seq<Emitted> {
    if outermost then [StreamStartEvent, DocumentStartEvent(s.startMarker)] else []
  }

  function Closing(s: Styling, outermost: bool): seq<Emitted> {
    if outermost then [DocumentEndEvent(s.endMarker), StreamEndEvent] else []
  }

  /** The scalar a key is written as: styled by the name quote check. */
  function KeyEvent(s: Styling, name: string): Emitted {
    ScalarEvent(name, StringStyle(s.rule, name, NeedToQuoteName(name)))
  }

  /** The events `write(JsonValue)` emits for a value, `outermost` when the
      context is empty: scalars are one plain scalar (a number with its
      `toString` text, `null` as the word), strings follow the rule with
      the value quote check, and arrays and objects are bracketed by
      their start and end events, and by the stream and document events
      when outermost.  A scalar is never bracketed. */
  function ValueTrace(v: JsonValue, s: Styling, outermost: bool): (r: seq<Emitted>)
    ensures |r| > 0
    decreases v, 1
  {
    match v
    case JNull => [ScalarEvent(NullText, Plain)]
    case JTrue => [ScalarEvent(BooleanText(true), Plain)]
    case JFalse => [ScalarEvent(BooleanText(false), Plain)]
    case JNumber(d) => [ScalarEvent(DecimalText(d), Plain)]
    case JString(t) => [ScalarEvent(t, StringStyle(s.rule, t, NeedToQuoteValue(t)))]
    case JArray(items) =>
      Opening(s, outermost) + [SequenceStartEvent] + ItemsTrace(items, s) + [SequenceEndEvent] + Closing(s, outermost)
    case JObject(members) =>
      Opening(s, outermost) + [MappingStartEvent] + MembersTrace(members, s) + [MappingEndEvent] + Closing(s, outermost)
  }

  function ItemsTrace(items: seq<JsonValue>, s: Styling): seq<Emitted>
    decreases items, 0
  {
    if |items| == 0 then [] else ItemsTrace(items[..|items| - 1], s) + ValueTrace(items[|items| - 1], s, false)
  }

  function MembersTrace(members: seq<Member>, s: Styling): seq<Emitted>
    decreases members, 0
  {
    if |members| == 0 then []
    else
      var last := members[|members| - 1];
      MembersTrace(members[..|members| - 1], s) + [KeyEvent(s, last.key)] + ValueTrace(last.value, s, false)
  }

  /** The scalar the typed `write` overloads and `writeNull` emit: a string
      follows the rule under the value quote check; every other argument
      is plain, with its `String.valueOf` text, a `BigDecimal` in plain
      notation when `plainBigDecimal` is set. */
  function ArgumentEvent(rule: Rule, plainBigDecimal: bool, arg: Argument): (e: Emitted)
    ensures e.ScalarEvent?
    ensures !arg.StringArg? ==> e.style == Plain
    ensures arg.StringArg? ==> e.text == arg.s && e.style == StringStyle(rule, arg.s, NeedToQuoteValue(arg.s))
  {
    match arg
    case StringArg(t) => ScalarEvent(t, StringStyle(rule, t, NeedToQuoteValue(t)))
    case BigDecimalArg(d) => ScalarEvent(if plainBigDecimal then PlainDecimalText(d) else DecimalText(d), Plain)
    case IntegralArg(n) => ScalarEvent(LongText(n, 10), Plain)
    case DoubleArg(x) => ScalarEvent(DoubleText(x), Plain)
    case BooleanArg(b) => ScalarEvent(BooleanText(b), Plain)
    case NullArg => ScalarEvent(NullText, Plain)
  }

  /** `write(JsonValue)` on a scalar emits what the typed overload for the
      same value emits, except that a number always takes its `toString`
      text, so it agrees with `write(BigDecimal)` only when that does not
      write plain notation or the two texts coincide. */
  lemma ScalarTraceIsArgument(v: JsonValue, s: Styling, outermost: bool, plainBigDecimal: bool)
    ensures v.JNull? ==> ValueTrace(v, s, outermost) == [ArgumentEvent(s.rule, plainBigDecimal, NullArg)]
    ensures v.JTrue? ==> ValueTrace(v, s, outermost) == [ArgumentEvent(s.rule, plainBigDecimal, BooleanArg(true))]
    ensures v.JFalse? ==> ValueTrace(v, s, outermost) == [ArgumentEvent(s.rule, plainBigDecimal, BooleanArg(false))]
    ensures v.JString? ==> ValueTrace(v, s, outermost) == [ArgumentEvent(s.rule, plainBigDecimal, StringArg(v.text))]
    ensures v.JNumber? ==> ValueTrace(v, s, outermost) == [ArgumentEvent(s.rule, false, BigDecimalArg(v.number))]
    ensures v.JNumber? && v.number.scale == 0 ==> ValueTrace(v, s, outermost) == [ArgumentEvent(s.rule, plainBigDecimal, BigDecimalArg(v.number))]
  {
    if v.JNumber? && v.number.scale == 0 {
      IntegralDecimalText(v.number);
    }
  }

  /** The traces of a prefix grow by one item or member at a time, after
      whatever was written before them. */
  lemma ItemsTracePrefix(before: seq<Emitted>, items: seq<JsonValue>, i: nat, s: Styling)
    requires i < |items|
    ensures before + ItemsTrace(items[..i + 1], s) == before + ItemsTrace(items[..i], s) + ValueTrace(items[i], s, false)
  {
    assert items[..i + 1][..i] == items[..i];
  }

  lemma MembersTracePrefix(before: seq<Emitted>, members: seq<Member>, i: nat, s: Styling)
    requires i < |members|
    ensures before + MembersTrace(members[..i + 1], s) ==
            before + MembersTrace(members[..i], s) + [KeyEvent(s, members[i].key)] + ValueTrace(members[i].value, s, false)
  {
    assert members[..i + 1][..i] == members[..i];
  }

  /** The bracketing of a structure's trace, spelt out. */
  lemma StructureTrace(v: JsonValue, s: Styling, outermost: bool)
    ensures v.JArray? ==>
              ValueTrace(v, s, outermost) == Opening(s, outermost) + [SequenceStartEvent] + ItemsTrace(v.items, s) + [SequenceEndEvent] + Closing(s, outermost)
    ensures v.JObject? ==>
              ValueTrace(v, s, outermost) == Opening(s, outermost) + [MappingStartEvent] + MembersTrace(v.members, s) + [MappingEndEvent] + Closing(s, outermost)
  {
  }

  /** A structure written as its start, its contents and its end, each
      appended in turn, is the structure's trace appended once. */
  lemma ArrayWritten(before: seq<Emitted>, items: seq<JsonValue>, s: Styling, outermost: bool, started: seq<Emitted>, body: seq<Emitted>, after: seq<Emitted>)
    requires started == before + Opening(s, outermost) + [SequenceStartEvent]
    requires body == started + ItemsTrace(items, s)
    requires after == body + [SequenceEndEvent] + Closing(s, outermost)
    ensures after == before + ValueTrace(JArray(items), s, outermost)
  {
    StructureTrace(JArray(items), s, outermost);
  }

  lemma ObjectWritten(before: seq<Emitted>, members: seq<Member>, s: Styling, outermost: bool, started: seq<Emitted>, body: seq<Emitted>, after: seq<Emitted>)
    requires started == before + Opening(s, outermost) + [MappingStartEvent]
    requires body == started + MembersTrace(members, s)
    requires after == body + [MappingEndEvent] + Closing(s, outermost)
    ensures after == before + ValueTrace(JObject(members), s, outermost)
  {
    StructureTrace(JObject(members), s, outermost);
  }

  /** No stream or document event. */
  predicate Undelimited(trace: seq<Emitted>) {
    forall i :: 0 <= i < |trace| ==>
      !trace[i].StreamStartEvent? && !trace[i].StreamEndEvent? && !trace[i].DocumentStartEvent? && !trace[i].DocumentEndEvent?
  }

  lemma UndelimitedJoin(a: seq<Emitted>, b: seq<Emitted>)
    requires Undelimited(a) && Undelimited(b)
    ensures Undelimited(a + b)
  {
    forall i | 0 <= i < |a + b|
      ensures !(a + b)[i].StreamStartEvent? && !(a + b)[i].StreamEndEvent? &&
              !(a + b)[i].DocumentStartEvent? && !(a + b)[i].DocumentEndEvent?
    {
      if i >= |a| {
        assert (a + b)[i] == b[i - |a|];
      }
    }
  }

  /** Only an outermost structure is bracketed by stream and document
      events: a scalar is the same single event at any level, and an
      outermost array or object is its nested events between a stream and
      document start and a document and stream end. */
  lemma DocumentBrackets(v: JsonValue, s: Styling)
    ensures !v.JArray? && !v.JObject? ==> |ValueTrace(v, s, true)| == 1 && ValueTrace(v, s, true) == ValueTrace(v, s, false)
    ensures v.JArray? || v.JObject? ==>
              ValueTrace(v, s, true) ==
              [StreamStartEvent, DocumentStartEvent(s.startMarker)] + ValueTrace(v, s, false) + [DocumentEndEvent(s.endMarker), StreamEndEvent]
    ensures Undelimited(ValueTrace(v, s, false))
  {
    ValueUndelimited(v, s);
  }

  /** A nested value has no stream or document event at all. */
  lemma {:induction false} ValueUndelimited(v: JsonValue, s: Styling)
    ensures Undelimited(ValueTrace(v, s, false))
    decreases v, 1
  {
    match v
    case JArray(items) =>
      ItemsUndelimited(items, s);
      InnerStructureTrace(v, s);
      UndelimitedBetween(SequenceStartEvent, ItemsTrace(items, s), SequenceEndEvent);
    case JObject(members) =>
      MembersUndelimited(members, s);
      InnerStructureTrace(v, s);
      UndelimitedBetween(MappingStartEvent, MembersTrace(members, s), MappingEndEvent);
    case _ =>
  }

  /** Below the outermost level a structure's trace is its start, its
      contents and its end. */
  lemma InnerStructureTrace(v: JsonValue, s: Styling)
    ensures v.JArray? ==> ValueTrace(v, s, false) == [SequenceStartEvent] + ItemsTrace(v.items, s) + [SequenceEndEvent]
    ensures v.JObject? ==> ValueTrace(v, s, false) == [MappingStartEvent] + MembersTrace(v.members, s) + [MappingEndEvent]
  {
    StructureTrace(v, s, false);
    assert Opening(s, false) == [] && Closing(s, false) == [];
  }

  lemma UndelimitedBetween(start: Emitted, middle: seq<Emitted>, end: Emitted)
    requires Undelimited([start]) && Undelimited([end]) && Undelimited(middle)
    ensures Undelimited([start] + middle + [end])
  {
    UndelimitedJoin([start], middle);
    UndelimitedJoin([start] + middle, [end]);
  }

  lemma {:induction false} ItemsUndelimited(items: seq<JsonValue>, s: Styling)
    ensures Undelimited(ItemsTrace(items, s))
    decreases items, 0
  {
    if |items| > 0 {
      ItemsUndelimited(items[..|items| - 1], s);
      ValueUndelimited(items[|items| - 1], s);
      UndelimitedJoin(ItemsTrace(items[..|items| - 1], s), ValueTrace(items[|items| - 1], s, false));
    }
  }

  lemma {:induction false} MembersUndelimited(members: seq<Member>, s: Styling)
    ensures Undelimited(MembersTrace(members, s))
    decreases members, 0
  {
    if |members| > 0 {
      var last := members[|members| - 1];
      MembersUndelimited(members[..|members| - 1], s);
      ValueUndelimited(last.value, s);
      UndelimitedJoin(MembersTrace(members[..|members| - 1], s), [KeyEvent(s, last.key)]);
      UndelimitedJoin(MembersTrace(members[..|members| - 1], s) + [KeyEvent(s, last.key)], ValueTrace(last.value, s, false));
    }
  }

  // ---------------------------------------------------------------------------
  // Decimal text
  // ---------------------------------------------------------------------------

  /** An integral decimal is written as its integer, by either method. */
  lemma IntegralDecimalText(d: Decimal)
    requires d.scale == 0
    ensures DecimalText(d) == LongText(d.unscaled, 10)
    ensures PlainDecimalText(d) == LongText(d.unscaled, 10)
  {
  }

  /** The plain text agrees with `toString` whenever `toString` needs no
      exponent, and never has one. */
  lemma PlainAgreesWithoutExponent(d: Decimal)
    requires d.scale >= 0 && (|Digits(Abs(d.unscaled), 10)| - 1) - d.scale >= -6
    ensures PlainDecimalText(d) == DecimalText(d)
  {
  }

  lemma DigitExamples()
    ensures Digits(123, 10) == "123" && Digits(12345, 10) == "12345"
    ensures Digits(1, 10) == "1" && Digits(0, 10) == "0"
  {
    assert Digits(12, 10) == "12";
    assert Digits(1234, 10) == "1234";
  }

  lemma DecimalTextExamples()
    ensures DecimalText(Decimal(123, -2)) == "1.23E+4"
    ensures DecimalText(Decimal(-12345, 2)) == "-123.45"
    ensures DecimalText(Decimal(1, 7)) == "1E-7"
  {
    DigitExamples();
    assert LongText(4, 10) == "4";
    assert LongText(-7, 10) == "-7" by {
      assert Digits(7, 10) == "7";
    }
  }

  lemma PaddedDecimalTextExamples()
    ensures DecimalText(Decimal(1, 6)) == "0.000001"
    ensures DecimalText(Decimal(0, 2)) == "0.00"
  {
    DigitExamples();
    assert Zeros(5) == "00000";
    assert Zeros(1) == "0";
  }

  lemma PlainDecimalTextExamples()
    ensures PlainDecimalText(Decimal(123, -2)) == "12300"
    ensures PlainDecimalText(Decimal(1, 7)) == "0.0000001"
  {
    DigitExamples();
    assert Zeros(2) == "00";
    assert Zeros(6) == "000000";
  }
}
