/** The generator revision configured by a property map: its context
    stack, the events it emits, the minimise-quotes style rule and the
    plain `BigDecimal` switch. */
module YamlGenerating {
  import opened Wrappers
  import opened Json
  import opened StringQuoting
  import opened NumberParsing
  import opened Emission

  // ---------------------------------------------------------------------------
  // Settings
  // ---------------------------------------------------------------------------

  const SettingsPrefix: string := "io.xlate.yamljson."
  const DumpMinimizeQuotes: string := SettingsPrefix + "DUMP_MINIMIZE_QUOTES"
  const DumpQuoteNumericStrings: string := SettingsPrefix + "DUMP_QUOTE_NUMERIC_STRINGS"
  const DumpLiteralBlockStyle: string := SettingsPrefix + "DUMP_LITERAL_BLOCK_STYLE"
  const DumpWritePlainBigDecimal: string := SettingsPrefix + "DUMP_WRITE_PLAIN_BIGDECIMAL"

  /** ASCII lower case; other characters are left alone. */
  function LowerAscii(c: char): char {
    if 'A' <= c <= 'Z' then (c as int - 'A' as int + 'a' as int) as char else c
  }

  /** `String.equalsIgnoreCase` over ASCII letters. */
  function EqualsIgnoreCase(a: string, b: string): (r: bool)
    ensures r <==> |a| == |b| && forall i :: 0 <= i < |a| ==> LowerAscii(a[i]) == LowerAscii(b[i])
  {
    if |a| != |b| then false
    else if |a| == 0 then true
    else LowerAscii(a[0]) == LowerAscii(b[0]) && EqualsIgnoreCase(a[1..], b[1..])
  }

  /** `Boolean.parseBoolean`: true exactly for `true` in any letter case. */
  function ParseBoolean(s: string): bool {
    EqualsIgnoreCase("true", s)
  }

  /** A boolean setting: the property's value, or the default when the key
      is absent, read by `ParseBoolean`. */
  function Setting(properties: map<string, string>, key: string, default: string): (r: bool)
    ensures key !in properties ==> r == ParseBoolean(default)
    ensures key in properties ==> r == ParseBoolean(properties[key])
  {
    ParseBoolean(if key in properties then properties[key] else default)
  }

  /** Any letter case of `true` is true; anything else, including other
      spellings a YAML reader would take for true, is false. */
  lemma ParseBooleanExamples()
    ensures ParseBoolean("true") && ParseBoolean("TRUE") && ParseBoolean("tRuE")
    ensures !ParseBoolean("yes") && !ParseBoolean("1") && !ParseBoolean(" true") && !ParseBoolean("")
  {
    assert LowerAscii(' ') != LowerAscii('t');
  }

  /** Without properties every switch is off except the numeric-string
      quoting, which defaults on. */
  lemma DefaultSettings()
    ensures !Setting(map[], DumpMinimizeQuotes, "false")
    ensures Setting(map[], DumpQuoteNumericStrings, "true")
    ensures !Setting(map[], DumpLiteralBlockStyle, "false")
    ensures !Setting(map[], DumpWritePlainBigDecimal, "false")
  {
    assert LowerAscii('f') != LowerAscii('t');
  }

  // ---------------------------------------------------------------------------
  // The generator
  // ---------------------------------------------------------------------------

  class YamlGenerator {
    const minimizeQuotes: bool
    /** Read from the properties but used by no decision of the generator. */
    const quoteNumericStrings: bool
    const literalBlockStyle: bool
    const writePlainBigDecimal: bool
    /** The open structures, innermost last. */
    var context: seq<ContextType>
    /** The events handed to the emitter so far. */
    var output: seq<Emitted>

    constructor(properties: map<string, string>)
      ensures minimizeQuotes == Setting(properties, DumpMinimizeQuotes, "false")
      ensures quoteNumericStrings == Setting(properties, DumpQuoteNumericStrings, "true")
      ensures literalBlockStyle == Setting(properties, DumpLiteralBlockStyle, "false")
      ensures writePlainBigDecimal == Setting(properties, DumpWritePlainBigDecimal, "false")
      ensures context == [] && output == []
    {
      minimizeQuotes := Setting(properties, DumpMinimizeQuotes, "false");
      quoteNumericStrings := Setting(properties, DumpQuoteNumericStrings, "true");
      literalBlockStyle := Setting(properties, DumpLiteralBlockStyle, "false");
      writePlainBigDecimal := Setting(properties, DumpWritePlainBigDecimal, "false");
      context := [];
      output := [];
    }

    /** The style rule and document markers of this revision; the markers
        are chosen by the event adapter. */
    function Layout(): Styling {
      Styling(Minimizing(minimizeQuotes, literalBlockStyle), None, None)
    }

    predicate InObjectContext()
      reads this
    {
      |context| > 0 && context[|context| - 1] == ObjectContext
    }

    /** On an empty context, the stream and document start. */
    method EnsureDocumentStarted()
      modifies this`output
      ensures output == old(output) + Opening(Layout(), context == [])
    {
      if context == [] {
        output := output + [StreamStartEvent, DocumentStartEvent(Layout().startMarker)];
      }
    }

    method WriteStartObject()
      modifies this
      ensures context == old(context) + [ObjectContext]
      ensures output == old(output) + Opening(Layout(), old(context) == []) + [MappingStartEvent]
    {
      EnsureDocumentStarted();
      context := context + [ObjectContext];
      output := output + [MappingStartEvent];
    }

    method WriteStartArray()
      modifies this
      ensures context == old(context) + [ArrayContext]
      ensures output == old(output) + Opening(Layout(), old(context) == []) + [SequenceStartEvent]
    {
      EnsureDocumentStarted();
      context := context + [ArrayContext];
      output := output + [SequenceStartEvent];
    }

    /** A key is written only inside an object; elsewhere nothing is
        emitted and the call fails. */
    method WriteKey(name: string) returns (r: Outcome<GenerationError>)
      modifies this`output
      ensures r.Pass? <==> InObjectContext()
      ensures r.Pass? ==> output == old(output) + [KeyEvent(Layout(), name)]
      ensures r.Fail? ==> r.error == NotInObjectContext && output == old(output)
    {
      if !InObjectContext() {
        return Fail(NotInObjectContext);
      }
      output := output + [ScalarEvent(name, StringStyle(Layout().rule, name, NeedToQuoteName(name)))];
      r := Pass;
    }

    method WriteStartObjectNamed(name: string) returns (r: Outcome<GenerationError>)
      modifies this
      ensures r.Pass? <==> old(InObjectContext())
      ensures r.Pass? ==> context == old(context) + [ObjectContext] &&
                          output == old(output) + [KeyEvent(Layout(), name), MappingStartEvent]
      ensures r.Fail? ==> r.error == NotInObjectContext && context == old(context) && output == old(output)
    {
      r := WriteKey(name);
      if r.Pass? {
        context := context + [ObjectContext];
        output := output + [MappingStartEvent];
      }
    }

    method WriteStartArrayNamed(name: string) returns (r: Outcome<GenerationError>)
      modifies this
      ensures r.Pass? <==> old(InObjectContext())
      ensures r.Pass? ==> context == old(context) + [ArrayContext] &&
                          output == old(output) + [KeyEvent(Layout(), name), SequenceStartEvent]
      ensures r.Fail? ==> r.error == NotInObjectContext && context == old(context) && output == old(output)
    {
      r := WriteKey(name);
      if r.Pass? {
        context := context + [ArrayContext];
        output := output + [SequenceStartEvent];
      }
    }

    /** Closes the innermost structure with its end event, and the
        document and stream when it was the outermost; with nothing open
        the call fails and nothing changes. */
    method WriteEnd() returns (r: Outcome<GenerationError>)
      modifies this
      ensures r.Fail? <==> old(context) == []
      ensures r.Fail? ==> r.error == NotInArrayOrObjectContext && context == old(context) && output == old(output)
      ensures r.Pass? ==> context == old(context)[..|old(context)| - 1]
      ensures r.Pass? ==>
                output == old(output) + [EndEvent(old(context)[|old(context)| - 1])] + Closing(Layout(), context == [])
    {
      if context == [] {
        return Fail(NotInArrayOrObjectContext);
      }
      var top := context[|context| - 1];
      context := context[..|context| - 1];
      output := output + [EndEvent(top)];
      if context == [] {
        output := output + [DocumentEndEvent(Layout().endMarker), StreamEndEvent];
      }
      r := Pass;
    }

    /** The typed `write` overloads and `writeNull`: one scalar, whatever
        the context. */
    method WriteArgument(arg: Argument)
      modifies this`output
      ensures output == old(output) + [ArgumentEvent(Layout().rule, writePlainBigDecimal, arg)]
    {
      var e: Emitted;
      match arg {
        case StringArg(t) =>
          e := ScalarEvent(t, StringStyle(Layout().rule, t, NeedToQuoteValue(t)));
        case BigDecimalArg(d) =>
          var text := if writePlainBigDecimal then PlainDecimalText(d) else DecimalText(d);
          e := ScalarEvent(text, Plain);
        case IntegralArg(n) =>
          e := ScalarEvent(LongText(n, 10), Plain);
        case DoubleArg(x) =>
          e := ScalarEvent(DoubleText(x), Plain);
        case BooleanArg(b) =>
          e := ScalarEvent(BooleanText(b), Plain);
        case NullArg =>
          e := ScalarEvent(NullText, Plain);
      }
      output := output + [e];
    }

    /** The named overloads: the key, then the value; a failed key writes
        no value. */
    method WriteNamedArgument(name: string, arg: Argument) returns (r: Outcome<GenerationError>)
      modifies this`output
      ensures r.Pass? <==> InObjectContext()
      ensures r.Pass? ==> output == old(output) + [KeyEvent(Layout(), name), ArgumentEvent(Layout().rule, writePlainBigDecimal, arg)]
      ensures r.Fail? ==> r.error == NotInObjectContext && output == old(output)
    {
      r := WriteKey(name);
      if r.Pass? {
        WriteArgument(arg);
      }
    }

    /** `write(JsonValue)`: the events of the whole value, bracketed by the
        stream and document when the context is empty and the value is a
        structure; the context is as it was. */
    method Write(v: JsonValue)
      modifies this
      ensures context == old(context)
      ensures output == old(output) + ValueTrace(v, Layout(), old(context) == [])
      decreases v, 3
    {
      match v {
        case JNull => WriteArgument(NullArg);
        case JTrue => WriteArgument(BooleanArg(true));
        case JFalse => WriteArgument(BooleanArg(false));
        case JNumber(d) => output := output + [ScalarEvent(DecimalText(d), Plain)];
        case JString(t) => WriteArgument(StringArg(t));
        case JArray(items) => WriteItems(items);
        case JObject(members) => WriteMembers(members);
      }
    }

    /** An array: its start, each item, its end. */
    method WriteItems(items: seq<JsonValue>)
      modifies this
      ensures context == old(context)
      ensures output == old(output) + ValueTrace(JArray(items), Layout(), old(context) == [])
      decreases JArray(items), 2
    {
      ghost var outermost := context == [];
      ghost var before := output;
      WriteStartArray();
      ghost var started := output;
      WriteEach(items);
      ghost var body := output;
      var r := WriteEnd();
      ArrayWritten(before, items, Layout(), outermost, started, body, output);
    }

    method WriteEach(items: seq<JsonValue>)
      modifies this
      requires |context| > 0
      ensures context == old(context)
      ensures output == old(output) + ItemsTrace(items, Layout())
      decreases JArray(items), 1
    {
      var i := 0;
      while i < |items|
        invariant 0 <= i <= |items|
        invariant context == old(context)
        invariant output == old(output) + ItemsTrace(items[..i], Layout())
      {
        Write(items[i]);
        ItemsTracePrefix(old(output), items, i, Layout());
        i := i + 1;
      }
      assert items[..i] == items;
    }

    /** An object: its start, each member, its end. */
    method WriteMembers(members: seq<Member>)
      modifies this
      ensures context == old(context)
      ensures output == old(output) + ValueTrace(JObject(members), Layout(), old(context) == [])
      decreases JObject(members), 2
    {
      ghost var outermost := context == [];
      ghost var before := output;
      WriteStartObject();
      ghost var started := output;
      WriteEachMember(members);
      ghost var body := output;
      var r := WriteEnd();
      ObjectWritten(before, members, Layout(), outermost, started, body, output);
    }

    method WriteEachMember(members: seq<Member>)
      modifies this
      requires InObjectContext()
      ensures context == old(context)
      ensures output == old(output) + MembersTrace(members, Layout())
      decreases JObject(members), 1
    {
      var i := 0;
      while i < |members|
        invariant 0 <= i <= |members|
        invariant context == old(context)
        invariant output == old(output) + MembersTrace(members[..i], Layout())
      {
        var m := members[i];
        var r := WriteNamed(m.key, m.value);
        MembersTracePrefix(old(output), members, i, Layout());
        i := i + 1;
      }
      assert members[..i] == members;
    }

    /** `write(String, JsonValue)`: the key, then the value; a failed key
        writes no value. */
    method WriteNamed(name: string, v: JsonValue) returns (r: Outcome<GenerationError>)
      modifies this
      ensures context == old(context)
      ensures r.Pass? <==> old(InObjectContext())
      ensures r.Pass? ==> output == old(output) + [KeyEvent(Layout(), name)] + ValueTrace(v, Layout(), false)
      ensures r.Fail? ==> r.error == NotInObjectContext && output == old(output)
      decreases v, 4
    {
      r := WriteKey(name);
      if r.Pass? {
        Write(v);
      }
    }

    /** Fails, after closing the output, while a structure is open. */
    method Close() returns (r: Outcome<GenerationError>)
      ensures r.Fail? <==> context != []
      ensures r.Fail? ==> r.error == IncompleteOutput
    {
      r := if context != [] then Fail(IncompleteOutput) else Pass;
    }
  }
}
