/** The once-only reader and writer: a reader hands out one value pulled
    from its parser, a writer passes one value to its generator, and each
    refuses any further use. */
module ReaderWriter {
  import opened Wrappers
  import opened Json
  import opened JsonBuilder
  import opened Emission
  import opened ParserState
  import opened YamlParsing
  import opened YamlGenerating

  /** Why a read fails: the reader was used or closed already, the parser
      failed, or the value found has the wrong type. */
  datatype ReadError =
    | AlreadyRead
    | ParseFailed(error: ParseError)
    | ExpectedStructure(found: JsonValue)
    | ExpectedObject(found: JsonValue)
    | ExpectedArray(found: JsonValue)

  predicate IsStructure(v: JsonValue) {
    v.JArray? || v.JObject?
  }

  class YamlReader {
    const parser: YamlParser
    var readable: bool

    constructor(parser: YamlParser)
      ensures this.parser == parser && readable
    {
      this.parser := parser;
      readable := true;
    }

    /** `readValue`: once only, advances the parser and builds the value
        starting at the event it reached; the events that value was built
        from are exactly the ones the parser yielded during the call.  A
        parser failure leaves the reader readable. */
    method ReadValue(fuel: nat) returns (r: Result<JsonValue, ReadError>)
      requires parser.Valid()
      modifies this`readable, parser
      ensures |old(parser.history)| <= |parser.history|
      ensures !old(readable) ==> r == Err(AlreadyRead) && !readable && parser.history == old(parser.history)
      ensures r.Err? ==> r.error.AlreadyRead? || r.error.ParseFailed?
      ensures r.Err? && r.error.ParseFailed? ==> readable
      ensures r.Ok? ==> old(readable) && !readable && parser.Valid() &&
                        Materialize(parser.history[|old(parser.history)|..]) == Ok((r.value, []))
    {
      if !readable {
        return Err(AlreadyRead);
      }
      ghost var h0 := parser.history;
      var n := parser.Next();
      if n.Err? {
        return Err(ParseFailed(n.error));
      }
      ghost var first := parser.CurrentToken();
      var v := parser.GetValue(fuel);
      if v.Err? {
        return Err(ParseFailed(v.error));
      }
      assert parser.history[|h0|..] == [first] + parser.history[|h0| + 1..];
      readable := false;
      return Ok(v.value);
    }

    /** `read`: a value that is not an array or an object is refused after
        it was read. */
    method Read(fuel: nat) returns (r: Result<JsonValue, ReadError>)
      requires parser.Valid()
      modifies this`readable, parser
      ensures |old(parser.history)| <= |parser.history|
      ensures !old(readable) ==> r == Err(AlreadyRead) && !readable && parser.history == old(parser.history)
      ensures r.Err? && r.error.ParseFailed? ==> readable
      ensures r.Ok? ==> IsStructure(r.value)
      ensures r.Ok? || (r.Err? && r.error.ExpectedStructure?) ==>
                old(readable) && !readable && parser.Valid() &&
                Materialize(parser.history[|old(parser.history)|..]) == Ok((ReadValueFound(r), []))
      ensures r.Err? && r.error.ExpectedStructure? ==> !IsStructure(r.error.found)
      ensures r.Err? ==> r.error.AlreadyRead? || r.error.ParseFailed? || r.error.ExpectedStructure?
    {
      r := ReadValue(fuel);
      if r.Ok? && !IsStructure(r.value) {
        r := Err(ExpectedStructure(r.value));
      }
    }

    /** `readObject`: `read`, then anything but an object is refused. */
    method ReadObject(fuel: nat) returns (r: Result<JsonValue, ReadError>)
      requires parser.Valid()
      modifies this`readable, parser
      ensures |old(parser.history)| <= |parser.history|
      ensures !old(readable) ==> r == Err(AlreadyRead) && !readable && parser.history == old(parser.history)
      ensures r.Err? && r.error.ParseFailed? ==> readable
      ensures r.Ok? ==> r.value.JObject?
      ensures r.Err? && r.error.ExpectedObject? ==> r.error.found.JArray?
      ensures r.Ok? || (r.Err? && (r.error.ExpectedStructure? || r.error.ExpectedObject?)) ==>
                old(readable) && !readable && parser.Valid() &&
                Materialize(parser.history[|old(parser.history)|..]) == Ok((ReadValueFound(r), []))
      ensures r.Err? ==> !r.error.ExpectedArray?
    {
      r := Read(fuel);
      if r.Ok? && !r.value.JObject? {
        r := Err(ExpectedObject(r.value));
      }
    }

    /** `readArray`: `read`, then anything but an array is refused. */
    method ReadArray(fuel: nat) returns (r: Result<JsonValue, ReadError>)
      requires parser.Valid()
      modifies this`readable, parser
      ensures |old(parser.history)| <= |parser.history|
      ensures !old(readable) ==> r == Err(AlreadyRead) && !readable && parser.history == old(parser.history)
      ensures r.Err? && r.error.ParseFailed? ==> readable
      ensures r.Ok? ==> r.value.JArray?
      ensures r.Err? && r.error.ExpectedArray? ==> r.error.found.JObject?
      ensures r.Ok? || (r.Err? && (r.error.ExpectedStructure? || r.error.ExpectedArray?)) ==>
                old(readable) && !readable && parser.Valid() &&
                Materialize(parser.history[|old(parser.history)|..]) == Ok((ReadValueFound(r), []))
      ensures r.Err? ==> !r.error.ExpectedObject?
    {
      r := Read(fuel);
      if r.Ok? && !r.value.JArray? {
        r := Err(ExpectedArray(r.value));
      }
    }

    /** `close`: closing the parser's source is left to the environment;
        the reader is no longer readable. */
    method Close()
      modifies this`readable
      ensures !readable
    {
      readable := false;
    }
  }

  /** The value a read found: the one returned, or the one refused for its
      type. */
  function ReadValueFound(r: Result<JsonValue, ReadError>): JsonValue {
    if r.Ok? then r.value
    else match r.error
      case ExpectedStructure(v) => v
      case ExpectedObject(v) => v
      case ExpectedArray(v) => v
      case _ => JNull
  }

  /** Why a write fails: the writer was used or closed already. */
  datatype WriteError = AlreadyWritten

  class YamlWriter {
    const generator: YamlGenerator
    var writable: bool

    constructor(generator: YamlGenerator)
      ensures this.generator == generator && writable
    {
      this.generator := generator;
      writable := true;
    }

    /** `write(JsonValue)`: once only; a refused write passes nothing to
        the generator, an accepted one passes the value and then clears
        the flag. */
    method Write(v: JsonValue) returns (r: Outcome<WriteError>)
      modifies this`writable, generator
      ensures r.Fail? <==> !old(writable)
      ensures r.Fail? ==> r.error == AlreadyWritten && generator.output == old(generator.output) && generator.context == old(generator.context)
      ensures !writable
      ensures r.Pass? ==> generator.context == old(generator.context) &&
                          generator.output == old(generator.output) + ValueTrace(v, generator.Layout(), old(generator.context) == [])
    {
      if !writable {
        return Fail(AlreadyWritten);
      }
      generator.Write(v);
      writable := false;
      r := Pass;
    }

    /** `writeArray`, `writeObject` and `write(JsonStructure)` all go
        through the once-only `write`. */
    method WriteArray(items: seq<JsonValue>) returns (r: Outcome<WriteError>)
      modifies this`writable, generator
      ensures r.Fail? <==> !old(writable)
      ensures r.Fail? ==> generator.output == old(generator.output) && generator.context == old(generator.context)
      ensures !writable
      ensures r.Pass? ==> generator.context == old(generator.context) &&
                          generator.output == old(generator.output) + ValueTrace(JArray(items), generator.Layout(), old(generator.context) == [])
    {
      r := Write(JArray(items));
    }

    method WriteObject(members: seq<Member>) returns (r: Outcome<WriteError>)
      modifies this`writable, generator
      ensures r.Fail? <==> !old(writable)
      ensures r.Fail? ==> generator.output == old(generator.output) && generator.context == old(generator.context)
      ensures !writable
      ensures r.Pass? ==> generator.context == old(generator.context) &&
                          generator.output == old(generator.output) + ValueTrace(JObject(members), generator.Layout(), old(generator.context) == [])
    {
      r := Write(JObject(members));
    }

    method WriteStructure(v: JsonValue) returns (r: Outcome<WriteError>)
      requires IsStructure(v)
      modifies this`writable, generator
      ensures r.Fail? <==> !old(writable)
      ensures r.Fail? ==> generator.output == old(generator.output) && generator.context == old(generator.context)
      ensures !writable
      ensures r.Pass? ==> generator.context == old(generator.context) &&
                          generator.output == old(generator.output) + ValueTrace(v, generator.Layout(), old(generator.context) == [])
    {
      r := Write(v);
    }

    /** `close`: closes the generator, and only when that succeeds is the
        writer no longer writable. */
    method Close() returns (r: Outcome<GenerationError>)
      modifies this`writable
      ensures r.Fail? <==> generator.context != []
      ensures r.Fail? ==> r.error == IncompleteOutput && writable == old(writable)
      ensures r.Pass? ==> !writable
    {
      r := generator.Close();
      if r.Pass? {
        writable := false;
      }
    }
  }
}
