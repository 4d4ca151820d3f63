/** The raw YAML events both parsers consume, reduced to what the
    translation layer reads from them: the event kind, the anchor of a
    node event, the anchor an alias refers to, the scalar text and plain
    flag, and the start mark. */
module RawEvents {
  import opened Wrappers

  /** A position in the YAML text, all zero-based. */
  datatype Mark = Mark(line: int, column: int, index: int)

  datatype RawKind =
    | StreamStart
    | StreamEnd
    | DocumentStart
    | DocumentEnd
    | SequenceStart(anchor: Option<string>)
    | SequenceEnd
    | MappingStart(anchor: Option<string>)
    | MappingEnd
    | Scalar(anchor: Option<string>, text: string, plain: bool)
    | Alias(target: string)
    | Unknown(id: string)  // an event identifier the translation does not know

  datatype RawEvent = RawEvent(kind: RawKind, mark: Option<Mark>)

  /** The anchor a node event declares; an alias never declares one. */
  function AnchorOf(e: RawEvent): (r: Option<string>)
    ensures r.Some? ==> e.kind.SequenceStart? || e.kind.MappingStart? || e.kind.Scalar?
  {
    match e.kind
    case SequenceStart(a) => a
    case MappingStart(a) => a
    case Scalar(a, _, _) => a
    case _ => None
  }

  /** The anchor an alias event refers to; every other event has none. */
  function AliasOf(e: RawEvent): (r: Option<string>)
    ensures r.Some? <==> e.kind.Alias?
  {
    if e.kind.Alias? then Some(e.kind.target) else None
  }

  predicate IsScalar(e: RawEvent) { e.kind.Scalar? }
}
