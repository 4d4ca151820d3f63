/** The JSON side of the translation: the events of a JSON pull parser,
    arbitrary-precision decimal numbers and materialised JSON values. */
module Json {

  /** Events of a JSON pull parser. */
  datatype JsonEvent =
    | StartArray | StartObject | KeyName
    | ValueString | ValueNumber | ValueTrue | ValueFalse | ValueNull
    | EndObject | EndArray

  /** The five events that carry a scalar value. */
  predicate IsValueEvent(e: JsonEvent) {
    e == ValueString || e == ValueNumber || e == ValueTrue || e == ValueFalse || e == ValueNull
  }

  predicate IsStartEvent(e: JsonEvent) { e == StartArray || e == StartObject }

  predicate IsEndEvent(e: JsonEvent) { e == EndArray || e == EndObject }

  /** An arbitrary-precision decimal number: `unscaled` times ten to the
      power of minus `scale`. */
  datatype Decimal = Decimal(unscaled: int, scale: int)

  /** The placeholder number queued with events that carry none: zero
      with scale 0. */
  const Unset: Decimal := Decimal(0, 0)

  /** A materialised JSON value.  An object keeps its members in
      insertion order. */
  datatype JsonValue =
    | JNull
    | JTrue
    | JFalse
    | JNumber(number: Decimal)
    | JString(text: string)
    | JArray(items: seq<JsonValue>)
    | JObject(members: seq<Member>)

  datatype Member = Member(key: string, value: JsonValue)
}
