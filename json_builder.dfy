/** Materialising the JSON value at the parser's position: a stack of open
    array and object builders fed one event at a time until the value
    that starts at the first event is complete, and the event sequence of
    a value, which it reads back. */
module JsonBuilder {
  import opened Wrappers
  import opened Json

  /** What the builder reads of the parser at each event: the event, the
      string value and the current number. */
  datatype Token = Token(event: JsonEvent, text: string, number: Option<Decimal>)

  /** An open array or object builder with the key it will be stored under
      in its parent (none for an array element or the root). */
  datatype Frame =
    | ArrayFrame(items: seq<JsonValue>, key: Option<string>)
    | ObjectFrame(members: seq<Member>, key: Option<string>)

  /** The open builders (innermost last), the pending key and the finished
      value, set by a value at the root or by the end of the root. */
  datatype Builder = Builder(frames: seq<Frame>, key: Option<string>, result: Option<JsonValue>)

  datatype BuildError =
    | NoSuchElement   // an end event with no open builder
    | ClassCast       // a keyed value for an array or an unkeyed value for an object
    | NullNumber      // a number event with no number
    | NoValue         // no value and no key was read
    | Incomplete      // the events ran out before the value was complete

  const Init: Builder := Builder([], None, None)

  /** Object members in insertion order: an existing key keeps its
      position and takes the new value, a new key is appended. */
  function Put(members: seq<Member>, key: string, value: JsonValue): (r: seq<Member>)
    ensures (exists i :: 0 <= i < |members| && members[i].key == key) ==> |r| == |members|
    ensures (forall i :: 0 <= i < |members| ==> members[i].key != key) ==> r == members + [Member(key, value)]
    ensures Member(key, value) in r
  {
    if |members| == 0 then [Member(key, value)]
    else if members[0].key == key then [Member(key, value)] + members[1..]
    else [members[0]] + Put(members[1..], key, value)
  }

  /** A finished array or object. */
  function Close(f: Frame): JsonValue {
    match f
    case ArrayFrame(items, _) => JArray(items)
    case ObjectFrame(members, _) => JObject(members)
  }

  /** Adds a value to a builder: with a key it must be an object builder,
      without one an array builder. */
  function AddValue(f: Frame, key: Option<string>, v: JsonValue): (r: Result<Frame, BuildError>)
    ensures r.Ok? <==> (key.Some? <==> f.ObjectFrame?)
    ensures r.Ok? ==> r.value.key == f.key && r.value.ArrayFrame? == f.ArrayFrame?
  {
    match f
    case ArrayFrame(items, k) => if key.None? then Ok(ArrayFrame(items + [v], k)) else Err(ClassCast)
    case ObjectFrame(members, k) => if key.Some? then Ok(ObjectFrame(Put(members, key.value, v), k)) else Err(ClassCast)
  }

  /** The value of a scalar event. */
  function ParsedValue(t: Token): (r: Result<JsonValue, BuildError>)
    requires IsValueEvent(t.event)
    ensures r.Err? <==> t.event == ValueNumber && t.number.None?
  {
    match t.event
    case ValueTrue => Ok(JTrue)
    case ValueFalse => Ok(JFalse)
    case ValueNull => Ok(JNull)
    case ValueNumber => if t.number.Some? then Ok(JNumber(t.number.value)) else Err(NullNumber)
    case ValueString => Ok(JString(t.text))
  }

  /** One turn of the materialising loop. */
  function Step(b: Builder, t: Token): (r: Result<Builder, BuildError>)
    ensures r.Ok? && IsStartEvent(t.event) ==> |r.value.frames| == |b.frames| + 1
    ensures r.Ok? && IsEndEvent(t.event) ==> |r.value.frames| == |b.frames| - 1
    ensures r.Ok? && !IsStartEvent(t.event) && !IsEndEvent(t.event) ==> |r.value.frames| == |b.frames|
    ensures IsEndEvent(t.event) && |b.frames| == 0 ==> r == Err(NoSuchElement)
  {
    match t.event
    case KeyName => Ok(b.(key := Some(t.text)))
    case StartArray => Ok(Builder(b.frames + [ArrayFrame([], b.key)], None, b.result))
    case StartObject => Ok(Builder(b.frames + [ObjectFrame([], b.key)], None, b.result))
    case EndArray => EndStructure(b)
    case EndObject => EndStructure(b)
    case _ => AddScalar(b, ParsedValue(t))
  }

  /** A scalar becomes the result at the root, or is added to the
      innermost builder under the pending key, which is then cleared. */
  function AddScalar(b: Builder, v: Result<JsonValue, BuildError>): (r: Result<Builder, BuildError>)
    ensures r.Ok? ==> |r.value.frames| == |b.frames|
  {
    if v.Err? then Err(v.error)
    else if |b.frames| == 0 then Ok(Builder([], None, Some(v.value)))
    else
      var top := AddValue(b.frames[|b.frames| - 1], b.key, v.value);
      if top.Err? then Err(top.error)
      else Ok(Builder(b.frames[..|b.frames| - 1] + [top.value], None, b.result))
  }

  /** Closes the innermost builder: the root's value becomes the result,
      any other is added to its parent under the key it was opened with.
      The pending key is left as it is. */
  function EndStructure(b: Builder): (r: Result<Builder, BuildError>)
    ensures r.Ok? ==> |r.value.frames| == |b.frames| - 1
    ensures |b.frames| == 0 ==> r == Err(NoSuchElement)
  {
    if |b.frames| == 0 then Err(NoSuchElement)
    else
      var closed := b.frames[|b.frames| - 1];
      var rest := b.frames[..|b.frames| - 1];
      if |rest| == 0 then Ok(Builder([], b.key, Some(Close(closed))))
      else
        var parent := AddValue(rest[|rest| - 1], closed.key, Close(closed));
        if parent.Err? then Err(parent.error)
        else Ok(Builder(rest[..|rest| - 1] + [parent.value], b.key, b.result))
  }

  /** A finished builder and the events after the ones it consumed. */
  datatype Run = Run(builder: Builder, rest: seq<Token>)

  /** The loop: feeds events while a builder is open, and stops after the
      first event that leaves none open. */
  function Feed(b: Builder, tokens: seq<Token>): (r: Result<Run, BuildError>)
    ensures r.Ok? ==> |r.value.builder.frames| == 0 && |r.value.rest| < |tokens|
    decreases |tokens|
  {
    if |tokens| == 0 then Err(Incomplete)
    else
      var s := Step(b, tokens[0]);
      if s.Err? then Err(s.error)
      else if |s.value.frames| == 0 then Ok(Run(s.value, tokens[1..]))
      else Feed(s.value, tokens[1..])
  }

  /** The value once the loop has stopped: the root structure or root
      value if there is one, else the key read at a `KEY_NAME`. */
  function Finish(b: Builder): Result<JsonValue, BuildError> {
    if b.result.Some? then Ok(b.result.value)
    else if b.key.Some? then Ok(JString(b.key.value))
    else Err(NoValue)
  }

  /** The value that starts at the first event, and the events after it. */
  function Materialize(tokens: seq<Token>): (r: Result<(JsonValue, seq<Token>), BuildError>)
    ensures r.Ok? ==> |r.value.1| < |tokens|
  {
    var run := Feed(Init, tokens);
    if run.Err? then Err(run.error)
    else
      var v := Finish(run.value.builder);
      if v.Err? then Err(v.error) else Ok((v.value, run.value.rest))
  }

  // ---------------------------------------------------------------------------
  // The events of a value, and reading them back
  // ---------------------------------------------------------------------------

  /** The events a parser yields for a value. */
  function Events(v: JsonValue): (r: seq<Token>)
    ensures |r| > 0
    decreases v, 1
  {
    match v
    case JNull => [Token(ValueNull, "", None)]
    case JTrue => [Token(ValueTrue, "", None)]
    case JFalse => [Token(ValueFalse, "", None)]
    case JNumber(d) => [Token(ValueNumber, "", Some(d))]
    case JString(s) => [Token(ValueString, s, None)]
    case JArray(items) => [Token(StartArray, "", None)] + ItemEvents(items) + [Token(EndArray, "", None)]
    case JObject(members) => [Token(StartObject, "", None)] + MemberEvents(members) + [Token(EndObject, "", None)]
  }

  function ItemEvents(items: seq<JsonValue>): seq<Token>
    decreases items, 0
  {
    if |items| == 0 then [] else ItemEvents(items[..|items| - 1]) + Events(items[|items| - 1])
  }

  function MemberEvents(members: seq<Member>): seq<Token>
    decreases members, 0
  {
    if |members| == 0 then []
    else MemberEvents(members[..|members| - 1]) + [Token(KeyName, members[|members| - 1].key, None)] + Events(members[|members| - 1].value)
  }

  /** No object repeats a key, at any depth. */
  predicate UniqueKeys(v: JsonValue)
    decreases v
  {
    match v
    case JArray(items) => forall i :: 0 <= i < |items| ==> UniqueKeys(items[i])
    case JObject(members) =>
      (forall i, j :: 0 <= i < j < |members| ==> members[i].key != members[j].key) &&
      (forall i :: 0 <= i < |members| ==> UniqueKeys(members[i].value))
    case _ => true
  }

  /** No key of `a` is a key of `b`. */
  predicate KeysDisjoint(a: seq<Member>, b: seq<Member>) {
    forall i, j :: 0 <= i < |a| && 0 <= j < |b| ==> a[i].key != b[j].key
  }

  /** The key of the last member appears neither earlier in the members
      nor among the keys already present. */
  lemma LastKeyIsFresh(present: seq<Member>, members: seq<Member>, all: seq<Member>)
    requires |members| > 0 && KeysDisjoint(present, members)
    requires forall i, j :: 0 <= i < j < |members| ==> members[i].key != members[j].key
    requires all == present + members[..|members| - 1]
    ensures forall i :: 0 <= i < |all| ==> all[i].key != members[|members| - 1].key
  {
    forall i | 0 <= i < |all| ensures all[i].key != members[|members| - 1].key {
      if i >= |present| {
        assert all[i] == members[i - |present|];
      }
    }
  }

  /** The pending key suits the innermost builder. */
  predicate KeyFits(b: Builder) {
    |b.frames| > 0 && (b.key.Some? <==> b.frames[|b.frames| - 1].ObjectFrame?)
  }

  /** The builder after `v` was added to its innermost frame. */
  function Added(b: Builder, v: JsonValue): Builder
    requires KeyFits(b)
  {
    Builder(b.frames[..|b.frames| - 1] + [AddValue(b.frames[|b.frames| - 1], b.key, v).value], None, b.result)
  }

  /** Inside an open builder, the events of a value add that value to the
      innermost builder under the pending key and go on with the rest. */
  lemma {:induction false} FeedValue(b: Builder, v: JsonValue, rest: seq<Token>)
    requires KeyFits(b) && UniqueKeys(v)
    ensures Feed(b, Events(v) + rest) == Feed(Added(b, v), rest)
    decreases v, 2
  {
    match v
    case JArray(items) => FeedArray(b, items, rest);
    case JObject(members) => FeedObject(b, members, rest);
    case _ =>
      var t := Events(v)[0];
      assert Events(v) + rest == [t] + rest;
      assert Step(b, t) == Ok(Added(b, v));
  }

  lemma {:induction false} FeedArray(b: Builder, items: seq<JsonValue>, rest: seq<Token>)
    requires KeyFits(b) && UniqueKeys(JArray(items))
    ensures Feed(b, Events(JArray(items)) + rest) == Feed(Added(b, JArray(items)), rest)
    decreases JArray(items), 1
  {
    var start, end := Token(StartArray, "", None), Token(EndArray, "", None);
    var open := Builder(b.frames + [ArrayFrame([], b.key)], None, b.result);
    var tail := ItemEvents(items) + ([end] + rest);
    assert Events(JArray(items)) + rest == [start] + tail;
    FeedOne(b, start, tail);
    FeedItems(open, items, [end] + rest);
    CloseArray(b, items, rest);
  }

  /** The end event of a filled array adds it to the frame below. */
  lemma CloseArray(b: Builder, items: seq<JsonValue>, rest: seq<Token>)
    requires KeyFits(b)
    ensures Feed(AddItems(Builder(b.frames + [ArrayFrame([], b.key)], None, b.result), items), [Token(EndArray, "", None)] + rest) ==
            Feed(Added(b, JArray(items)), rest)
  {
    OpenItems(b.frames, b.key, b.result, items);
    CloseFilled(b, ArrayFrame(items, b.key));
    FeedOne(Builder(b.frames + [ArrayFrame(items, b.key)], None, b.result), Token(EndArray, "", None), rest);
  }

  lemma {:induction false} FeedObject(b: Builder, members: seq<Member>, rest: seq<Token>)
    requires KeyFits(b) && UniqueKeys(JObject(members))
    ensures Feed(b, Events(JObject(members)) + rest) == Feed(Added(b, JObject(members)), rest)
    decreases JObject(members), 1
  {
    var start, end := Token(StartObject, "", None), Token(EndObject, "", None);
    var open := Builder(b.frames + [ObjectFrame([], b.key)], None, b.result);
    var tail := MemberEvents(members) + ([end] + rest);
    assert Events(JObject(members)) + rest == [start] + tail;
    FeedOne(b, start, tail);
    FeedMembers(open, members, [end] + rest);
    CloseObject(b, members, rest);
  }

  /** The end event of a filled object adds it to the frame below. */
  lemma CloseObject(b: Builder, members: seq<Member>, rest: seq<Token>)
    requires KeyFits(b)
    ensures Feed(AddMembers(Builder(b.frames + [ObjectFrame([], b.key)], None, b.result), members), [Token(EndObject, "", None)] + rest) ==
            Feed(Added(b, JObject(members)), rest)
  {
    OpenMembers(b.frames, b.key, b.result, members);
    CloseFilled(b, ObjectFrame(members, b.key));
    FeedOne(Builder(b.frames + [ObjectFrame(members, b.key)], None, b.result), Token(EndObject, "", None), rest);
  }

  /** An event that leaves a builder open hands the rest to the loop. */
  lemma FeedOne(b: Builder, t: Token, tail: seq<Token>)
    requires Step(b, t).Ok? && |Step(b, t).value.frames| > 0
    ensures Feed(b, [t] + tail) == Feed(Step(b, t).value, tail)
  {
    assert ([t] + tail)[1..] == tail;
  }

  /** The loop of `getJsonValue` reads one more event: what was fed from
      the start is what the builder after this step is still to be fed. */
  lemma FeedShift(b: Builder, seen: seq<Token>, t: Token, next: Token)
    requires Step(b, t).Ok? && |Step(b, t).value.frames| > 0
    requires forall rest: seq<Token> :: Feed(Init, seen + [t] + rest) == Feed(b, [t] + rest)
    ensures forall rest: seq<Token> :: Feed(Init, seen + [t] + [next] + rest) == Feed(Step(b, t).value, [next] + rest)
  {
    forall rest: seq<Token> ensures Feed(Init, seen + [t] + [next] + rest) == Feed(Step(b, t).value, [next] + rest) {
      assert seen + [t] + [next] + rest == seen + [t] + ([next] + rest);
      FeedOne(b, t, [next] + rest);
    }
  }

  lemma OpenItems(frames: seq<Frame>, key: Option<string>, result: Option<JsonValue>, items: seq<JsonValue>)
    ensures AddItems(Builder(frames + [ArrayFrame([], key)], None, result), items) == Builder(frames + [ArrayFrame(items, key)], None, result)
  {
    assert (frames + [ArrayFrame([], key)])[..|frames|] == frames;
    assert [] + items == items;
  }

  lemma OpenMembers(frames: seq<Frame>, key: Option<string>, result: Option<JsonValue>, members: seq<Member>)
    ensures AddMembers(Builder(frames + [ObjectFrame([], key)], None, result), members) == Builder(frames + [ObjectFrame(members, key)], None, result)
  {
    assert (frames + [ObjectFrame([], key)])[..|frames|] == frames;
    assert [] + members == members;
  }

  /** Ending a filled frame opened under the pending key adds its value to
      the frame below. */
  lemma CloseFilled(b: Builder, f: Frame)
    requires KeyFits(b) && f.key == b.key
    ensures EndStructure(Builder(b.frames + [f], None, b.result)) == Ok(Added(b, Close(f)))
  {
    assert (b.frames + [f])[..|b.frames|] == b.frames;
  }

  /** The open array builder after the items were added. */
  function AddItems(b: Builder, items: seq<JsonValue>): Builder
    requires |b.frames| > 0 && b.frames[|b.frames| - 1].ArrayFrame?
  {
    var top := b.frames[|b.frames| - 1];
    b.(frames := b.frames[..|b.frames| - 1] + [ArrayFrame(top.items + items, top.key)], key := None)
  }

  /** The open object builder after the members were added. */
  function AddMembers(b: Builder, members: seq<Member>): Builder
    requires |b.frames| > 0 && b.frames[|b.frames| - 1].ObjectFrame?
  {
    var top := b.frames[|b.frames| - 1];
    b.(frames := b.frames[..|b.frames| - 1] + [ObjectFrame(top.members + members, top.key)], key := None)
  }

  lemma AddNoItems(b: Builder)
    requires |b.frames| > 0 && b.frames[|b.frames| - 1].ArrayFrame?
    ensures AddItems(b, []) == b.(key := None)
  {
    var top := b.frames[|b.frames| - 1];
    assert top.items + [] == top.items;
    assert b.frames[..|b.frames| - 1] + [top] == b.frames;
  }

  lemma AddOneItem(b: Builder, init: seq<JsonValue>, last: JsonValue)
    requires |b.frames| > 0 && b.frames[|b.frames| - 1].ArrayFrame?
    ensures KeyFits(AddItems(b, init))
    ensures Added(AddItems(b, init), last) == AddItems(b, init + [last])
  {
    var top := b.frames[|b.frames| - 1];
    var mid := AddItems(b, init);
    assert mid.frames[..|mid.frames| - 1] == b.frames[..|b.frames| - 1];
    assert top.items + init + [last] == top.items + (init + [last]);
  }

  lemma AddNoMembers(b: Builder)
    requires |b.frames| > 0 && b.frames[|b.frames| - 1].ObjectFrame?
    ensures AddMembers(b, []) == b.(key := None)
  {
    var top := b.frames[|b.frames| - 1];
    assert top.members + [] == top.members;
    assert b.frames[..|b.frames| - 1] + [top] == b.frames;
  }

  lemma AddOneMember(b: Builder, init: seq<Member>, last: Member, all: seq<Member>)
    requires |b.frames| > 0 && b.frames[|b.frames| - 1].ObjectFrame?
    requires all == b.frames[|b.frames| - 1].members + init
    requires forall i :: 0 <= i < |all| ==> all[i].key != last.key
    ensures KeyFits(AddMembers(b, init).(key := Some(last.key)))
    ensures Added(AddMembers(b, init).(key := Some(last.key)), last.value) == AddMembers(b, init + [last])
  {
    var top := b.frames[|b.frames| - 1];
    var mid := AddMembers(b, init);
    assert mid.frames[..|mid.frames| - 1] == b.frames[..|b.frames| - 1];
    assert Put(top.members + init, last.key, last.value) == top.members + init + [last];
    assert top.members + init + [last] == top.members + (init + [last]);
  }

  lemma {:induction false} FeedItems(b: Builder, items: seq<JsonValue>, rest: seq<Token>)
    requires |b.frames| > 0 && b.frames[|b.frames| - 1].ArrayFrame? && b.key.None?
    requires forall i :: 0 <= i < |items| ==> UniqueKeys(items[i])
    ensures Feed(b, ItemEvents(items) + rest) == Feed(AddItems(b, items), rest)
    decreases items, 0
  {
    if |items| == 0 {
      AddNoItems(b);
      assert ItemEvents(items) + rest == rest;
    } else {
      var init, last := items[..|items| - 1], items[|items| - 1];
      assert ItemEvents(items) + rest == ItemEvents(init) + (Events(last) + rest);
      FeedItems(b, init, Events(last) + rest);
      FeedItem(b, items, rest);
    }
  }

  /** After the items before it, an item's events add that item. */
  lemma {:induction false} FeedItem(b: Builder, items: seq<JsonValue>, rest: seq<Token>)
    requires |b.frames| > 0 && b.frames[|b.frames| - 1].ArrayFrame? && |items| > 0
    requires UniqueKeys(items[|items| - 1])
    ensures Feed(AddItems(b, items[..|items| - 1]), Events(items[|items| - 1]) + rest) == Feed(AddItems(b, items), rest)
    decreases items[|items| - 1], 3
  {
    var init, last := items[..|items| - 1], items[|items| - 1];
    assert init + [last] == items;
    AddOneItem(b, init, last);
    FeedValue(AddItems(b, init), last, rest);
  }

  lemma {:induction false} FeedMembers(b: Builder, members: seq<Member>, rest: seq<Token>)
    requires |b.frames| > 0 && b.frames[|b.frames| - 1].ObjectFrame? && b.key.None?
    requires forall i :: 0 <= i < |members| ==> UniqueKeys(members[i].value)
    requires forall i, j :: 0 <= i < j < |members| ==> members[i].key != members[j].key
    requires KeysDisjoint(b.frames[|b.frames| - 1].members, members)
    ensures Feed(b, MemberEvents(members) + rest) == Feed(AddMembers(b, members), rest)
    decreases members, 0
  {
    if |members| == 0 {
      AddNoMembers(b);
      assert MemberEvents(members) + rest == rest;
    } else {
      var present := b.frames[|b.frames| - 1].members;
      var init, last := members[..|members| - 1], members[|members| - 1];
      var keyToken := Token(KeyName, last.key, None);
      assert MemberEvents(members) + rest == MemberEvents(init) + ([keyToken] + (Events(last.value) + rest));
      assert KeysDisjoint(present, init);
      FeedMembers(b, init, [keyToken] + (Events(last.value) + rest));
      LastKeyIsFresh(present, members, present + init);
      FeedMember(b, members, rest);
    }
  }

  /** After the members before it, a member's key and value events add
      that member, its key being fresh. */
  lemma {:induction false} FeedMember(b: Builder, members: seq<Member>, rest: seq<Token>)
    requires |b.frames| > 0 && b.frames[|b.frames| - 1].ObjectFrame? && |members| > 0
    requires UniqueKeys(members[|members| - 1].value)
    requires var all := b.frames[|b.frames| - 1].members + members[..|members| - 1];
             forall i :: 0 <= i < |all| ==> all[i].key != members[|members| - 1].key
    ensures var last := members[|members| - 1];
            Feed(AddMembers(b, members[..|members| - 1]), [Token(KeyName, last.key, None)] + (Events(last.value) + rest)) ==
            Feed(AddMembers(b, members), rest)
    decreases members[|members| - 1].value, 3
  {
    var init, last := members[..|members| - 1], members[|members| - 1];
    assert init + [last] == members;
    var mid := AddMembers(b, init);
    FeedOne(mid, Token(KeyName, last.key, None), Events(last.value) + rest);
    AddOneMember(b, init, last, b.frames[|b.frames| - 1].members + init);
    FeedValue(mid.(key := Some(last.key)), last.value, rest);
  }

  /** Reading back the events of a value with unique keys yields that
      value and stops right after its last event. */
  lemma MaterializeEvents(v: JsonValue, rest: seq<Token>)
    requires UniqueKeys(v)
    ensures Materialize(Events(v) + rest) == Ok((v, rest))
  {
    match v
    case JArray(items) => MaterializeArray(items, rest);
    case JObject(members) => MaterializeObject(members, rest);
    case _ => assert Events(v) + rest == [Events(v)[0]] + rest;
  }

  lemma MaterializeArray(items: seq<JsonValue>, rest: seq<Token>)
    requires UniqueKeys(JArray(items))
    ensures Feed(Init, Events(JArray(items)) + rest) == Ok(Run(Builder([], None, Some(JArray(items))), rest))
  {
    var start, end := Token(StartArray, "", None), Token(EndArray, "", None);
    var tail := ItemEvents(items) + ([end] + rest);
    assert Events(JArray(items)) + rest == [start] + tail;
    assert Init.frames + [ArrayFrame([], None)] == [ArrayFrame([], None)];
    FeedOne(Init, start, tail);
    FeedItems(Builder([ArrayFrame([], None)], None, None), items, [end] + rest);
    OpenItems([], None, None, items);
    assert ([] + [ArrayFrame(items, None)]) == [ArrayFrame(items, None)];
    assert ([end] + rest)[1..] == rest;
  }

  lemma MaterializeObject(members: seq<Member>, rest: seq<Token>)
    requires UniqueKeys(JObject(members))
    ensures Feed(Init, Events(JObject(members)) + rest) == Ok(Run(Builder([], None, Some(JObject(members))), rest))
  {
    var start, end := Token(StartObject, "", None), Token(EndObject, "", None);
    var tail := MemberEvents(members) + ([end] + rest);
    assert Events(JObject(members)) + rest == [start] + tail;
    assert Init.frames + [ObjectFrame([], None)] == [ObjectFrame([], None)];
    FeedOne(Init, start, tail);
    FeedMembers(Builder([ObjectFrame([], None)], None, None), members, [end] + rest);
    OpenMembers([], None, None, members);
    assert ([] + [ObjectFrame(members, None)]) == [ObjectFrame(members, None)];
    assert ([end] + rest)[1..] == rest;
  }

  /** At a key, the value is the key itself as a string, and nothing
      after the key is read. */
  lemma MaterializeKey(key: string, rest: seq<Token>)
    ensures Materialize([Token(KeyName, key, None)] + rest) == Ok((JString(key), rest))
  {
    assert ([Token(KeyName, key, None)] + rest)[1..] == rest;
  }

  /** An end event first has no open builder to close. */
  lemma MaterializeAtEnd(t: Token, rest: seq<Token>)
    requires IsEndEvent(t.event)
    ensures Materialize([t] + rest) == Err(NoSuchElement)
  {
  }
  /** While a builder is open the root frame keeps its kind and no result
      is set; once the loop stops, the result is the closed root. */
  lemma {:induction false} FeedKeepsRoot(b: Builder, tokens: seq<Token>)
    requires |b.frames| > 0 && b.result.None?
    requires Feed(b, tokens).Ok?
    ensures Feed(b, tokens).value.builder.result.Some?
    ensures Feed(b, tokens).value.builder.result.value.JArray? <==> b.frames[0].ArrayFrame?
    ensures Feed(b, tokens).value.builder.result.value.JObject? <==> b.frames[0].ObjectFrame?
    decreases |tokens|
  {
    var s := Step(b, tokens[0]).value;
    if |s.frames| > 0 {
      StepKeepsRoot(b, tokens[0]);
      FeedKeepsRoot(s, tokens[1..]);
    } else {
      assert IsEndEvent(tokens[0].event);
    }
  }

  /** One event on an open builder: if builders stay open the root frame
      keeps its kind and no result is set; if none stays open, the result
      is the closed root. */
  lemma StepKeepsRoot(b: Builder, t: Token)
    requires |b.frames| > 0 && b.result.None? && Step(b, t).Ok?
    ensures |Step(b, t).value.frames| > 0 ==>
              Step(b, t).value.result.None? && Step(b, t).value.frames[0].ArrayFrame? == b.frames[0].ArrayFrame?
    ensures |Step(b, t).value.frames| == 0 ==>
              Step(b, t).value.result == Some(Close(b.frames[0]))
  {
  }

  /** `getObject` and `getArray`: a value materialised from a start event
      is an object or an array accordingly, so their casts cannot fail. */
  lemma MaterializeKeepsKind(tokens: seq<Token>)
    requires |tokens| > 0 && IsStartEvent(tokens[0].event)
    requires Materialize(tokens).Ok?
    ensures tokens[0].event == StartObject ==> Materialize(tokens).value.0.JObject?
    ensures tokens[0].event == StartArray ==> Materialize(tokens).value.0.JArray?
  {
    var b := Step(Init, tokens[0]).value;
    FeedKeepsRoot(b, tokens[1..]);
  }
}
