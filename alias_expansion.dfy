/** The events captured under an anchor and the bounded count of the
    scalars an alias expands to, the guard against alias bombs. */
module AliasExpansion {
  import opened Wrappers
  import opened Json
  import opened CoreSchema
  import opened RawEvents

  /** A captured event: an alias is kept as the raw event alone, any other
      event with the JSON event, text, number type and number it had when
      it became current. */
  datatype Anchored =
    | AnchoredAlias(raw: RawEvent)
    | AnchoredData(raw: RawEvent, event: JsonEvent, value: string, numberType: NumberType, number: Option<Decimal>)

  /** The events captured for each declared anchor name. */
  type AnchorMap = map<string, seq<Anchored>>

  datatype CountError =
    | MissingAnchor(name: string)  // a nested alias names no declared anchor
    | Diverges(name: string)       // the expansion of `name` reaches `name` again

  /** The scalar count of an alias expansion, cut off at `limit`: the
      captured events are visited in order, a nested alias adds its own
      (cut-off) count, a scalar adds one, and the visit stops as soon as
      the running count reaches the limit, so the result may exceed it.
      `visiting` holds the aliases being expanded on the way here.  The
      recursion has no cycle guard: reaching an alias that is already
      being expanded starts the very same computation again and never
      returns, which is reported as `Diverges`. */
  function CountExpansion(anchors: AnchorMap, alias: string, limit: int, visiting: set<string>): (r: Result<int, CountError>)
    ensures r.Ok? ==> r.value >= 0
    decreases anchors.Keys - visiting, 0
  {
    if alias !in anchors then Err(MissingAnchor(alias))
    else if alias in visiting then Err(Diverges(alias))
    else CountEvents(anchors, anchors[alias], limit, 0, visiting + {alias})
  }

  /** The loop of `CountExpansion` over the remaining captured events,
      with the count so far. */
  function CountEvents(anchors: AnchorMap, events: seq<Anchored>, limit: int, count: int, visiting: set<string>): (r: Result<int, CountError>)
    ensures r.Ok? ==> r.value >= count
    decreases anchors.Keys - visiting, 1, |events|
  {
    if |events| == 0 then Ok(count)
    else
      var raw := events[0].raw;
      var step := if AliasOf(raw).Some? then CountExpansion(anchors, AliasOf(raw).value, limit, visiting)
                  else Ok(if IsScalar(raw) then 1 else 0);
      if step.Err? then Err(step.error)
      else if count + step.value >= limit then Ok(count + step.value)
      else CountEvents(anchors, events[1..], limit, count + step.value, visiting)
  }

  /** The number of scalars an alias expands to, with no cut-off. */
  function FullCount(anchors: AnchorMap, alias: string, visiting: set<string>): (r: Result<nat, CountError>)
    decreases anchors.Keys - visiting, 0
  {
    if alias !in anchors then Err(MissingAnchor(alias))
    else if alias in visiting then Err(Diverges(alias))
    else FullEvents(anchors, anchors[alias], visiting + {alias})
  }

  function FullEvents(anchors: AnchorMap, events: seq<Anchored>, visiting: set<string>): (r: Result<nat, CountError>)
    decreases anchors.Keys - visiting, 1, |events|
  {
    if |events| == 0 then Ok(0)
    else
      var raw := events[0].raw;
      var step := if AliasOf(raw).Some? then FullCount(anchors, AliasOf(raw).value, visiting)
                  else Ok(if IsScalar(raw) then 1 else 0);
      if step.Err? then step
      else
        var rest := FullEvents(anchors, events[1..], visiting);
        if rest.Err? then rest else Ok(step.value + rest.value)
  }

  // ---------------------------------------------------------------------------
  // The cut-off count decides the limit exactly
  // ---------------------------------------------------------------------------

  /** When the full count is defined, the cut-off count stays below the
      limit exactly when the full count does, and then the two agree. */
  lemma {:induction false} CutOffAgrees(anchors: AnchorMap, alias: string, limit: int, visiting: set<string>)
    requires FullCount(anchors, alias, visiting).Ok?
    ensures CountExpansion(anchors, alias, limit, visiting).Ok?
    ensures CountExpansion(anchors, alias, limit, visiting).value < limit <==> FullCount(anchors, alias, visiting).value < limit
    ensures FullCount(anchors, alias, visiting).value < limit ==>
              CountExpansion(anchors, alias, limit, visiting).value == FullCount(anchors, alias, visiting).value
    decreases anchors.Keys - visiting, 0
  {
    CutOffAgreesEvents(anchors, anchors[alias], limit, 0, visiting + {alias});
  }

  lemma {:induction false} CutOffAgreesEvents(anchors: AnchorMap, events: seq<Anchored>, limit: int, count: nat, visiting: set<string>)
    requires FullEvents(anchors, events, visiting).Ok?
    ensures CountEvents(anchors, events, limit, count, visiting).Ok?
    ensures CountEvents(anchors, events, limit, count, visiting).value < limit <==> count + FullEvents(anchors, events, visiting).value < limit
    ensures count + FullEvents(anchors, events, visiting).value < limit ==>
              CountEvents(anchors, events, limit, count, visiting).value == count + FullEvents(anchors, events, visiting).value
    decreases anchors.Keys - visiting, 1, |events|
  {
    if |events| > 0 {
      var raw := events[0].raw;
      if AliasOf(raw).Some? {
        CutOffAgrees(anchors, AliasOf(raw).value, limit, visiting);
      }
      var step := if AliasOf(raw).Some? then CountExpansion(anchors, AliasOf(raw).value, limit, visiting)
                  else Ok(if IsScalar(raw) then 1 else 0);
      if count + step.value < limit {
        CutOffAgreesEvents(anchors, events[1..], limit, count + step.value, visiting);
      }
    }
  }

  /** A cut-off count below the limit is the full count: the expansion was
      visited to the end. */
  lemma {:induction false} BelowLimitIsFull(anchors: AnchorMap, alias: string, limit: int, visiting: set<string>)
    requires CountExpansion(anchors, alias, limit, visiting).Ok?
    requires CountExpansion(anchors, alias, limit, visiting).value < limit
    ensures FullCount(anchors, alias, visiting) == Ok(CountExpansion(anchors, alias, limit, visiting).value)
    decreases anchors.Keys - visiting, 0
  {
    BelowLimitIsFullEvents(anchors, anchors[alias], limit, 0, visiting + {alias});
  }

  lemma {:induction false} BelowLimitIsFullEvents(anchors: AnchorMap, events: seq<Anchored>, limit: int, count: nat, visiting: set<string>)
    requires CountEvents(anchors, events, limit, count, visiting).Ok?
    requires CountEvents(anchors, events, limit, count, visiting).value < limit
    ensures FullEvents(anchors, events, visiting).Ok?
    ensures count + FullEvents(anchors, events, visiting).value == CountEvents(anchors, events, limit, count, visiting).value
    decreases anchors.Keys - visiting, 1, |events|
  {
    if |events| > 0 {
      var raw := events[0].raw;
      var step := if AliasOf(raw).Some? then CountExpansion(anchors, AliasOf(raw).value, limit, visiting)
                  else Ok(if IsScalar(raw) then 1 else 0);
      if AliasOf(raw).Some? {
        BelowLimitIsFull(anchors, AliasOf(raw).value, limit, visiting);
      }
      BelowLimitIsFullEvents(anchors, events[1..], limit, count + step.value, visiting);
    }
  }

  // ---------------------------------------------------------------------------
  // Termination under a ranking of the anchors
  // ---------------------------------------------------------------------------

  /** Every alias captured under an anchor names a declared anchor of
      lower rank: the anchors form no cycle. */
  predicate Ranked(anchors: AnchorMap, rank: string -> nat) {
    forall a, i :: a in anchors && 0 <= i < |anchors[a]| && AliasOf(anchors[a][i].raw).Some? ==>
      AliasOf(anchors[a][i].raw).value in anchors && rank(AliasOf(anchors[a][i].raw).value) < rank(a)
  }

  /** With ranked anchors the full count of every declared alias is
      defined, and so the cut-off count is too. */
  lemma {:induction false} RankedCountIsDefined(anchors: AnchorMap, rank: string -> nat, alias: string, visiting: set<string>)
    requires Ranked(anchors, rank) && alias in anchors
    requires forall v :: v in visiting ==> rank(v) > rank(alias)
    ensures FullCount(anchors, alias, visiting).Ok?
    decreases rank(alias), 1
  {
    RankedEventsAreDefined(anchors, rank, alias, anchors[alias], visiting + {alias});
  }

  lemma {:induction false} RankedEventsAreDefined(anchors: AnchorMap, rank: string -> nat, owner: string, events: seq<Anchored>, visiting: set<string>)
    requires Ranked(anchors, rank) && owner in anchors
    requires forall i :: 0 <= i < |events| ==> events[i] in anchors[owner]
    requires forall v :: v in visiting ==> rank(v) >= rank(owner)
    ensures FullEvents(anchors, events, visiting).Ok?
    decreases rank(owner), 0, |events|
  {
    if |events| > 0 {
      var raw := events[0].raw;
      if AliasOf(raw).Some? {
        var i :| 0 <= i < |anchors[owner]| && anchors[owner][i] == events[0];
        RankedCountIsDefined(anchors, rank, AliasOf(raw).value, visiting);
      }
      RankedEventsAreDefined(anchors, rank, owner, events[1..], visiting);
    }
  }

  // ---------------------------------------------------------------------------
  // Examples
  // ---------------------------------------------------------------------------

  /** Over a capture of `a` that holds an alias of itself and no scalar,
      the count reaches `a` again before any positive limit, where the
      source's recursion would not return.  The parser never counts over
      such a capture: the alias that would close the cycle replays without
      end as soon as it becomes current (ParserState.SelfAliasReplaysForever). */
  lemma SelfReferenceDiverges(limit: int)
    requires limit > 0
    ensures CountExpansion(SelfSequence(), "a", limit, {}) == Err(Diverges("a"))
  {
    var anchors := SelfSequence();
    var events := anchors["a"];
    assert CountEvents(anchors, events[2..], limit, 0, {"a"}) == Ok(0);
    assert CountEvents(anchors, events[1..], limit, 0, {"a"}) == Err(Diverges("a"));
    assert CountEvents(anchors, events, limit, 0, {"a"}) == Err(Diverges("a"));
    var none: set<string> := {};
    assert none + {"a"} == {"a"};
  }

  /** A capture of `a` holding its sequence start, an alias of itself and
      its sequence end. */
  function SelfSequence(): AnchorMap {
    map["a" := [AnchoredData(RawEvent(SequenceStart(Some("a")), None), StartArray, "", NoNumber, None),
                AnchoredAlias(RawEvent(Alias("a"), None)),
                AnchoredData(RawEvent(SequenceEnd, None), EndArray, "", NoNumber, None)]]
  }

  /** A capture of `a` holding its sequence start, a scalar, an alias of
      itself and its sequence end. */
  function SelfSequenceWithScalar(): AnchorMap {
    map["a" := [AnchoredData(RawEvent(SequenceStart(Some("a")), None), StartArray, "", NoNumber, None),
                AnchoredData(RawEvent(Scalar(None, "x", true), None), ValueString, "x", NoNumber, None),
                AnchoredAlias(RawEvent(Alias("a"), None)),
                AnchoredData(RawEvent(SequenceEnd, None), EndArray, "", NoNumber, None)]]
  }

  /** Over a capture of `a` holding a scalar before an alias of itself,
      under a limit of one: the scalar already reaches the limit, so the
      cut-off count stops before the cycle, which the full count does
      not. */
  lemma SelfReferenceStopsAtLimit()
    ensures CountExpansion(SelfSequenceWithScalar(), "a", 1, {}) == Ok(1)
    ensures FullCount(SelfSequenceWithScalar(), "a", {}) == Err(Diverges("a"))
  {
    var anchors := SelfSequenceWithScalar();
    var events := anchors["a"];
    assert CountEvents(anchors, events[1..], 1, 0, {"a"}) == Ok(1);
    assert FullEvents(anchors, events[2..], {"a"}) == Err(Diverges("a"));
    assert FullEvents(anchors, events[1..], {"a"}) == Err(Diverges("a"));
    assert FullEvents(anchors, events, {"a"}) == Err(Diverges("a"));
    var none: set<string> := {};
    assert none + {"a"} == {"a"};
  }
}
