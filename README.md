# yaml-json core, modelled in Dafny

yaml-json implements the Jakarta JSON Processing streaming API over YAML:

- a parser turns YAML events into JSON parser events;
- a generator turns JSON generator calls into YAML events;
- a reader and a writer use each of them once.

This project models the core of that library and proves properties of the model.

**Scalar resolution** (`YamlNumbers`, `CoreSchema`, `NumberParsing`):

- the character-level integer, float, octal and hexadecimal checks;
- the first-character dispatch that resolves a plain scalar to null, true, false, a number or a string. It is proved equal to a reference resolution.
- the parsing of number text into an exact decimal;
- the narrowing of decimals to `long` and `int`.

**Quoting** (`StringQuoting`): the checks that decide whether a map key or a string value would be misread if it were written unquoted.

**The parser** (`YamlParsing.YamlParser`, over `ParserState`, `AliasExpansion` and `JsonBuilder`) is a class whose fields are the parser's own state:

- the queue of pending events, with the current event, text and number;
- the depth, the stack of open structures and the key flag of each mapping level;
- the events captured under each anchor, and the anchors open at each depth.

Each method states its new state in terms of functions of the old one. Those functions carry the properties:

- a mapping level alternates between keys and values;
- an anchor's capture grows by one copy per enclosing declaration;
- an alias replays its anchor's events in order;
- the expansion count agrees with its uncut version below the limit;
- `skip` stops on the end of the structure it leaves;
- `getJsonValue` builds the value that the events it read materialise to.

`AbstractParsing.AbstractYamlParser` is the older revision, which has no anchors or aliases.

**The generators** (`YamlGenerating.YamlGenerator`, `AbstractGenerating.AbstractYamlGenerator`, `Generating11.YamlGenerator1_1`) are classes holding:

- the stack of open contexts;
- the sequence of YAML events emitted, so far.

Every write method states the events it emits and the context it leaves, including its failure cases. `write(JsonValue)` emits exactly the trace computed by `Emission.ValueTrace`.

**The reader and writer** (`ReaderWriter`): the once-only `YamlReader` and `YamlWriter`.

**Reading back** (`ReadingBack`): for values with unique keys, whose numbers are long-sized integers and whose strings read back, the JSON events the parser yields for the generator's output rebuild the value written.

The YAML tokenizer and emitter are not modelled:

- what the parser consumes is a sequence of raw YAML events (`RawEvents`), each with its anchor, its scalar text and plain flag, and its start mark. Tags are not modelled;
- what the generators produce is a sequence of YAML events (`Emission.Emitted`).

## Model

| member | source | states |
|---|---|---|
| YamlNumbers.IsInteger | src/main/java/io/xlate/yamljson/YamlNumbers.java:28-62 | For non-empty text: true exactly when every character after an optional single leading `+`/`-` is an ASCII digit, so a lone sign passes |
| YamlNumbers.IsFloat | src/main/java/io/xlate/yamljson/YamlNumbers.java:64-112 | True exactly when the text uses only digits, `e`, `E`, signs and `.`; has at most one exponent marker; has a sign only first or right after `e`/`E`; and has at most one `.`, none after the exponent. No digit is required |
| YamlNumbers.ValidSign | src/main/java/io/xlate/yamljson/YamlNumbers.java:114-122 | A sign is acceptable exactly at index 0 or directly after `e`/`E` |
| YamlNumbers.ValidDecimalSymbol | src/main/java/io/xlate/yamljson/YamlNumbers.java:124-126 | A `.` is acceptable exactly when it is the first one and no exponent marker precedes it |
| YamlNumbers.FloatPrefixStep | src/main/java/io/xlate/yamljson/YamlNumbers.java:71-111 | Each scanned character extends the float conditions exactly as the loop's checks do: character class, second exponent, sign position, point position |
| YamlNumbers.FloatPrefixBroken | src/main/java/io/xlate/yamljson/YamlNumbers.java:71-111 | A prefix that breaks a float condition breaks it for every longer prefix, which is what makes the early return sound |
| YamlNumbers.IsOctal | src/main/java/io/xlate/yamljson/YamlNumbers.java:128-152 | True exactly for `0o` followed by at least one digit 0-7 and nothing else |
| YamlNumbers.IsHexadecimal | src/main/java/io/xlate/yamljson/YamlNumbers.java:154-192 | True exactly for lower-case `0x` followed by at least one hexadecimal digit of either case and nothing else |
| YamlNumbers.IntegerIsFloat | src/main/java/io/xlate/yamljson/YamlNumbers.java:28-112 | Every non-empty text the integer check accepts, the float check accepts too |
| YamlNumbers.LoneSignIsInteger | src/main/java/io/xlate/yamljson/YamlNumbers.java:28-62 | `+` and `-` on their own pass the integer check |
| YamlNumbers.IntegerTextCharacterisation | src/main/java/io/xlate/yamljson/YamlNumbers.java:28-62 | Integer text is exactly an optional one-character sign followed by digits |
| YamlNumbers.RejectedExamples | src/main/java/io/xlate/yamljson/YamlNumbers.java:85-103 | `.00e5e6`, `-.00e-5+6`, `-.00.6` and `1e1.6` are not floats; `0o` and `0o0Z` are not octal; `0x` and `0x0Z` are not hexadecimal |
| YamlNumbers.AcceptedIntegerExamples | src/main/java/io/xlate/yamljson/YamlNumbers.java:28-62 | `10`, `+10` and `-10` are integers |
| YamlNumbers.AcceptedPointExamples | src/main/java/io/xlate/yamljson/YamlNumbers.java:64-112 | `1.0` and `.101` are floats |
| YamlNumbers.AcceptedExponentExamples | src/main/java/io/xlate/yamljson/YamlNumbers.java:64-112 | `-1E-5` and `-1e-5` are floats |
| YamlNumbers.AcceptedPrefixedExamples | src/main/java/io/xlate/yamljson/YamlNumbers.java:128-192 | `0o10` is octal; `0x10` and `0xFf` are hexadecimal |
| StringQuoting.IsReservedKeyword | src/main/java/io/xlate/yamljson/StringQuotingChecker.java:42-62 | True exactly for the empty text and the null, true and false spellings. The first-character switch only narrows the search |
| StringQuoting.ValueHasQuotableChar | src/main/java/io/xlate/yamljson/StringQuotingChecker.java:70-113 | True exactly when the text has one of `[ ] { } ,`, starts with `#`, ends with `:`, has a `#` after a blank, or has a `:` before a blank. A blank is a space or a tab |
| StringQuoting.IsBlank | src/main/java/io/xlate/yamljson/StringQuotingChecker.java:111-113 | A blank is never an indicator and never part of number text |
| StringQuoting.IsFlowIndicator | src/main/java/io/xlate/yamljson/StringQuotingChecker.java:74-79 | A flow indicator is never part of number text and never a blank |
| StringQuoting.PrecededByBlank | src/main/java/io/xlate/yamljson/StringQuotingChecker.java:97-102 | At the start, or after a blank, a `#` makes the text need quotes |
| StringQuoting.FollowedByBlank | src/main/java/io/xlate/yamljson/StringQuotingChecker.java:104-109 | At the end, or before a blank, a `:` makes the text need quotes |
| StringQuoting.QuotableCharIffSomeIndex | src/main/java/io/xlate/yamljson/StringQuotingChecker.java:70-95 | The text needs quotes for its characters exactly when some position on its own forces them, as the scan checks position by position |
| StringQuoting.NeedToQuoteName | src/main/java/io/xlate/yamljson/StringQuotingChecker.java:16-18 | The empty name, any name the parser resolves to null, true or false, and any float text (so any integer) are quoted |
| StringQuoting.NeedToQuoteValue | src/main/java/io/xlate/yamljson/StringQuotingChecker.java:24-27 | The empty value, any value the parser resolves to null, true or false, and any value with a position that forces quoting are quoted. Number-like text alone is not |
| StringQuoting.QuotableAtWitness | src/main/java/io/xlate/yamljson/StringQuotingChecker.java:70-95 | One quotable position is enough to make the value quotable |
| StringQuoting.NoQuotableAt | src/main/java/io/xlate/yamljson/StringQuotingChecker.java:70-95 | With no quotable position, the value has no quotable character |
| StringQuoting.ReservedIffConstant | src/main/java/io/xlate/yamljson/StringQuotingChecker.java:47-61 | A non-empty text is reserved exactly when the parser resolves it to null, true or false |
| StringQuoting.FlowIndicatorForcesQuoting | src/main/java/io/xlate/yamljson/StringQuotingChecker.java:73-79 | Any flow indicator in a value makes it need quotes |
| StringQuoting.FlowIndicatorKeepsNamePlain | src/main/java/io/xlate/yamljson/StringQuotingChecker.java:16-18 | A flow indicator never makes a name need quotes; `array[]` stays plain |
| StringQuoting.NumericValueStaysPlain | src/main/java/io/xlate/yamljson/StringQuotingChecker.java:24-27 | Float-looking text does not, by itself, make a value need quotes |
| StringQuoting.NumericNameQuoted | src/main/java/io/xlate/yamljson/StringQuotingChecker.java:16-18 | A name that is integer or float text needs quotes |
| StringQuoting.HashRule | src/main/java/io/xlate/yamljson/StringQuotingChecker.java:80-84 | When `#` is the only special character, quoting is needed exactly when it is first or follows a blank |
| StringQuoting.ColonRule | src/main/java/io/xlate/yamljson/StringQuotingChecker.java:85-89 | When `:` is the only special character, quoting is needed exactly when it is last or is followed by a blank |
| StringQuoting.QuotingExamples | src/main/java/io/xlate/yamljson/StringQuotingChecker.java:24-27 | A trailing colon, a leading `#` and a tab before `#` need quotes; `with:colon` does not |
| StringQuoting.NameQuotingExamples | src/main/java/io/xlate/yamljson/StringQuotingChecker.java:16-18 | The name `array[]` stays plain; the names `false` and `100` are quoted |
| CoreSchema.ResolvePlain | src/main/java/io/xlate/yamljson/YamlParser.java:345-395 | The first-character dispatch gives a non-empty plain scalar the same event and number type as the reference resolution (literal sets, then prefixed, integer and float checks) |
| CoreSchema.ResolveNumberOrString | src/main/java/io/xlate/yamljson/YamlParser.java:297-305 | Integer text becomes an integer; other float text becomes a float; anything else becomes a string |
| CoreSchema.ResolveConstants | src/main/java/io/xlate/yamljson/YamlParser.java:292-295 | A text is null, true or false exactly when it is one of those literal spellings, and it then has no number type |
| CoreSchema.ResolveNonFinite | src/main/java/io/xlate/yamljson/YamlParser.java:317-343 | Exactly the infinity and NaN spellings become strings tagged infinity or NaN; the tag is negative exactly for the `-` spellings |
| CoreSchema.ResolveNumberTags | src/main/java/io/xlate/yamljson/YamlParser.java:297-343 | A number event has an integer, float, octal or hexadecimal tag; its text passes that tag's check; and it starts with a digit, `.` or sign |
| CoreSchema.ResolveFallback | src/main/java/io/xlate/yamljson/YamlParser.java:345-395 | A text that is no literal and fails the number checks its first character leads to is a string |
| CoreSchema.ResolveIntegerExamples | src/main/java/io/xlate/yamljson/YamlParser.java:297-315 | `0o10` is octal; `0x10` is hexadecimal; `10`, `+10` and `-10` are integers |
| CoreSchema.ResolveFloatExamples | src/main/java/io/xlate/yamljson/YamlParser.java:297-327 | `1.0`, `.101` and `-1E-5` are floats |
| CoreSchema.ResolveLiteralExamples | src/main/java/io/xlate/yamljson/YamlParser.java:317-395 | `.inf`, `+.Inf`, `-.INF` and `.NaN` are tagged strings; `True`, `FALSE` and `null` are the constants |
| CoreSchema.ResolveMalformedFloatExamples | src/main/java/io/xlate/yamljson/YamlParser.java:317-327 | `.00e5e6` and `-.00.6` fall back to strings |
| CoreSchema.ResolvePrefixExamples | src/main/java/io/xlate/yamljson/YamlParser.java:307-315 | `0x0Z` and `0o` fall back to strings |
| CoreSchema.ResolveWordExamples | src/main/java/io/xlate/yamljson/YamlParser.java:345-395 | `not null` and `+Not` are strings |
| AliasExpansion.CountExpansion | src/main/java/io/xlate/yamljson/YamlParser.java:443-462 | The cut-off scalar count of an alias is never negative; CutOffAgrees and BelowLimitIsFull relate it to the uncut count |
| AliasExpansion.CountEvents | src/main/java/io/xlate/yamljson/YamlParser.java:449-459 | Counting a run of captured events only adds to the running count |
| AliasExpansion.CutOffAgrees | src/main/java/io/xlate/yamljson/YamlParser.java:443-462 | When the uncut count is defined, the cut-off count is below the limit exactly when the uncut count is, and in that case the two are equal |
| AliasExpansion.CutOffAgreesEvents | src/main/java/io/xlate/yamljson/YamlParser.java:449-459 | The same agreement for a run of events and a running count |
| AliasExpansion.BelowLimitIsFull | src/main/java/io/xlate/yamljson/YamlParser.java:443-462 | A cut-off count below the limit is the uncut count |
| AliasExpansion.BelowLimitIsFullEvents | src/main/java/io/xlate/yamljson/YamlParser.java:449-459 | The same for a run of events |
| AliasExpansion.RankedCountIsDefined | src/main/java/io/xlate/yamljson/YamlParser.java:443-462 | When every alias points to an anchor of lower rank (no cycles), the uncut count of every declared anchor is defined |
| AliasExpansion.RankedEventsAreDefined | src/main/java/io/xlate/yamljson/YamlParser.java:449-459 | The same for the events captured under a ranked anchor |
| AliasExpansion.SelfReferenceDiverges | src/main/java/io/xlate/yamljson/YamlParser.java:443-462 | Over a capture of `a` that holds an alias of itself and no scalar, the count reaches `a` again, where the source's recursion would not return. The parser never counts over such a capture (ParserState.SelfAliasReplaysForever) |
| AliasExpansion.SelfReferenceStopsAtLimit | src/main/java/io/xlate/yamljson/YamlParser.java:443-462 | Over a capture of `a` holding a scalar before an alias of itself, under a limit of 1, the cut-off count stops at 1 before reaching the cycle, while the uncut count diverges |
| ParserState.Opened | src/main/java/io/xlate/yamljson/YamlParser.java:468-476 | Opening a level sets that level's flag; a parent mapping is reset to expect a key; every other level is unchanged |
| ParserState.Flipped | src/main/java/io/xlate/yamljson/YamlParser.java:537-559 | A scalar or alias inverts a mapping level's flag; in a sequence, which has no flag, nothing changes |
| ParserState.FlipTwice | src/main/java/io/xlate/yamljson/YamlParser.java:537-547 | Two scalars in a mapping restore the flag, so keys and values alternate |
| ParserState.SequenceNeverKeyed | src/main/java/io/xlate/yamljson/YamlParser.java:464-476 | In a sequence, neither a scalar nor a nested sequence start ever sets a key flag |
| ParserState.ClassifyCases | src/main/java/io/xlate/yamljson/YamlParser.java:397-411 | In key position the result is KEY_NAME, and only there. Out of key position: a plain empty scalar is VALUE_NULL; a non-plain scalar is VALUE_STRING; a plain non-empty scalar gets the resolution. A number always comes from a plain scalar and carries an integer, float, octal or hexadecimal tag |
| ParserState.Captured | src/main/java/io/xlate/yamljson/YamlParser.java:191-219 | Capturing an event keeps the set of anchor names |
| ParserState.CapturedAppends | src/main/java/io/xlate/yamljson/YamlParser.java:191-207 | Each anchor's capture grows by one copy of the event per open declaration of that name enclosing the depth |
| ParserState.Declared | src/main/java/io/xlate/yamljson/YamlParser.java:483-488 | Declaring an anchor pushes its metadata and starts its capture empty. This discards any earlier capture, so the latest declaration wins. No anchor, no change |
| ParserState.Unwound | src/main/java/io/xlate/yamljson/YamlParser.java:490-498 | The innermost open anchor is popped exactly when it was opened at this depth. The anchor names are kept, and captures change only when a closing event is recorded |
| ParserState.Taken | src/main/java/io/xlate/yamljson/YamlParser.java:160-169 | The front pending event becomes current with its raw event, JSON event, text and number type. It has no number exactly when its type is NONE |
| ParserState.CaptureOf | src/main/java/io/xlate/yamljson/YamlParser.java:170-176 | An alias is recorded as an alias and anything else as data, with its raw event |
| ParserState.AfterCapture | src/main/java/io/xlate/yamljson/YamlParser.java:170-176 | Recording the new current event keeps the anchor names |
| ParserState.Override | src/main/java/io/xlate/yamljson/YamlParser.java:178-182 | A replay overrides event types only with the alias's own event, and only when that is not VALUE_NULL |
| ParserState.AliasAcceptedByFullCount | src/main/java/io/xlate/yamljson/YamlParser.java:413-441 | With a finite ceiling and a defined uncut count, a value alias is accepted exactly when that count is below the ceiling |
| ParserState.RankedAliasAccepted | src/main/java/io/xlate/yamljson/YamlParser.java:413-462 | With acyclic anchors, a value alias is accepted exactly when the ceiling is unlimited or its uncut count is below it |
| ParserState.ReplayEntry | src/main/java/io/xlate/yamljson/YamlParser.java:263-273 | A replayed alias becomes a null value. Replayed data keeps its text and number type and takes the override event if there is one. Every replayed entry is marked as an expansion |
| ParserState.Replay | src/main/java/io/xlate/yamljson/YamlParser.java:180-185 | Replay keeps the captured events' order and length, entry by entry |
| ParserState.ReplayOk | src/main/java/io/xlate/yamljson/YamlParser.java:180-185 | Replay succeeds when every entry does |
| ParserState.Expansion | src/main/java/io/xlate/yamljson/YamlParser.java:178-188 | An alias of a missing anchor fails. Otherwise the replay has one expansion entry per captured event, with the same raw events in the same order |
| ParserState.SelfAliasReplaysForever | src/main/java/io/xlate/yamljson/YamlParser.java:160-189 | For `&a [*a]` as written: at the alias, `a` holds only its sequence start, so the count is 0 and any positive ceiling accepts it. Becoming current, the alias is captured into `a`. Its replay is a sequence start and the alias again, which is not recaptured and expands to the same replay over the same captures, so `next` returns START_ARRAY without end |
| ParserState.ClosedAliasNeverSelfCaptured | src/main/java/io/xlate/yamljson/YamlParser.java:160-189 | Under the corrected rule, which also refuses an alias of an anchor still open, the alias is not captured into its own anchor when it becomes current. Its replay is exactly the captures counted against the ceiling |
| ParserState.SelfAliasRefused | src/main/java/io/xlate/yamljson/YamlParser.java:413-441 | The corrected rule refuses the alias of `&a [*a]` whatever the ceiling |
| ParserState.SkipStart | src/main/java/io/xlate/yamljson/YamlParser.java:832-844 | The starting level counts the current event, so that the level after it is the parser's depth |
| ParserState.PrefixLevels | src/main/java/io/xlate/yamljson/YamlParser.java:846-863 | While skipping continues, every prefix read stays at or above the terminal level |
| ParserState.LastIndexOf | src/main/java/io/xlate/yamljson/YamlParser.java:818 | The position of the innermost open structure of the kind: -1 exactly when none is open, and no later entry of that kind |
| ParserState.SkipEndsOnEnd | src/main/java/io/xlate/yamljson/YamlParser.java:846-863 | A skip that reads more than one event stops on an end event |
| ParserState.Truncated | src/main/java/io/xlate/yamljson/YamlParser.java:670-674 | `BigDecimal.longValue` before wrapping: the value truncated toward zero, bounded on both sides |
| ParserState.WrapLong | src/main/java/io/xlate/yamljson/YamlParser.java:670-674 | The result is in the signed 64-bit range, congruent modulo 2^64, and unchanged when already in range |
| ParserState.WrapInt | src/main/java/io/xlate/yamljson/YamlParser.java:676-679 | The result is in the signed 32-bit range, congruent modulo 2^32, and unchanged when already in range |
| ParserState.LongValueOfInteger | src/main/java/io/xlate/yamljson/YamlParser.java:670-674 | An integral number that fits a long reads back unchanged |
| ParserState.LongValueExamples | src/main/java/io/xlate/yamljson/YamlParser.java:670-674 | `1.5` gives 1, `-2.7` gives -2, and 2^63 gives the least long |
| NumberParsing.DigitValue | src/main/java/io/xlate/yamljson/YamlParser.java:221-229 | `Character.digit`: a value exactly for 0-9 and for letters of either case below the radix; the value is always below the radix |
| NumberParsing.UpperExponent | src/main/java/io/xlate/yamljson/YamlParser.java:234-236 | Lower-case `e` becomes `E`; every other character and the length are kept |
| NumberParsing.ExponentCaseIgnored | src/main/java/io/xlate/yamljson/YamlParser.java:232-237 | The decimal reader of float text never sees a lower-case `e`, and two texts that differ only in the case of their exponent markers read the same |
| NumberParsing.NumberValue | src/main/java/io/xlate/yamljson/YamlParser.java:246-252 | Non-number events get no value. A stored value is used as is. Otherwise there is a value exactly when the text parses to one |
| NumberParsing.DigitsRoundTrip | src/main/java/io/xlate/yamljson/YamlParser.java:221-229 | The digits of a number, read back in the same radix, give that number |
| NumberParsing.ParseLongRoundTrip | src/main/java/io/xlate/yamljson/YamlParser.java:221-229 | `Long.parseLong` of a number's text gives the number when it fits 64 bits, and a format error otherwise |
| NumberParsing.IntegerNumberRoundTrip | src/main/java/io/xlate/yamljson/YamlParser.java:221-244 | The decimal, `0o` and `0x` texts of a long parse to that integral value (scale 0) |
| NumberParsing.PrefixedRoundTrip | src/main/java/io/xlate/yamljson/YamlParser.java:221-229 | After the two-character prefix, the digits are read in radix 8 or 16 |
| NumberParsing.LoneSignFailsToParse | src/main/java/io/xlate/yamljson/YamlParser.java:221-244 | A lone sign is classified as an integer, but parsing it fails |
| NumberParsing.OctalExample | src/main/java/io/xlate/yamljson/YamlParser.java:221-229 | `0o10` parses to 8 |
| NumberParsing.HexadecimalExample | src/main/java/io/xlate/yamljson/YamlParser.java:221-229 | `0x10` parses to 16 |
| NumberParsing.NegativeIntegerExample | src/main/java/io/xlate/yamljson/YamlParser.java:221-229 | `-10` parses to -10 |
| NumberParsing.LongTextResolvesAsInteger | src/main/java/io/xlate/yamljson/YamlParser.java:297-305 | The decimal text of every long is classified as an integer |
| YamlParsing.YamlParser.constructor | src/main/java/io/xlate/yamljson/YamlParser.java:153-158 | A new parser has every raw event unread, nothing queued or current, depth -1, no anchors and no key flags |
| YamlParsing.YamlParser.Enqueue | src/main/java/io/xlate/yamljson/YamlParser.java:275-282 | Appends one pending entry with its number value. When the number text does not parse, it fails and the queue is unchanged |
| YamlParsing.YamlParser.IncrementDepth | src/main/java/io/xlate/yamljson/YamlParser.java:468-476 | Below 200 levels: depth +1, the level pushed on the event stack, and the flags opened. At the limit it fails, where the source's array overflows |
| YamlParsing.YamlParser.DecrementDepth | src/main/java/io/xlate/yamljson/YamlParser.java:478-481 | Depth -1 and the innermost level popped; with nothing open it fails |
| YamlParsing.YamlParser.AddAnchorMetadata | src/main/java/io/xlate/yamljson/YamlParser.java:483-488 | The anchor state becomes Declared: latest declaration wins |
| YamlParsing.YamlParser.RemoveAnchorMetadata | src/main/java/io/xlate/yamljson/YamlParser.java:490-498 | The anchor state becomes Unwound |
| YamlParsing.YamlParser.AddAnchoredEvent | src/main/java/io/xlate/yamljson/YamlParser.java:191-207 | The captures become Captured: one copy per enclosing declaration |
| YamlParsing.YamlParser.EnqueueDataElement | src/main/java/io/xlate/yamljson/YamlParser.java:397-411 | Queues one entry classified by ClassifyCases, or fails on a number it cannot parse |
| YamlParsing.YamlParser.CountAliasExpansion | src/main/java/io/xlate/yamljson/YamlParser.java:443-462 | Returns the cut-off count (see CutOffAgrees) |
| YamlParsing.YamlParser.EnqueueAlias | src/main/java/io/xlate/yamljson/YamlParser.java:413-441 | A missing anchor fails. In key position, a one-event anchor queues KEY_NAME and anything else fails. In value position with a finite ceiling, a diverging or too-large count fails; otherwise a VALUE_NULL placeholder is queued |
| YamlParsing.YamlParser.OpenStructure | src/main/java/io/xlate/yamljson/YamlParser.java:513-517 | A start event declares its anchor, opens a level and queues its JSON start event; it fails past 200 levels |
| YamlParsing.YamlParser.CloseStructure | src/main/java/io/xlate/yamljson/YamlParser.java:519-523 | An end event queues its JSON end event, closes a level and unwinds the anchor opened there; with nothing open it fails |
| YamlParsing.YamlParser.EnqueueScalar | src/main/java/io/xlate/yamljson/YamlParser.java:537-547 | A scalar declares its anchor, queues its classified event and flips the level's flag; a number that cannot be parsed fails |
| YamlParsing.YamlParser.EnqueueAliasEvent | src/main/java/io/xlate/yamljson/YamlParser.java:549-560 | An alias is accepted exactly by the expansion rules (AliasAccepted). It then queues KEY_NAME or a VALUE_NULL placeholder and flips the flag |
| YamlParsing.YamlParser.TranslateStructure | src/main/java/io/xlate/yamljson/YamlParser.java:500-535 | The structure cases of enqueueEvent, stated in terms of Declared, Unwound and Opened |
| YamlParsing.YamlParser.Settle | src/main/java/io/xlate/yamljson/YamlParser.java:500-503 | Before translation, the current number is cleared and an anchor opened at this depth is unwound |
| YamlParsing.YamlParser.TranslateLeaf | src/main/java/io/xlate/yamljson/YamlParser.java:500-571 | The scalar, alias, silent and unknown cases of enqueueEvent |
| YamlParsing.YamlParser.EnqueueEvent | src/main/java/io/xlate/yamljson/YamlParser.java:500-571 | Stream and document events queue nothing. Starts and ends open and close levels (too deep or unbalanced fails). Scalars are classified and flip the flag; aliases follow the expansion rules. An unknown event fails. Something is queued exactly for non-silent events |
| YamlParsing.YamlParser.AdvanceEvent | src/main/java/io/xlate/yamljson/YamlParser.java:160-189 | The front entry becomes current and is recorded into open anchors. An alias front is replaced by its anchor's replay, whose first entry becomes current. With nothing queued it fails |
| YamlParsing.YamlParser.ExpandAlias | src/main/java/io/xlate/yamljson/YamlParser.java:178-188 | Puts the anchor's replay in front of the queue, starting with a data event |
| YamlParsing.YamlParser.TakeFront | src/main/java/io/xlate/yamljson/YamlParser.java:160-176 | Dequeues the front entry, makes it current and records it into open anchors |
| YamlParsing.YamlParser.MakeCurrent | src/main/java/io/xlate/yamljson/YamlParser.java:160-169 | The current fields become Taken(front) |
| YamlParsing.YamlParser.CaptureCurrent | src/main/java/io/xlate/yamljson/YamlParser.java:170-176 | The captures become AfterCapture: replayed entries are not recorded again |
| YamlParsing.YamlParser.ReplayAnchored | src/main/java/io/xlate/yamljson/YamlParser.java:180-185 | Computes Replay of the captured events |
| YamlParsing.YamlParser.FillQueues | src/main/java/io/xlate/yamljson/YamlParser.java:573-593 | With something queued or no input left, nothing changes. Otherwise it reads raw events until one yields a JSON event or the input ends; every event read before it is silent |
| YamlParsing.YamlParser.PullEvent | src/main/java/io/xlate/yamljson/YamlParser.java:575-590 | Reads exactly one raw event; something is queued exactly when that event is not silent |
| YamlParsing.YamlParser.Next | src/main/java/io/xlate/yamljson/YamlParser.java:642-647 | Fills the queue, then advances. The event returned is current and appended to the history; a queued front data event is returned as is |
| YamlParsing.YamlParser.FillAndAdvance | src/main/java/io/xlate/yamljson/YamlParser.java:642-647 | Fills the queue, then advances; with no input and nothing queued it fails |
| YamlParsing.YamlParser.Advance | src/main/java/io/xlate/yamljson/YamlParser.java:866-868 | Moves to the next event, which becomes current and is added to the history |
| YamlParsing.YamlParser.NextKind | src/main/java/io/xlate/yamljson/YamlParser.java:866-868 | The kinds read so far grow by exactly the event returned |
| YamlParsing.YamlParser.HasNext | src/main/java/io/xlate/yamljson/YamlParser.java:633-640 | True exactly when an event is queued after filling; false only when every remaining raw event was silent. Filling clears the current number (see Findings) |
| YamlParsing.YamlParser.HasNextKeepingNumber | src/main/java/io/xlate/yamljson/YamlParser.java:633-640 | The same answer, with the current event and number left as they were |
| YamlParsing.YamlParser.GetBigDecimal | src/main/java/io/xlate/yamljson/YamlParser.java:664-668 | Succeeds exactly on VALUE_NUMBER and returns the current number |
| YamlParsing.YamlParser.GetLong | src/main/java/io/xlate/yamljson/YamlParser.java:670-674 | Requires VALUE_NUMBER; an absent value is a null dereference. The result is the one long congruent modulo 2^64 to the number truncated toward zero, so it is the number itself when integral and in range |
| YamlParsing.YamlParser.GetInt | src/main/java/io/xlate/yamljson/YamlParser.java:676-679 | Fails exactly when getLong does; otherwise the long narrowed to 32 bits, unchanged when in range |
| YamlParsing.YamlParser.GetString | src/main/java/io/xlate/yamljson/YamlParser.java:681-685 | Succeeds exactly on KEY_NAME, VALUE_STRING or VALUE_NUMBER and returns the current text |
| YamlParsing.YamlParser.IsIntegralNumber | src/main/java/io/xlate/yamljson/YamlParser.java:687-691 | Defined exactly for a number with a value; true exactly for scale 0, and then getLong succeeds with that value when it fits |
| YamlParsing.YamlParser.ValueCheck | src/main/java/io/xlate/yamljson/YamlParser.java:616-629 | Passes exactly on a value event |
| YamlParsing.YamlParser.IsNumberType | src/main/java/io/xlate/yamljson/YamlParser.java:693-710 | Defined exactly on a value event; true exactly for the given number type |
| YamlParsing.YamlParser.IsPositiveInfinity | src/main/java/io/xlate/yamljson/YamlParser.java:693-696 | Defined exactly on a value event; true exactly for the positive infinity tag |
| YamlParsing.YamlParser.IsNegativeInfinity | src/main/java/io/xlate/yamljson/YamlParser.java:698-701 | Defined exactly on a value event; true exactly for the negative infinity tag |
| YamlParsing.YamlParser.IsNaN | src/main/java/io/xlate/yamljson/YamlParser.java:707-710 | Defined exactly on a value event; true exactly for the NaN tag |
| YamlParsing.YamlParser.IsInfinite | src/main/java/io/xlate/yamljson/YamlParser.java:703-705 | Defined exactly on a value event; true exactly for either infinity tag |
| YamlParsing.YamlParser.GetLocation | src/main/java/io/xlate/yamljson/YamlParser.java:712-728 | Line and column are one more than the mark's, and the offset is its index; without a mark the location is unknown |
| YamlParsing.YamlParser.GetJsonValue | src/main/java/io/xlate/yamljson/YamlParser.java:755-815 | Fails on a mismatch with the required event. Otherwise the value built is what the events read, starting at the current one, materialise to; a START_OBJECT gives an object and a START_ARRAY an array |
| YamlParsing.YamlParser.ReadValue | src/main/java/io/xlate/yamljson/YamlParser.java:770-804 | The loop of getJsonValue: the value built is what the events read materialise to |
| YamlParsing.YamlParser.GetValue | src/main/java/io/xlate/yamljson/YamlParser.java:730-733 | The value built from the current event on, as materialised from the events read |
| YamlParsing.YamlParser.GetObject | src/main/java/io/xlate/yamljson/YamlParser.java:735-738 | Fails unless the current event is START_OBJECT; otherwise returns the object materialised |
| YamlParsing.YamlParser.GetArray | src/main/java/io/xlate/yamljson/YamlParser.java:745-748 | Fails unless the current event is START_ARRAY; otherwise returns the array materialised |
| YamlParsing.YamlParser.Skip | src/main/java/io/xlate/yamljson/YamlParser.java:817-864 | Does nothing when no structure of that kind is open. Otherwise it reads events until the level drops below the innermost open one of that kind, ending on an end event |
| YamlParsing.YamlParser.SkipLevels | src/main/java/io/xlate/yamljson/YamlParser.java:846-863 | Reads until the level drops below the terminal position, ending on an end event |
| YamlParsing.YamlParser.SkipObject | src/main/java/io/xlate/yamljson/YamlParser.java:740-743 | Does nothing outside an object; otherwise leaves the innermost open object |
| YamlParsing.YamlParser.SkipArray | src/main/java/io/xlate/yamljson/YamlParser.java:750-753 | Does nothing outside an array; otherwise leaves the innermost open array |
| YamlParsing.HasNextClearsNumber | src/main/java/io/xlate/yamljson/YamlParser.java:633-640 | On the first of two numbers, getBigDecimal gives 10 before hasNext and no value after it |
| YamlParsing.HasNextKeepingNumberKeepsIt | src/main/java/io/xlate/yamljson/YamlParser.java:633-640 | With the corrected hasNext, getBigDecimal gives the same value before and after |
| YamlParsing.AtFirstOfTwoNumbers | src/main/java/io/xlate/yamljson/YamlParser.java:642-647 | A parser over `10` and `20` after one `next`: current number 10, one raw event unread |
| YamlParsing.FirstOfTwoNumbersQueued | src/main/java/io/xlate/yamljson/YamlParser.java:275-282 | A parser over `10` and `20` with the first number queued |
| AbstractParsing.AbstractYamlParser.constructor | src/main/java/io/xlate/yamljson/AbstractYamlParser.java:93-96 | Starts with every raw event unread, nothing queued or current, depth -1 and no key flags |
| AbstractParsing.AbstractYamlParser.IncrementDepth | src/main/java/io/xlate/yamljson/AbstractYamlParser.java:274-281 | Inside the 200 slots: depth +1 and the flags opened. Outside them it fails as an out-of-range index |
| AbstractParsing.AbstractYamlParser.EnqueueDataElement | src/main/java/io/xlate/yamljson/AbstractYamlParser.java:254-268 | Queues one entry for the current raw event, classified as by ClassifyCases, with NONE and empty-text defaults |
| AbstractParsing.AbstractYamlParser.EnqueueEvent | src/main/java/io/xlate/yamljson/AbstractYamlParser.java:283-331 | Stream, document and alias events queue nothing and keep depth and flags. Starts open a level (or fail out of range). Ends queue their event and lower the depth unchecked. Scalars are classified and flip the flag. An unknown event fails. Any other event queues exactly one entry, the one its kind and the flags and depth before it determine |
| AbstractParsing.AbstractYamlParser.AdvanceEvent | src/main/java/io/xlate/yamljson/AbstractYamlParser.java:98-107 | Takes the front entry as current. The number is parsed only for VALUE_NUMBER, and a parse failure fails; any other event keeps the current number. With nothing queued it fails |
| AbstractParsing.AbstractYamlParser.FillQueues | src/main/java/io/xlate/yamljson/AbstractYamlParser.java:333-353 | With something queued or no input left, nothing changes. Otherwise it reads until an event yields a JSON event or the input ends. Every event read before that one is ignored, and the queue then holds exactly that event's entry. It fails only for an unknown event or a depth out of range |
| AbstractParsing.AbstractYamlParser.Next | src/main/java/io/xlate/yamljson/AbstractYamlParser.java:402-407 | Returns the event of the front entry, filling the queue first when it is empty. When it was empty, that is the entry of the first raw event not ignored, with every earlier one skipped. A number event's text is parsed into the current number or fails; any other event keeps the number. With every remaining event ignored it fails with nothing pending. On success, or on a number or nothing-pending failure, the parser stays valid for the next call |
| AbstractParsing.AbstractYamlParser.HasNext | src/main/java/io/xlate/yamljson/AbstractYamlParser.java:393-400 | True exactly when something is queued after filling; false only when every remaining event was ignored |
| AbstractParsing.AbstractYamlParser.GetBigDecimal | src/main/java/io/xlate/yamljson/AbstractYamlParser.java:418-422 | Succeeds exactly on VALUE_NUMBER and returns the current number |
| AbstractParsing.AbstractYamlParser.GetLong | src/main/java/io/xlate/yamljson/AbstractYamlParser.java:424-428 | Requires VALUE_NUMBER; an absent value is a null dereference. The result is the one long congruent modulo 2^64 to the number truncated toward zero, so it is the number itself when integral and in range |
| AbstractParsing.AbstractYamlParser.GetString | src/main/java/io/xlate/yamljson/AbstractYamlParser.java:430-434 | Succeeds exactly on KEY_NAME, VALUE_STRING or VALUE_NUMBER and returns the current text |
| AbstractParsing.AbstractYamlParser.IsIntegralNumber | src/main/java/io/xlate/yamljson/AbstractYamlParser.java:436-440 | Defined exactly for a number with a value; true exactly for scale 0 |
| AbstractParsing.AbstractYamlParser.IsNumberType | src/main/java/io/xlate/yamljson/AbstractYamlParser.java:376-389 | Defined exactly on a value event; true exactly for the given number type |
| AbstractParsing.AbstractYamlParser.IsPositiveInfinity | src/main/java/io/xlate/yamljson/AbstractYamlParser.java:442-446 | Defined exactly on a value event; true exactly for the positive infinity tag |
| AbstractParsing.AbstractYamlParser.IsNegativeInfinity | src/main/java/io/xlate/yamljson/AbstractYamlParser.java:448-452 | Defined exactly on a value event; true exactly for the negative infinity tag |
| AbstractParsing.AbstractYamlParser.IsNaN | src/main/java/io/xlate/yamljson/AbstractYamlParser.java:454-458 | Defined exactly on a value event; true exactly for the NaN tag |
| AbstractParsing.AbstractYamlParser.GetLineNumber | src/main/java/io/xlate/yamljson/AbstractYamlParser.java:462-466 | The mark's line + 1 in 32-bit arithmetic, or -1 without a mark |
| AbstractParsing.AbstractYamlParser.GetColumnNumber | src/main/java/io/xlate/yamljson/AbstractYamlParser.java:468-472 | The mark's column + 1 in 32-bit arithmetic, or -1 without a mark |
| AbstractParsing.AbstractYamlParser.GetStreamOffset | src/main/java/io/xlate/yamljson/AbstractYamlParser.java:474-478 | The mark's index, or -1 without a mark |
| JsonBuilder.Put | src/main/java/io/xlate/yamljson/YamlParser.java:929-935 | Adding a key to an object builder: a new key is appended, an existing one keeps its place; the member is present afterwards |
| JsonBuilder.AddValue | src/main/java/io/xlate/yamljson/YamlParser.java:929-935 | A keyed value goes into an object builder and an unkeyed one into an array builder; the builder keeps its kind and key |
| JsonBuilder.ParsedValue | src/main/java/io/xlate/yamljson/YamlParser.java:903-927 | Fails exactly for a number event without a value |
| JsonBuilder.Step | src/main/java/io/xlate/yamljson/YamlParser.java:770-804 | A start event opens one builder level and an end event closes one; other events keep the level count. An end with nothing open fails |
| JsonBuilder.AddScalar | src/main/java/io/xlate/yamljson/YamlParser.java:791-803 | Adding a scalar keeps the level count |
| JsonBuilder.EndStructure | src/main/java/io/xlate/yamljson/YamlParser.java:877-889 | Closes one level; with none open it fails |
| JsonBuilder.Feed | src/main/java/io/xlate/yamljson/YamlParser.java:770-804 | A successful run ends with every level closed, having consumed at least one event |
| JsonBuilder.Materialize | src/main/java/io/xlate/yamljson/YamlParser.java:755-815 | The value read consumes at least one event |
| JsonBuilder.FeedValue | src/main/java/io/xlate/yamljson/YamlParser.java:770-804 | Feeding a value's own events adds exactly that value to the open builder |
| JsonBuilder.MaterializeEvents | src/main/java/io/xlate/yamljson/YamlParser.java:755-815 | For values with unique keys, materialising a value's events gives that value back and leaves the following events untouched |
| JsonBuilder.MaterializeKey | src/main/java/io/xlate/yamljson/YamlParser.java:806-812 | On KEY_NAME the value is the key's text |
| JsonBuilder.MaterializeAtEnd | src/main/java/io/xlate/yamljson/YamlParser.java:785-789 | An end event as the first event fails, as there is no structure to close |
| JsonBuilder.FeedKeepsRoot | src/main/java/io/xlate/yamljson/YamlParser.java:806-812 | The value built has the kind of its first structure |
| JsonBuilder.StepKeepsRoot | src/main/java/io/xlate/yamljson/YamlParser.java:870-889 | The outermost builder keeps its kind until it is closed, and closing it yields the result |
| JsonBuilder.MaterializeKeepsKind | src/main/java/io/xlate/yamljson/YamlParser.java:735-748 | A value started by START_OBJECT is an object, and one started by START_ARRAY is an array |
| Emission.DoubleText | src/main/java/io/xlate/yamljson/YamlGenerator.java:373-386 | Infinite and NaN doubles are written as `.inf`, `-.inf` and `.nan`; finite ones with their own text |
| Emission.MinimizingStyle | src/main/java/io/xlate/yamljson/YamlGenerator.java:134-163 | Plain only when minimising, with no newline and a passed quote check. Literal only with a newline, when minimising or with literal blocks on. Otherwise double-quoted, and always so with both settings off |
| Emission.QuoteCharacterStyle | src/main/java/io/xlate/yamljson/AbstractYamlGenerator.java:104-134 | Literal exactly for a newline or both quote characters. Single quotes only without `'`; double quotes only with `'` and without `"`. Plain only with no newline, no quote character and a passed quote check. Never folded |
| Emission.PlainPassesQuoteCheck | src/main/java/io/xlate/yamljson/YamlGenerator.java:134-163 | Under either rule a plain string has no newline and passes the value check. So it is not empty and never reads back as null, true or false |
| Emission.ValueTrace | src/main/java/io/xlate/yamljson/YamlGenerator.java:293-337 | Every value emits at least one event; the write methods are proved to emit exactly this trace |
| Emission.ArgumentEvent | src/main/java/io/xlate/yamljson/YamlGenerator.java:339-398 | Every typed overload emits one scalar. Non-strings are plain; a string keeps its text and takes the rule's style under the value check |
| Emission.ScalarTraceIsArgument | src/main/java/io/xlate/yamljson/YamlGenerator.java:293-337 | write(JsonValue) on a scalar emits what the typed overload emits. A number agrees with write(BigDecimal) when the plain switch is off or the number is integral |
| Emission.DocumentBrackets | src/main/java/io/xlate/yamljson/YamlGenerator.java:271-291 | Only an outermost structure is bracketed by stream and document events. A scalar is one event at any level, and nested traces contain no such events |
| Emission.IntegralDecimalText | src/main/java/io/xlate/yamljson/YamlGenerator.java:346-352 | An integral BigDecimal is written as its integer, plain or not |
| Emission.PlainAgreesWithoutExponent | src/main/java/io/xlate/yamljson/YamlGenerator.java:346-352 | Plain notation agrees with `toString` whenever `toString` needs no exponent |
| Emission.DecimalTextExamples | src/main/java/io/xlate/yamljson/YamlGenerator.java:346-352 | `toString` gives `1.23E+4`, `-123.45` and `1E-7` |
| Emission.PaddedDecimalTextExamples | src/main/java/io/xlate/yamljson/YamlGenerator.java:346-352 | `toString` gives `0.000001` and `0.00` |
| Emission.PlainDecimalTextExamples | src/main/java/io/xlate/yamljson/YamlGenerator.java:346-352 | `toPlainString` gives `12300` and `0.0000001` |
| YamlGenerating.EqualsIgnoreCase | src/main/java/io/xlate/yamljson/YamlGenerator.java:96-99 | Equal length, and equal character by character after ASCII lower-casing |
| YamlGenerating.Setting | src/main/java/io/xlate/yamljson/YamlGenerator.java:96-99 | The property's value if present, the default otherwise, read as a boolean |
| YamlGenerating.ParseBooleanExamples | src/main/java/io/xlate/yamljson/YamlGenerator.java:96-99 | Any letter case of `true` is true; `yes`, `1`, ` true` and the empty text are false |
| YamlGenerating.DefaultSettings | src/main/java/io/xlate/yamljson/YamlGenerator.java:85-94 | With no properties, only the numeric-string switch is on |
| YamlGenerating.YamlGenerator.constructor | src/main/java/io/xlate/yamljson/YamlGenerator.java:85-94 | The configuration is as given; the context and output start empty |
| YamlGenerating.YamlGenerator.EnsureDocumentStarted | src/main/java/io/xlate/yamljson/YamlGenerator.java:105-110 | On an empty context, the stream and document start are emitted; otherwise nothing |
| YamlGenerating.YamlGenerator.WriteStartObject | src/main/java/io/xlate/yamljson/YamlGenerator.java:175-181 | Pushes OBJECT and emits MAPPING_START, preceded by the document start on an empty context |
| YamlGenerating.YamlGenerator.WriteStartArray | src/main/java/io/xlate/yamljson/YamlGenerator.java:200-206 | Pushes ARRAY and emits SEQUENCE_START, preceded by the document start on an empty context |
| YamlGenerating.YamlGenerator.WriteKey | src/main/java/io/xlate/yamljson/YamlGenerator.java:192-198 | Succeeds exactly in object context and then emits the key styled under the name check; otherwise fails and emits nothing |
| YamlGenerating.YamlGenerator.WriteStartObjectNamed | src/main/java/io/xlate/yamljson/YamlGenerator.java:183-190 | In object context: the key, then MAPPING_START, and OBJECT pushed. Otherwise it fails and nothing changes |
| YamlGenerating.YamlGenerator.WriteStartArrayNamed | src/main/java/io/xlate/yamljson/YamlGenerator.java:208-215 | In object context: the key, then SEQUENCE_START, and ARRAY pushed. Otherwise it fails and nothing changes |
| YamlGenerating.YamlGenerator.WriteEnd | src/main/java/io/xlate/yamljson/YamlGenerator.java:271-291 | With nothing open it fails and nothing changes. Otherwise it pops one context and emits the matching end, then the document and stream end if the context is now empty |
| YamlGenerating.YamlGenerator.WriteArgument | src/main/java/io/xlate/yamljson/YamlGenerator.java:339-398 | Emits exactly the overload's scalar (ArgumentEvent), whatever the context |
| YamlGenerating.YamlGenerator.WriteNamedArgument | src/main/java/io/xlate/yamljson/YamlGenerator.java:217-269 | In object context: the key, then the scalar. Otherwise it fails and emits nothing |
| YamlGenerating.YamlGenerator.Write | src/main/java/io/xlate/yamljson/YamlGenerator.java:293-337 | Emits exactly the value's trace, bracketed when the context was empty, and leaves the context as it was |
| YamlGenerating.YamlGenerator.WriteItems | src/main/java/io/xlate/yamljson/YamlGenerator.java:293-337 | An array: its start, each item's trace, its end; the context is restored |
| YamlGenerating.YamlGenerator.WriteEach | src/main/java/io/xlate/yamljson/YamlGenerator.java:293-337 | The items' traces in order, with the context unchanged |
| YamlGenerating.YamlGenerator.WriteMembers | src/main/java/io/xlate/yamljson/YamlGenerator.java:293-337 | An object: its start, each key and value, its end; the context is restored |
| YamlGenerating.YamlGenerator.WriteEachMember | src/main/java/io/xlate/yamljson/YamlGenerator.java:293-337 | Each key followed by its value's trace, in order, with the context unchanged |
| YamlGenerating.YamlGenerator.WriteNamed | src/main/java/io/xlate/yamljson/YamlGenerator.java:217-221 | In object context: the key, then the value's trace. Otherwise it fails and emits nothing |
| YamlGenerating.YamlGenerator.Close | src/main/java/io/xlate/yamljson/YamlGenerator.java:400-410 | Fails, as incomplete output, exactly when a structure is still open |
| AbstractGenerating.AbstractYamlGenerator.constructor | src/main/java/io/xlate/yamljson/AbstractYamlGenerator.java:69-75 | The configuration is as given; the context and output start empty |
| AbstractGenerating.AbstractYamlGenerator.EnsureDocumentStarted | src/main/java/io/xlate/yamljson/AbstractYamlGenerator.java:79-86 | On an empty context, the stream and document start are emitted; otherwise nothing |
| AbstractGenerating.AbstractYamlGenerator.WriteStartObject | src/main/java/io/xlate/yamljson/AbstractYamlGenerator.java:136-142 | Pushes OBJECT and emits MAPPING_START, preceded by the document start on an empty context |
| AbstractGenerating.AbstractYamlGenerator.WriteStartArray | src/main/java/io/xlate/yamljson/AbstractYamlGenerator.java:161-167 | Pushes ARRAY and emits SEQUENCE_START, preceded by the document start on an empty context |
| AbstractGenerating.AbstractYamlGenerator.WriteKey | src/main/java/io/xlate/yamljson/AbstractYamlGenerator.java:153-159 | Succeeds exactly in object context and then emits the key styled under the name check; otherwise fails and emits nothing |
| AbstractGenerating.AbstractYamlGenerator.WriteStartObjectNamed | src/main/java/io/xlate/yamljson/AbstractYamlGenerator.java:144-151 | In object context: the key, then MAPPING_START, and OBJECT pushed. Otherwise it fails and nothing changes |
| AbstractGenerating.AbstractYamlGenerator.WriteStartArrayNamed | src/main/java/io/xlate/yamljson/AbstractYamlGenerator.java:169-176 | In object context: the key, then SEQUENCE_START, and ARRAY pushed. Otherwise it fails and nothing changes |
| AbstractGenerating.AbstractYamlGenerator.WriteEnd | src/main/java/io/xlate/yamljson/AbstractYamlGenerator.java:232-254 | With nothing open it fails and nothing changes. Otherwise it pops one context and emits the matching end, then the document and stream end if the context is now empty |
| AbstractGenerating.AbstractYamlGenerator.WriteArgument | src/main/java/io/xlate/yamljson/AbstractYamlGenerator.java:301-359 | Emits exactly the overload's scalar (ArgumentEvent), whatever the context |
| AbstractGenerating.AbstractYamlGenerator.WriteNamedArgument | src/main/java/io/xlate/yamljson/AbstractYamlGenerator.java:178-230 | In object context: the key, then the scalar. Otherwise it fails and emits nothing |
| AbstractGenerating.AbstractYamlGenerator.Write | src/main/java/io/xlate/yamljson/AbstractYamlGenerator.java:256-299 | Emits exactly the value's trace, bracketed when the context was empty, and leaves the context as it was |
| AbstractGenerating.AbstractYamlGenerator.WriteItems | src/main/java/io/xlate/yamljson/AbstractYamlGenerator.java:256-299 | An array: its start, each item's trace, its end; the context is restored |
| AbstractGenerating.AbstractYamlGenerator.WriteEach | src/main/java/io/xlate/yamljson/AbstractYamlGenerator.java:256-299 | The items' traces in order, with the context unchanged |
| AbstractGenerating.AbstractYamlGenerator.WriteMembers | src/main/java/io/xlate/yamljson/AbstractYamlGenerator.java:256-299 | An object: its start, each key and value, its end; the context is restored |
| AbstractGenerating.AbstractYamlGenerator.WriteEachMember | src/main/java/io/xlate/yamljson/AbstractYamlGenerator.java:256-299 | Each key followed by its value's trace, in order, with the context unchanged |
| AbstractGenerating.AbstractYamlGenerator.WriteNamed | src/main/java/io/xlate/yamljson/AbstractYamlGenerator.java:178-182 | In object context: the key, then the value's trace. Otherwise it fails and emits nothing |
| AbstractGenerating.AbstractYamlGenerator.Close | src/main/java/io/xlate/yamljson/AbstractYamlGenerator.java:361-373 | Fails, as incomplete output, exactly when a structure is still open |
| Generating11.YamlGenerator1_1.constructor | src/main/java/io/xlate/yamljson/YamlGenerator1_1.java:80-84 | The configuration is as given; the context and output start empty |
| Generating11.YamlGenerator1_1.EnsureDocumentStarted | src/main/java/io/xlate/yamljson/YamlGenerator1_1.java:95-100 | On an empty context, the stream and document start are emitted; otherwise nothing |
| Generating11.YamlGenerator1_1.WriteStartObject | src/main/java/io/xlate/yamljson/YamlGenerator1_1.java:148-154 | Pushes OBJECT and emits MAPPING_START, preceded by the document start on an empty context |
| Generating11.YamlGenerator1_1.WriteStartArray | src/main/java/io/xlate/yamljson/YamlGenerator1_1.java:173-179 | Pushes ARRAY and emits SEQUENCE_START, preceded by the document start on an empty context |
| Generating11.YamlGenerator1_1.WriteKey | src/main/java/io/xlate/yamljson/YamlGenerator1_1.java:165-171 | Succeeds exactly in object context and then emits the key styled under the name check; otherwise fails and emits nothing |
| Generating11.YamlGenerator1_1.WriteStartObjectNamed | src/main/java/io/xlate/yamljson/YamlGenerator1_1.java:156-163 | In object context: the key, then MAPPING_START, and OBJECT pushed. Otherwise it fails and nothing changes |
| Generating11.YamlGenerator1_1.WriteStartArrayNamed | src/main/java/io/xlate/yamljson/YamlGenerator1_1.java:181-188 | In object context: the key, then SEQUENCE_START, and ARRAY pushed. Otherwise it fails and nothing changes |
| Generating11.YamlGenerator1_1.WriteEnd | src/main/java/io/xlate/yamljson/YamlGenerator1_1.java:244-264 | With nothing open it fails and nothing changes. Otherwise it pops one context and emits the matching end, then the document and stream end if the context is now empty |
| Generating11.YamlGenerator1_1.WriteArgument | src/main/java/io/xlate/yamljson/YamlGenerator1_1.java:311-369 | Emits exactly the overload's scalar (ArgumentEvent), whatever the context |
| Generating11.YamlGenerator1_1.WriteNamedArgument | src/main/java/io/xlate/yamljson/YamlGenerator1_1.java:190-242 | In object context: the key, then the scalar. Otherwise it fails and emits nothing |
| Generating11.YamlGenerator1_1.Write | src/main/java/io/xlate/yamljson/YamlGenerator1_1.java:266-309 | Emits exactly the value's trace, bracketed when the context was empty, and leaves the context as it was |
| Generating11.YamlGenerator1_1.WriteItems | src/main/java/io/xlate/yamljson/YamlGenerator1_1.java:266-309 | An array: its start, each item's trace, its end; the context is restored |
| Generating11.YamlGenerator1_1.WriteEach | src/main/java/io/xlate/yamljson/YamlGenerator1_1.java:266-309 | The items' traces in order, with the context unchanged |
| Generating11.YamlGenerator1_1.WriteMembers | src/main/java/io/xlate/yamljson/YamlGenerator1_1.java:266-309 | An object: its start, each key and value, its end; the context is restored |
| Generating11.YamlGenerator1_1.WriteEachMember | src/main/java/io/xlate/yamljson/YamlGenerator1_1.java:266-309 | Each key followed by its value's trace, in order, with the context unchanged |
| Generating11.YamlGenerator1_1.WriteNamed | src/main/java/io/xlate/yamljson/YamlGenerator1_1.java:190-194 | In object context: the key, then the value's trace. Otherwise it fails and emits nothing |
| Generating11.YamlGenerator1_1.Close | src/main/java/io/xlate/yamljson/YamlGenerator1_1.java:371-383 | Fails, as incomplete output, exactly when a structure is still open |
| ReaderWriter.YamlReader.constructor | src/main/java/io/xlate/yamljson/YamlReader.java:29-31 | A new reader is readable over its parser |
| ReaderWriter.YamlReader.ReadValue | src/main/java/io/xlate/yamljson/YamlReader.java:82-89 | Once only: an unreadable reader fails with nothing read. A parser failure leaves the reader readable. Success clears the flag, and the value is what the events the parser yielded during the call materialise to |
| ReaderWriter.YamlReader.Read | src/main/java/io/xlate/yamljson/YamlReader.java:33-42 | Like readValue, but a value that is neither array nor object is refused after it is read |
| ReaderWriter.YamlReader.ReadObject | src/main/java/io/xlate/yamljson/YamlReader.java:44-53 | Like read, but an array is refused |
| ReaderWriter.YamlReader.ReadArray | src/main/java/io/xlate/yamljson/YamlReader.java:55-64 | Like read, but an object is refused |
| ReaderWriter.YamlReader.Close | src/main/java/io/xlate/yamljson/YamlReader.java:66-70 | The reader is no longer readable |
| ReaderWriter.YamlWriter.constructor | src/main/java/io/xlate/yamljson/YamlWriter.java:30-32 | A new writer is writable over its generator |
| ReaderWriter.YamlWriter.Write | src/main/java/io/xlate/yamljson/YamlWriter.java:49-56 | Fails exactly when already used. A refused write passes nothing to the generator. An accepted one appends the value's trace and then clears the flag |
| ReaderWriter.YamlWriter.WriteArray | src/main/java/io/xlate/yamljson/YamlWriter.java:34-37 | Goes through the once-only write with the array |
| ReaderWriter.YamlWriter.WriteObject | src/main/java/io/xlate/yamljson/YamlWriter.java:39-42 | Goes through the once-only write with the object |
| ReaderWriter.YamlWriter.WriteStructure | src/main/java/io/xlate/yamljson/YamlWriter.java:44-47 | Goes through the once-only write with the structure |
| ReaderWriter.YamlWriter.Close | src/main/java/io/xlate/yamljson/YamlWriter.java:58-62 | Fails exactly when the generator has a structure open, and then stays writable; on success it is no longer writable |
| ReadingBack.StepReadsVisible | src/main/java/io/xlate/yamljson/YamlParser.java:903-935 | The tree builder reads only an event's type, text and number |
| ReadingBack.FlagStackAgrees | src/main/java/io/xlate/yamljson/YamlParser.java:464-476 | The key flags viewed as a stack agree with the parser's fixed array cut at the depth, for scalars, starts and ends |
| ReadingBack.StringReadsBackCases | src/main/java/io/xlate/yamljson/YamlGenerator.java:153-158 | When not minimising, every string reads back as a string. A plain string is never empty and reads back exactly when it does not resolve to a number |
| ReadingBack.NumericStringReadsAsNumber | src/main/java/io/xlate/yamljson/YamlGenerator.java:144-152 | Under the modelled StringQuotingChecker, whose value check has no number test, the string `10` is written plain by both rules and read back as the number 10 |
| ReadingBack.WrittenNullReadsBack | src/main/java/io/xlate/yamljson/YamlGenerator.java:394-398 | writeNull's scalar reads back as VALUE_NULL |
| ReadingBack.WrittenBooleanReadsBack | src/main/java/io/xlate/yamljson/YamlGenerator.java:388-392 | A boolean's scalar reads back as the same boolean |
| ReadingBack.WrittenIntegerReadsBack | src/main/java/io/xlate/yamljson/YamlGenerator.java:354-371 | An integer, or an integral BigDecimal, that fits a long reads back as that number |
| ReadingBack.WrittenNonFiniteClassifies | src/main/java/io/xlate/yamljson/YamlGenerator.java:373-386 | The infinities and NaN are read back as strings tagged with the same infinity or NaN |
| ReadingBack.ReadValue | src/main/java/io/xlate/yamljson/YamlGenerator.java:293-337 | Out of key position, the trace of a value that reads back reads as that value's own events, followed by what the rest reads as |
| ReadingBack.ReadMember | src/main/java/io/xlate/yamljson/YamlGenerator.java:217-221 | A key and its value read back as KEY_NAME with the key's text, followed by the value's events |
| ReadingBack.RoundTrip | src/main/java/io/xlate/yamljson/YamlGenerator.java:293-337 | For unique keys, long-sized integral numbers and strings that read back: the parser's events for write(JsonValue)'s output materialise to the value written |

## Left out

- The YAML tokenizer and emitter themselves, and the adapters over the two YAML libraries (SnakeYamlParser, SnakeYamlEngineParser, SnakeYamlGenerator, SnakeYamlEngineGenerator). The parser reads a given sequence of raw events, and the generators append YAML events to a sequence.
- The factories, the provider, the settings builder and `Yaml.java` are not part of this model.
- I/O:
  - closing or flushing the underlying stream: `close` of the parsers (src/main/java/io/xlate/yamljson/YamlParser.java:656-662, src/main/java/io/xlate/yamljson/AbstractYamlParser.java:409-416), `flush` and the writer's `close` of the generators;
  - the wrapping of `IOException` into `JsonException`;
  - logging.
- Exception messages. Every failure is a datatype value naming its cause, without the message text.
- The state a parser or generator is left in after it has thrown. The model stops at the failure.
- Floating point:
  - `DecimalFormat` and `Double.toString` are not modelled. A double is given as its text or as one of the three non-finite values.
  - The reading of float text is a parameter, `readDecimal`. The source reads it with a `DecimalFormat` set to parse `BigDecimal`, after replacing every `e` with `E` (src/main/java/io/xlate/yamljson/AbstractYamlParser.java:120-125, src/main/java/io/xlate/yamljson/YamlParser.java:232-237). The model makes that replacement itself, so `readDecimal` receives the text with `E` only (NumberParsing.ParseNumber, NumberParsing.UpperExponent). Integer, octal and hexadecimal text is parsed by the model itself.
- `int`, `long` and `BigInteger` arguments of the generators are one `IntegralArg` case, as all three are written with their decimal text.
- YamlParsing.YamlParser.IncrementDepth: the fixed array of 200 key flags is a sequence. Nesting past it is the failure `TooDeep`, where the source throws `ArrayIndexOutOfBoundsException`.
- AbstractParsing.AbstractYamlParser.IncrementDepth: as for the newer parser, with the failure `DepthOutOfRange`.
- AliasExpansion.CountExpansion: the source's recursion has no guard against a capture that contains an alias of its own anchor, and would not return there. The model reports such a cycle as `Diverges`. The parser never counts over such a capture: the alias that closes a cycle is counted before it is captured, and once current it replays without end (see Findings). The parser's alias rules are stated for that outcome, or under a ranking of the anchors that excludes cycles.
- ParserState.ClosedAliasAccepted: the corrected rule refuses an alias of an anchor that is still open. It does not cover a cycle formed through a re-declared anchor name, such as `- &a [1]`, `- &b [*a]`, `- &a [*b]`.
- YamlParsing.YamlParser.GetJsonValue: takes a `fuel` bound on the events it may read, and so do ReadValue and Skip. Running out of fuel is a failure, which the source cannot have.
- YamlParsing.YamlParser.Skip: `fuel` as for GetJsonValue.
- ReaderWriter.YamlReader.ReadValue: `fuel` as for GetJsonValue.
- Emission.ValueTrace: its own contract bounds only the length. What the trace is, is stated by Emission.DocumentBrackets, Emission.ScalarTraceIsArgument and ReadingBack.RoundTrip.
- AbstractParsing.AbstractYamlParser.GetLineNumber: the 32-bit increment is stated for values in range and for the one that wraps. Mark values below the `int` range cannot come from the source.
- AbstractParsing.AbstractYamlParser.GetColumnNumber: as for GetLineNumber.
- AbstractParsing.AbstractYamlParser has no event history and so no `getValue`/`getObject`/`getArray`/`skip`. That revision's parser inherits them from the JSON-P defaults, which are not part of this model.
- YamlGenerating.YamlGenerator: the quoteNumericStrings setting is read but has no effect. src/main/java/io/xlate/yamljson/YamlGenerator.java:93 passes it to a StringQuotingChecker constructor that the StringQuotingChecker.java modelled here lacks: that file comes from an earlier revision, with a no-argument constructor and no number test in its value check (src/main/java/io/xlate/yamljson/StringQuotingChecker.java:9-27). The model uses that checker, so under it a numeric string is written plain and read back as a number (ReadingBack.NumericStringReadsAsNumber). The later revision quotes numeric strings by default (src/main/java/io/xlate/yamljson/Yaml.java:209-215, src/test/java/io/xlate/yamljson/YamlGeneratorTest.java:170 and 427-455); that behaviour is not modelled.
- YamlGenerating.EqualsIgnoreCase: compares with ASCII case folding only. Full Unicode folding is not modelled.
- ReaderWriter.YamlWriter is modelled over the YamlGenerator revision only.
- ReadingBack.RoundTrip assumes the YAML emitter and reader keep each scalar's text and its plain or quoted style. It is stated for:
  - integral numbers in the `long` range, as other numbers depend on the decimal text parser;
  - strings that read back as strings.

## Findings

| source | as written | input that shows it | evidently intended | confidence | as-written member | corrected member |
|---|---|---|---|---|---|---|
| src/main/java/io/xlate/yamljson/YamlParser.java:160-189 | An alias is counted against `maxAliasExpansionSize` when it is read (line 432), but captured into every open anchor only when it becomes current (line 175). An alias of an anchor still open is captured into that anchor, and its replay contains the alias itself. Replayed entries are not captured again, and the replayed alias expands to the same events. | `&a [*a]`: at the alias, `a` holds only its sequence start, so the count is 0 and the alias passes any positive ceiling. From then on, every `next()` returns START_ARRAY, and the sequence end is never read. | an alias whose expansion has no end is refused, as the ceiling intends | not executed | ParserState.SelfAliasReplaysForever | ParserState.ClosedAliasNeverSelfCaptured |
| src/main/java/io/xlate/yamljson/YamlParser.java:633-640 | `hasNext` fills the queues. When that translates a new raw event, `enqueueEvent` (line 502) clears `currentNumber`, the number of the event already returned. | The sequence `[10, 20]`: after `next()` returns the first VALUE_NUMBER, `getBigDecimal()` gives 10. Once `hasNext()` has been called, it gives no value, and `getLong()` dereferences null. | `hasNext` only looks ahead and leaves the current event's value alone | not executed | YamlParsing.HasNextClearsNumber | YamlParsing.HasNextKeepingNumberKeepsIt |
