/** The quoting checker: decides whether a mapping key or a string value
    must be quoted so that it survives plain style (section 7.3.3 of the
    YAML 1.2 specification) and reads back as the same string. */
module StringQuoting {
  import opened YamlNumbers
  import opened CoreSchema

  /** A blank is a space or a tab, nothing else; a blank is never itself
      an indicator and never part of number text. */
  function IsBlank(c: char): (r: bool)
    ensures r ==> !IsFloatChar(c) && c != '#' && c != ':' && c !in "[]{},"
  {
    c == ' ' || c == '\t'
  }

  /** The flow indicators `[ ] { } ,`, none of which occurs in number
      text. */
  function IsFlowIndicator(c: char): (r: bool)
    ensures r ==> !IsFloatChar(c) && !IsBlank(c)
  {
    c == '[' || c == ']' || c == '{' || c == '}' || c == ','
  }

  /** The empty string, or a text whose first character is one of the
      reserved initials and that belongs to the literal set for that
      initial. */
  function IsReservedKeyword(value: string): (r: bool)
    ensures r <==> value == "" || value in NullValues + TrueValues + FalseValues
  {
    if |value| == 0 then true
    else
      match value[0]
      case 'f' => value in FalseValues
      case 'F' => value in FalseValues
      case 'n' => value in NullValues
      case 'N' => value in NullValues
      case '~' => value in NullValues
      case 't' => value in TrueValues
      case 'T' => value in TrueValues
      case _ => false
  }

  /** The position opens the text or follows a blank; a `#` there starts
      a comment, so the text needs quotes. */
  function PrecededByBlank(s: string, offset: nat): (r: bool)
    requires offset < |s|
    ensures r && s[offset] == '#' ==> HasQuotableChar(s)
  {
    offset == 0 || IsBlank(s[offset - 1])
  }

  /** The position closes the text or precedes a blank; a `:` there ends a
      mapping key, so the text needs quotes. */
  function FollowedByBlank(s: string, offset: nat): (r: bool)
    requires offset < |s|
    ensures r && s[offset] == ':' ==> HasQuotableChar(s)
  {
    offset == |s| - 1 || IsBlank(s[offset + 1])
  }

  /** The character at `i` on its own forces quoting. */
  predicate QuotableAt(s: string, i: nat)
    requires i < |s|
  {
    IsFlowIndicator(s[i]) ||
    (s[i] == '#' && PrecededByBlank(s, i)) ||
    (s[i] == ':' && FollowedByBlank(s, i))
  }

  /** The text contains a flow indicator, could open a comment (`#` at the
      start or after a blank) or could end a mapping key (`:` at the end or
      before a blank). */
  predicate HasQuotableChar(s: string) {
    (exists i :: 0 <= i < |s| && IsFlowIndicator(s[i])) ||
    (|s| > 0 && (s[0] == '#' || s[|s| - 1] == ':')) ||
    (exists i :: 0 <= i < |s| - 1 && IsBlank(s[i]) && s[i + 1] == '#') ||
    (exists i :: 0 <= i < |s| - 1 && s[i] == ':' && IsBlank(s[i + 1]))
  }

  /** The scanning check over the characters of a value. */
  method ValueHasQuotableChar(inputStr: string) returns (b: bool)
    ensures b <==> HasQuotableChar(inputStr)
  {
    var i := 0;
    while i < |inputStr|
      invariant 0 <= i <= |inputStr|
      invariant forall k :: 0 <= k < i ==> !QuotableAt(inputStr, k)
    {
      var c := inputStr[i];
      if c == '[' || c == ']' || c == '{' || c == '}' || c == ',' {
        QuotableAtWitness(inputStr, i);
        return true;
      } else if c == '#' {
        if PrecededByBlank(inputStr, i) {
          QuotableAtWitness(inputStr, i);
          return true;
        }
      } else if c == ':' {
        if FollowedByBlank(inputStr, i) {
          QuotableAtWitness(inputStr, i);
          return true;
        }
      }
      i := i + 1;
    }
    NoQuotableAt(inputStr);
    return false;
  }

  /** A quotable character at some index makes the text quotable. */
  lemma QuotableAtWitness(s: string, i: nat)
    requires i < |s| && QuotableAt(s, i)
    ensures HasQuotableChar(s)
  {
    if s[i] == '#' && i > 0 {
      assert IsBlank(s[i - 1]) && s[i - 1 + 1] == '#';
    } else if s[i] == ':' && i < |s| - 1 {
      assert s[i] == ':' && IsBlank(s[i + 1]);
    }
  }

  /** A text with no quotable character at any index is not quotable. */
  lemma NoQuotableAt(s: string)
    requires forall k :: 0 <= k < |s| ==> !QuotableAt(s, k)
    ensures !HasQuotableChar(s)
  {
    if |s| > 0 {
      assert !QuotableAt(s, 0) && !QuotableAt(s, |s| - 1);
    }
    forall i | 0 <= i < |s| ensures !IsFlowIndicator(s[i]) {
      assert !QuotableAt(s, i);
    }
    forall i | 0 <= i < |s| - 1
      ensures !(IsBlank(s[i]) && s[i + 1] == '#') && !(s[i] == ':' && IsBlank(s[i + 1]))
    {
      assert !QuotableAt(s, i) && !QuotableAt(s, i + 1);
    }
  }

  /** The text needs quotes exactly when some position on its own forces
      them: the declarative rule and the scan agree. */
  lemma QuotableCharIffSomeIndex(s: string)
    ensures HasQuotableChar(s) <==> exists i :: 0 <= i < |s| && QuotableAt(s, i)
  {
    if exists i :: 0 <= i < |s| && QuotableAt(s, i) {
      var i :| 0 <= i < |s| && QuotableAt(s, i);
      QuotableAtWitness(s, i);
    } else {
      NoQuotableAt(s);
    }
  }

  /** A key is quoted when it is reserved or reads as a float, which
      includes every integer: the empty key, any key the reader would
      resolve to null, true or false, and any float text. */
  function NeedToQuoteName(name: string): (r: bool)
    ensures name == "" ==> r
    ensures |name| > 0 ==>
              (r <==> Resolve(name).event in {Json.ValueNull, Json.ValueTrue, Json.ValueFalse} || FloatText(name))
  {
    if |name| > 0 then ResolveConstants(name); IsReservedKeyword(name) || FloatText(name)
    else true
  }

  /** A value is quoted when it is reserved or has a quotable character;
      numeric-looking text does not count. Outside the empty value, that
      is a value the reader would resolve to null, true or false, or one
      with a position that forces quoting. */
  function NeedToQuoteValue(value: string): (r: bool)
    ensures value == "" ==> r
    ensures |value| > 0 ==>
              (r <==> Resolve(value).event in {Json.ValueNull, Json.ValueTrue, Json.ValueFalse} ||
                      exists i :: 0 <= i < |value| && QuotableAt(value, i))
  {
    if |value| > 0 then
      ResolveConstants(value);
      QuotableCharIffSomeIndex(value);
      IsReservedKeyword(value) || HasQuotableChar(value)
    else true
  }

  // ---------------------------------------------------------------------------
  // Properties
  // ---------------------------------------------------------------------------

  /** Exactly the texts the reader resolves to null, true or false are
      reserved: a value written without quotes keeps its string type with
      respect to the constants. */
  lemma ReservedIffConstant(value: string)
    requires |value| > 0
    ensures IsReservedKeyword(value) <==> Resolve(value).event in {Json.ValueNull, Json.ValueTrue, Json.ValueFalse}
  {
    ResolveConstants(value);
  }

  /** A flow indicator anywhere forces a value to be quoted. */
  lemma FlowIndicatorForcesQuoting(value: string, i: nat)
    requires i < |value| && IsFlowIndicator(value[i])
    ensures NeedToQuoteValue(value)
  {
  }

  /** Flow indicators never force a key to be quoted: such a key is
      neither reserved nor float text. */
  lemma FlowIndicatorKeepsNamePlain(name: string, i: nat)
    requires i < |name| && IsFlowIndicator(name[i])
    ensures !NeedToQuoteName(name)
  {
    assert !IsFloatChar(name[i]);
  }

  /** Every non-empty float text, and so every integer, is written as a
      plain value: it is neither reserved nor quotable. */
  lemma NumericValueStaysPlain(value: string)
    requires |value| > 0 && FloatText(value)
    ensures !NeedToQuoteValue(value)
  {
    assert IsFloatChar(value[0]);
    forall i | 0 <= i < |value| ensures !IsFlowIndicator(value[i]) && !IsBlank(value[i]) && value[i] != ':' && value[i] != '#' {
      assert IsFloatChar(value[i]);
    }
  }

  /** Every non-empty float text, and so every integer, is quoted as a key. */
  lemma NumericNameQuoted(name: string)
    requires |name| > 0 && (FloatText(name) || IntegerText(name))
    ensures NeedToQuoteName(name)
  {
    if IntegerText(name) {
      IntegerIsFloat(name);
    }
  }

  /** In a text whose only indicator character is one `#`, quoting is
      forced exactly when the `#` stands first or after a blank. */
  lemma HashRule(s: string, i: nat)
    requires i < |s| && s[i] == '#'
    requires forall k :: 0 <= k < |s| && k != i ==> !IsFlowIndicator(s[k]) && s[k] != '#' && s[k] != ':'
    ensures HasQuotableChar(s) <==> i == 0 || IsBlank(s[i - 1])
  {
    if i == 0 || IsBlank(s[i - 1]) {
      QuotableAtWitness(s, i);
    } else {
      forall k | 0 <= k < |s| ensures !QuotableAt(s, k) {
      }
      NoQuotableAt(s);
    }
  }

  /** In a text whose only indicator character is one `:`, quoting is
      forced exactly when the `:` stands last or before a blank. */
  lemma ColonRule(s: string, i: nat)
    requires i < |s| && s[i] == ':'
    requires forall k :: 0 <= k < |s| && k != i ==> !IsFlowIndicator(s[k]) && s[k] != '#' && s[k] != ':'
    ensures HasQuotableChar(s) <==> i == |s| - 1 || IsBlank(s[i + 1])
  {
    if i == |s| - 1 || IsBlank(s[i + 1]) {
      QuotableAtWitness(s, i);
    } else {
      forall k | 0 <= k < |s| ensures !QuotableAt(s, k) {
      }
      NoQuotableAt(s);
    }
  }

  /** Values from the generator tests. */
  lemma QuotingExamples()
    ensures NeedToQuoteValue("ends with colon:")
    ensures NeedToQuoteValue("#hash at the start")
    ensures NeedToQuoteValue("tab\t#")
    ensures !NeedToQuoteValue("with:colon")
  {
    var a := "with:colon";
    assert !QuotableAt(a, 4);
    forall k | 0 <= k < |a| ensures !QuotableAt(a, k) {
    }
    NoQuotableAt(a);
    assert !IsReservedKeyword(a);
    assert QuotableAt("tab\t#", 4);
    QuotableAtWitness("tab\t#", 4);
    assert QuotableAt("ends with colon:", 15);
    QuotableAtWitness("ends with colon:", 15);
    QuotableAtWitness("#hash at the start", 0);
  }

  /** Keys from the generator tests. */
  lemma NameQuotingExamples()
    ensures !NeedToQuoteName("array[]")
    ensures NeedToQuoteName("false") && NeedToQuoteName("100")
  {
    FlowIndicatorKeepsNamePlain("array[]", 5);
    NumericNameQuoted("100");
    assert IsReservedKeyword("false");
  }
}
