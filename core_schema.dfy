/** Resolution of plain YAML scalars to JSON events under the YAML 1.2
    Core Schema (section 10.3.2 of the YAML 1.2 specification): the
    literal sets for null, booleans, infinities and NaN, the number
    types, a declarative reference resolver and the first-character
    dispatch both parsers use, proved equal to it. */
module CoreSchema {
  import opened YamlNumbers
  import opened Json

  const NullValues: set<string> := {"null", "Null", "NULL", "~"}
  const TrueValues: set<string> := {"true", "True", "TRUE"}
  const FalseValues: set<string> := {"false", "False", "FALSE"}
  const InfinityValues: set<string> :=
    {CanonicalPositiveInfinity, ".Inf", ".INF",
     "+.inf", "+.Inf", "+.INF",
     CanonicalNegativeInfinity, "-.Inf", "-.INF"}
  const NaNValues: set<string> := {CanonicalNaN, ".NaN", ".NAN"}

  /** How the text of a resolved scalar is to be read as a number. */
  datatype NumberType =
    | Integer | Float | PositiveInfinity | NegativeInfinity | NaN
    | Octal | Hexadecimal | NoNumber
  {
    /** Characters of prefix (`0o`, `0x`) to skip before the digits. */
    function Start(): nat {
      if this == Octal || this == Hexadecimal then 2 else 0
    }

    function Radix(): nat {
      if this == Octal then 8 else if this == Hexadecimal then 16 else 10
    }
  }

  /** The JSON event a scalar becomes and how its text reads as a number. */
  datatype Resolution = Resolution(event: JsonEvent, numberType: NumberType)

  /** First characters that send a plain scalar to the number checks. */
  predicate IsNumericLead(c: char) { IsDigit(c) || c == '.' || IsSign(c) }

  /** Reference resolution of a non-empty plain scalar, stated over the
      literal sets and the number predicates rather than by first
      character.  Number text must start with a digit, a `.` or a sign;
      the prefixed forms are tried before decimal integers, and decimal
      integers before floats. */
  function Resolve(text: string): Resolution
    requires |text| > 0
  {
    if text in NullValues then Resolution(ValueNull, NoNumber)
    else if text in TrueValues then Resolution(ValueTrue, NoNumber)
    else if text in FalseValues then Resolution(ValueFalse, NoNumber)
    else if text in InfinityValues then
      Resolution(ValueString, if text[0] == '-' then NegativeInfinity else PositiveInfinity)
    else if text in NaNValues then Resolution(ValueString, NaN)
    else if !IsNumericLead(text[0]) then Resolution(ValueString, NoNumber)
    else if OctalText(text) then Resolution(ValueNumber, Octal)
    else if HexText(text) then Resolution(ValueNumber, Hexadecimal)
    else if IntegerText(text) then Resolution(ValueNumber, Integer)
    else if FloatText(text) then Resolution(ValueNumber, Float)
    else Resolution(ValueString, NoNumber)
  }

  /** The first-character dispatch of the parsers' `enqueueDataElement`
      and its `enqueue*Prefixed*`, `enqueueNumberOrString` and
      `enqueueConstantOrString` helpers: a candidate that fails its full
      check falls back to a string. */
  method ResolvePlain(text: string) returns (r: Resolution)
    requires |text| > 0
    ensures r == Resolve(text)
  {
    var c := text[0];
    if c == 'n' || c == 'N' || c == '~' {
      r := Resolution(if text in NullValues then ValueNull else ValueString, NoNumber);
    } else if c == 't' || c == 'T' {
      r := Resolution(if text in TrueValues then ValueTrue else ValueString, NoNumber);
    } else if c == 'f' || c == 'F' {
      r := Resolution(if text in FalseValues then ValueFalse else ValueString, NoNumber);
    } else if c == '0' {
      var octal := IsOctal(text);
      if octal {
        r := Resolution(ValueNumber, Octal);
      } else {
        var hex := IsHexadecimal(text);
        if hex {
          r := Resolution(ValueNumber, Hexadecimal);
        } else {
          r := ResolveNumberOrString(text);
        }
      }
    } else if '1' <= c <= '9' {
      r := ResolveNumberOrString(text);
    } else if c == '.' {
      if text in InfinityValues {
        r := Resolution(ValueString, PositiveInfinity);
      } else if text in NaNValues {
        r := Resolution(ValueString, NaN);
      } else {
        var float := IsFloat(text);
        r := Resolution(if float then ValueNumber else ValueString, if float then Float else NoNumber);
      }
    } else if c == '+' {
      if text in InfinityValues {
        r := Resolution(ValueString, PositiveInfinity);
      } else {
        r := ResolveNumberOrString(text);
      }
    } else if c == '-' {
      if text in InfinityValues {
        r := Resolution(ValueString, NegativeInfinity);
      } else {
        r := ResolveNumberOrString(text);
      }
    } else {
      r := Resolution(ValueString, NoNumber);
    }
  }

  /** Decimal integer first, then float, else a string. */
  method ResolveNumberOrString(text: string) returns (r: Resolution)
    requires |text| > 0
    ensures IntegerText(text) ==> r == Resolution(ValueNumber, Integer)
    ensures !IntegerText(text) && FloatText(text) ==> r == Resolution(ValueNumber, Float)
    ensures !IntegerText(text) && !FloatText(text) ==> r == Resolution(ValueString, NoNumber)
  {
    var integer := IsInteger(text);
    if integer {
      return Resolution(ValueNumber, Integer);
    }
    var float := IsFloat(text);
    if float {
      return Resolution(ValueNumber, Float);
    }
    return Resolution(ValueString, NoNumber);
  }

  // ---------------------------------------------------------------------------
  // Properties of the resolution
  // ---------------------------------------------------------------------------

  /** Null and the booleans are recognised exactly by their literal sets. */
  lemma ResolveConstants(text: string)
    requires |text| > 0
    ensures Resolve(text).event == ValueNull <==> text in NullValues
    ensures Resolve(text).event == ValueTrue <==> text in TrueValues
    ensures Resolve(text).event == ValueFalse <==> text in FalseValues
    ensures Resolve(text).event in {ValueNull, ValueTrue, ValueFalse} ==> Resolve(text).numberType == NoNumber
  {
  }

  /** Infinities and NaN stay strings and carry a number tag; the tag is
      negative exactly for the `-` spellings. */
  lemma ResolveNonFinite(text: string)
    requires |text| > 0
    ensures Resolve(text).numberType in {PositiveInfinity, NegativeInfinity, NaN} <==>
            text in InfinityValues + NaNValues
    ensures text in InfinityValues + NaNValues ==> Resolve(text).event == ValueString
    ensures Resolve(text).numberType == NegativeInfinity <==> text in InfinityValues && text[0] == '-'
  {
  }

  /** A number event's tag agrees with its text: octal and hexadecimal
      texts carry their prefix, integer texts are signed digit strings and
      every other number text is float text. */
  lemma ResolveNumberTags(text: string)
    requires |text| > 0
    ensures Resolve(text).event == ValueNumber <==>
            Resolve(text).numberType in {Integer, Float, Octal, Hexadecimal}
    ensures Resolve(text).numberType == Octal ==> OctalText(text)
    ensures Resolve(text).numberType == Hexadecimal ==> HexText(text)
    ensures Resolve(text).numberType == Integer ==> IntegerText(text) && FloatText(text)
    ensures Resolve(text).numberType == Float ==> FloatText(text) && !IntegerText(text)
    ensures Resolve(text).event == ValueNumber ==> IsNumericLead(text[0])
  {
    if Resolve(text).numberType == Integer {
      IntegerIsFloat(text);
    }
  }

  /** Everything that is not a literal, a non-finite spelling or number
      text resolves to a plain string with no number tag. */
  lemma ResolveFallback(text: string)
    requires |text| > 0
    requires text !in NullValues + TrueValues + FalseValues + InfinityValues + NaNValues
    requires !IsNumericLead(text[0]) || !(FloatText(text) || OctalText(text) || HexText(text))
    ensures Resolve(text) == Resolution(ValueString, NoNumber)
  {
    if IntegerText(text) {
      IntegerIsFloat(text);
    }
  }

  /** Prefixed and decimal integer scalars from the parser tests. */
  lemma ResolveIntegerExamples()
    ensures Resolve("0o10") == Resolution(ValueNumber, Octal)
    ensures Resolve("0x10") == Resolution(ValueNumber, Hexadecimal)
    ensures Resolve("10") == Resolution(ValueNumber, Integer)
    ensures Resolve("+10") == Resolution(ValueNumber, Integer)
    ensures Resolve("-10") == Resolution(ValueNumber, Integer)
  {
    assert !OctalText("0x10") by { assert !IsOctalDigit("0x10"[1]); }
  }

  /** Float scalars from the parser tests. */
  lemma ResolveFloatExamples()
    ensures Resolve("1.0") == Resolution(ValueNumber, Float)
    ensures Resolve(".101") == Resolution(ValueNumber, Float)
    ensures Resolve("-1E-5") == Resolution(ValueNumber, Float)
  {
    assert !IntegerText("1.0") by { assert !IsDigit("1.0"[1]); }
    assert !IntegerText(".101") by { assert !IsDigit(".101"[0]); }
    assert !IntegerText("-1E-5") by { assert !IsDigit("-1E-5"[2]); }
  }

  /** Constant and non-finite scalars from the parser tests. */
  lemma ResolveLiteralExamples()
    ensures Resolve(".inf") == Resolution(ValueString, PositiveInfinity)
    ensures Resolve("+.Inf") == Resolution(ValueString, PositiveInfinity)
    ensures Resolve("-.INF") == Resolution(ValueString, NegativeInfinity)
    ensures Resolve(".NaN") == Resolution(ValueString, NaN)
    ensures Resolve("True") == Resolution(ValueTrue, NoNumber)
    ensures Resolve("FALSE") == Resolution(ValueFalse, NoNumber)
    ensures Resolve("null") == Resolution(ValueNull, NoNumber)
  {
  }

  /** Scalars from the parser tests that look like floats but fall back
      to strings: a second exponent marker, a second `.`. */
  lemma ResolveMalformedFloatExamples()
    ensures Resolve(".00e5e6") == Resolution(ValueString, NoNumber)
    ensures Resolve("-.00.6") == Resolution(ValueString, NoNumber)
  {
    var a := ".00e5e6";
    assert Resolve(a) == Resolution(ValueString, NoNumber) by {
      assert !IntegerText(a) by { assert !IsDigit(a[0]); }
      assert !FloatText(a) by { assert IsExponent(a[3]) && IsExponent(a[5]); }
    }
    var b := "-.00.6";
    assert Resolve(b) == Resolution(ValueString, NoNumber) by {
      assert !IntegerText(b) by { assert !IsDigit(b[1]); }
      assert !FloatText(b) by { assert b[1] == '.' && b[4] == '.'; }
    }
  }

  /** Scalars from the parser tests that look like octal or hexadecimal
      numbers but fall back to strings. */
  lemma ResolvePrefixExamples()
    ensures Resolve("0x0Z") == Resolution(ValueString, NoNumber)
    ensures Resolve("0o") == Resolution(ValueString, NoNumber)
  {
    var c := "0x0Z";
    assert !HexText(c) by { assert !IsHexDigit(c[3]); }
    assert !IntegerText(c) && !FloatText(c) by { assert !IsFloatChar(c[1]); }
    var d := "0o";
    assert !IntegerText(d) && !FloatText(d) by { assert !IsFloatChar(d[1]); }
  }

  /** Scalars from the parser tests that start like a literal or a signed
      number but fall back to strings. */
  lemma ResolveWordExamples()
    ensures Resolve("not null") == Resolution(ValueString, NoNumber)
    ensures Resolve("+Not") == Resolution(ValueString, NoNumber)
  {
    var e := "+Not";
    assert !IntegerText(e) && !FloatText(e) by { assert !IsFloatChar(e[1]); }
  }
}
