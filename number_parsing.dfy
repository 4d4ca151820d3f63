/** Reading the number of a resolved scalar: `Long.parseLong` for
    decimal, octal and hexadecimal integers, an injected decimal reader
    for floats, and the queue-side rule that fills in the number of a
    number event. */
module NumberParsing {
  import opened Wrappers
  import opened YamlNumbers
  import opened Json
  import opened CoreSchema

  /** The range of a 64-bit signed `long`. */
  const LongMin: int := -0x8000_0000_0000_0000
  const LongMax: int := 0x7FFF_FFFF_FFFF_FFFF

  /** The ways reading a number can fail. */
  datatype NumberError =
    | NumberFormat(text: string)   // the integer text is not a long
    | NothingParsed(text: string)  // the float reader found no number

  /** The value of a digit character in a radix up to 36, if it is one:
      `0`-`9`, then letters of either case from 10 on. */
  function DigitValue(c: char, radix: nat): (d: Option<nat>)
    ensures d.Some? <==> (IsDigit(c) && c as int - '0' as int < radix) ||
                         ('a' <= c <= 'z' && c as int - 'a' as int + 10 < radix) ||
                         ('A' <= c <= 'Z' && c as int - 'A' as int + 10 < radix)
    ensures d.Some? ==> d.value < radix
  {
    var v := if '0' <= c <= '9' then c as int - '0' as int
             else if 'a' <= c <= 'z' then c as int - 'a' as int + 10
             else if 'A' <= c <= 'Z' then c as int - 'A' as int + 10
             else radix;
    if v < radix then Some(v) else None
  }

  predicate AllDigits(s: string, radix: nat) {
    forall i :: 0 <= i < |s| ==> DigitValue(s[i], radix).Some?
  }

  /** The value of a string of digits, most significant first. */
  function DigitsValue(s: string, radix: nat): nat
    requires AllDigits(s, radix)
  {
    if |s| == 0 then 0
    else DigitsValue(s[..|s| - 1], radix) * radix + DigitValue(s[|s| - 1], radix).value
  }

  /** `Long.parseLong(s, radix)`: an optional sign, then at least one
      digit of the radix; the value must fit in a long. */
  function ParseLong(s: string, radix: nat): Result<int, NumberError>
  {
    var start := if |s| > 0 && IsSign(s[0]) then 1 else 0;
    if |s| <= start || !AllDigits(s[start..], radix) then Err(NumberFormat(s))
    else
      var magnitude: int := DigitsValue(s[start..], radix);
      var v: int := if s[0] == '-' then -magnitude else magnitude;
      if LongMin <= v <= LongMax then Ok(v) else Err(NumberFormat(s))
  }

  /** Reads the number of a scalar of the given number type: integers
      after their 0- or 2-character prefix in their radix, with scale 0;
      floats by the decimal reader after `e` is replaced with `E`; any
      other type has no number. */
  function ParseNumber(numberType: NumberType, text: string, readDecimal: string -> Option<Decimal>): Result<Option<Decimal>, NumberError>
  {
    match numberType
    case Octal | Integer | Hexadecimal =>
      if |text| < numberType.Start() then Err(NumberFormat(text))
      else
        var parsed := ParseLong(text[numberType.Start()..], numberType.Radix());
        if parsed.Err? then Err(parsed.error) else Ok(Some(Decimal(parsed.value, 0)))
    case Float => Ok(readDecimal(UpperExponent(text)))
    case _ => Ok(None)
  }

  /** The text with every `e` replaced by `E`. */
  function UpperExponent(text: string): (r: string)
    ensures |r| == |text|
    ensures forall i :: 0 <= i < |r| ==> r[i] == (if text[i] == 'e' then 'E' else text[i])
  {
    if |text| == 0 then []
    else [if text[0] == 'e' then 'E' else text[0]] + UpperExponent(text[1..])
  }

  /** Float text reaches the decimal reader with every exponent marker in
      upper case: the reader never sees `e`, and two texts that differ
      only in the case of their markers read alike. */
  lemma ExponentCaseIgnored(a: string, b: string, readDecimal: string -> Option<Decimal>)
    requires |a| == |b|
    requires forall i :: 0 <= i < |a| ==> a[i] == b[i] || (IsExponent(a[i]) && IsExponent(b[i]))
    ensures 'e' !in UpperExponent(a)
    ensures ParseNumber(Float, a, readDecimal) == ParseNumber(Float, b, readDecimal)
  {
    assert UpperExponent(a) == UpperExponent(b);
  }

  /** The number stored with a queued event: a number event keeps the
      number it already has, or else its text is parsed and a parse that
      yields nothing fails (`requireNonNullElseGet`); every other event
      carries the unset number. */
  function NumberValue(event: JsonEvent, numberType: NumberType, value: string, stored: Option<Decimal>,
                       readDecimal: string -> Option<Decimal>): (r: Result<Decimal, NumberError>)
    ensures event != ValueNumber ==> r == Ok(Unset)
    ensures event == ValueNumber && stored.Some? ==> r == Ok(stored.value)
    ensures event == ValueNumber && stored.None? ==>
              (r.Ok? <==> ParseNumber(numberType, value, readDecimal).Ok? && ParseNumber(numberType, value, readDecimal).value.Some?)
  {
    if event != ValueNumber then Ok(Unset)
    else if stored.Some? then Ok(stored.value)
    else
      match ParseNumber(numberType, value, readDecimal)
      case Err(e) => Err(e)
      case Ok(None) => Err(NothingParsed(value))
      case Ok(Some(d)) => Ok(d)
  }

  // ---------------------------------------------------------------------------
  // Rendering integers, the inverse of parsing
  // ---------------------------------------------------------------------------

  /** The digit character for a value below 36: `0`-`9`, then `a`-`z`. */
  function DigitChar(d: nat): char
    requires d < 36
  {
    if d < 10 then ('0' as int + d) as char else ('a' as int + d - 10) as char
  }

  /** The digits of a natural number in a radix, most significant first,
      without leading zeros. */
  function Digits(m: nat, radix: nat): (s: string)
    requires 2 <= radix <= 36
    ensures |s| > 0
    decreases m
  {
    if m < radix then [DigitChar(m)]
    else DivLess(m, radix); Digits(m / radix, radix) + [DigitChar(m % radix)]
  }

  /** A long written the way `Long.toString(n, radix)` writes it. */
  function LongText(n: int, radix: nat): string
    requires 2 <= radix <= 36
  {
    if n < 0 then "-" + Digits(-n, radix) else Digits(n, radix)
  }

  lemma DigitCharValue(d: nat, radix: nat)
    requires d < radix <= 36
    ensures DigitValue(DigitChar(d), radix) == Some(d)
    ensures !IsSign(DigitChar(d))
  {
  }

  /** Appending a digit multiplies the value by the radix and adds it. */
  lemma AppendDigit(p: string, d: nat, radix: nat)
    requires 2 <= radix <= 36 && d < radix && AllDigits(p, radix)
    ensures AllDigits(p + [DigitChar(d)], radix)
    ensures DigitsValue(p + [DigitChar(d)], radix) == DigitsValue(p, radix) * radix + d
  {
    var s := p + [DigitChar(d)];
    DigitCharValue(d, radix);
    assert s[..|s| - 1] == p;
  }

  lemma DivMod(m: nat, radix: nat)
    requires radix > 1
    ensures (m / radix) * radix + m % radix == m
  {
  }

  lemma DivLess(m: nat, radix: nat)
    requires m > 0 && radix > 1
    ensures m / radix < m
  {
    var q := m / radix;
    DivMod(m, radix);
    if q > 0 {
      MulAtLeastDouble(q, radix);
    }
  }

  lemma {:induction false} MulAtLeastDouble(q: nat, k: nat)
    requires k >= 2
    ensures q * k >= q * 2
    decreases k
  {
    if k > 2 {
      MulAtLeastDouble(q, k - 1);
      assert q * k == q * (k - 1) + q;
    }
  }

  /** The digits of `m` are digits of the radix and read back as `m`. */
  lemma {:induction false} DigitsRoundTrip(m: nat, radix: nat)
    requires 2 <= radix <= 36
    ensures AllDigits(Digits(m, radix), radix)
    ensures DigitsValue(Digits(m, radix), radix) == m
    ensures !IsSign(Digits(m, radix)[0])
  {
    if m < radix {
      DigitCharValue(m, radix);
      AppendDigit([], m, radix);
      assert [] + [DigitChar(m)] == Digits(m, radix);
    } else {
      var q, d := m / radix, m % radix;
      DivMod(m, radix);
      DivLess(m, radix);
      assert Digits(m, radix) == Digits(q, radix) + [DigitChar(d)];
      DigitsRoundTrip(q, radix);
      AppendDigit(Digits(q, radix), d, radix);
      assert Digits(m, radix)[0] == Digits(q, radix)[0];
    }
  }

  /** A long written in a radix parses back to itself, and a number
      outside the long range written the same way does not parse. */
  lemma ParseLongRoundTrip(n: int, radix: nat)
    requires 2 <= radix <= 36
    ensures ParseLong(LongText(n, radix), radix) ==
            if LongMin <= n <= LongMax then Ok(n) else Err(NumberFormat(LongText(n, radix)))
  {
    var s := LongText(n, radix);
    if n < 0 {
      DigitsRoundTrip(-n, radix);
      assert s[1..] == Digits(-n, radix);
    } else {
      DigitsRoundTrip(n, radix);
      assert s[0..] == s;
    }
  }

  /** Decimal, `0o` octal and `0x` hexadecimal writings of a long read back
      as that long, integral (scale 0). */
  lemma IntegerNumberRoundTrip(n: int, readDecimal: string -> Option<Decimal>)
    requires LongMin <= n <= LongMax
    ensures ParseNumber(Integer, LongText(n, 10), readDecimal) == Ok(Some(Decimal(n, 0)))
    ensures n >= 0 ==> ParseNumber(Octal, "0o" + Digits(n, 8), readDecimal) == Ok(Some(Decimal(n, 0)))
    ensures n >= 0 ==> ParseNumber(Hexadecimal, "0x" + Digits(n, 16), readDecimal) == Ok(Some(Decimal(n, 0)))
  {
    var t := LongText(n, 10);
    assert ParseNumber(Integer, t, readDecimal) == Ok(Some(Decimal(n, 0))) by {
      ParseLongRoundTrip(n, 10);
      assert t[Integer.Start()..] == t;
    }
    if n >= 0 {
      PrefixedRoundTrip(n, Octal, 'o', readDecimal);
      PrefixedRoundTrip(n, Hexadecimal, 'x', readDecimal);
    }
  }

  lemma PrefixedRoundTrip(n: nat, numberType: NumberType, marker: char, readDecimal: string -> Option<Decimal>)
    requires n <= LongMax && numberType in {Octal, Hexadecimal}
    ensures ParseNumber(numberType, ['0', marker] + Digits(n, numberType.Radix()), readDecimal) == Ok(Some(Decimal(n, 0)))
  {
    var radix := numberType.Radix();
    var t := ['0', marker] + Digits(n, radix);
    ParseLongRoundTrip(n, radix);
    assert t[numberType.Start()..] == LongText(n, radix);
  }

  /** A lone sign passes the integer check but is not a long. */
  lemma LoneSignFailsToParse(readDecimal: string -> Option<Decimal>)
    ensures Resolve("+").numberType == Integer && Resolve("-").numberType == Integer
    ensures ParseNumber(Integer, "+", readDecimal).Err? && ParseNumber(Integer, "-", readDecimal).Err?
  {
    LoneSignIsInteger();
  }

  /** The octal number in the parser tests. */
  lemma OctalExample(readDecimal: string -> Option<Decimal>)
    ensures ParseNumber(Octal, "0o10", readDecimal) == Ok(Some(Decimal(8, 0)))
  {
    assert Digits(8, 8) == "10" by {
      assert Digits(1, 8) == "1";
    }
    PrefixedRoundTrip(8, Octal, 'o', readDecimal);
  }

  /** The hexadecimal number in the parser tests. */
  lemma HexadecimalExample(readDecimal: string -> Option<Decimal>)
    ensures ParseNumber(Hexadecimal, "0x10", readDecimal) == Ok(Some(Decimal(16, 0)))
  {
    assert Digits(16, 16) == "10" by {
      assert Digits(1, 16) == "1";
    }
    PrefixedRoundTrip(16, Hexadecimal, 'x', readDecimal);
  }

  /** The negative integer in the parser tests. */
  lemma NegativeIntegerExample(readDecimal: string -> Option<Decimal>)
    ensures ParseNumber(Integer, "-10", readDecimal) == Ok(Some(Decimal(-10, 0)))
  {
    assert Digits(10, 10) == "10" by {
      assert Digits(1, 10) == "1";
    }
    assert LongText(-10, 10) == "-10";
    IntegerNumberRoundTrip(-10, readDecimal);
  }

  /** Decimal digits are all digit characters. */
  lemma {:induction false} DecimalDigits(m: nat)
    ensures forall i :: 0 <= i < |Digits(m, 10)| ==> IsDigit(Digits(m, 10)[i])
    decreases m
  {
    if m >= 10 {
      DecimalDigits(m / 10);
      assert Digits(m, 10) == Digits(m / 10, 10) + [DigitChar(m % 10)];
    }
  }

  /** A long written in decimal is resolved as an integer: the reader
      takes the text `Long.toString` gives back for a number. */
  lemma LongTextResolvesAsInteger(n: int)
    ensures |LongText(n, 10)| > 0 && Resolve(LongText(n, 10)) == Resolution(ValueNumber, Integer)
  {
    var t := LongText(n, 10);
    DecimalDigits(if n < 0 then -n else n);
    assert forall i :: 1 <= i < |t| ==> IsDigit(t[i]);
    assert IsDigit(t[0]) || t[0] == '-';
    assert |t| > 1 ==> IsDigit(t[1]);
    assert t !in NullValues && t !in TrueValues && t !in FalseValues;
    assert t !in InfinityValues && t !in NaNValues;
    assert IsNumericLead(t[0]);
    assert !OctalText(t) && !HexText(t);
    assert IntegerText(t);
  }
}
