/** The numeric text recognisers of the YAML Core Schema resolver:
    decimal integers, floats, `0o` octals and `0x` hexadecimals.
    Each recogniser is a scanning loop (a method) proved equal to a
    declarative predicate; code that cannot call a method (the quoting
    checker) uses the predicate. */
module YamlNumbers {

  /** Canonical Core Schema spellings of the non-finite floats. */
  const CanonicalPositiveInfinity: string := ".inf"
  const CanonicalNegativeInfinity: string := "-.inf"
  const CanonicalNaN: string := ".nan"

  predicate IsDigit(c: char) { '0' <= c <= '9' }
  predicate IsOctalDigit(c: char) { '0' <= c <= '7' }
  predicate IsHexDigit(c: char) { IsDigit(c) || 'a' <= c <= 'f' || 'A' <= c <= 'F' }
  predicate IsSign(c: char) { c == '+' || c == '-' }
  predicate IsExponent(c: char) { c == 'e' || c == 'E' }

  /** Characters a float may be made of at all. */
  predicate IsFloatChar(c: char) { IsDigit(c) || IsExponent(c) || IsSign(c) || c == '.' }

  // ---------------------------------------------------------------------------
  // Declarative specifications
  // ---------------------------------------------------------------------------

  /** Length of the optional leading sign of an integer. */
  function SignLength(s: string): (n: nat)
    ensures n <= 1 && n <= |s|
  {
    if |s| > 0 && IsSign(s[0]) then 1 else 0
  }

  /** Every character after an optional single leading sign is a decimal
      digit.  No digit is required, so a lone `+` or `-` qualifies. */
  predicate IntegerText(s: string) {
    forall i :: SignLength(s) <= i < |s| ==> IsDigit(s[i])
  }

  /** The float conditions checked on the first `n` characters of `s`:
      only float characters; at most one exponent marker; a sign only
      first or directly after an exponent marker; at most one `.` and
      none after an exponent marker. */
  predicate FloatPrefix(s: string, n: nat)
    requires n <= |s|
  {
    (forall i :: 0 <= i < n ==> IsFloatChar(s[i])) &&
    (forall i, j :: 0 <= i < j < n && IsExponent(s[i]) ==> !IsExponent(s[j])) &&
    (forall i :: 0 < i < n && IsSign(s[i]) ==> IsExponent(s[i - 1])) &&
    (forall i, j :: 0 <= i < j < n && s[j] == '.' ==> s[i] != '.' && !IsExponent(s[i]))
  }

  /** A prefix that breaks the float conditions breaks them for every
      longer prefix too. */
  lemma FloatPrefixBroken(s: string, m: nat, n: nat)
    requires m <= n <= |s| && !FloatPrefix(s, m)
    ensures !FloatPrefix(s, n)
  {
  }

  /** No exponent marker among the first `n` characters. */
  predicate NoExponentBefore(s: string, n: nat)
    requires n <= |s|
  {
    forall k :: 0 <= k < n ==> !IsExponent(s[k])
  }

  /** No `.` among the first `n` characters. */
  predicate NoPointBefore(s: string, n: nat)
    requires n <= |s|
  {
    forall k :: 0 <= k < n ==> s[k] != '.'
  }

  /** One more character keeps the float conditions exactly when it is a
      float character, a second exponent marker is not among them, a sign
      follows an exponent marker unless it is first, and a `.` follows no
      `.` and no exponent marker. */
  lemma FloatPrefixStep(s: string, i: nat)
    requires i < |s| && FloatPrefix(s, i)
    ensures NoExponentBefore(s, i + 1) <==> NoExponentBefore(s, i) && !IsExponent(s[i])
    ensures NoPointBefore(s, i + 1) <==> NoPointBefore(s, i) && s[i] != '.'
    ensures FloatPrefix(s, i + 1) <==>
              IsFloatChar(s[i]) &&
              (IsExponent(s[i]) ==> NoExponentBefore(s, i)) &&
              (0 < i && IsSign(s[i]) ==> IsExponent(s[i - 1])) &&
              (s[i] == '.' ==> NoPointBefore(s, i) && NoExponentBefore(s, i))
  {
  }

  /** Float text as the resolver accepts it.  No digit is required. */
  predicate FloatText(s: string) {
    FloatPrefix(s, |s|)
  }

  /** `0o` followed by at least one octal digit and nothing else. */
  predicate OctalText(s: string) {
    |s| >= 3 && s[0] == '0' && s[1] == 'o' &&
    forall i :: 2 <= i < |s| ==> IsOctalDigit(s[i])
  }

  /** Lower-case `0x` followed by at least one hexadecimal digit (either
      case) and nothing else. */
  predicate HexText(s: string) {
    |s| >= 3 && s[0] == '0' && s[1] == 'x' &&
    forall i :: 2 <= i < |s| ==> IsHexDigit(s[i])
  }

  // ---------------------------------------------------------------------------
  // The scanning recognisers
  // ---------------------------------------------------------------------------

  /** Scans for a decimal integer.  The first character is read
      unconditionally, so the text must not be empty. */
  method IsInteger(s: string) returns (b: bool)
    requires |s| > 0
    ensures b <==> IntegerText(s)
  {
    var start := if s[0] == '-' || s[0] == '+' then 1 else 0;
    var i := start;
    while i < |s|
      invariant start <= i <= |s|
      invariant forall k :: start <= k < i ==> IsDigit(s[k])
    {
      if !('0' <= s[i] <= '9') {
        return false;
      }
      i := i + 1;
    }
    return true;
  }

  /** A sign is acceptable first, or right after an exponent marker. */
  function ValidSign(currentIndex: nat, s: string): (ok: bool)
    requires currentIndex < |s|
    ensures ok <==> currentIndex == 0 || IsExponent(s[currentIndex - 1])
  {
    if currentIndex == 0 then true
    else
      var previousChar := s[currentIndex - 1];
      previousChar == 'e' || previousChar == 'E'
  }

  /** A decimal point is acceptable when it is the first one and no
      exponent marker has been seen. */
  function ValidDecimalSymbol(decimalCount: int, exponentCount: int): (ok: bool)
    ensures ok <==> decimalCount <= 1 && exponentCount <= 0
  {
    !(decimalCount > 1 || exponentCount > 0)
  }

  /** Scans for a float, counting decimal points and exponent markers and
      stopping at the first character that makes the text invalid. */
  method IsFloat(s: string) returns (b: bool)
    ensures b <==> FloatText(s)
  {
    var dec := 0;
    var exp := 0;
    var invalid := false;
    var i := 0;
    while i < |s| && !invalid
      invariant 0 <= i <= |s|
      invariant !invalid ==> FloatPrefix(s, i)
      invariant !invalid ==> 0 <= exp <= 1 && (exp == 0 <==> NoExponentBefore(s, i))
      invariant !invalid ==> 0 <= dec <= 1 && (dec == 0 <==> NoPointBefore(s, i))
      invariant invalid ==> !FloatText(s)
    {
      var c := s[i];
      FloatPrefixStep(s, i);
      if '0' <= c <= '9' {
      } else if c == 'e' || c == 'E' {
        exp := exp + 1;
        if exp > 1 {
          invalid := true;
        }
      } else if c == '+' || c == '-' {
        invalid := !ValidSign(i, s);
      } else if c == '.' {
        dec := dec + 1;
        invalid := !ValidDecimalSymbol(dec, exp);
      } else {
        invalid := true;
      }
      if invalid {
        FloatPrefixBroken(s, i + 1, |s|);
      }
      i := i + 1;
    }
    return !invalid;
  }

  /** Scans for `0o` plus octal digits. */
  method IsOctal(s: string) returns (b: bool)
    ensures b <==> OctalText(s)
  {
    if |s| < 3 || s[0] != '0' || s[1] != 'o' {
      return false;
    }
    var i := 2;
    while i < |s|
      invariant 2 <= i <= |s|
      invariant forall k :: 2 <= k < i ==> IsOctalDigit(s[k])
    {
      if !('0' <= s[i] <= '7') {
        return false;
      }
      i := i + 1;
    }
    return true;
  }

  /** Scans for `0x` plus hexadecimal digits. */
  method IsHexadecimal(s: string) returns (b: bool)
    ensures b <==> HexText(s)
  {
    if |s| < 3 || s[0] != '0' || s[1] != 'x' {
      return false;
    }
    var i := 2;
    while i < |s|
      invariant 2 <= i <= |s|
      invariant forall k :: 2 <= k < i ==> IsHexDigit(s[k])
    {
      var c := s[i];
      if !(('0' <= c <= '9') || ('a' <= c <= 'f') || ('A' <= c <= 'F')) {
        return false;
      }
      i := i + 1;
    }
    return true;
  }

  // ---------------------------------------------------------------------------
  // Properties
  // ---------------------------------------------------------------------------

  /** Integer text is a special case of float text: the integer's only
      possible sign stands first, and it has no `.` or exponent marker. */
  lemma IntegerIsFloat(s: string)
    requires |s| > 0 && IntegerText(s)
    ensures FloatText(s)
  {
    forall i | 0 <= i < |s| ensures IsFloatChar(s[i]) && !IsExponent(s[i]) && s[i] != '.' && (i > 0 ==> !IsSign(s[i])) {
      if i >= SignLength(s) {
        assert IsDigit(s[i]);
      }
    }
  }

  /** A lone sign passes the integer scan: no digit is required. */
  lemma LoneSignIsInteger()
    ensures IntegerText("+") && IntegerText("-")
  {
  }

  /** Integer text is exactly an optional sign followed by decimal digits. */
  lemma IntegerTextCharacterisation(s: string)
    ensures IntegerText(s) <==>
      (exists sign: string, digits: string ::
        s == sign + digits && |sign| <= 1 && (forall c :: c in sign ==> IsSign(c)) &&
        forall c :: c in digits ==> IsDigit(c))
  {
    var n := SignLength(s);
    if IntegerText(s) {
      var sign, digits := s[..n], s[n..];
      assert s == sign + digits;
      forall c | c in digits ensures IsDigit(c) {
        var k :| 0 <= k < |digits| && digits[k] == c;
        assert s[n + k] == c;
      }
    }
    if exists sign: string, digits: string ::
        s == sign + digits && |sign| <= 1 && (forall c :: c in sign ==> IsSign(c)) &&
        forall c :: c in digits ==> IsDigit(c)
    {
      var sign: string, digits: string :| s == sign + digits && |sign| <= 1 &&
        (forall c :: c in sign ==> IsSign(c)) && forall c :: c in digits ==> IsDigit(c);
      if |sign| == 1 {
        assert s[0] == sign[0] && IsSign(sign[0]);
      }
      assert |sign| <= SignLength(s);
      forall i | SignLength(s) <= i < |s| ensures IsDigit(s[i]) {
        assert s[i] == digits[i - |sign|];
      }
    }
  }

  /** Texts the scans reject: a second exponent marker, a sign that neither
      leads nor follows an exponent marker, a second `.`, a `.` inside the
      exponent, and the octal and hexadecimal prefixes without digits or
      with a stray character. */
  lemma RejectedExamples()
    ensures !FloatText(".00e5e6")
    ensures !FloatText("-.00e-5+6")
    ensures !FloatText("-.00.6")
    ensures !FloatText("1e1.6")
    ensures !OctalText("0o") && !OctalText("0o0Z")
    ensures !HexText("0x") && !HexText("0x0Z")
  {
    var a := ".00e5e6";
    assert IsExponent(a[3]) && IsExponent(a[5]);
    var b := "-.00e-5+6";
    assert IsSign(b[7]) && !IsExponent(b[6]);
    var c := "-.00.6";
    assert c[1] == '.' && c[4] == '.';
    var d := "1e1.6";
    assert IsExponent(d[1]) && d[3] == '.';
    assert !IsOctalDigit("0o0Z"[3]);
    assert !IsHexDigit("0x0Z"[3]);
  }

  /** Integer texts the scan accepts, from the Core Schema examples. */
  lemma AcceptedIntegerExamples()
    ensures IntegerText("10") && IntegerText("+10") && IntegerText("-10")
  {
  }

  /** Float texts with a `.` the scan accepts, from the Core Schema
      examples. */
  lemma AcceptedPointExamples()
    ensures FloatText("1.0") && FloatText(".101")
  {
  }

  /** Float texts with an exponent the scan accepts, in either case. */
  lemma AcceptedExponentExamples()
    ensures FloatText("-1E-5")
    ensures FloatText("-1e-5")
  {
  }

  /** Octal and hexadecimal texts the scans accept. */
  lemma AcceptedPrefixedExamples()
    ensures OctalText("0o10") && HexText("0x10") && HexText("0xFf")
  {
  }
}
