/** Helpers shared by every component of the storefront model: optional values,
    the numbers JavaScript produces when it parses user text, and the string
    operations (prefix test, whitespace, trimming, decimal rendering and parsing)
    that the components use. */
module Common {

  datatype Option<+T> = None | Some(value: T)

  /** The value of an operation that either returns or throws an `Error` whose
      `message` is recorded. */
  datatype Result<+T> = Ok(value: T) | Err(message: string)

  /** JavaScript's `message || fallback` on a string: the empty message is falsy. */
  function OrElse(message: string, fallback: string): (r: string)
    ensures fallback != "" ==> r != ""
    ensures message != "" ==> r == message
  {
    if message == "" then fallback else message
  }

  /** `value || ""` on a nullable text column: null and "" both read as "". */
  function OrEmpty(s: Option<string>): (r: string)
    ensures s.Some? ==> r == s.value
    ensures s.None? ==> r == ""
  {
    if s.Some? then s.value else ""
  }

  /** `text || null` when writing a text column: "" is stored as null. */
  function NullIfEmpty(text: string): (r: Option<string>)
    ensures r.None? <==> text == ""
    ensures r.Some? ==> r.value == text
  {
    if text == "" then None else Some(text)
  }

  /** Reading a column into a text field and writing it back keeps it, except
      that a stored "" comes back as null. */
  lemma NullIfEmptyOfOrEmpty(s: Option<string>)
    ensures NullIfEmpty(OrEmpty(s)) == (if s == Some("") then None else s)
  {
  }

  /** A number obtained by `Number.parseInt` (or `Number`) from user text:
      either `NaN` or an integer. Fractional values are not modelled. */
  datatype JsNumber = NaN | Num(value: int)

  predicate StartsWith(s: string, prefix: string)
  {
    |prefix| <= |s| && s[..|prefix|] == prefix
  }

  /** The characters JavaScript's `\s` class and `String.prototype.trim` treat as
      white space (WhiteSpace and LineTerminator of ECMA-262). */
  predicate IsSpace(c: char)
  {
    c == ' ' || c == '\t' || c == '\n' || c == '\U{B}' || c == '\U{C}' || c == '\r'
    || c == '\U{A0}' || c == '\U{1680}' || ('\U{2000}' <= c <= '\U{200A}')
    || c == '\U{2028}' || c == '\U{2029}' || c == '\U{202F}' || c == '\U{205F}'
    || c == '\U{3000}' || c == '\U{FEFF}'
  }

  predicate IsDigit(c: char)
  {
    '0' <= c <= '9'
  }

  predicate IsAsciiUpper(c: char)
  {
    'A' <= c <= 'Z'
  }

  predicate IsAsciiLower(c: char)
  {
    'a' <= c <= 'z'
  }

  /** `toLowerCase` restricted to ASCII letters. */
  function ToLowerAscii(c: char): (r: char)
    ensures IsAsciiUpper(c) ==> IsAsciiLower(r)
    ensures !IsAsciiUpper(c) ==> r == c
  {
    if IsAsciiUpper(c) then (c as int + 32) as char else c
  }

  /** `toUpperCase` restricted to ASCII letters. */
  function ToUpperAscii(c: char): (r: char)
    ensures IsAsciiLower(c) ==> IsAsciiUpper(r)
    ensures !IsAsciiLower(c) ==> r == c
  {
    if IsAsciiLower(c) then (c as int - 32) as char else c
  }

  /** `String.prototype.trimStart`. */
  function TrimStart(s: string): (r: string)
    ensures |r| <= |s| && r == s[|s| - |r|..]
    ensures r == [] || !IsSpace(r[0])
    ensures forall i :: 0 <= i < |s| - |r| ==> IsSpace(s[i])
  {
    if s != [] && IsSpace(s[0]) then
      var r := TrimStart(s[1..]);
      assert s[1..][|s[1..]| - |r|..] == s[|s| - |r|..];
      assert forall i :: 1 <= i < |s| - |r| ==> s[i] == s[1..][i - 1];
      r
    else s
  }

  /** `String.prototype.trimEnd`. */
  function TrimEnd(s: string): (r: string)
    ensures |r| <= |s| && r == s[..|r|]
    ensures r == [] || !IsSpace(r[|r| - 1])
    ensures forall i :: |r| <= i < |s| ==> IsSpace(s[i])
  {
    if s != [] && IsSpace(s[|s| - 1]) then
      var r := TrimEnd(s[..|s| - 1]);
      assert s[..|s| - 1][..|r|] == s[..|r|];
      assert forall i :: |r| <= i < |s| - 1 ==> s[i] == s[..|s| - 1][i];
      r
    else s
  }

  /** `String.prototype.trim`: the trimmed text is empty exactly when every
      character is white space. */
  function Trim(s: string): (r: string)
    ensures r == [] <==> forall i :: 0 <= i < |s| ==> IsSpace(s[i])
    ensures r != [] ==> !IsSpace(r[0]) && !IsSpace(r[|r| - 1])
  {
    var t := TrimStart(s);
    var r := TrimEnd(t);
    assert t == s[|s| - |t|..];
    assert r == [] ==> forall i :: 0 <= i < |s| ==> IsSpace(s[i]) by {
      if r == [] {
        assert t == [];
      }
    }
    assert r != [] ==> exists i :: 0 <= i < |s| && !IsSpace(s[i]) by {
      if r != [] {
        assert r[0] == t[0] == s[|s| - |t|];
      }
    }
    r
  }

  function DigitChar(d: nat): (c: char)
    requires d < 10
    ensures IsDigit(c) && c as int - '0' as int == d
  {
    (d + '0' as int) as char
  }

  /** Decimal rendering of a natural number, as JavaScript's `String(n)`. */
  function NatToString(n: nat): (s: string)
    ensures |s| >= 1
    ensures forall i :: 0 <= i < |s| ==> IsDigit(s[i])
    decreases n
  {
    if n < 10 then [DigitChar(n)] else NatToString(n / 10) + [DigitChar(n % 10)]
  }

  /** Decimal rendering of an integer, with a leading `-` when negative. */
  function IntToString(i: int): (s: string)
    ensures |s| >= 1 && (IsDigit(s[0]) || s[0] == '-')
  {
    if i < 0 then "-" + NatToString(-i) else NatToString(i)
  }

  /** The value of a string of decimal digits, read left to right. */
  function DigitsValue(s: string): nat
    requires forall i :: 0 <= i < |s| ==> IsDigit(s[i])
  {
    if s == [] then 0
    else
      assert IsDigit(s[|s| - 1]);
      10 * DigitsValue(s[..|s| - 1]) + (s[|s| - 1] as int - '0' as int)
  }

  /** Length of the longest prefix of `s` made of decimal digits. */
  function DigitPrefix(s: string): (k: nat)
    ensures k <= |s|
    ensures forall i :: 0 <= i < k ==> IsDigit(s[i])
    ensures k < |s| ==> !IsDigit(s[k])
  {
    if s != [] && IsDigit(s[0]) then 1 + DigitPrefix(s[1..]) else 0
  }

  /** `Number.parseInt(s)` in base 10: leading white space is skipped, one
      optional sign is read, then the longest run of digits; without any digit
      the result is `NaN`. */
  function ParseInt(s: string): (r: JsNumber)
    ensures r.NaN? <==> DigitPrefix(SignFree(TrimStart(s))) == 0
  {
    var t := TrimStart(s);
    var negative := t != [] && t[0] == '-';
    var rest := SignFree(t);
    var k := DigitPrefix(rest);
    if k == 0 then NaN
    else
      var v: int := DigitsValue(rest[..k]);
      Num(if negative then -v else v)
  }

  /** `t` without its leading sign character, if it has one. */
  function SignFree(t: string): (r: string)
    ensures |r| <= |t|
  {
    if t != [] && (t[0] == '-' || t[0] == '+') then t[1..] else t
  }

  lemma {:induction false} DigitsValueOfNatToString(n: nat)
    ensures DigitsValue(NatToString(n)) == n
    decreases n
  {
    var s := NatToString(n);
    if n < 10 {
      assert s[..|s| - 1] == [];
    } else {
      DigitsValueOfNatToString(n / 10);
      assert s[..|s| - 1] == NatToString(n / 10);
    }
  }

  lemma {:induction false} DigitPrefixOfDigits(s: string)
    requires forall i :: 0 <= i < |s| ==> IsDigit(s[i])
    ensures DigitPrefix(s) == |s|
  {
    if s != [] {
      DigitPrefixOfDigits(s[1..]);
    }
  }

  /** Reading back a rendered integer gives the integer: `parseInt(String(i)) == i`. */
  lemma ParseIntOfIntToString(i: int)
    ensures ParseInt(IntToString(i)) == Num(i)
  {
    var n: nat := if i < 0 then -i else i;
    var digits := NatToString(n);
    DigitPrefixOfDigits(digits);
    DigitsValueOfNatToString(n);
    if i < 0 {
      var s := "-" + digits;
      NoLeadingSpace(s);
      assert SignFree(s) == digits;
      ParseIntOfSignedDigits(s, digits);
    } else {
      NoLeadingSpace(digits);
      ParseIntOfSignedDigits(digits, digits);
    }
  }

  /** A string that does not start with white space is its own `trimStart`. */
  lemma NoLeadingSpace(s: string)
    requires s == [] || !IsSpace(s[0])
    ensures TrimStart(s) == s
  {
  }

  /** `parseInt` of an optional sign followed by nothing but digits reads all
      of the digits. */
  lemma ParseIntOfSignedDigits(s: string, digits: string)
    requires |digits| >= 1 && forall k :: 0 <= k < |digits| ==> IsDigit(digits[k])
    requires TrimStart(s) == s && SignFree(s) == digits && DigitPrefix(digits) == |digits|
    ensures |s| >= 1
    ensures ParseInt(s) == Num(if s[0] == '-' then -(DigitsValue(digits) as int) else DigitsValue(digits))
  {
    assert digits[..|digits|] == digits;
  }

  /** `String(n)` for a number read by `parseInt`: "NaN" or the decimal digits. */
  function NumberToString(n: JsNumber): (s: string)
    ensures n.Num? ==> s == IntToString(n.value)
    ensures n.NaN? ==> s == "NaN"
  {
    if n.NaN? then "NaN" else IntToString(n.value)
  }

  /** Writing a number as text and parsing it back gives the number, `NaN`
      included. */
  lemma ParseIntOfNumberToString(n: JsNumber)
    ensures ParseInt(NumberToString(n)) == n
  {
    if n.Num? {
      ParseIntOfIntToString(n.value);
    } else {
      NaNTextIsNaN();
    }
  }

  lemma NaNTextIsNaN()
    ensures ParseInt("NaN") == NaN
  {
    var s := "NaN";
    assert !IsSpace(s[0]) && !IsDigit(s[0]);
    assert TrimStart(s) == s;
    assert SignFree(s) == s;
    assert DigitPrefix(s) == 0;
  }

  /** `parts.join(sep)`. */
  function Join(parts: seq<string>, sep: string): (r: string)
    ensures parts == [] ==> r == ""
    ensures |parts| == 1 ==> r == parts[0]
  {
    if parts == [] then ""
    else if |parts| == 1 then parts[0]
    else parts[0] + sep + Join(parts[1..], sep)
  }

  function Max(a: int, b: int): (m: int)
    ensures m >= a && m >= b && (m == a || m == b)
  {
    if a >= b then a else b
  }
}
