/**
 * The JavaScript string built-ins the dashboard relies on, on Dafny strings
 * (sequences of Unicode scalar values): UTF-16 encoding and `.length`,
 * `toLowerCase` (ASCII letters only), `includes`, `trim`, and `parseInt`.
 */
module JsText {
  import opened Wrappers

  /** One UTF-16 code unit, the unit JavaScript's `.length` and `.slice` count. */
  newtype CodeUnit = x: int | 0 <= x < 0x1_0000

  /** UTF-16 encoding of one scalar value: one code unit, or a surrogate pair above U+FFFF. */
  function EncodeChar(c: char): (u: seq<CodeUnit>)
    ensures |u| == if c as int >= 0x1_0000 then 2 else 1
  {
    var v := c as int;
    if v < 0x1_0000 then [v as CodeUnit]
    else
      var w := v - 0x1_0000;
      [(0xD800 + w / 0x400) as CodeUnit, (0xDC00 + w % 0x400) as CodeUnit]
  }

  /** The code units JavaScript stores for the string `s`. */
  function Utf16(s: string): seq<CodeUnit>
  {
    if s == [] then [] else EncodeChar(s[0]) + Utf16(s[1..])
  }

  /** `s.length` in JavaScript: the number of UTF-16 code units. */
  function Utf16Length(s: string): (n: nat)
    ensures n == |Utf16(s)|
    ensures |s| <= n <= 2 * |s|
  {
    if s == [] then 0
    else (if s[0] as int >= 0x1_0000 then 2 else 1) + Utf16Length(s[1..])
  }

  /** `Utf16Length` counts a character outside the Basic Multilingual Plane twice. */
  lemma {:induction false} Utf16LengthAppend(a: string, b: string)
    ensures Utf16Length(a + b) == Utf16Length(a) + Utf16Length(b)
  {
    if a == [] {
      assert a + b == b;
    } else {
      assert (a + b)[1..] == a[1..] + b;
      Utf16LengthAppend(a[1..], b);
    }
  }

  function LowerChar(c: char): char
  {
    if 'A' <= c <= 'Z' then (c as int + 32) as char else c
  }

  /** `toLowerCase`, restricted to the ASCII letters A-Z. */
  function Lower(s: string): (r: string)
    ensures |r| == |s|
    ensures forall i :: 0 <= i < |s| ==> r[i] == LowerChar(s[i])
  {
    seq(|s|, i requires 0 <= i < |s| => LowerChar(s[i]))
  }

  lemma LowerIdempotent(s: string)
    ensures Lower(Lower(s)) == Lower(s)
  {
  }

  /** A string with no upper-case ASCII letter, such as a Japanese keyword, is its own lower case. */
  lemma LowerNoUpper(s: string)
    requires forall i :: 0 <= i < |s| ==> !('A' <= s[i] <= 'Z')
    ensures Lower(s) == s
  {
  }

  /** `s.includes(sub)`: `sub` occurs in `s` at some position. */
  predicate Includes(s: string, sub: string)
  {
    exists i :: 0 <= i <= |s| && OccursAt(s, sub, i)
  }

  predicate OccursAt(s: string, sub: string, i: int)
  {
    0 <= i && i + |sub| <= |s| && s[i..i + |sub|] == sub
  }

  lemma IncludesEmpty(s: string)
    ensures Includes(s, "")
  {
    assert OccursAt(s, "", 0);
  }

  /** A string that does not contain the first character of `sub` does not include `sub`. */
  lemma NotIncludes(s: string, sub: string)
    requires sub != [] && sub[0] !in s
    ensures !Includes(s, sub)
  {
  }

  /** WhiteSpace and LineTerminator code points of ECMAScript, the characters `trim` removes. */
  predicate IsJsWhitespace(c: char)
  {
    var v := c as int;
    v == 0x09 || v == 0x0A || v == 0x0B || v == 0x0C || v == 0x0D || v == 0x20 ||
    v == 0xA0 || v == 0x1680 || (0x2000 <= v <= 0x200A) || v == 0x2028 || v == 0x2029 ||
    v == 0x202F || v == 0x205F || v == 0x3000 || v == 0xFEFF
  }

  /** `s.trimStart()`. */
  function TrimStart(s: string): (r: string)
    ensures |r| <= |s| && r == s[|s| - |r|..]
    ensures r == [] || !IsJsWhitespace(r[0])
    ensures forall i :: 0 <= i < |s| - |r| ==> IsJsWhitespace(s[i])
  {
    if s != [] && IsJsWhitespace(s[0]) then TrimStart(s[1..]) else s
  }

  /** `s.trimEnd()`. */
  function TrimEnd(s: string): (r: string)
    ensures |r| <= |s| && r == s[..|r|]
    ensures r == [] || !IsJsWhitespace(r[|r| - 1])
    ensures forall i :: |r| <= i < |s| ==> IsJsWhitespace(s[i])
  {
    if s != [] && IsJsWhitespace(s[|s| - 1]) then TrimEnd(s[..|s| - 1]) else s
  }

  /** `s.trim()`. */
  function Trim(s: string): string
  {
    TrimEnd(TrimStart(s))
  }

  /** `!s.trim()` holds exactly for strings made of white space only (the empty string included). */
  lemma TrimEmptyIffBlank(s: string)
    ensures Trim(s) == [] <==> forall i :: 0 <= i < |s| ==> IsJsWhitespace(s[i])
  {
  }

  /** Value of an ASCII alphanumeric character as a digit in radix 36; 36 for anything else. */
  function DigitValue(c: char): (d: nat)
    ensures d <= 36
  {
    if '0' <= c <= '9' then c as int - '0' as int
    else if 'a' <= c <= 'z' then c as int - 'a' as int + 10
    else if 'A' <= c <= 'Z' then c as int - 'A' as int + 10
    else 36
  }

  /** Length of the longest prefix of `s` made of digits of the given radix. */
  function DigitRun(s: string, radix: nat): (k: nat)
    ensures k <= |s|
    ensures forall i :: 0 <= i < k ==> DigitValue(s[i]) < radix
    ensures k < |s| ==> DigitValue(s[k]) >= radix
  {
    if s != [] && DigitValue(s[0]) < radix then 1 + DigitRun(s[1..], radix) else 0
  }

  /** The number a run of digits denotes, most significant digit first. */
  function DigitsValue(s: string, radix: nat): nat
    requires forall i :: 0 <= i < |s| ==> DigitValue(s[i]) < radix
  {
    if s == [] then 0
    else DigitsValue(s[..|s| - 1], radix) * radix + DigitValue(s[|s| - 1])
  }

  /**
   * `parseInt(s)` without a radix argument: skip leading white space, read an
   * optional sign, then the unsigned part. No digit at all gives NaN, here None.
   */
  function ParseInt(s: string): (r: Option<int>)
    ensures TrimStart(s) == [] ==> r.None?
    ensures TrimStart(s) != [] && TrimStart(s)[0] != '-' && TrimStart(s)[0] != '+' && !('0' <= TrimStart(s)[0] <= '9') ==> r.None?
    ensures r.Some? && r.value < 0 ==> TrimStart(s)[0] == '-'
    ensures r.Some? && TrimStart(s)[0] == '-' ==> r.value <= 0
  {
    ParseSigned(TrimStart(s))
  }

  /** `parseInt` after the leading white space: an optional sign, then the unsigned part. */
  function ParseSigned(t: string): (r: Option<int>)
    ensures t == [] ==> r.None?
    ensures t != [] && t[0] != '-' && t[0] != '+' && !('0' <= t[0] <= '9') ==> r.None?
    ensures r.Some? && r.value < 0 ==> t[0] == '-'
    ensures r.Some? && t[0] == '-' ==> r.value <= 0
  {
    var negative := t != [] && t[0] == '-';
    var u := if t != [] && (t[0] == '-' || t[0] == '+') then t[1..] else t;
    match ParseMagnitude(u)
    case None => None
    case Some(magnitude) =>
      var value: int := if negative then -(magnitude as int) else magnitude;
      Some(value)
  }

  /**
   * The unsigned part of `parseInt`: a "0x"/"0X" prefix selects radix 16
   * (radix 10 otherwise), then the longest run of digits is read.
   */
  function ParseMagnitude(u: string): (r: Option<nat>)
    ensures u == [] || !('0' <= u[0] <= '9') ==> r.None?
  {
    var hex := |u| >= 2 && u[0] == '0' && (u[1] == 'x' || u[1] == 'X');
    var radix := if hex then 16 else 10;
    var body := if hex then u[2..] else u;
    var k := DigitRun(body, radix);
    if k == 0 then None else Some(DigitsValue(body[..k], radix))
  }

  /** The decimal numeral of `n`, without leading zeros. */
  function DecimalString(n: nat): (s: string)
    ensures 1 <= |s|
    ensures forall i :: 0 <= i < |s| ==> '0' <= s[i] <= '9'
    ensures n >= 10 ==> |s| >= 2
  {
    var last := ('0' as int + n % 10) as char;
    if n < 10 then [last] else DecimalString(n / 10) + [last]
  }

  lemma {:induction false} DecimalStringValue(n: nat)
    ensures forall i :: 0 <= i < |DecimalString(n)| ==> DigitValue(DecimalString(n)[i]) < 10
    ensures DigitsValue(DecimalString(n), 10) == n
  {
    var s := DecimalString(n);
    if n >= 10 {
      DecimalStringValue(n / 10);
      assert s[..|s| - 1] == DecimalString(n / 10);
    }
  }

  /** `parseInt` reads back every numeral `DecimalString` writes. */
  lemma ParseIntDecimal(n: nat)
    ensures ParseInt(DecimalString(n)) == Some(n)
  {
    DecimalStringValue(n);
    ParseIntDigits(DecimalString(n));
  }

  /**
   * Text that cannot continue a decimal numeral: nothing, or a first character
   * that is not a digit and not the `x` of a hexadecimal prefix.
   */
  predicate StopsNumeral(tail: string)
  {
    tail == [] || (!('0' <= tail[0] <= '9') && tail[0] != 'x' && tail[0] != 'X')
  }

  /** `parseInt` reads a numeral followed by text that cannot continue it ("12abc", "12.5", "1e3") as the numeral alone. */
  lemma ParseIntDecimalPrefix(n: nat, tail: string)
    requires StopsNumeral(tail)
    ensures ParseInt(DecimalString(n) + tail) == Some(n)
  {
    var s := DecimalString(n) + tail;
    assert s[0] == DecimalString(n)[0];
    TrimStartDigit(s);
    ParseMagnitudeDecimal(n, tail);
    ParseSignedUnsigned(s);
  }

  /** A minus sign in front negates the reading: "-3000" reads as -3000. */
  lemma ParseIntNegativeDecimal(n: nat, tail: string)
    requires StopsNumeral(tail)
    ensures ParseInt("-" + (DecimalString(n) + tail)) == Some(-(n as int))
  {
    ParseMagnitudeDecimal(n, tail);
    ParseSignedNegative(DecimalString(n) + tail);
  }

  /** Text starting with a minus sign has no leading white space, and the sign negates the unsigned part. */
  lemma ParseSignedNegative(u: string)
    requires ParseMagnitude(u).Some?
    ensures ParseInt("-" + u) == Some(-(ParseMagnitude(u).value as int))
  {
    TrimStartMinus(u);
    MinusNegates(u);
  }

  lemma TrimStartMinus(u: string)
    ensures TrimStart("-" + u) == "-" + u
  {
    assert !IsJsWhitespace('-');
  }

  lemma MinusNegates(u: string)
    requires ParseMagnitude(u).Some?
    ensures ParseSigned("-" + u) == Some(-(ParseMagnitude(u).value as int))
  {
    assert ("-" + u)[1..] == u;
  }

  /** The unsigned part of a numeral followed by text that cannot continue it. */
  lemma ParseMagnitudeDecimal(n: nat, tail: string)
    requires StopsNumeral(tail)
    ensures ParseMagnitude(DecimalString(n) + tail) == Some(n)
  {
    var d := DecimalString(n);
    var u := d + tail;
    DecimalStringValue(n);
    assert !(|u| >= 2 && u[0] == '0' && (u[1] == 'x' || u[1] == 'X')) by {
      if |u| >= 2 {
        if |d| >= 2 {
          assert u[1] == d[1];
        } else {
          assert u[1] == tail[0];
        }
      }
    }
    DigitRunStops(d, tail);
    assert u[..|d|] == d;
  }

  /** The digit run at the front of `d + tail` is exactly `d` when `tail` does not start with a digit. */
  lemma {:induction false} DigitRunStops(d: string, tail: string)
    requires forall i :: 0 <= i < |d| ==> DigitValue(d[i]) < 10
    requires tail == [] || !('0' <= tail[0] <= '9')
    ensures DigitRun(d + tail, 10) == |d|
  {
    if d == [] {
      assert d + tail == tail;
    } else {
      assert (d + tail)[0] == d[0];
      assert (d + tail)[1..] == d[1..] + tail;
      DigitRunStops(d[1..], tail);
    }
  }

  /** A non-empty run of decimal digits parses to the number it denotes. */
  lemma ParseIntDigits(s: string)
    requires s != [] && '0' <= s[0] <= '9'
    requires forall i :: 0 <= i < |s| ==> DigitValue(s[i]) < 10
    ensures ParseInt(s) == Some(DigitsValue(s, 10))
  {
    TrimStartDigit(s);
    ParseMagnitudeDigits(s);
    ParseSignedUnsigned(s);
  }

  /** Without a sign, `parseInt` reads the unsigned part as it stands. */
  lemma ParseSignedUnsigned(s: string)
    requires s != [] && s[0] != '-' && s[0] != '+' && ParseMagnitude(s).Some?
    ensures ParseSigned(s) == Some(ParseMagnitude(s).value as int)
  {
  }

  lemma TrimStartDigit(s: string)
    requires s != [] && '0' <= s[0] <= '9'
    ensures TrimStart(s) == s
  {
    assert !IsJsWhitespace(s[0]);
  }

  lemma ParseMagnitudeDigits(s: string)
    requires s != [] && forall i :: 0 <= i < |s| ==> DigitValue(s[i]) < 10
    ensures ParseMagnitude(s) == Some(DigitsValue(s, 10))
  {
    assert !(|s| >= 2 && s[0] == '0' && (s[1] == 'x' || s[1] == 'X')) by {
      if |s| >= 2 {
        assert DigitValue(s[1]) < 10;
      }
    }
    DigitRunAll(s, 10);
    assert s[..|s|] == s;
  }

  lemma {:induction false} DigitRunAll(s: string, radix: nat)
    requires forall i :: 0 <= i < |s| ==> DigitValue(s[i]) < radix
    ensures DigitRun(s, radix) == |s|
  {
  }
}
