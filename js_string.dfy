// The String.prototype and global operations the pages rely on: toLowerCase,
// includes, trim, the number-to-string conversion of a template literal and
// parseInt. Strings are sequences of code points.

module JsString {
  import opened JsArray

  // ---------------------------------------------------------------------------
  // toLowerCase

  /** Lower-cases one character; only the ASCII letters A-Z are mapped. */
  function LowerChar(c: char): (r: char)
    ensures !('A' <= r <= 'Z')
    ensures 'a' <= r <= 'z' <==> 'a' <= c <= 'z' || 'A' <= c <= 'Z'
  {
    if 'A' <= c <= 'Z' then (c as int - 'A' as int + 'a' as int) as char else c
  }

  /** `toLowerCase`, character by character. */
  function ToLower(s: string): (r: string)
    ensures |r| == |s|
    ensures forall i :: 0 <= i < |r| ==> !('A' <= r[i] <= 'Z')
    ensures forall i :: 0 <= i < |s| && 'A' <= s[i] <= 'Z' ==> r[i] as int == s[i] as int + 32
    ensures forall i :: 0 <= i < |s| && !('A' <= s[i] <= 'Z') ==> r[i] == s[i]
  {
    seq(|s|, i requires 0 <= i < |s| => LowerChar(s[i]))
  }

  /** Lower-casing a lower-cased string changes nothing. */
  lemma ToLowerIdempotent(s: string)
    ensures ToLower(ToLower(s)) == ToLower(s)
  {
    var once := ToLower(s);
    forall i | 0 <= i < |s| ensures ToLower(once)[i] == once[i] {
      assert once[i] == LowerChar(s[i]);
    }
  }

  // ---------------------------------------------------------------------------
  // includes

  /** `t` occurs in `s` starting at position `i`. */
  ghost predicate OccursAt(s: string, t: string, i: int)
  {
    0 <= i && i + |t| <= |s| && s[i..i + |t|] == t
  }

  /** `s.includes(t)`: whether `t` is a substring of `s`. */
  function Includes(s: string, t: string): (b: bool)
    ensures |t| <= |s| && s[..|t|] == t ==> b
    ensures b ==> |t| <= |s|
    decreases |s|
  {
    if |t| <= |s| && s[..|t|] == t then true
    else if |s| == 0 then false
    else Includes(s[1..], t)
  }

  /** `includes` holds exactly when there is a position where `t` occurs. */
  lemma {:induction false} IncludesIffOccurs(s: string, t: string)
    ensures Includes(s, t) <==> exists i :: OccursAt(s, t, i)
    decreases |s|
  {
    if |t| <= |s| && s[..|t|] == t {
      assert OccursAt(s, t, 0);
    } else if |s| == 0 {
      assert forall i :: !OccursAt(s, t, i);
    } else {
      IncludesIffOccurs(s[1..], t);
      assert !OccursAt(s, t, 0);
      forall i | i > 0 ensures OccursAt(s, t, i) <==> OccursAt(s[1..], t, i - 1) {
        OccursAtShift(s, t, i);
      }
      if Includes(s[1..], t) {
        var i :| OccursAt(s[1..], t, i);
        OccursAtShift(s, t, i + 1);
      }
    }
  }

  /** An occurrence past the first character is an occurrence in the tail. */
  lemma OccursAtShift(s: string, t: string, i: int)
    requires |s| > 0 && i > 0
    ensures OccursAt(s, t, i) <==> OccursAt(s[1..], t, i - 1)
  {
    if i + |t| <= |s| {
      assert s[1..][i - 1..i - 1 + |t|] == s[i..i + |t|];
    }
  }

  // ---------------------------------------------------------------------------
  // trim

  /** The ECMAScript WhiteSpace and LineTerminator code points. */
  predicate IsWhitespace(c: char)
  {
    c == '\t' || c == '\n' || c == '\U{000B}' || c == '\U{000C}' || c == '\r' || c == ' '
    || c == '\U{00A0}' || c == '\U{1680}' || ('\U{2000}' <= c <= '\U{200A}')
    || c == '\U{2028}' || c == '\U{2029}' || c == '\U{202F}' || c == '\U{205F}'
    || c == '\U{3000}' || c == '\U{FEFF}'
  }

  /** `trimStart`: drops the leading whitespace, keeping a suffix. */
  function TrimStart(s: string): (r: string)
    ensures |r| <= |s| && r == s[|s| - |r|..]
    ensures forall i :: 0 <= i < |s| - |r| ==> IsWhitespace(s[i])
    ensures r != [] ==> !IsWhitespace(r[0])
    decreases |s|
  {
    if |s| > 0 && IsWhitespace(s[0]) then TrimStart(s[1..]) else s
  }

  /** `trimEnd`: drops the trailing whitespace, keeping a prefix. */
  function TrimEnd(s: string): (r: string)
    ensures |r| <= |s| && r == s[..|r|]
    ensures forall i :: |r| <= i < |s| ==> IsWhitespace(s[i])
    ensures r != [] ==> !IsWhitespace(r[|r| - 1])
    decreases |s|
  {
    if |s| > 0 && IsWhitespace(s[|s| - 1]) then TrimEnd(s[..|s| - 1]) else s
  }

  /** Every character of `s` is whitespace. */
  predicate IsBlank(s: string)
  {
    forall i :: 0 <= i < |s| ==> IsWhitespace(s[i])
  }

  /**
   * `trim`: drops whitespace at both ends, keeping a slice of `s` that neither
   * starts nor ends with whitespace.
   */
  function Trim(s: string): (r: string)
    ensures exists k :: OccursAt(s, r, k)
    ensures r != [] ==> !IsWhitespace(r[0]) && !IsWhitespace(r[|r| - 1])
  {
    var u := TrimStart(s);
    var r := TrimEnd(u);
    assert OccursAt(s, r, |s| - |u|);
    r
  }

  /** `trim()` yields the empty string exactly when every character is whitespace. */
  lemma TrimEmptyIffBlank(s: string)
    ensures Trim(s) == [] <==> IsBlank(s)
  {
  }

  // ---------------------------------------------------------------------------
  // Number to string (template literals) and parseInt

  predicate IsDigit(c: char)
  {
    '0' <= c <= '9'
  }

  function DigitChar(d: nat): (c: char)
    requires d < 10
    ensures IsDigit(c)
  {
    ('0' as int + d) as char
  }

  /** The decimal digits of `n`, without leading zeros. */
  function NatToString(n: nat): (r: string)
    ensures |r| >= 1
    ensures forall i :: 0 <= i < |r| ==> IsDigit(r[i])
    ensures r[0] == '0' ==> n == 0
    decreases n
  {
    if n < 10 then [DigitChar(n)] else NatToString(n / 10) + [DigitChar(n % 10)]
  }

  /**
   * How a number with an integral value prints in `${...}`. JavaScript prints
   * this way only for magnitudes below 10^21 (larger ones take exponent form)
   * and represents integers exactly only up to 2^53; the model has neither bound.
   */
  function IntToString(i: int): string
  {
    if i < 0 then "-" + NatToString(-i) else NatToString(i)
  }

  /** The value of `c` as a digit of `radix` (at most 36), if it is one. */
  function DigitValue(c: char, radix: nat): (r: Option<nat>)
    ensures r.Some? ==> r.value < radix
    ensures r.Some? && radix <= 10 ==> IsDigit(c)
  {
    var v :=
      if '0' <= c <= '9' then c as int - '0' as int
      else if 'a' <= c <= 'z' then c as int - 'a' as int + 10
      else if 'A' <= c <= 'Z' then c as int - 'A' as int + 10
      else 36;
    if v < radix then Some(v) else None
  }

  /** The longest prefix of `s` made of digits of `radix`. */
  function LeadingDigits(s: string, radix: nat): (r: string)
    ensures r <= s
    ensures forall i :: 0 <= i < |r| ==> DigitValue(r[i], radix).Some?
    ensures |r| < |s| ==> DigitValue(s[|r|], radix).None?
    decreases |s|
  {
    if |s| > 0 && DigitValue(s[0], radix).Some? then [s[0]] + LeadingDigits(s[1..], radix) else []
  }

  /** The number that a run of digits of `radix` denotes. */
  function DigitsValue(ds: string, radix: nat): nat
    requires forall i :: 0 <= i < |ds| ==> DigitValue(ds[i], radix).Some?
    decreases |ds|
  {
    if |ds| == 0 then 0
    else AppendDigit(DigitsValue(ds[..|ds| - 1], radix), radix, DigitValue(ds[|ds| - 1], radix).value)
  }

  /** The value of a numeral after one more digit `d` is written at its end. */
  function AppendDigit(value: nat, radix: nat, d: nat): nat
  {
    value * radix + d
  }

  /** The part of `parseInt` after the sign: a `0x`/`0X` prefix selects hexadecimal. */
  function ParseMagnitude(u: string): (r: Option<nat>)
    ensures r.Some? ==> |u| > 0 && IsDigit(u[0])
  {
    var hex := |u| >= 2 && u[0] == '0' && (u[1] == 'x' || u[1] == 'X');
    var radix := if hex then 16 else 10;
    var digits := LeadingDigits(if hex then u[2..] else u, radix);
    if digits == [] then None else Some(DigitsValue(digits, radix))
  }

  /**
   * `parseInt(s)` with no radix: skip leading whitespace, take an optional sign,
   * then read the magnitude up to the first non-digit. `None` stands for NaN
   * (no digit at all).
   */
  function ParseInt(s: string): (r: Option<int>)
    ensures var t := TrimStart(s);
      (|t| == 0 || !(IsDigit(t[0]) || t[0] == '-' || t[0] == '+')) ==> r.None?
    ensures r.Some? && r.value < 0 ==> |TrimStart(s)| > 0 && TrimStart(s)[0] == '-'
  {
    var t := TrimStart(s);
    var negative := |t| > 0 && t[0] == '-';
    var unsigned := if |t| > 0 && (t[0] == '-' || t[0] == '+') then t[1..] else t;
    match ParseMagnitude(unsigned)
    case None => None
    case Some(m) => Some(if negative then -(m as int) else m as int)
  }

  lemma {:induction false} LeadingDigitsOfNumeral(n: nat)
    ensures LeadingDigits(NatToString(n), 10) == NatToString(n)
  {
  }

  lemma {:induction false} NumeralValue(n: nat)
    ensures DigitsValue(NatToString(n), 10) == n
    decreases n
  {
    if n >= 10 {
      NumeralValue(n / 10);
      var s := NatToString(n);
      assert s[..|s| - 1] == NatToString(n / 10);
    }
  }

  /** The decimal numeral of `n` reads back as `n`. */
  lemma ParseMagnitudeOfNumeral(n: nat)
    ensures ParseMagnitude(NatToString(n)) == Some(n)
  {
    var digits := NatToString(n);
    assert |digits| >= 2 ==> digits[1] != 'x' && digits[1] != 'X';
    LeadingDigitsOfNumeral(n);
    NumeralValue(n);
  }

  /** A number printed into a string and read back with `parseInt` is the same number. */
  lemma ParseIntOfIntToString(i: int)
    ensures ParseInt(IntToString(i)) == Some(i)
  {
    var m: nat := if i < 0 then -i else i;
    var s := IntToString(i);
    assert !IsWhitespace(s[0]);
    assert TrimStart(s) == s;
    assert (if i < 0 then s[1..] else s) == NatToString(m);
    ParseMagnitudeOfNumeral(m);
  }
}
