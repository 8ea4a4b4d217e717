/** The few pieces of JavaScript value semantics the plotter code relies on:
    numbers that may be NaN or infinite, truthiness, `String(n)`, and the
    string methods `trim`, `toLowerCase` and `startsWith`. */
module Js {
  import Wrappers

  /** A JavaScript number as it occurs in the core: an integer, NaN, or an
      infinity. Finite non-integer numbers are not represented. */
  datatype Number = Int(v: int) | NaN | Infinity(negative: bool)

  /** `Boolean(n)`: 0 and NaN are falsy, everything else is truthy. */
  predicate Truthy(n: Number) {
    match n
    case Int(v) => v != 0
    case NaN => false
    case Infinity(_) => true
  }

  /** `Number.isFinite(n)`. */
  predicate IsFinite(n: Number) {
    n.Int?
  }

  /** `n <= 0`; every comparison with NaN is false. */
  predicate AtMostZero(n: Number) {
    match n
    case Int(v) => v <= 0
    case NaN => false
    case Infinity(negative) => negative
  }


  function DigitChar(d: nat): (c: char)
    requires d < 10
    ensures '0' <= c <= '9' && c as int - '0' as int == d
  {
    ['0', '1', '2', '3', '4', '5', '6', '7', '8', '9'][d]
  }

  /** Reference reading of a digit string: the natural number it denotes,
      most significant digit first. */
  function DigitsValue(s: string): nat
    requires forall i :: 0 <= i < |s| ==> '0' <= s[i] <= '9'
  {
    if s == [] then 0
    else DigitsValue(s[..|s| - 1]) * 10 + (s[|s| - 1] as int - '0' as int)
  }

  /** Decimal digits of a natural number, most significant first: the
      digits denote `n`, and only zero itself starts with the digit 0. */
  function Decimal(n: nat): (s: string)
    ensures |s| >= 1
    ensures forall i :: 0 <= i < |s| ==> '0' <= s[i] <= '9'
    ensures DigitsValue(s) == n
    ensures |s| > 1 ==> s[0] != '0'
    decreases n
  {
    if n < 10 then [DigitChar(n)]
    else
      var s := Decimal(n / 10) + [DigitChar(n % 10)];
      assert s[..|s| - 1] == Decimal(n / 10);
      s
  }

  /** Two naturals print alike only if they are equal. */
  lemma DecimalInjective(a: nat, b: nat)
    ensures Decimal(a) == Decimal(b) <==> a == b
  {
  }

  predicate AllDigits(s: string) {
    forall i :: 0 <= i < |s| ==> '0' <= s[i] <= '9'
  }

  /** Reference reading of the text `String(n)` produces: the number it
      names, or nothing for any other text. */
  function ParseNumber(s: string): Wrappers.Option<Number> {
    if s == [] then Wrappers.None
    else if '0' <= s[0] <= '9' then
      if AllDigits(s) then Wrappers.Some(Int(DigitsValue(s))) else Wrappers.None
    else if s[0] == '-' then
      if |s| >= 2 && '0' <= s[1] <= '9' then
        if AllDigits(s[1..]) then Wrappers.Some(Int(0 - DigitsValue(s[1..]) as int)) else Wrappers.None
      else if s == "-Infinity" then Wrappers.Some(Infinity(true))
      else Wrappers.None
    else if s == "NaN" then Wrappers.Some(NaN)
    else if s == "Infinity" then Wrappers.Some(Infinity(false))
    else Wrappers.None
  }

  /** The digits of a natural read back as that natural. */
  lemma ParseDecimal(v: nat)
    ensures ParseNumber(Decimal(v)) == Wrappers.Some(Int(v))
  {
    var s := Decimal(v);
    assert '0' <= s[0] <= '9' && AllDigits(s);
  }

  /** A minus sign and the digits of a positive natural read back as its
      negation. */
  lemma ParseNegative(v: nat)
    requires v > 0
    ensures ParseNumber("-" + Decimal(v)) == Wrappers.Some(Int(0 - v))
  {
    var d := Decimal(v);
    assert AllDigits(d);
    var s := "-" + d;
    assert s[0] == '-' && s[1..] == d && s[1] == d[0];
  }

  /** `String(v)` for an integer below 10^21 in magnitude (JavaScript
      switches to exponent notation there): its digits, after a minus sign
      when it is negative, which read back as `v`. */
  function IntToString(v: int): (s: string)
    ensures ParseNumber(s) == Wrappers.Some(Int(v))
    ensures v >= 0 ==> s == Decimal(v)
    ensures v < 0 ==> s == "-" + Decimal(-v)
  {
    if v < 0 then ParseNegative(-v); "-" + Decimal(-v)
    else ParseDecimal(v); Decimal(v)
  }

  /** `String(n)`: the text reads back as `n`; NaN and the infinities print
      as their names. */
  function NumberToString(n: Number): (s: string)
    ensures ParseNumber(s) == Wrappers.Some(n)
    ensures n.Int? ==> s == IntToString(n.v)
    ensures n.NaN? ==> s == "NaN"
    ensures n.Infinity? ==> s == if n.negative then "-Infinity" else "Infinity"
  {
    match n
    case Int(v) => IntToString(v)
    case NaN => "NaN"
    case Infinity(negative) =>
      if negative then assert "-Infinity"[1] == 'I'; "-Infinity" else "Infinity"
  }

  /** Different numbers print as different text, so `String(giftId)` gives
      every numeric gift id a key of its own. */
  lemma NumberToStringInjective(a: Number, b: Number)
    ensures NumberToString(a) == NumberToString(b) <==> a == b
  {
  }

  /** A gift id prints as its digits, the key under which the gift map
      stores it. */
  lemma GiftIdKey()
    ensures NumberToString(Int(5655)) == "5655"
  {
    assert Decimal(5) == "5";
    assert Decimal(56) == "56";
    assert Decimal(565) == "565";
  }

  /** White space and line terminators as `String.prototype.trim` removes
      them: TAB, VT, FF, BOM, LF, CR, LS, PS and every space separator. */
  predicate IsWhitespace(c: char) {
    || c == '\t' || c == '\U{000B}' || c == '\U{000C}' || c == '\U{FEFF}'
    || c == '\n' || c == '\r' || c == '\U{2028}' || c == '\U{2029}'
    || c == ' ' || c == '\U{00A0}' || c == '\U{1680}' || ('\U{2000}' <= c <= '\U{200A}')
    || c == '\U{202F}' || c == '\U{205F}' || c == '\U{3000}'
  }

  /** Removes leading white space: the result is the suffix that starts at
      the first non-white character. */
  function TrimStart(s: string): (r: string)
    ensures |r| <= |s| && r == s[|s| - |r|..]
    ensures forall k :: 0 <= k < |s| - |r| ==> IsWhitespace(s[k])
    ensures r != [] ==> !IsWhitespace(r[0])
    decreases |s|
  {
    if s != [] && IsWhitespace(s[0]) then TrimStart(s[1..]) else s
  }

  /** Removes trailing white space: the result is the prefix that ends at
      the last non-white character. */
  function TrimEnd(s: string): (r: string)
    ensures |r| <= |s| && r == s[..|r|]
    ensures forall k :: |r| <= k < |s| ==> IsWhitespace(s[k])
    ensures r != [] ==> !IsWhitespace(r[|r| - 1])
    decreases |s|
  {
    if s != [] && IsWhitespace(s[|s| - 1]) then TrimEnd(s[..|s| - 1]) else s
  }

  /** `s.trim()`. */
  function Trim(s: string): string {
    TrimEnd(TrimStart(s))
  }

  /** A trimmed string is empty exactly when the input is all white space. */
  lemma TrimEmptyIffBlank(s: string)
    ensures Trim(s) == [] <==> forall k :: 0 <= k < |s| ==> IsWhitespace(s[k])
  {
    var t := TrimStart(s);
    if Trim(s) == [] {
      forall k | 0 <= k < |s| ensures IsWhitespace(s[k]) {
        if k >= |s| - |t| {
          assert s[k] == t[k - (|s| - |t|)];
        }
      }
    } else {
      var r := Trim(s);
      assert r[0] == t[0];
      assert s[|s| - |t|] == t[0];
    }
  }

  /** `toLowerCase` on one character (ASCII letters only). */
  function LowerChar(c: char): (d: char)
    ensures 'A' <= c <= 'Z' ==> d as int == c as int + 32
    ensures !('A' <= c <= 'Z') ==> d == c
  {
    if 'A' <= c <= 'Z' then (c as int + 32) as char else c
  }

  /** `s.toLowerCase()`, letter by letter. */
  function Lower(s: string): (r: string)
    ensures |r| == |s|
    ensures forall i :: 0 <= i < |s| ==> r[i] == LowerChar(s[i])
  {
    if s == [] then [] else [LowerChar(s[0])] + Lower(s[1..])
  }

  /** Lower-casing twice is lower-casing once: the lower-case alias of a
      lower-case key is the key itself. */
  lemma LowerIdempotent(s: string)
    ensures Lower(Lower(s)) == Lower(s)
  {
    var once := Lower(s);
    assert forall i :: 0 <= i < |s| ==> LowerChar(once[i]) == once[i];
  }

  /** `s.startsWith(p)`. */
  predicate StartsWith(s: string, p: string) {
    |p| <= |s| && s[..|p|] == p
  }
}
