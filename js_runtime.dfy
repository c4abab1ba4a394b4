/**
 * The parts of the JavaScript runtime that the plugin's core relies on:
 * numbers (with Infinity and NaN), `Number(text)`, `parseFloat(text)`,
 * `String.prototype.trim` and `String.prototype.split(" ")`.
 *
 * Numbers are exact reals here: floating-point rounding and the sign of
 * zero are not represented.
 */
module JsRuntime {

  datatype Option<+T> = None | Some(value: T)

  /** The outcome of a JavaScript call that may throw. */
  datatype Result<+T, +E> = Ok(value: T) | Err(error: E)

  /** A JavaScript number: a finite value, an infinity, or NaN. */
  datatype Num = Fin(r: real) | Inf(negative: bool) | NaN

  /** JavaScript truthiness of an optional string (`undefined` and "" are falsy). */
  predicate Truthy(s: Option<string>) {
    s.Some? && s.value != ""
  }

  // ---------------------------------------------------------------------
  // Arithmetic (IEEE 754 special values, exact finite values)
  // ---------------------------------------------------------------------

  function Add(a: Num, b: Num): Num {
    match (a, b)
    case (NaN, _) => NaN
    case (_, NaN) => NaN
    case (Inf(s), Inf(t)) => if s == t then Inf(s) else NaN
    case (Inf(s), Fin(_)) => Inf(s)
    case (Fin(_), Inf(t)) => Inf(t)
    case (Fin(x), Fin(y)) => Fin(x + y)
  }

  function Neg(a: Num): Num {
    match a
    case NaN => NaN
    case Inf(s) => Inf(!s)
    case Fin(x) => Fin(-x)
  }

  function Mul(a: Num, b: Num): Num {
    match (a, b)
    case (NaN, _) => NaN
    case (_, NaN) => NaN
    case (Inf(s), Inf(t)) => Inf(s != t)
    case (Inf(s), Fin(y)) => if y == 0.0 then NaN else Inf(s != (y < 0.0))
    case (Fin(x), Inf(t)) => if x == 0.0 then NaN else Inf((x < 0.0) != t)
    case (Fin(x), Fin(y)) => Fin(x * y)
  }

  /** Division; a zero divisor is taken to be +0, the only zero the model has. */
  function Div(a: Num, b: Num): Num {
    match (a, b)
    case (NaN, _) => NaN
    case (_, NaN) => NaN
    case (Inf(_), Inf(_)) => NaN
    case (Fin(_), Inf(_)) => Fin(0.0)
    case (Inf(s), Fin(y)) => Inf(s != (y < 0.0))
    case (Fin(x), Fin(y)) =>
      if y != 0.0 then Fin(x / y)
      else if x == 0.0 then NaN
      else Inf(x < 0.0)
  }

  /** The JavaScript comparison `a < b` (false whenever NaN is involved). */
  predicate Less(a: Num, b: Num) {
    match (a, b)
    case (Fin(x), Fin(y)) => x < y
    case (Inf(s), Fin(_)) => s
    case (Fin(_), Inf(t)) => !t
    case (Inf(s), Inf(t)) => s && !t
    case _ => false
  }

  /** `Math.abs`. */
  function Abs(a: Num): Num {
    match a
    case NaN => NaN
    case Inf(_) => Inf(false)
    case Fin(x) => Fin(if x < 0.0 then -x else x)
  }

  lemma {:induction false} AddCommutes(a: Num, b: Num)
    ensures Add(a, b) == Add(b, a)
  {
    match (a, b)
    case (Fin(x), Fin(y)) => assert x + y == y + x;
    case _ =>
  }

  lemma {:induction false} DivSelf(x: real)
    requires x != 0.0
    ensures Div(Fin(x), Fin(x)) == Fin(1.0)
  {
    assert x / x == 1.0;
  }

  // ---------------------------------------------------------------------
  // Characters and strings
  // ---------------------------------------------------------------------

  predicate IsDigit(c: char) {
    '0' <= c <= '9'
  }

  /** The value of a decimal digit. */
  function DigitValue(c: char): real {
    ((c as int) - ('0' as int)) as real
  }

  predicate AllDigits(s: string) {
    forall k :: 0 <= k < |s| ==> IsDigit(s[k])
  }

  predicate IsAsciiLetter(c: char) {
    ('a' <= c <= 'z') || ('A' <= c <= 'Z')
  }

  /** The characters `String.prototype.trim` removes (white space and line terminators). */
  predicate IsWhiteSpace(c: char) {
    c == ' ' || ('\t' <= c <= '\r') || c == '\U{00A0}' || c == '\U{1680}'
    || ('\U{2000}' <= c <= '\U{200A}') || c == '\U{2028}' || c == '\U{2029}'
    || c == '\U{202F}' || c == '\U{205F}' || c == '\U{3000}' || c == '\U{FEFF}'
  }

  function TrimStart(s: string): (r: string)
    ensures |r| <= |s| && r == s[|s| - |r|..]
    ensures r == [] || !IsWhiteSpace(r[0])
    ensures forall k :: 0 <= k < |s| - |r| ==> IsWhiteSpace(s[k])
  {
    if s != [] && IsWhiteSpace(s[0]) then TrimStart(s[1..]) else s
  }

  function TrimEnd(s: string): (r: string)
    ensures |r| <= |s| && r == s[..|r|]
    ensures r == [] || !IsWhiteSpace(r[|r| - 1])
    ensures forall k :: |r| <= k < |s| ==> IsWhiteSpace(s[k])
  {
    if s != [] && IsWhiteSpace(s[|s| - 1]) then TrimEnd(s[..|s| - 1]) else s
  }

  /** `String.prototype.trim`. */
  function Trim(s: string): string {
    TrimEnd(TrimStart(s))
  }

  /** Number of occurrences of `c` in `s`. */
  function Count(s: string, c: char): nat {
    if s == [] then 0 else (if s[0] == c then 1 else 0) + Count(s[1..], c)
  }

  /** Occurrences add up over a concatenation. */
  lemma {:induction false} CountAppend(a: string, b: string, c: char)
    ensures Count(a + b, c) == Count(a, c) + Count(b, c)
  {
    if a != [] {
      assert (a + b)[0] == a[0];
      assert (a + b)[1..] == a[1..] + b;
      CountAppend(a[1..], b, c);
    } else {
      assert a + b == b;
    }
  }

  /** A character that does not occur is counted zero times. */
  lemma {:induction false} CountAbsent(s: string, c: char)
    requires c !in s
    ensures Count(s, c) == 0
  {
    if s != [] {
      assert s[0] in s;
      assert forall x :: x in s[1..] ==> x in s;
      CountAbsent(s[1..], c);
    }
  }

  /** `s.split(" ")`: the pieces between single spaces, empty pieces included. */
  function Split(s: string): (parts: seq<string>)
    ensures |parts| >= 1
  {
    if s == [] then [""]
    else
      var rest := Split(s[1..]);
      if s[0] == ' ' then [""] + rest
      else [[s[0]] + rest[0]] + rest[1..]
  }

  /** `parts.join(" ")`. */
  function Join(parts: seq<string>): string
    requires |parts| >= 1
  {
    if |parts| == 1 then parts[0] else parts[0] + " " + Join(parts[1..])
  }

  lemma {:induction false} SplitJoin(s: string)
    ensures Join(Split(s)) == s
    ensures |Split(s)| == Count(s, ' ') + 1
    ensures forall k :: 0 <= k < |Split(s)| ==> ' ' !in Split(s)[k]
  {
    if s != [] {
      SplitJoin(s[1..]);
      var rest := Split(s[1..]);
      if s[0] == ' ' {
        assert Split(s) == [""] + rest;
        assert Split(s)[1..] == rest;
      } else {
        var parts := Split(s);
        assert parts == [[s[0]] + rest[0]] + rest[1..];
        if |rest| == 1 {
          assert Join(rest) == rest[0];
          assert Join(parts) == s;
        } else {
          assert parts[1..] == rest[1..];
          assert Join(parts) == [s[0]] + rest[0] + " " + Join(rest[1..]);
          assert Join(rest) == rest[0] + " " + Join(rest[1..]);
          assert Join(parts) == [s[0]] + Join(rest);
        }
        forall k | 0 <= k < |parts| ensures ' ' !in parts[k] {
          if k > 0 { assert parts[k] == rest[k]; }
        }
      }
    }
  }

  /** Splitting a text made of a space-free piece, one space and a space-free piece. */
  lemma {:induction false} SplitTwo(a: string, b: string)
    requires ' ' !in a && ' ' !in b
    ensures Split(a + " " + b) == [a, b]
  {
    if a == [] {
      assert a + " " + b == [' '] + b;
      assert ([' '] + b)[1..] == b;
      SplitNoSpace(b);
    } else {
      assert (a + " " + b)[1..] == a[1..] + " " + b;
      assert ' ' !in a[1..] by {
        forall k | 0 <= k < |a[1..]| ensures a[1..][k] != ' ' { assert a[1..][k] == a[k + 1]; }
      }
      SplitTwo(a[1..], b);
      assert [a[0]] + a[1..] == a;
    }
  }

  lemma {:induction false} SplitNoSpace(s: string)
    requires ' ' !in s
    ensures Split(s) == [s]
  {
    if s != [] {
      assert ' ' !in s[1..] by {
        forall k | 0 <= k < |s[1..]| ensures s[1..][k] != ' ' { assert s[1..][k] == s[k + 1]; }
      }
      SplitNoSpace(s[1..]);
      assert [s[0]] + s[1..] == s;
    }
  }

  /** A text split into exactly two pieces is those pieces joined by its one space. */
  lemma SplitInTwo(s: string)
    requires |Split(s)| == 2
    ensures s == Split(s)[0] + " " + Split(s)[1]
    ensures ' ' !in Split(s)[0] && ' ' !in Split(s)[1]
  {
    SplitJoin(s);
    var p := Split(s);
    assert Join(p) == p[0] + " " + Join(p[1..]);
    assert p[1..] == [p[1]];
  }

  // ---------------------------------------------------------------------
  // Decimal numerals
  // ---------------------------------------------------------------------

  function Pow10(n: nat): (r: nat)
    ensures r >= 1
  {
    if n == 0 then 1 else 10 * Pow10(n - 1)
  }

  /** The value of a run of decimal digits, most significant first. */
  function DigitsValue(s: string): nat
    requires AllDigits(s)
  {
    if s == [] then 0
    else 10 * DigitsValue(s[..|s| - 1]) + ((s[|s| - 1] as int) - ('0' as int))
  }

  /** Length of the longest prefix of `s` that is made of digits. */
  function DigitPrefix(s: string): (n: nat)
    ensures n <= |s| && AllDigits(s[..n])
    ensures n < |s| ==> !IsDigit(s[n])
  {
    if s == [] || !IsDigit(s[0]) then 0
    else
      var n := 1 + DigitPrefix(s[1..]);
      assert forall k :: 1 <= k < n ==> s[..n][k] == s[1..][..n - 1][k - 1];
      n
  }

  /** The value of `int.frac`, with `frac` read as decimal places. */
  function DecimalValue(whole: string, frac: string): real
    requires AllDigits(whole) && AllDigits(frac)
  {
    (DigitsValue(whole) as real) + (DigitsValue(frac) as real) / (Pow10(|frac|) as real)
  }

  /**
   * The value of an unsigned decimal literal `digits [. digits] [e [+-] digits]`
   * or `. digits [e [+-] digits]`, or None when `t` is not one.
   */
  function UnsignedDecimal(t: string): Option<real> {
    var i := DigitPrefix(t);
    var whole := t[..i];
    var afterInt := t[i..];
    var hasDot := afterInt != [] && afterInt[0] == '.';
    var afterDot := if hasDot then afterInt[1..] else afterInt;
    var f := DigitPrefix(afterDot);
    var frac := if hasDot then afterDot[..f] else "";
    var rest := if hasDot then afterDot[f..] else afterInt;
    if |whole| + |frac| == 0 then None
    else
      var mantissa := DecimalValue(whole, frac);
      if rest == [] then Some(mantissa)
      else if rest[0] != 'e' && rest[0] != 'E' then None
      else
        var e := rest[1..];
        var negExp := e != [] && e[0] == '-';
        var digits := if e != [] && (e[0] == '-' || e[0] == '+') then e[1..] else e;
        if digits == [] || !AllDigits(digits) then None
        else
          var scale := Pow10(DigitsValue(digits)) as real;
          Some(if negExp then mantissa / scale else mantissa * scale)
  }

  /**
   * `Number(text)`: white space is trimmed, the empty text is 0, an optional
   * sign may precede "Infinity" or a decimal literal, anything else is NaN.
   * (Hexadecimal, octal and binary literals are not modelled; they read as NaN.)
   */
  function JsNumber(text: string): (n: Num)
    ensures Trim(text) == "" ==> n == Fin(0.0)
  {
    var t := Trim(text);
    if t == "" then Fin(0.0)
    else
      var negative := t[0] == '-';
      var body := if t[0] == '-' || t[0] == '+' then t[1..] else t;
      if body == "Infinity" then Inf(negative)
      else match UnsignedDecimal(body)
        case None => NaN
        case Some(v) => Fin(if negative then -v else v)
  }

  /**
   * `parseFloat(text)` for a text made of digits and '.', which is all the
   * tokenizer ever hands it: the longest prefix `digits [. digits]` with at
   * least one digit, or NaN when there is none.
   */
  function ParseFloat(text: string): Num {
    var i := DigitPrefix(text);
    var whole := text[..i];
    var hasDot := i < |text| && text[i] == '.';
    var frac := if hasDot then text[i + 1..][..DigitPrefix(text[i + 1..])] else "";
    if |whole| + |frac| == 0 then NaN else Fin(DecimalValue(whole, frac))
  }

  lemma {:induction false} DigitPrefixOfDigits(s: string)
    requires AllDigits(s)
    ensures DigitPrefix(s) == |s|
  {
    if s != [] {
      assert AllDigits(s[1..]) by {
        forall k | 0 <= k < |s[1..]| ensures IsDigit(s[1..][k]) { assert s[1..][k] == s[k + 1]; }
      }
      DigitPrefixOfDigits(s[1..]);
    }
  }

  lemma ParseFloatOfDigits(text: string)
    requires text != [] && AllDigits(text)
    ensures ParseFloat(text) == Fin(DigitsValue(text) as real)
  {
    DigitPrefixOfDigits(text);
    assert text[..|text|] == text;
    assert DecimalValue(text, "") == DigitsValue(text) as real;
  }

  /** A dot with no digit on either side is not a number: `parseFloat(".")` is NaN. */
  lemma ParseFloatOfDotIsNaN()
    ensures ParseFloat(".") == NaN
    ensures ParseFloat("..5") == NaN
  {
    assert DigitPrefix(".") == 0;
    assert DigitPrefix("..5") == 0;
    assert "."[1..] == "";
    assert "..5"[1..] == ".5";
    assert DigitPrefix(".5") == 0;
  }

  lemma {:induction false} UnsignedDecimalOfDigits(s: string)
    requires s != [] && AllDigits(s)
    ensures UnsignedDecimal(s) == Some(DigitsValue(s) as real)
  {
    DigitPrefixOfDigits(s);
    assert s[..|s|] == s;
    assert s[|s|..] == [];
    assert DecimalValue(s, "") == DigitsValue(s) as real;
  }

  /** `Number` of one digit followed by a space is that digit's value. */
  lemma JsNumberPaddedDigit(c: char)
    requires IsDigit(c)
    ensures JsNumber([c, ' ']) == Fin(DigitValue(c))
  {
    assert TrimStart([c, ' ']) == [c, ' '];
    assert [c, ' '][..1] == [c];
    assert TrimEnd([c]) == [c];
    assert Trim([c, ' ']) == [c];
    UnsignedDecimalOfDigits([c]);
    assert [c][..0] == [];
  }

  /** `parseFloat` of a single digit is that digit's value. */
  lemma ParseFloatOfDigit(c: char)
    requires IsDigit(c)
    ensures ParseFloat([c]) == Fin(DigitValue(c))
  {
    ParseFloatOfDigits([c]);
    assert [c][..0] == [];
  }
}
