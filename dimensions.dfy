/**
 * Dimension algebra: numbers with an optional unit, conversion between
 * inches and millimetres, the four arithmetic operations with their unit
 * rules, and the validators and parsers for dimension texts such as "5 in".
 */
module Dimensions {
  import opened JsRuntime
  import opened Types
  import Host

  /** A number with an optional unit; a unitless dimension is a scalar. */
  datatype Dimension = Dimension(scalar: Num, unit: Option<Unit>)

  /** A dimension whose unit is inches or millimetres. */
  type RealDimension = d: Dimension | d.unit == Some(In) || d.unit == Some(Mm)
    witness Dimension(Fin(0.0), Some(In))

  /** A division whose units have not been resolved yet. */
  datatype Fraction = Fraction(numerator: Dimension, denominator: Dimension)

  /** What `simplify` returns: a dimension, or the fraction it could not resolve. */
  datatype Quotient = Resolved(d: Dimension) | Unresolved(f: Fraction)

  /** The errors the algebra and the validators throw. */
  datatype Error =
    | InvalidOperation       // multiplying two dimensions that both have units
    | IncompatibleUnits      // adding dimensions whose units cannot be matched
    | UnknownUnit            // a unit text other than "in" and "mm"
    | InvalidDimension       // a dimension text that is not two space-separated parts
    | InvalidDimensionValue  // a dimension text whose first part is not a number
    | NotPositive            // a negative value where a non-negative one is required

  /** Whether a validation passed, and if not, why. */
  datatype Check = Valid | Invalid(error: Error)

  const MillimetresPerInch: real := 25.4

  predicate IsRealUnitOption(u: Option<Unit>) {
    u == Some(In) || u == Some(Mm)
  }

  // ---------------------------------------------------------------------
  // Arithmetic
  // ---------------------------------------------------------------------

  function Scalar(n: Num): (d: Dimension)
    ensures d.unit == None && d.scalar == n
  {
    Dimension(n, None)
  }

  /**
   * `convertDimension`: only inches and millimetres are converted; a
   * dimension already in the target unit, a unitless one and a pixel one
   * come back unchanged.
   */
  function ConvertDimension(d: Dimension, to: Unit): (r: Dimension)
    ensures IsRealUnitOption(d.unit) ==> r.unit == Some(to)
    ensures !IsRealUnitOption(d.unit) || d.unit == Some(to) ==> r == d
    ensures d.unit == Some(In) && to != In ==> r.scalar == Mul(d.scalar, Fin(MillimetresPerInch))
    ensures d.unit == Some(Mm) && to != Mm ==> r.scalar == Div(d.scalar, Fin(MillimetresPerInch))
  {
    if d.unit == Some(to) then d
    else if d.unit == Some(In) then Dimension(Mul(d.scalar, Fin(MillimetresPerInch)), Some(to))
    else if d.unit == Some(Mm) then Dimension(Div(d.scalar, Fin(MillimetresPerInch)), Some(to))
    else d
  }

  /** Converting to the other physical unit and back gives the dimension back. */
  lemma {:induction false} ConvertRoundTrip(d: Dimension, other: RealUnit)
    requires IsRealUnitOption(d.unit) && d.unit != Some(other)
    ensures ConvertDimension(ConvertDimension(d, other), d.unit.value) == d
  {
    var k := MillimetresPerInch;
    match d.scalar
    case Fin(x) =>
      if d.unit == Some(In) {
        assert x * k / k == x;
      } else {
        assert x / k * k == x;
      }
    case _ =>
  }

  /** `mul`: fails when both operands carry a unit, and keeps the unit one of them has. */
  function Multiply(a: Dimension, b: Dimension): (r: Result<Dimension, Error>)
    ensures r.Err? <==> a.unit.Some? && b.unit.Some?
    ensures r.Err? ==> r.error == InvalidOperation
    ensures r.Ok? ==> r.value.scalar == Mul(a.scalar, b.scalar)
    ensures r.Ok? ==> r.value.unit == (if a.unit.Some? then a.unit else b.unit)
  {
    if a.unit.Some? && b.unit.Some? then Err(InvalidOperation)
    else Ok(Dimension(Mul(a.scalar, b.scalar), if a.unit.Some? then a.unit else b.unit))
  }

  /**
   * `simplify` ends only when converting the denominator to the numerator's
   * unit gives it that unit, which fails for a pixel denominator under an
   * inch or millimetre numerator.
   */
  predicate SimplifyTerminates(f: Fraction) {
    f.denominator.unit == Some(Px) ==> f.numerator.unit == None || f.numerator.unit == Some(Px)
  }

  /** `simplify`: resolves the units of a division. */
  function Simplify(f: Fraction): (r: Quotient)
    requires SimplifyTerminates(f)
    ensures f.numerator.unit == f.denominator.unit ==>
      r == Resolved(Dimension(Div(f.numerator.scalar, f.denominator.scalar), None))
    ensures f.numerator.unit.Some? && f.denominator.unit.Some? && f.numerator.unit != f.denominator.unit ==>
      r == Resolved(Dimension(
        Div(f.numerator.scalar, ConvertDimension(f.denominator, f.numerator.unit.value).scalar), None))
    ensures f.numerator.unit.Some? && f.denominator.unit.None? ==>
      r == Resolved(Dimension(Div(f.numerator.scalar, f.denominator.scalar), f.numerator.unit))
    ensures r.Unresolved? <==> f.numerator.unit.None? && f.denominator.unit.Some?
    ensures r.Unresolved? ==> r.f == f
    decreases if f.numerator.unit == f.denominator.unit then 0 else 1
  {
    if f.numerator.unit == f.denominator.unit then
      Resolved(Dimension(Div(f.numerator.scalar, f.denominator.scalar), None))
    else if f.numerator.unit.Some? && f.denominator.unit.Some? then
      var converted := ConvertDimension(f.denominator, f.numerator.unit.value);
      assert f.denominator.unit.value != Px;
      assert f.denominator.unit.value.In? || f.denominator.unit.value.Mm?;
      Simplify(Fraction(f.numerator, converted))
    else if f.numerator.unit.Some? then
      Resolved(Dimension(Div(f.numerator.scalar, f.denominator.scalar), f.numerator.unit))
    else
      Unresolved(f)
  }

  /** `div`. */
  function Divide(a: Dimension, b: Dimension): Quotient
    requires SimplifyTerminates(Fraction(a, b))
  {
    Simplify(Fraction(a, b))
  }

  /** A nonzero finite dimension divided by itself is the unitless 1. */
  lemma DivideSelf(a: Dimension)
    requires a.scalar.Fin? && a.scalar.r != 0.0
    ensures Divide(a, a) == Resolved(Dimension(Fin(1.0), None))
  {
    DivSelf(a.scalar.r);
  }

  /** Inches divided by millimetres is the unitless ratio with the millimetres converted. */
  lemma DivideInchesByMillimetres(x: real, y: real)
    requires y != 0.0
    ensures Divide(Dimension(Fin(x), Some(In)), Dimension(Fin(y), Some(Mm)))
         == Resolved(Dimension(Fin(x / (y / MillimetresPerInch)), None))
  {
  }

  /**
   * `add`: equal units add; two different units add after converting `b`
   * into `a`'s unit; anything that conversion does not reconcile fails.
   */
  function AddDimensions(a: Dimension, b: Dimension): (r: Result<Dimension, Error>)
    ensures a.unit == b.unit ==> r == Ok(Dimension(Add(a.scalar, b.scalar), a.unit))
    ensures r.Ok? ==> r.value.unit == a.unit
    ensures r.Err? <==> a.unit != b.unit && (a.unit.None? || b.unit.None? || b.unit == Some(Px))
    ensures r.Err? ==> r.error == IncompatibleUnits
    ensures a.unit.Some? && IsRealUnitOption(b.unit) && a.unit != b.unit ==>
      r == Ok(Dimension(Add(a.scalar, ConvertDimension(b, a.unit.value).scalar), a.unit))
  {
    if a.unit == b.unit then Ok(Dimension(Add(a.scalar, b.scalar), a.unit))
    else if a.unit.None? || b.unit.None? then Err(IncompatibleUnits)
    else
      var converted := ConvertDimension(b, a.unit.value);
      assert b.unit.value != Px ==> b.unit.value.In? || b.unit.value.Mm?;
      if converted.unit == a.unit then Ok(Dimension(Add(a.scalar, converted.scalar), a.unit))
      else Err(IncompatibleUnits)
  }

  /** Adding in either order gives the same sum, in the left operand's unit. */
  lemma {:induction false} AddCommutesAcrossUnits(a: Dimension, b: Dimension)
    requires a.unit == b.unit || (IsRealUnitOption(a.unit) && IsRealUnitOption(b.unit))
    ensures AddDimensions(a, b).Ok? && AddDimensions(b, a).Ok?
    ensures a.unit.Some? ==>
      AddDimensions(a, b).value == ConvertDimension(AddDimensions(b, a).value, a.unit.value)
    ensures a.unit.None? ==> AddDimensions(a, b) == AddDimensions(b, a)
  {
    var k := MillimetresPerInch;
    if a.unit == b.unit {
      AddCommutes(a.scalar, b.scalar);
    } else {
      match (a.scalar, b.scalar)
      case (Fin(x), Fin(y)) =>
        if a.unit == Some(In) {
          assert (y + x * k) / k == x + y / k;
        } else {
          assert (y + x / k) * k == x + y * k;
        }
      case _ =>
    }
  }

  /** `neg`: negates the scalar and keeps the unit. */
  function Negate(a: Dimension): (r: Dimension)
    ensures r.unit == a.unit
    ensures a.scalar.Fin? ==> r.scalar == Fin(-a.scalar.r)
  {
    Dimension(Neg(a.scalar), a.unit)
  }

  /** Negating twice gives the dimension back. */
  lemma NegateTwice(a: Dimension)
    ensures Negate(Negate(a)) == a
  {
  }

  // ---------------------------------------------------------------------
  // Validation of unit and dimension texts
  // ---------------------------------------------------------------------

  /** What `assertRealUnit` accepts: exactly "in" or "mm". */
  function RealUnitOf(unit: Option<string>): (r: Result<RealUnit, Error>)
    ensures r.Ok? <==> unit == Some("in") || unit == Some("mm")
    ensures r.Ok? ==> UnitName(r.value) == unit.value
    ensures r.Err? ==> r.error == UnknownUnit
  {
    if unit == Some("in") then Ok(In)
    else if unit == Some("mm") then Ok(Mm)
    else Err(UnknownUnit)
  }

  /**
   * `assertRealUnit`: on a unit it rejects, it first clears `property` of the
   * given node in the plugin-data store, then throws.
   */
  method AssertRealUnit(unit: Option<string>, store: Host.PluginDataStore, node: Option<Host.NodeId>, property: string)
    returns (r: Result<RealUnit, Error>)
    modifies store
    ensures r == RealUnitOf(unit)
    ensures r.Err? && node.Some? ==>
      store.data == old(store.data)[node.value := old(store.Entries(node.value))[property := ""]]
    ensures r.Ok? || node.None? ==> store.data == old(store.data)
  {
    r := RealUnitOf(unit);
    if r.Err? && node.Some? {
      store.Set(node.value, property, "");
    }
  }

  /** The checks `assertRealDimension` makes, in its order. */
  function CheckRealDimension(dimension: string, ensurePositive: bool): Check {
    var parts := Split(dimension);
    if |parts| != 2 then Invalid(InvalidDimension)
    else if JsNumber(parts[0]).NaN? then Invalid(InvalidDimensionValue)
    else if ensurePositive && Less(JsNumber(parts[0]), Fin(0.0)) then Invalid(NotPositive)
    else match RealUnitOf(Some(parts[1]))
      case Ok(_) => Valid
      case Err(e) => Invalid(e)
  }

  /**
   * `assertRealDimension`: every rejection clears `property` of the given
   * node before it throws.
   */
  method AssertRealDimension(dimension: string, ensurePositive: bool,
                             store: Host.PluginDataStore, node: Option<Host.NodeId>, property: string)
    returns (r: Check)
    modifies store
    ensures r == CheckRealDimension(dimension, ensurePositive)
    ensures r.Invalid? && node.Some? ==>
      store.data == old(store.data)[node.value := old(store.Entries(node.value))[property := ""]]
    ensures r.Valid? || node.None? ==> store.data == old(store.data)
  {
    var parts := Split(dimension);
    if |parts| != 2 {
      if node.Some? { store.Set(node.value, property, ""); }
      return Invalid(InvalidDimension);
    }
    var value, unit := parts[0], parts[1];
    if JsNumber(value).NaN? {
      if node.Some? { store.Set(node.value, property, ""); }
      return Invalid(InvalidDimensionValue);
    }
    if ensurePositive && Less(JsNumber(value), Fin(0.0)) {
      if node.Some? { store.Set(node.value, property, ""); }
      return Invalid(NotPositive);
    }
    var u := AssertRealUnit(Some(unit), store, node, property);
    r := if u.Ok? then Valid else Invalid(u.error);
  }

  /** `isRealDimensionString`: whether `assertRealDimension` would pass. */
  predicate IsRealDimensionString(value: string, ensurePositive: bool) {
    CheckRealDimension(value, ensurePositive).Valid?
  }

  /** A valid dimension text is a number, one space and "in" or "mm". */
  lemma IsRealDimensionStringSound(s: string, ensurePositive: bool)
    requires IsRealDimensionString(s, ensurePositive)
    ensures s == Split(s)[0] + " " + Split(s)[1]
    ensures ' ' !in Split(s)[0]
    ensures Split(s)[1] == "in" || Split(s)[1] == "mm"
    ensures !JsNumber(Split(s)[0]).NaN?
    ensures ensurePositive ==> !Less(JsNumber(Split(s)[0]), Fin(0.0))
  {
    SplitInTwo(s);
  }

  /** Every number text followed by one space and "in" or "mm" is valid. */
  lemma IsRealDimensionStringComplete(number: string, unit: RealUnit, ensurePositive: bool)
    requires ' ' !in number && !JsNumber(number).NaN?
    requires ensurePositive ==> !Less(JsNumber(number), Fin(0.0))
    ensures IsRealDimensionString(number + " " + UnitName(unit), ensurePositive)
  {
    SplitTwo(number, UnitName(unit));
  }

  /** Number("") is 0, so a lone space and a unit pass validation. */
  lemma EmptyNumberPartIsValid()
    ensures IsRealDimensionString(" in", true)
  {
    IsRealDimensionStringComplete("", In, true);
  }

  /** `parseRealDimensionString`: the first two space-separated parts, the second a real unit. */
  function ParseRealDimensionString(str: string): (r: Result<RealDimension, Error>)
    ensures r.Ok? <==> |Split(str)| >= 2 && (Split(str)[1] == "in" || Split(str)[1] == "mm")
    ensures r.Ok? ==> r.value.scalar == JsNumber(Split(str)[0])
    ensures r.Ok? ==> UnitName(r.value.unit.value) == Split(str)[1]
  {
    var parts := Split(str);
    match RealUnitOf(if |parts| >= 2 then Some(parts[1]) else None)
    case Err(e) => Err(e)
    case Ok(u) => Ok(Dimension(JsNumber(parts[0]), Some(u)))
  }

  /** Parsing the text of a number and a unit gives that number and unit back. */
  lemma {:induction false} ParseFormatted(number: string, unit: RealUnit)
    requires ' ' !in number
    ensures ParseRealDimensionString(number + " " + UnitName(unit))
         == Ok(Dimension(JsNumber(number), Some(unit)))
  {
    SplitTwo(number, UnitName(unit));
  }

  // ---------------------------------------------------------------------
  // Trailing zeros
  // ---------------------------------------------------------------------

  /** Length of the run of '0's at the end of `s`. */
  function TrailingZeros(s: string): (n: nat)
    ensures n <= |s|
    ensures forall k :: |s| - n <= k < |s| ==> s[k] == '0'
    ensures n < |s| ==> s[|s| - n - 1] != '0'
  {
    if s != [] && s[|s| - 1] == '0' then 1 + TrailingZeros(s[..|s| - 1]) else 0
  }

  /**
   * `removeTrailingZeros`, the replacement of /\.?0+$/ by "": the run of
   * trailing '0's goes, with the '.' just before it if there is one.
   */
  function RemoveTrailingZeros(s: string): (r: string)
    ensures |r| <= |s| && r == s[..|r|]
    ensures (|r| == |s|) <==> (s == [] || s[|s| - 1] != '0')
    ensures forall k :: |r| < k < |s| ==> s[k] == '0'
    ensures |r| < |s| ==> s[|r|] == '0' || (s[|r|] == '.' && |r| + 1 < |s|)
    ensures |r| < |s| && s[|r|] == '0' ==> r == [] || (r[|r| - 1] != '0' && r[|r| - 1] != '.')
  {
    var n := TrailingZeros(s);
    var cut := |s| - n;
    if n == 0 then s
    else if cut > 0 && s[cut - 1] == '.' then s[..cut - 1]
    else s[..cut]
  }

  /** Removing trailing zeros twice can remove more than once: "10.0" becomes "10", then "1". */
  lemma RemoveTrailingZerosNotIdempotent()
    ensures RemoveTrailingZeros("10.0") == "10"
    ensures RemoveTrailingZeros("10") == "1"
  {
    assert TrailingZeros("10.0") == 1 by {
      assert "10.0"[..3] == "10.";
    }
    assert "10.0"[..2] == "10";
    assert TrailingZeros("10") == 1 by {
      assert "10"[..1] == "1";
    }
  }

  // ---------------------------------------------------------------------
  // Coercion of free text
  // ---------------------------------------------------------------------

  /** Length of the run of ASCII letters at the end of `s` (what /[a-z]+$/i matches). */
  function TrailingLetters(s: string): (n: nat)
    ensures n <= |s|
    ensures forall k :: |s| - n <= k < |s| ==> IsAsciiLetter(s[k])
    ensures n < |s| ==> !IsAsciiLetter(s[|s| - n - 1])
  {
    if s != [] && IsAsciiLetter(s[|s| - 1]) then 1 + TrailingLetters(s[..|s| - 1]) else 0
  }

  function LowerChar(c: char): char {
    if 'A' <= c <= 'Z' then (c as int + 32) as char else c
  }

  /** `toLowerCase` on ASCII letters. */
  function Lower(s: string): (r: string)
    ensures |r| == |s|
    ensures forall k :: 0 <= k < |s| ==> r[k] == LowerChar(s[k])
  {
    if s == [] then [] else [LowerChar(s[0])] + Lower(s[1..])
  }

  /** The unit `coerceDimension` picks for a suffix: "in" or "mm" in any case, else the default. */
  function SuffixUnit(suffix: string, defaultUnits: RealUnit): RealUnit {
    var lower := Lower(suffix);
    if lower == "in" then In else if lower == "mm" then Mm else defaultUnits
  }

  /** The scalar `coerceDimension` keeps: a negative one becomes its absolute value under `ensurePositive`. */
  function SignAdjusted(scalar: Num, ensurePositive: bool): (v: Num)
    ensures v.NaN? <==> scalar.NaN?
    ensures ensurePositive ==> !Less(v, Fin(0.0))
    ensures !ensurePositive || !Less(scalar, Fin(0.0)) ==> v == scalar
  {
    if ensurePositive && Less(scalar, Fin(0.0)) then Abs(scalar) else scalar
  }

  /** A number is kept as it is, and is not a zero under `ensurePositive`, exactly when `ensurePositive` finds it above zero. */
  lemma SignAdjustedKeeps(scalar: Num, ensurePositive: bool)
    requires !scalar.NaN?
    ensures SignAdjusted(scalar, ensurePositive) == scalar && !(ensurePositive && scalar == Fin(0.0))
            <==> (ensurePositive ==> Less(Fin(0.0), scalar))
  {
  }

  /**
   * The dimension `coerceDimension` writes out: the text is trimmed, a
   * trailing run of letters is the unit candidate, the rest is read with
   * `Number`, and with `ensurePositive` a negative value is replaced by its
   * absolute value.
   */
  function CoercedDimension(text: string, ensurePositive: bool, defaultUnits: RealUnit): (r: Option<RealDimension>)
    ensures Trim(text) == "" ==> r.None?
    ensures r.Some? ==> !r.value.scalar.NaN?
    ensures r.Some? && ensurePositive ==> !Less(r.value.scalar, Fin(0.0))
  {
    var t := Trim(text);
    if t == "" then None
    else
      var n := TrailingLetters(t);
      var scalar := JsNumber(t[..|t| - n]);
      if scalar.NaN? then None
      else
        var d: RealDimension := Dimension(SignAdjusted(scalar, ensurePositive), Some(SuffixUnit(t[|t| - n..], defaultUnits)));
        Some(d)
  }

  /** `coerceDimension`: the coerced dimension as "<number> <unit>", given how numbers print. */
  function CoerceDimension(text: string, ensurePositive: bool, defaultUnits: RealUnit, show: Num -> string)
    : (r: Option<string>)
    ensures r.Some? <==> CoercedDimension(text, ensurePositive, defaultUnits).Some?
  {
    match CoercedDimension(text, ensurePositive, defaultUnits)
    case None => None
    case Some(d) => Some(show(d.scalar) + " " + UnitName(d.unit.value))
  }

  predicate AllLetters(s: string) {
    forall k :: 0 <= k < |s| ==> IsAsciiLetter(s[k])
  }

  lemma {:induction false} TrailingLettersOf(x: string, u: string)
    requires AllLetters(u)
    requires x == [] || !IsAsciiLetter(x[|x| - 1])
    ensures TrailingLetters(x + u) == |u|
  {
    if u != [] {
      var s := x + u;
      assert s[..|s| - 1] == x + u[..|u| - 1];
      TrailingLettersOf(x, u[..|u| - 1]);
    } else {
      assert x + u == x;
    }
  }

  lemma TrimOfTrimmed(t: string)
    requires t != [] && !IsWhiteSpace(t[0]) && !IsWhiteSpace(t[|t| - 1])
    ensures Trim(t) == t
  {
  }

  /**
   * How `coerceDimension` reads a trimmed text made of a number part and a
   * run of letters: the number part is read with `Number`, the letters name
   * the unit when they spell "in" or "mm" in any case, and otherwise the
   * default unit is used; a number part that is not a number gives nothing.
   */
  lemma CoerceNumberAndSuffix(x: string, u: string, ensurePositive: bool, defaultUnits: RealUnit)
    requires AllLetters(u)
    requires x == [] || !IsAsciiLetter(x[|x| - 1])
    requires x + u != [] && !IsWhiteSpace((x + u)[0]) && !IsWhiteSpace((x + u)[|x + u| - 1])
    ensures JsNumber(x).NaN? ==> CoercedDimension(x + u, ensurePositive, defaultUnits) == None
    ensures !JsNumber(x).NaN? ==> (CoercedDimension(x + u, ensurePositive, defaultUnits) ==
      Some(Dimension(SignAdjusted(JsNumber(x), ensurePositive), Some(SuffixUnit(u, defaultUnits)))))
  {
    var t := x + u;
    TrimOfTrimmed(t);
    TrailingLettersOf(x, u);
    assert t[..|t| - |u|] == x;
    assert t[|t| - |u|..] == u;
  }

  /** "IN" is a run of letters that names inches. */
  lemma SuffixInUpperCase(defaultUnits: RealUnit)
    ensures AllLetters("IN") && SuffixUnit("IN", defaultUnits) == In
  {
    assert Lower("IN") == "in";
    assert "IN"[0] == 'I' && "IN"[1] == 'N';
  }

  /** A digit followed by " IN" is that many inches whatever the default unit: "5 IN" is five inches. */
  lemma CoerceUpperCaseInches(c: char, defaultUnits: RealUnit)
    requires IsDigit(c)
    ensures CoercedDimension([c, ' ', 'I', 'N'], false, defaultUnits) == Some(Dimension(Fin(DigitValue(c)), Some(In)))
  {
    var x: string, u: string := [c, ' '], "IN";
    assert x + u == [c, ' ', 'I', 'N'];
    assert x[|x| - 1] == ' ' && (x + u)[0] == c && (x + u)[3] == 'N';
    SuffixInUpperCase(defaultUnits);
    JsNumberPaddedDigit(c);
    CoerceNumberAndSuffix(x, u, false, defaultUnits);
  }
}
