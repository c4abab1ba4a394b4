/**
 * The dimension text box: the rule that validates its text when it loses
 * focus, and the state update that decides when a typed value is reported.
 */
module DimensionTextbox {
  import opened JsRuntime
  import opened Types
  import opened Dimensions

  /** What blur validation returns: a replacement text, or `false` for a rejected text. */
  datatype Validation = Accepted(text: string) | Rejected

  /**
   * `handleValidateOnBlur`: blank text becomes ""; text `coerceDimension`
   * rejects is refused; with `ensurePositive` a coerced value whose number
   * reads as zero becomes ""; otherwise the coerced "<number> <unit>" text
   * replaces the input. Reading the coerced text back can throw when its
   * unit part is not "in" or "mm".
   */
  function HandleValidateOnBlur(value: string, ensurePositive: bool, defaultUnits: RealUnit, show: Num -> string)
    : (r: Result<Validation, Error>)
    ensures Trim(value) == "" ==> r == Ok(Accepted(""))
    ensures Trim(value) != "" && CoercedDimension(value, ensurePositive, defaultUnits).None? ==> r == Ok(Rejected)
    ensures r == Ok(Rejected) ==> CoercedDimension(value, ensurePositive, defaultUnits).None?
    ensures r.Ok? && r.value.Accepted? && r.value.text != "" ==>
      r.value.text == CoerceDimension(value, ensurePositive, defaultUnits, show).value
    ensures r.Err? ==> CoercedDimension(value, ensurePositive, defaultUnits).Some?
                       && ParseRealDimensionString(CoerceDimension(value, ensurePositive, defaultUnits, show).value).Err?
    ensures ensurePositive && r.Ok? && r.value.Accepted? && r.value.text != "" ==>
      ParseRealDimensionString(r.value.text).Ok? && ParseRealDimensionString(r.value.text).value.scalar != Fin(0.0)
    ensures ensurePositive && Trim(value) != "" && CoercedDimension(value, ensurePositive, defaultUnits).Some?
            && ParseRealDimensionString(CoerceDimension(value, ensurePositive, defaultUnits, show).value).Ok?
            && ParseRealDimensionString(CoerceDimension(value, ensurePositive, defaultUnits, show).value).value.scalar == Fin(0.0)
            ==> r == Ok(Accepted(""))
  {
    if Trim(value) == "" then Ok(Accepted(""))
    else
      match CoerceDimension(value, ensurePositive, defaultUnits, show)
      case None => Ok(Rejected)
      case Some(coerced) =>
        match ParseRealDimensionString(coerced)
        case Err(e) => Err(e)
        case Ok(parsed) =>
          if ensurePositive && parsed.scalar == Fin(0.0) then Ok(Accepted(""))
          else Ok(Accepted(coerced))
  }

  /**
   * `n` prints faithfully: as a non-empty text without spaces, with no white
   * space at either end, that reads back as `n`, as JavaScript's printing of
   * a number does.
   */
  ghost predicate PrintsFaithfully(show: Num -> string, n: Num) {
    show(n) != [] && ' ' !in show(n) && !IsWhiteSpace(show(n)[0])
    && !IsWhiteSpace(show(n)[|show(n)| - 1]) && JsNumber(show(n)) == n
  }

  /**
   * When the coerced number prints faithfully, validation never throws, and
   * a text that coerces gives either "" (a zero under `ensurePositive`) or
   * the coerced text.
   */
  lemma ValidationOfCoercedText(value: string, ensurePositive: bool, defaultUnits: RealUnit, show: Num -> string)
    requires Trim(value) != "" && CoercedDimension(value, ensurePositive, defaultUnits).Some?
    requires PrintsFaithfully(show, CoercedDimension(value, ensurePositive, defaultUnits).value.scalar)
    ensures var d := CoercedDimension(value, ensurePositive, defaultUnits).value;
      HandleValidateOnBlur(value, ensurePositive, defaultUnits, show)
      == Ok(Accepted(if ensurePositive && d.scalar == Fin(0.0) then "" else show(d.scalar) + " " + UnitName(d.unit.value)))
  {
    var d := CoercedDimension(value, ensurePositive, defaultUnits).value;
    assert ' ' !in show(d.scalar) && JsNumber(show(d.scalar)) == d.scalar;
    ParseFormatted(show(d.scalar), d.unit.value);
  }

  /** A text that validates to itself and is not "" is a well-formed "<number> <unit>" text. */
  lemma ValidatedTextParses(value: string, ensurePositive: bool, defaultUnits: RealUnit, show: Num -> string)
    requires HandleValidateOnBlur(value, ensurePositive, defaultUnits, show) == Ok(Accepted(value)) && value != ""
    ensures ParseRealDimensionString(value).Ok?
  {
  }

  /** A non-blank text without a space never validates to itself: "5" becomes "5 in" or similar. */
  lemma NoSpaceNeverAccepted(value: string, ensurePositive: bool, defaultUnits: RealUnit, show: Num -> string)
    requires value != "" && ' ' !in value
    ensures HandleValidateOnBlur(value, ensurePositive, defaultUnits, show) != Ok(Accepted(value))
  {
    var r := HandleValidateOnBlur(value, ensurePositive, defaultUnits, show);
    if r.Ok? && r.value.Accepted? && r.value.text != "" {
      var d := CoercedDimension(value, ensurePositive, defaultUnits).value;
      var text := show(d.scalar) + " " + UnitName(d.unit.value);
      assert text[|show(d.scalar)|] == ' ';
    }
  }

  /** A unit's name is its own suffix: "in" and "mm" name inches and millimetres. */
  lemma SuffixOfUnitName(u: RealUnit, defaultUnits: RealUnit)
    ensures AllLetters(UnitName(u)) && SuffixUnit(UnitName(u), defaultUnits) == u
  {
    if u == In {
      assert Lower("in") == "in";
    } else {
      assert Lower("mm") == "mm";
    }
  }

  /** A text without white space at either end is what trimming it with a space after it leaves. */
  lemma TrimPadded(s: string)
    requires s != [] && !IsWhiteSpace(s[0]) && !IsWhiteSpace(s[|s| - 1])
    ensures Trim(s + " ") == s
  {
    var t := s + " ";
    assert t[0] == s[0] && t[|t| - 1] == ' ';
    assert TrimStart(t) == t;
    assert t[..|t| - 1] == s;
    assert TrimEnd(s) == s;
  }

  /** `Number` reads only what trimming leaves. */
  lemma JsNumberOfTrim(a: string, b: string)
    requires Trim(a) == Trim(b)
    ensures JsNumber(a) == JsNumber(b)
  {
  }

  /** A number text without white space at either end reads the same with a space after it. */
  lemma PaddedNumber(s: string)
    requires s != [] && !IsWhiteSpace(s[0]) && !IsWhiteSpace(s[|s| - 1])
    ensures JsNumber(s + " ") == JsNumber(s)
  {
    TrimPadded(s);
    TrimOfTrimmed(s);
    JsNumberOfTrim(s + " ", s);
  }

  /** Two texts that end alike agree before that ending. */
  lemma SameEnding(a: string, b: string, w: string)
    requires a + w == b + w
    ensures a == b
  {
    assert a == (a + w)[..|a|];
    assert b == (b + w)[..|b|];
  }

  /** The ends of a "<number> <unit>" text: its number's first character and its unit's last letter. */
  lemma PrintedEnds(s: string, u: RealUnit)
    requires s != [] && !IsWhiteSpace(s[0])
    ensures var t := s + " " + UnitName(u); t != [] && !IsWhiteSpace(t[0]) && !IsWhiteSpace(t[|t| - 1])
  {
    var t := s + " " + UnitName(u);
    assert t[0] == s[0];
    assert t[|t| - 1] == UnitName(u)[1];
  }

  /** How a "<number> <unit>" text coerces: to that number and unit, made positive under `ensurePositive`. */
  lemma CoercePrinted(s: string, u: RealUnit, ensurePositive: bool, defaultUnits: RealUnit)
    requires s != [] && !IsWhiteSpace(s[0]) && !IsWhiteSpace(s[|s| - 1])
    ensures JsNumber(s).NaN? ==> CoercedDimension(s + " " + UnitName(u), ensurePositive, defaultUnits).None?
    ensures !JsNumber(s).NaN? ==>
              CoercedDimension(s + " " + UnitName(u), ensurePositive, defaultUnits)
              == Some(Dimension(SignAdjusted(JsNumber(s), ensurePositive), Some(u)))
  {
    var x := s + " ";
    PaddedNumber(s);
    SuffixOfUnitName(u, defaultUnits);
    PrintedEnds(s, u);
    assert x[|x| - 1] == ' ';
    CoerceNumberAndSuffix(x, UnitName(u), ensurePositive, defaultUnits);
  }

  /**
   * A text printed from a number and a unit validates to itself exactly
   * when the number is not NaN and, under `ensurePositive`, is above zero:
   * NaN is refused, zero is cleared, and a negative number comes back
   * without its sign. Only the number and the value it is coerced to need
   * to print faithfully.
   */
  lemma PrintedDimensionValidation(n: Num, u: RealUnit, ensurePositive: bool, defaultUnits: RealUnit,
                                   show: Num -> string)
    requires PrintsFaithfully(show, n)
    requires !n.NaN? ==> PrintsFaithfully(show, SignAdjusted(n, ensurePositive))
    ensures HandleValidateOnBlur(show(n) + " " + UnitName(u), ensurePositive, defaultUnits, show)
            == Ok(Accepted(show(n) + " " + UnitName(u)))
            <==> !n.NaN? && (ensurePositive ==> Less(Fin(0.0), n))
  {
    var text := show(n) + " " + UnitName(u);
    CoercePrinted(show(n), u, ensurePositive, defaultUnits);
    if !n.NaN? {
      var m := SignAdjusted(n, ensurePositive);
      ValidationOfCoercedText(text, ensurePositive, defaultUnits, show);
      SignAdjustedKeeps(n, ensurePositive);
      assert show(m) + " " + UnitName(u) == text <==> m == n by {
        if show(m) + " " + UnitName(u) == text {
          SameEnding(show(m) + " ", show(n) + " ", UnitName(u));
          SameEnding(show(m), show(n), " ");
          assert JsNumber(show(m)) == m && JsNumber(show(n)) == n;
        }
      }
    }
  }

  /** A printing function that prints one digit's value as that digit, and anything else as "NaN". */
  function DigitPrinter(c: char): Num -> string {
    n => if n == Fin(DigitValue(c)) then [c] else "NaN"
  }

  /** A single digit reads back as its value. */
  lemma DigitReadsBack(c: char)
    requires IsDigit(c)
    ensures JsNumber([c]) == Fin(DigitValue(c))
  {
    assert [c] + " " == [c, ' '];
    PaddedNumber([c]);
    JsNumberPaddedDigit(c);
  }

  /** The digit printer prints its digit's value faithfully, so the precondition above can be met. */
  lemma DigitPrintsFaithfully(c: char)
    requires IsDigit(c)
    ensures PrintsFaithfully(DigitPrinter(c), Fin(DigitValue(c)))
  {
    var text := DigitPrinter(c)(Fin(DigitValue(c)));
    assert text == [c];
    assert !IsWhiteSpace(c);
    assert ' ' !in text by {
      assert forall x :: x in text ==> x == c;
    }
    DigitReadsBack(c);
  }

  /**
   * A non-zero digit followed by a space and a unit name validates to
   * itself, with or without `ensurePositive`: typing "5 in" is reported.
   */
  lemma DigitDimensionAccepted(c: char, u: RealUnit, ensurePositive: bool, defaultUnits: RealUnit)
    requires IsDigit(c) && c != '0'
    ensures HandleValidateOnBlur([c] + " " + UnitName(u), ensurePositive, defaultUnits, DigitPrinter(c))
            == Ok(Accepted([c] + " " + UnitName(u)))
  {
    var show, n := DigitPrinter(c), Fin(DigitValue(c));
    DigitPrintsFaithfully(c);
    assert show(n) == [c];
    assert DigitValue(c) > 0.0 && Less(Fin(0.0), n);
    assert SignAdjusted(n, ensurePositive) == n;
    PrintedDimensionValidation(n, u, ensurePositive, defaultUnits, show);
    var text := [c] + " " + UnitName(u);
    assert show(n) + " " + UnitName(u) == text;
    assert HandleValidateOnBlur(text, ensurePositive, defaultUnits, show) == Ok(Accepted(text));
  }

  /** The text box's state: the text it shows and the two settings validation uses. */
  class DimensionTextbox {
    var value: string
    const ensurePositive: bool
    const defaultUnits: RealUnit

    /** `useState(initialValue ?? "")`. */
    constructor(initialValue: Option<string>, ensurePositive: bool, defaultUnits: RealUnit)
      ensures value == (if initialValue.Some? then initialValue.value else "")
      ensures this.ensurePositive == ensurePositive && this.defaultUnits == defaultUnits
    {
      value := if initialValue.Some? then initialValue.value else "";
      this.ensurePositive := ensurePositive;
      this.defaultUnits := defaultUnits;
    }

    /** The effect that resets the text when the initial value changes. */
    method SyncInitialValue(initialValue: Option<string>)
      modifies this
      ensures value == (if initialValue.Some? then initialValue.value else "")
    {
      value := if initialValue.Some? then initialValue.value else "";
    }

    /** The text shown: nothing while disabled. */
    function Displayed(disabled: bool): (r: string)
      reads this
      ensures disabled ==> r == ""
      ensures !disabled ==> r == value
    {
      if disabled then "" else value
    }

    /**
     * `handleValueInput`: the new text is always stored, and it is reported
     * (the returned flag) exactly when it differs from the previous text and
     * validates to itself; validation is only run when the text changed, and
     * if it throws the text is left as it was.
     */
    method HandleValueInput(newValue: string, show: Num -> string) returns (r: Result<bool, Error>)
      modifies this
      ensures r.Err? <==> newValue != old(value) && HandleValidateOnBlur(newValue, ensurePositive, defaultUnits, show).Err?
      ensures r.Err? ==> value == old(value)
      ensures r.Ok? ==> value == newValue
      ensures r.Ok? ==> (r.value <==> newValue != old(value)
                                      && HandleValidateOnBlur(newValue, ensurePositive, defaultUnits, show) == Ok(Accepted(newValue)))
    {
      var reported := false;
      if newValue != value {
        var validated := HandleValidateOnBlur(newValue, ensurePositive, defaultUnits, show);
        if validated.Err? {
          return Err(validated.error);
        }
        reported := validated.value == Accepted(newValue);
      }
      value := newValue;
      return Ok(reported);
    }
  }
}
