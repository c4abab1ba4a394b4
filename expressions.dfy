/**
 * The arithmetic evaluator behind the dimension text boxes: a tokenizer, a
 * recursive-descent parser whose functions share one cursor, and a tree
 * evaluator over the dimension algebra.
 */
module Expressions {
  import opened JsRuntime
  import opened Types
  import opened Dimensions

  // ---------------------------------------------------------------------
  // Tokens
  // ---------------------------------------------------------------------

  datatype Token =
    | OpenParen
    | CloseParen
    | Number(text: string)
    | Plus
    | Minus
    | Star
    | Slash
    | UnitTok(unit: RealUnit)

  /** The four operator tokens, which the syntax tree also uses as operators. */
  type Operator = t: Token | t.Plus? || t.Minus? || t.Star? || t.Slash? witness Plus

  /**
   * A character that may extend a number token. The decimal-point flag of
   * the tokenizer is never set, so every '.' qualifies.
   */
  predicate IsNumberChar(c: char) {
    IsDigit(c) || c == '.'
  }

  /** End of the maximal run of digits and dots that starts at `i`. */
  function NumberEnd(input: string, i: nat): (j: nat)
    requires i <= |input|
    ensures i <= j <= |input|
    ensures forall k :: i <= k < j ==> IsNumberChar(input[k])
    ensures j < |input| ==> !IsNumberChar(input[j])
    decreases |input| - i
  {
    if i < |input| && IsNumberChar(input[i]) then NumberEnd(input, i + 1) else i
  }

  function Prepend(t: Token, rest: Option<seq<Token>>): Option<seq<Token>> {
    match rest
    case None => None
    case Some(ts) => Some([t] + ts)
  }

  /** The token of a one-character token: a parenthesis or an operator. */
  function SingleToken(c: char): Option<Token> {
    if c == '(' then Some(OpenParen)
    else if c == ')' then Some(CloseParen)
    else if c == '+' then Some(Plus)
    else if c == '-' then Some(Minus)
    else if c == '*' then Some(Star)
    else if c == '/' then Some(Slash)
    else None
  }

  /** The unit token that starts at `i`: "in" or "mm". */
  function UnitTokenAt(input: string, i: nat): Option<Token>
    requires i < |input|
  {
    if input[i] == 'i' && i + 1 < |input| && input[i + 1] == 'n' then Some(UnitTok(In))
    else if input[i] == 'm' && i + 1 < |input| && input[i + 1] == 'm' then Some(UnitTok(Mm))
    else None
  }

  /**
   * The tokens of `input[i..]`, or None when the tokenizer reaches a
   * character it does not recognise: there its loop stops advancing and
   * never ends. (The source tests the characters in the order space,
   * parentheses, number, operators, units; the sets are disjoint.)
   */
  function Scan(input: string, i: nat): Option<seq<Token>>
    requires i <= |input|
    decreases |input| - i
  {
    if i == |input| then Some([])
    else
      var c := input[i];
      if c == ' ' then Scan(input, i + 1)
      else if SingleToken(c).Some? then Prepend(SingleToken(c).value, Scan(input, i + 1))
      else if IsNumberChar(c) then
        var j := NumberEnd(input, i);
        Prepend(Number(input[i..j]), Scan(input, j))
      else if UnitTokenAt(input, i).Some? then Prepend(UnitTokenAt(input, i).value, Scan(input, i + 2))
      else None
  }

  /** Whether `tokenize` ends on `input`. */
  predicate Tokenizes(input: string) {
    Scan(input, 0).Some?
  }

  /** `tokenize`, for an input on which its loop ends. */
  method Tokenize(input: string) returns (tokens: seq<Token>)
    requires Tokenizes(input)
    ensures Scan(input, 0) == Some(tokens)
  {
    tokens := [];
    var i := 0;
    assert Scan(input, 0).value == tokens + Scan(input, 0).value;
    while i < |input|
      invariant i <= |input|
      invariant Scan(input, i).Some? && Scan(input, 0).value == tokens + Scan(input, i).value
      decreases |input| - i
    {
      var c := input[i];
      if c == ' ' {
        ScanSkip(input, i);
        i := i + 1;
        continue;
      }
      if c == '(' {
        AdvanceSingle(input, tokens, i);
        tokens := tokens + [OpenParen];
        i := i + 1;
        continue;
      }
      if c == ')' {
        AdvanceSingle(input, tokens, i);
        tokens := tokens + [CloseParen];
        i := i + 1;
        continue;
      }
      if IsNumberChar(c) {
        var start := i;
        var value;
        value, i := ReadNumber(input, i);
        ScanNumber(input, start);
        Advance(input, tokens, start, Number(value), i);
        tokens := tokens + [Number(value)];
        continue;
      }
      if c == '+' {
        AdvanceSingle(input, tokens, i);
        tokens := tokens + [Plus];
        i := i + 1;
        continue;
      }
      if c == '-' {
        AdvanceSingle(input, tokens, i);
        tokens := tokens + [Minus];
        i := i + 1;
        continue;
      }
      if c == '*' {
        AdvanceSingle(input, tokens, i);
        tokens := tokens + [Star];
        i := i + 1;
        continue;
      }
      if c == '/' {
        AdvanceSingle(input, tokens, i);
        tokens := tokens + [Slash];
        i := i + 1;
        continue;
      }
      if c == 'i' && i + 1 < |input| && input[i + 1] == 'n' {
        AdvanceUnit(input, tokens, i);
        tokens := tokens + [UnitTok(In)];
        i := i + 2;
        continue;
      }
      if c == 'm' && i + 1 < |input| && input[i + 1] == 'm' {
        AdvanceUnit(input, tokens, i);
        tokens := tokens + [UnitTok(Mm)];
        i := i + 2;
        continue;
      }
      // Any other character: the loop would spin here forever.
      assert false;
    }
    assert Scan(input, i) == Some([]);
    assert tokens + [] == tokens;
  }

  /** The inner loop of `tokenize` that reads a number: the run of digits and dots that starts at `start`. */
  method ReadNumber(input: string, start: nat) returns (value: string, i: nat)
    requires start <= |input|
    ensures i == NumberEnd(input, start) && value == input[start..i]
  {
    i := start;
    value := "";
    while i < |input| && IsNumberChar(input[i])
      invariant start <= i <= |input|
      invariant value == input[start..i]
      invariant NumberEnd(input, start) == NumberEnd(input, i)
      decreases |input| - i
    {
      value := value + [input[i]];
      i := i + 1;
    }
  }

  /** One step of the tokenizer loop: emitting `t` and moving from `i` to `next` keeps the tokens in step with Scan. */
  lemma Advance(input: string, tokens: seq<Token>, i: nat, t: Token, next: nat)
    requires i < next <= |input|
    requires Scan(input, i) == Prepend(t, Scan(input, next))
    requires Tokenizes(input) && Scan(input, i).Some?
    requires Scan(input, 0).value == tokens + Scan(input, i).value
    ensures Scan(input, next).Some? && Scan(input, 0).value == (tokens + [t]) + Scan(input, next).value
  {
  }

  /** A step of the tokenizer loop over a one-character token. */
  lemma AdvanceSingle(input: string, tokens: seq<Token>, i: nat)
    requires i < |input| && SingleToken(input[i]).Some?
    requires Tokenizes(input) && Scan(input, i).Some?
    requires Scan(input, 0).value == tokens + Scan(input, i).value
    ensures Scan(input, i + 1).Some?
    ensures Scan(input, 0).value == (tokens + [SingleToken(input[i]).value]) + Scan(input, i + 1).value
  {
    ScanSingle(input, i);
    Advance(input, tokens, i, SingleToken(input[i]).value, i + 1);
  }

  /** A step of the tokenizer loop over a unit. */
  lemma AdvanceUnit(input: string, tokens: seq<Token>, i: nat)
    requires i + 1 < |input| && UnitTokenAt(input, i).Some?
    requires Tokenizes(input) && Scan(input, i).Some?
    requires Scan(input, 0).value == tokens + Scan(input, i).value
    ensures Scan(input, i + 2).Some?
    ensures Scan(input, 0).value == (tokens + [UnitTokenAt(input, i).value]) + Scan(input, i + 2).value
  {
    ScanUnit(input, i);
    Advance(input, tokens, i, UnitTokenAt(input, i).value, i + 2);
  }

  /** One step of Scan for each kind of character: a space, a one-character token, a unit, a number. */
  lemma ScanSkip(input: string, i: nat)
    requires i < |input| && input[i] == ' '
    ensures Scan(input, i) == Scan(input, i + 1)
  {
  }

  lemma ScanSingle(input: string, i: nat)
    requires i < |input| && SingleToken(input[i]).Some?
    ensures Scan(input, i) == Prepend(SingleToken(input[i]).value, Scan(input, i + 1))
  {
  }

  lemma ScanUnit(input: string, i: nat)
    requires i + 1 < |input| && UnitTokenAt(input, i).Some?
    ensures Scan(input, i) == Prepend(UnitTokenAt(input, i).value, Scan(input, i + 2))
  {
  }

  lemma ScanNumber(input: string, i: nat)
    requires i < |input| && IsNumberChar(input[i])
    ensures Scan(input, i) == Prepend(Number(input[i..NumberEnd(input, i)]), Scan(input, NumberEnd(input, i)))
  {
  }

  /** The characters the tokenizer recognises (an 'i', 'n' or 'm' only inside "in" or "mm"). */
  predicate InAlphabet(c: char) {
    c == ' ' || SingleToken(c).Some? || IsNumberChar(c) || c == 'i' || c == 'n' || c == 'm'
  }

  /** The tokenizer gets stuck at, and so never gets past, any character it does not recognise. */
  lemma {:induction false} ScanStopsAt(input: string, i: nat, k: nat)
    requires i <= k < |input| && !InAlphabet(input[k])
    ensures Scan(input, i) == None
    decreases |input| - i
  {
    if i < k {
      var c := input[i];
      if c == ' ' || SingleToken(c).Some? {
        ScanStopsAt(input, i + 1, k);
      } else if IsNumberChar(c) {
        ScanStopsAt(input, NumberEnd(input, i), k);
      } else if UnitTokenAt(input, i).Some? {
        ScanStopsAt(input, i + 2, k);
      }
    }
  }

  /** A tab, a stray letter or an 'i' without its 'n' makes the tokenizer spin. */
  lemma UnrecognisedCharactersHang()
    ensures !Tokenizes("\t")
    ensures !Tokenizes("2x")
    ensures !Tokenizes("1 i")
  {
    ScanStopsAt("\t", 0, 0);
    ScanStopsAt("2x", 0, 1);
    assert NumberEnd("1 i", 0) == 1;
    assert Scan("1 i", 2) == None;
  }

  /** The text a token was read from. */
  function TokenText(t: Token): string {
    match t
    case OpenParen => "("
    case CloseParen => ")"
    case Number(text) => text
    case Plus => "+"
    case Minus => "-"
    case Star => "*"
    case Slash => "/"
    case UnitTok(u) => UnitName(u)
  }

  function Spell(ts: seq<Token>): string {
    if ts == [] then "" else TokenText(ts[0]) + Spell(ts[1..])
  }

  function WithoutSpaces(s: string): string {
    if s == [] then "" else (if s[0] == ' ' then "" else [s[0]]) + WithoutSpaces(s[1..])
  }

  lemma {:induction false} WithoutSpacesAppend(a: string, b: string)
    ensures WithoutSpaces(a + b) == WithoutSpaces(a) + WithoutSpaces(b)
  {
    if a != [] {
      assert (a + b)[1..] == a[1..] + b;
      WithoutSpacesAppend(a[1..], b);
    } else {
      assert a + b == b;
    }
  }

  lemma {:induction false} WithoutSpacesOfNumber(s: string)
    requires forall k :: 0 <= k < |s| ==> IsNumberChar(s[k])
    ensures WithoutSpaces(s) == s
  {
    if s != [] {
      WithoutSpacesOfNumber(s[1..]);
    }
  }

  lemma SpellPrepend(t: Token, ts: seq<Token>)
    ensures Spell([t] + ts) == TokenText(t) + Spell(ts)
  {
    assert ([t] + ts)[1..] == ts;
  }

  lemma WithoutSpacesStep(input: string, i: nat)
    requires i < |input|
    ensures WithoutSpaces(input[i..]) == (if input[i] == ' ' then "" else [input[i]]) + WithoutSpaces(input[i + 1..])
  {
    assert input[i..][1..] == input[i + 1..];
  }

  /**
   * The tokens spell the input back with its spaces removed: nothing but
   * spaces is dropped, and every other character lands in exactly one token.
   */
  lemma {:induction false} ScanSpellsInput(input: string, i: nat)
    requires i <= |input| && Scan(input, i).Some?
    ensures Spell(Scan(input, i).value) == WithoutSpaces(input[i..])
    decreases |input| - i
  {
    if i < |input| {
      var c := input[i];
      if c == ' ' {
        ScanSkip(input, i);
        ScanSpellsInput(input, i + 1);
        WithoutSpacesStep(input, i);
      } else if SingleToken(c).Some? {
        SingleSpelled(input, i);
      } else if IsNumberChar(c) {
        NumberSpelled(input, i);
      } else {
        UnitSpelled(input, i);
      }
    }
  }

  lemma {:induction false} SingleSpelled(input: string, i: nat)
    requires i < |input| && SingleToken(input[i]).Some? && Scan(input, i).Some?
    ensures Spell(Scan(input, i).value) == WithoutSpaces(input[i..])
    decreases |input| - i, 0
  {
    ScanSingle(input, i);
    ScanSpellsInput(input, i + 1);
    SpellPrepend(SingleToken(input[i]).value, Scan(input, i + 1).value);
    WithoutSpacesStep(input, i);
  }

  lemma {:induction false} NumberSpelled(input: string, i: nat)
    requires i < |input| && IsNumberChar(input[i]) && Scan(input, i).Some?
    requires Scan(input, NumberEnd(input, i)).Some?
    ensures Spell(Scan(input, i).value) == WithoutSpaces(input[i..])
    decreases |input| - i, 0
  {
    var j := NumberEnd(input, i);
    var run := input[i..j];
    assert Scan(input, i).value == [Number(run)] + Scan(input, j).value;
    ScanSpellsInput(input, j);
    SpellPrepend(Number(run), Scan(input, j).value);
    assert input[i..] == input[i..j] + input[j..];
    WithoutSpacesAppend(input[i..j], input[j..]);
    WithoutSpacesOfNumber(input[i..j]);
  }

  lemma {:induction false} UnitSpelled(input: string, i: nat)
    requires i < |input| && UnitTokenAt(input, i).Some? && Scan(input, i).Some?
    requires Scan(input, i + 2).Some?
    ensures Spell(Scan(input, i).value) == WithoutSpaces(input[i..])
    decreases |input| - i, 0
  {
    var t := UnitTokenAt(input, i).value;
    var rest := Scan(input, i + 2).value;
    ScanUnit(input, i);
    ScanSpellsInput(input, i + 2);
    SpellPrepend(t, rest);
    UnitText(input, i);
    WithoutSpacesOfPair(input, i);
  }

  /** A unit token is spelled by the two characters it was read from, neither of them a space. */
  lemma UnitText(input: string, i: nat)
    requires i < |input| && UnitTokenAt(input, i).Some?
    ensures i + 1 < |input| && input[i] != ' ' && input[i + 1] != ' '
    ensures TokenText(UnitTokenAt(input, i).value) == [input[i], input[i + 1]]
  {
  }

  lemma WithoutSpacesOfPair(input: string, i: nat)
    requires i + 1 < |input| && input[i] != ' ' && input[i + 1] != ' '
    ensures WithoutSpaces(input[i..]) == [input[i], input[i + 1]] + WithoutSpaces(input[i + 2..])
  {
    WithoutSpacesStep(input, i);
    WithoutSpacesStep(input, i + 1);
  }

  /** A number token takes the whole run of digits and dots, however many dots it holds. */
  lemma NumberTokenIgnoresExtraDots()
    ensures Scan("1.2.3in", 0) == Some([Number("1.2.3"), UnitTok(In)])
  {
    var s := "1.2.3in";
    assert NumberEnd(s, 5) == 5;
    assert NumberEnd(s, 4) == 5;
    assert NumberEnd(s, 3) == 5;
    assert NumberEnd(s, 2) == 5;
    assert NumberEnd(s, 1) == 5;
    assert NumberEnd(s, 0) == 5;
    assert UnitTokenAt(s, 5) == Some(UnitTok(In));
    assert s[0..5] == "1.2.3";
    assert Scan(s, 7) == Some([]);
    assert s[5] == 'i' && !IsNumberChar(s[5]) && SingleToken(s[5]).None?;
    assert Scan(s, 5) == Prepend(UnitTok(In), Scan(s, 7));
    var none: seq<Token> := [];
    assert [UnitTok(In)] + none == [UnitTok(In)];
    assert Scan(s, 0) == Prepend(Number("1.2.3"), Scan(s, 5));
    assert [Number("1.2.3")] + [UnitTok(In)] == [Number("1.2.3"), UnitTok(In)];
  }

  // ---------------------------------------------------------------------
  // Syntax tree and parser
  // ---------------------------------------------------------------------

  datatype Expr =
    | Quantity(value: Num, unit: Option<RealUnit>)
    | Binary(op: Operator, left: Expr, right: Expr, unit: Option<RealUnit>)
    | UnitExpression(target: RealUnit, expression: Expr)

  /** The `unit` property of a node. */
  function NodeUnit(e: Expr): Option<RealUnit> {
    match e
    case Quantity(_, u) => u
    case Binary(_, _, _, u) => u
    case UnitExpression(u, _) => Some(u)
  }

  /** Why parsing threw. */
  datatype ParseError =
    | UnexpectedToken       // no factor can start here, or a group lacks its unit
    | UnexpectedEnd         // a factor was expected after the last token
    | ExpectedClosingParen
    | ExpectedNumber
    | ExpectedSlash

  /** A parsed node and the cursor position after it. */
  datatype Parsed = Parsed(expr: Expr, next: nat)

  function ExprOf(r: Result<Parsed, ParseError>): Result<Expr, ParseError> {
    match r
    case Ok(p) => Ok(p.expr)
    case Err(e) => Err(e)
  }

  predicate NumberAt(t: seq<Token>, i: nat) {
    i < |t| && t[i].Number?
  }

  predicate UnitAt(t: seq<Token>, i: nat) {
    i < |t| && t[i].UnitTok?
  }

  /** `parseOptionalUnit`: a unit token is taken when it is next. */
  function OptionalUnitAt(t: seq<Token>, i: nat): (r: (Option<RealUnit>, nat))
    requires i <= |t|
    ensures r.0.Some? <==> UnitAt(t, i)
    ensures r.1 == (if UnitAt(t, i) then i + 1 else i)
    ensures r.0.Some? ==> r.0.value == t[i].unit
  {
    if UnitAt(t, i) then (Some(t[i].unit), i + 1) else (None, i)
  }

  /** `parseFraction`: exactly a number, a slash and a number. */
  function ParseFractionAt(t: seq<Token>, i: nat): (r: Result<Parsed, ParseError>)
    requires i <= |t|
    ensures r.Ok? <==> NumberAt(t, i) && i + 1 < |t| && t[i + 1] == Slash && NumberAt(t, i + 2)
    ensures r.Ok? ==> r.value.next == i + 3
    ensures r.Ok? ==> (r.value.expr ==
      Binary(Slash, Quantity(ParseFloat(t[i].text), None), Quantity(ParseFloat(t[i + 2].text), None), None))
  {
    if !NumberAt(t, i) then Err(ExpectedNumber)
    else if !(i + 1 < |t| && t[i + 1] == Slash) then Err(ExpectedSlash)
    else if !NumberAt(t, i + 2) then Err(ExpectedNumber)
    else
      var numerator := ParseFloat(t[i].text);
      var denominator := ParseFloat(t[i + 2].text);
      Ok(Parsed(Binary(Slash, Quantity(numerator, None), Quantity(denominator, None), None), i + 3))
  }

  /** Whether a parenthesised group that closes at `close` is followed by a unit other than its node's own. */
  predicate GroupLabelled(t: seq<Token>, close: nat, inner: Expr) {
    close < |t| && t[close] == CloseParen && UnitAt(t, close + 1)
    && NodeUnit(inner).Some? && NodeUnit(inner).value != t[close + 1].unit
  }

  /**
   * `parseFactor`: a number with an optional unit; a number followed by a
   * number, which starts a compound fraction `whole num/den [unit]`; or a
   * parenthesised expression, which parses only when a unit other than the
   * inner node's own unit follows it.
   */
  function ParseFactorAt(t: seq<Token>, i: nat): (r: Result<Parsed, ParseError>)
    requires i <= |t|
    ensures r.Ok? ==> i < r.value.next <= |t|
    decreases |t| - i, 0
  {
    if NumberAt(t, i) then
      var value := ParseFloat(t[i].text);
      if NumberAt(t, i + 1) then
        match ParseFractionAt(t, i + 1)
        case Err(e) => Err(e)
        case Ok(Parsed(fraction, j)) =>
          var (unit, k) := OptionalUnitAt(t, j);
          Ok(Parsed(Binary(Plus, Quantity(value, None), fraction, unit), k))
      else
        var (unit, j) := OptionalUnitAt(t, i + 1);
        Ok(Parsed(Quantity(value, unit), j))
    else if i == |t| then Err(UnexpectedEnd)
    else if t[i] == OpenParen then
      match ParseExpressionAt(t, i + 1)
      case Err(e) => Err(e)
      case Ok(Parsed(inner, j)) =>
        if !(j < |t| && t[j] == CloseParen) then Err(ExpectedClosingParen)
        else
          var (unit, k) := OptionalUnitAt(t, j + 1);
          if unit.Some? && NodeUnit(inner).Some? && unit != NodeUnit(inner) then
            Ok(Parsed(UnitExpression(unit.value, inner), k))
          else Err(UnexpectedToken)
    else Err(UnexpectedToken)
  }

  /** `parseTerm`: factors joined by `*` and `/`, nested to the right. */
  function ParseTermAt(t: seq<Token>, i: nat): (r: Result<Parsed, ParseError>)
    requires i <= |t|
    ensures r.Ok? ==> i < r.value.next <= |t|
    decreases |t| - i, 1
  {
    match ParseFactorAt(t, i)
    case Err(e) => Err(e)
    case Ok(Parsed(left, j)) =>
      if j < |t| && (t[j] == Star || t[j] == Slash) then
        match ParseTermAt(t, j + 1)
        case Err(e) => Err(e)
        case Ok(Parsed(right, k)) => Ok(Parsed(Binary(t[j], left, right, None), k))
      else Ok(Parsed(left, j))
  }

  /** `parseExpression`: terms joined by `+` and `-`, nested to the right. */
  function ParseExpressionAt(t: seq<Token>, i: nat): (r: Result<Parsed, ParseError>)
    requires i <= |t|
    ensures r.Ok? ==> i < r.value.next <= |t|
    decreases |t| - i, 2
  {
    match ParseTermAt(t, i)
    case Err(e) => Err(e)
    case Ok(Parsed(left, j)) =>
      if j < |t| && (t[j] == Plus || t[j] == Minus) then
        match ParseExpressionAt(t, j + 1)
        case Err(e) => Err(e)
        case Ok(Parsed(right, k)) => Ok(Parsed(Binary(t[j], left, right, None), k))
      else Ok(Parsed(left, j))
  }

  /** Only a number or an opening parenthesis can start a factor. */
  lemma FactorStart(t: seq<Token>, i: nat)
    requires i <= |t| && ParseFactorAt(t, i).Ok?
    ensures NumberAt(t, i) || (i < |t| && t[i] == OpenParen)
  {
  }

  /** A number not followed by a number is a quantity, with the unit token after it if there is one. */
  lemma NumberFactor(t: seq<Token>, i: nat)
    requires NumberAt(t, i) && !NumberAt(t, i + 1)
    ensures ParseFactorAt(t, i) ==
      Ok(Parsed(Quantity(ParseFloat(t[i].text), OptionalUnitAt(t, i + 1).0), OptionalUnitAt(t, i + 1).1))
  {
  }

  /**
   * Two numbers in a row start a compound fraction `whole num/den [unit]`:
   * the whole part plus the fraction, with the optional unit on the sum. A
   * missing slash or denominator makes the factor fail.
   */
  lemma CompoundFactor(t: seq<Token>, i: nat)
    requires NumberAt(t, i) && NumberAt(t, i + 1)
    ensures ParseFactorAt(t, i).Ok? <==> i + 2 < |t| && t[i + 2] == Slash && NumberAt(t, i + 3)
    ensures ParseFactorAt(t, i).Ok? ==> ParseFactorAt(t, i) == Ok(Parsed(
      Binary(Plus, Quantity(ParseFloat(t[i].text), None),
             Binary(Slash, Quantity(ParseFloat(t[i + 1].text), None), Quantity(ParseFloat(t[i + 3].text), None), None),
             OptionalUnitAt(t, i + 4).0),
      OptionalUnitAt(t, i + 4).1))
  {
  }

  /**
   * A parenthesised group parses exactly when it closes and is followed by
   * a unit other than the inner node's own unit; it then becomes a unit
   * expression with that unit.
   */
  lemma GroupFactor(t: seq<Token>, i: nat)
    requires i < |t| && t[i] == OpenParen
    ensures ParseFactorAt(t, i).Ok? <==>
      ParseExpressionAt(t, i + 1).Ok?
      && GroupLabelled(t, ParseExpressionAt(t, i + 1).value.next, ParseExpressionAt(t, i + 1).value.expr)
    ensures ParseFactorAt(t, i).Ok? ==>
      var inner := ParseExpressionAt(t, i + 1).value;
      ParseFactorAt(t, i) == Ok(Parsed(UnitExpression(t[inner.next + 1].unit, inner.expr), inner.next + 2))
  {
  }

  /** A factor not followed by `*` or `/` is a term by itself. */
  lemma TermOfFactor(t: seq<Token>, i: nat, e: Expr, j: nat)
    requires i <= |t| && ParseFactorAt(t, i) == Ok(Parsed(e, j))
    requires !(j < |t| && (t[j] == Star || t[j] == Slash))
    ensures ParseTermAt(t, i) == Ok(Parsed(e, j))
  {
  }

  /** A factor, `*` or `/`, and a term make a product or quotient whose right side is the whole term. */
  lemma TermOfProduct(t: seq<Token>, i: nat, left: Expr, j: nat, right: Expr, k: nat)
    requires i <= |t| && ParseFactorAt(t, i) == Ok(Parsed(left, j))
    requires j < |t| && (t[j] == Star || t[j] == Slash)
    requires ParseTermAt(t, j + 1) == Ok(Parsed(right, k))
    ensures ParseTermAt(t, i) == Ok(Parsed(Binary(t[j], left, right, None), k))
  {
  }

  /** A term not followed by `+` or `-` is an expression by itself. */
  lemma ExpressionOfTerm(t: seq<Token>, i: nat, e: Expr, j: nat)
    requires i <= |t| && ParseTermAt(t, i) == Ok(Parsed(e, j))
    requires !(j < |t| && (t[j] == Plus || t[j] == Minus))
    ensures ParseExpressionAt(t, i) == Ok(Parsed(e, j))
  {
  }

  /** A term, `+` or `-`, and an expression make a sum or difference whose right side is the whole expression. */
  lemma ExpressionOfSum(t: seq<Token>, i: nat, left: Expr, j: nat, right: Expr, k: nat)
    requires i <= |t| && ParseTermAt(t, i) == Ok(Parsed(left, j))
    requires j < |t| && (t[j] == Plus || t[j] == Minus)
    requires ParseExpressionAt(t, j + 1) == Ok(Parsed(right, k))
    ensures ParseExpressionAt(t, i) == Ok(Parsed(Binary(t[j], left, right, None), k))
  {
  }

  /** `parseMathExpression` as a function of the input; tokens after the expression are not looked at. */
  function Parse(input: string): Result<Expr, ParseError>
    requires Tokenizes(input)
  {
    ExprOf(ParseExpressionAt(Scan(input, 0).value, 0))
  }

  /** The parser's closure: the token list and the cursor its functions share. */
  class Parser {
    const tokens: seq<Token>
    var i: nat

    constructor (tokens: seq<Token>)
      ensures this.tokens == tokens && i == 0
    {
      this.tokens := tokens;
      i := 0;
    }

    method ParseOptionalUnit() returns (unit: Option<RealUnit>)
      requires i <= |tokens|
      modifies this
      ensures (unit, i) == OptionalUnitAt(tokens, old(i))
    {
      unit := None;
      if i < |tokens| && tokens[i].UnitTok? {
        unit := Some(tokens[i].unit);
        i := i + 1;
      }
    }

    method ParseFraction() returns (r: Result<Expr, ParseError>)
      requires i <= |tokens|
      modifies this
      ensures old(i) <= i <= |tokens|
      ensures r == ExprOf(ParseFractionAt(tokens, old(i)))
      ensures r.Ok? ==> i == ParseFractionAt(tokens, old(i)).value.next
    {
      if !(i < |tokens| && tokens[i].Number?) {
        return Err(ExpectedNumber);
      }
      var numerator := ParseFloat(tokens[i].text);
      i := i + 1;
      if !(i < |tokens| && tokens[i] == Slash) {
        return Err(ExpectedSlash);
      }
      i := i + 1;
      if !(i < |tokens| && tokens[i].Number?) {
        return Err(ExpectedNumber);
      }
      var denominator := ParseFloat(tokens[i].text);
      i := i + 1;
      return Ok(Binary(Slash, Quantity(numerator, None), Quantity(denominator, None), None));
    }

    method ParseFactor() returns (r: Result<Expr, ParseError>)
      requires i <= |tokens|
      modifies this
      ensures old(i) <= i <= |tokens|
      ensures r == ExprOf(ParseFactorAt(tokens, old(i)))
      ensures r.Ok? ==> i == ParseFactorAt(tokens, old(i)).value.next
      decreases |tokens| - i, 0
    {
      if i < |tokens| && tokens[i].Number? {
        var value := ParseFloat(tokens[i].text);
        i := i + 1;
        if i < |tokens| && tokens[i].Number? {
          var fraction := ParseFraction();
          if fraction.Err? {
            return Err(fraction.error);
          }
          var unit := ParseOptionalUnit();
          return Ok(Binary(Plus, Quantity(value, None), fraction.value, unit));
        }
        var unit := ParseOptionalUnit();
        return Ok(Quantity(value, unit));
      }
      if i == |tokens| {
        return Err(UnexpectedEnd);
      }
      if tokens[i] == OpenParen {
        i := i + 1;
        var expression := ParseExpression();
        if expression.Err? {
          return expression;
        }
        if !(i < |tokens| && tokens[i] == CloseParen) {
          return Err(ExpectedClosingParen);
        }
        i := i + 1;
        var unit := ParseOptionalUnit();
        if unit.Some? && NodeUnit(expression.value).Some? && unit != NodeUnit(expression.value) {
          return Ok(UnitExpression(unit.value, expression.value));
        }
      }
      return Err(UnexpectedToken);
    }

    method ParseTerm() returns (r: Result<Expr, ParseError>)
      requires i <= |tokens|
      modifies this
      ensures old(i) <= i <= |tokens|
      ensures r == ExprOf(ParseTermAt(tokens, old(i)))
      ensures r.Ok? ==> i == ParseTermAt(tokens, old(i)).value.next
      decreases |tokens| - i, 1
    {
      var left := ParseFactor();
      if left.Err? {
        return left;
      }
      if i < |tokens| && (tokens[i] == Star || tokens[i] == Slash) {
        var operator := tokens[i];
        i := i + 1;
        var right := ParseTerm();
        if right.Err? {
          return right;
        }
        return Ok(Binary(operator, left.value, right.value, None));
      }
      return left;
    }

    method ParseExpression() returns (r: Result<Expr, ParseError>)
      requires i <= |tokens|
      modifies this
      ensures old(i) <= i <= |tokens|
      ensures r == ExprOf(ParseExpressionAt(tokens, old(i)))
      ensures r.Ok? ==> i == ParseExpressionAt(tokens, old(i)).value.next
      decreases |tokens| - i, 2
    {
      var left := ParseTerm();
      if left.Err? {
        return left;
      }
      if i < |tokens| && (tokens[i] == Plus || tokens[i] == Minus) {
        var operator := tokens[i];
        i := i + 1;
        var right := ParseExpression();
        if right.Err? {
          return right;
        }
        return Ok(Binary(operator, left.value, right.value, None));
      }
      return left;
    }
  }

  /** `parseMathExpression`: tokenize, then parse one expression from the first token. */
  method ParseMathExpression(input: string) returns (r: Result<Expr, ParseError>)
    requires Tokenizes(input)
    ensures r == Parse(input)
  {
    var tokens := Tokenize(input);
    var parser := new Parser(tokens);
    r := parser.ParseExpression();
  }

  // ---------------------------------------------------------------------
  // Evaluation
  // ---------------------------------------------------------------------

  /** What evaluation yields: a dimension, or a division whose units stayed unresolved. */
  datatype Value = Dim(d: Dimension) | Frac(f: Fraction)

  /**
   * A value as an operand. A fraction object has neither `scalar` nor
   * `unit`, so arithmetic on it gives NaN and its unit reads as absent.
   */
  function Operand(v: Value): Dimension {
    match v
    case Dim(d) => d
    case Frac(_) => Dimension(NaN, None)
  }

  /** Evaluation never produces pixels: the tokenizer only knows "in" and "mm". */
  predicate NoPixels(v: Value) {
    match v
    case Dim(d) => d.unit != Some(Px)
    case Frac(f) => f.numerator.unit != Some(Px) && f.denominator.unit != Some(Px)
  }

  /** The `??` operator on units. */
  function Coalesce(a: Option<Unit>, b: Option<Unit>): Option<Unit> {
    if a.Some? then a else b
  }

  /**
   * Addition with loose unit matching: a unitless side takes the other
   * side's unit before `add`. With no pixels around it never fails.
   */
  function LooseAdd(a: Dimension, b: Dimension): (r: Result<Dimension, Error>)
    requires a.unit != Some(Px) && b.unit != Some(Px)
    ensures r.Ok?
    ensures r.value.unit == Coalesce(a.unit, b.unit)
    ensures a.unit == b.unit || a.unit.None? || b.unit.None? ==> r.value.scalar == Add(a.scalar, b.scalar)
    ensures a.unit.Some? && b.unit.Some? && a.unit != b.unit ==>
      r.value.scalar == Add(a.scalar, ConvertDimension(b, a.unit.value).scalar)
  {
    var left := Dimension(a.scalar, Coalesce(a.unit, b.unit));
    var right := Dimension(b.scalar, Coalesce(b.unit, a.unit));
    assert right.unit != Some(Px) && right.unit.Some? ==> right.unit.value.In? || right.unit.value.Mm?;
    AddDimensions(left, right)
  }

  /** One operator applied to two evaluated operands. */
  function Apply(op: Operator, left: Dimension, right: Dimension): (r: Result<Value, Error>)
    requires left.unit != Some(Px) && right.unit != Some(Px)
    ensures r.Ok? ==> NoPixels(r.value)
    ensures op == Plus ==> r == Ok(Dim(LooseAdd(left, right).value))
    ensures op == Minus ==> r == Ok(Dim(LooseAdd(left, Negate(right)).value))
    ensures op == Star ==> (r.Err? <==> left.unit.Some? && right.unit.Some?)
    ensures op == Star && r.Ok? ==> r.value == Dim(Multiply(left, right).value)
    ensures op == Slash ==> r.Ok? && r.value.Dim? == Divide(left, right).Resolved?
    ensures op == Slash ==>
      r == Ok(if Divide(left, right).Resolved? then Dim(Divide(left, right).d) else Frac(Divide(left, right).f))
  {
    if op == Plus then Ok(Dim(LooseAdd(left, right).value))
    else if op == Minus then Ok(Dim(LooseAdd(left, Negate(right)).value))
    else if op == Star then
      match Multiply(left, right)
      case Ok(d) => Ok(Dim(d))
      case Err(e) => Err(e)
    else
      match Divide(left, right)
      case Resolved(d) => Ok(Dim(d))
      case Unresolved(f) => Ok(Frac(f))
  }

  /** A node's own unit applied to its result: a united result is converted, a unitless one labelled. */
  function Relabel(v: Value, target: RealUnit): (d: Dimension)
    requires NoPixels(v)
    ensures d.unit == Some(target)
    ensures Operand(v).unit.None? ==> d.scalar == Operand(v).scalar
    ensures Operand(v).unit.Some? ==> d == ConvertDimension(Operand(v), target)
  {
    var res := Operand(v);
    if res.unit.Some? then
      assert res.unit.value.In? || res.unit.value.Mm?;
      ConvertDimension(res, target)
    else Dimension(res.scalar, Some(target))
  }

  /** `evaluateExpression`, with the errors the algebra throws as `Err`. */
  function Evaluate(e: Expr): (r: Result<Value, Error>)
    ensures r.Ok? ==> NoPixels(r.value)
    ensures r.Ok? && NodeUnit(e).Some? ==> r.value == Dim(Dimension(Operand(r.value).scalar, NodeUnit(e)))
  {
    match e
    case Quantity(value, unit) => Ok(Dim(Dimension(value, unit)))
    case UnitExpression(target, inner) =>
      (match Evaluate(inner)
       case Err(err) => Err(err)
       case Ok(res) => Ok(Dim(Relabel(res, target))))
    case Binary(op, left, right, unit) =>
      match Evaluate(left)
      case Err(err) => Err(err)
      case Ok(l) =>
        match Evaluate(right)
        case Err(err) => Err(err)
        case Ok(r) =>
          match Apply(op, Operand(l), Operand(r))
          case Err(err) => Err(err)
          case Ok(res) => if unit.Some? then Ok(Dim(Relabel(res, unit.value))) else Ok(res)
  }

  /** `tryEvaluate`: every parse or evaluation error becomes `undefined` (None). */
  function TryEvaluate(input: string): (r: Option<Value>)
    requires Tokenizes(input)
    ensures r.Some? ==> NoPixels(r.value)
    ensures r.Some? <==> Parse(input).Ok? && Evaluate(Parse(input).value).Ok?
    ensures r.Some? ==> r.value == Evaluate(Parse(input).value).value
  {
    match Parse(input)
    case Err(_) => None
    case Ok(e) =>
      match Evaluate(e)
      case Err(_) => None
      case Ok(v) => Some(v)
  }

  // ---------------------------------------------------------------------
  // Worked examples
  // ---------------------------------------------------------------------

  /** A one-digit number token ends at the next character that is not a digit or a dot. */
  lemma ScanDigit(input: string, i: nat)
    requires i < |input| && IsDigit(input[i])
    requires i + 1 == |input| || !IsNumberChar(input[i + 1])
    ensures Scan(input, i) == Prepend(Number([input[i]]), Scan(input, i + 1))
  {
    assert NumberEnd(input, i + 1) == i + 1;
    assert input[i..i + 1] == [input[i]];
  }

  /** The last two tokens of "a - b - c": "- c". */
  lemma ScanOfDigitSubtractionTail(a: char, b: char, c: char)
    requires IsDigit(a) && IsDigit(b) && IsDigit(c)
    ensures Scan([a, ' ', '-', ' ', b, ' ', '-', ' ', c], 6) == Some([Minus, Number([c])])
  {
    var s := [a, ' ', '-', ' ', b, ' ', '-', ' ', c];
    var none: seq<Token> := [];
    assert Scan(s, 9) == Some(none);
    ScanDigit(s, 8);
    assert [Number([c])] + none == [Number([c])];
    ScanSkip(s, 7);
    ScanSingle(s, 6);
    assert [Minus] + [Number([c])] == [Minus, Number([c])];
  }

  /** The tokens of "a - b - c" for one-digit numbers a, b and c. */
  lemma ScanOfDigitSubtraction(a: char, b: char, c: char)
    requires IsDigit(a) && IsDigit(b) && IsDigit(c)
    ensures Scan([a, ' ', '-', ' ', b, ' ', '-', ' ', c], 0) == Some([Number([a]), Minus, Number([b]), Minus, Number([c])])
  {
    var s := [a, ' ', '-', ' ', b, ' ', '-', ' ', c];
    ScanOfDigitSubtractionTail(a, b, c);
    ScanSkip(s, 5);
    ScanDigit(s, 4);
    assert [Number([b])] + [Minus, Number([c])] == [Number([b]), Minus, Number([c])];
    ScanSkip(s, 3);
    ScanSingle(s, 2);
    assert [Minus] + [Number([b]), Minus, Number([c])] == [Minus, Number([b]), Minus, Number([c])];
    ScanSkip(s, 1);
    ScanDigit(s, 0);
    assert [Number([a])] + [Minus, Number([b]), Minus, Number([c])] == [Number([a]), Minus, Number([b]), Minus, Number([c])];
  }

  lemma TokensOfSubtraction()
    ensures Scan("1 - 2 - 3", 0) == Some([Number("1"), Minus, Number("2"), Minus, Number("3")])
  {
    ScanOfDigitSubtraction('1', '2', '3');
  }

  /** A one-digit number token followed by neither a number nor a unit is a unitless quantity. */
  lemma BareDigitFactor(t: seq<Token>, i: nat, d: char)
    requires i < |t| && t[i] == Number([d]) && IsDigit(d) && !NumberAt(t, i + 1) && !UnitAt(t, i + 1)
    ensures ParseFactorAt(t, i) == Ok(Parsed(Quantity(Fin(DigitValue(d)), None), i + 1))
  {
    ParseFloatOfDigit(d);
    NumberFactor(t, i);
  }

  /** A one-digit number token followed by a unit token is a quantity in that unit. */
  lemma UnitDigitFactor(t: seq<Token>, i: nat, d: char)
    requires i + 1 < |t| && t[i] == Number([d]) && IsDigit(d) && t[i + 1].UnitTok?
    ensures ParseFactorAt(t, i) == Ok(Parsed(Quantity(Fin(DigitValue(d)), Some(t[i + 1].unit)), i + 2))
  {
    ParseFloatOfDigit(d);
    NumberFactor(t, i);
  }

  /** A one-digit number that is the last token is an expression by itself. */
  lemma LastDigitExpression(t: seq<Token>, i: nat, d: char)
    requires i + 1 == |t| && t[i] == Number([d]) && IsDigit(d)
    ensures ParseExpressionAt(t, i) == Ok(Parsed(Quantity(Fin(DigitValue(d)), None), i + 1))
  {
    var e := Quantity(Fin(DigitValue(d)), None);
    BareDigitFactor(t, i, d);
    TermOfFactor(t, i, e, i + 1);
    ExpressionOfTerm(t, i, e, i + 1);
  }

  /** The token list of "1 - 2 - 3" parses as 1 - (2 - 3). */
  lemma ParseSubtraction(t: seq<Token>)
    requires t == [Number("1"), Minus, Number("2"), Minus, Number("3")]
    ensures ParseExpressionAt(t, 0) == Ok(Parsed(
      Binary(Minus, Quantity(Fin(1.0), None), Binary(Minus, Quantity(Fin(2.0), None), Quantity(Fin(3.0), None), None), None), 5))
  {
    var one, two, three := Quantity(Fin(1.0), None), Quantity(Fin(2.0), None), Quantity(Fin(3.0), None);
    var right := Binary(Minus, two, three, None);
    assert ParseExpressionAt(t, 2) == Ok(Parsed(right, 5)) by {
      LastDigitExpression(t, 4, '3');
      BareDigitFactor(t, 2, '2');
      TermOfFactor(t, 2, two, 3);
      ExpressionOfSum(t, 2, two, 3, three, 5);
    }
    BareDigitFactor(t, 0, '1');
    TermOfFactor(t, 0, one, 1);
    ExpressionOfSum(t, 0, one, 1, right, 5);
  }

  /** `-` nests to the right: "1 - 2 - 3" is 1 - (2 - 3) = 2. */
  lemma SubtractionNestsRight()
    ensures Tokenizes("1 - 2 - 3")
    ensures TryEvaluate("1 - 2 - 3") == Some(Dim(Dimension(Fin(2.0), None)))
  {
    TokensOfSubtraction();
    ParseSubtraction(Scan("1 - 2 - 3", 0).value);
  }

  /** `*` binds tighter than `+`: the tokens of "2 + 3 * 4" give 2 + (3 * 4) = 14. */
  lemma ProductBindsTighter(t: seq<Token>)
    requires t == [Number("2"), Plus, Number("3"), Star, Number("4")]
    ensures ParseExpressionAt(t, 0) == Ok(Parsed(
      Binary(Plus, Quantity(Fin(2.0), None), Binary(Star, Quantity(Fin(3.0), None), Quantity(Fin(4.0), None), None), None), 5))
    ensures Evaluate(ParseExpressionAt(t, 0).value.expr) == Ok(Dim(Dimension(Fin(14.0), None)))
  {
    var two, three, four := Quantity(Fin(2.0), None), Quantity(Fin(3.0), None), Quantity(Fin(4.0), None);
    var product := Binary(Star, three, four, None);
    assert ParseExpressionAt(t, 2) == Ok(Parsed(product, 5)) by {
      BareDigitFactor(t, 4, '4');
      TermOfFactor(t, 4, four, 5);
      BareDigitFactor(t, 2, '3');
      TermOfProduct(t, 2, three, 3, four, 5);
      ExpressionOfTerm(t, 2, product, 5);
    }
    BareDigitFactor(t, 0, '2');
    TermOfFactor(t, 0, two, 1);
    ExpressionOfSum(t, 0, two, 1, product, 5);
  }

  /** A whole number and a fraction add up, and the unit after them labels the sum. */
  lemma CompoundFractionValue(whole: real, num: real, den: real, unit: Option<RealUnit>)
    requires den != 0.0
    ensures Evaluate(Binary(Plus, Quantity(Fin(whole), None),
                            Binary(Slash, Quantity(Fin(num), None), Quantity(Fin(den), None), None), unit))
         == Ok(Dim(Dimension(Fin(whole + num / den), unit)))
  {
    var quotient := Binary(Slash, Quantity(Fin(num), None), Quantity(Fin(den), None), None);
    assert Divide(Dimension(Fin(num), None), Dimension(Fin(den), None)) == Resolved(Dimension(Fin(num / den), None));
    assert Evaluate(quotient) == Ok(Dim(Dimension(Fin(num / den), None)));
    var sum := LooseAdd(Dimension(Fin(whole), None), Dimension(Fin(num / den), None));
    assert sum == Ok(Dimension(Fin(whole + num / den), None));
  }

  /** The tokens of "1 1/8 in" give 1.125 inches. */
  lemma CompoundFractionInInches(t: seq<Token>)
    requires t == [Number("1"), Number("1"), Slash, Number("8"), UnitTok(In)]
    ensures ParseExpressionAt(t, 0).Ok?
    ensures Evaluate(ParseExpressionAt(t, 0).value.expr) == Ok(Dim(Dimension(Fin(1.125), Some(In))))
  {
    var one, eight := Quantity(Fin(1.0), None), Quantity(Fin(8.0), None);
    var e := Binary(Plus, one, Binary(Slash, one, eight, None), Some(In));
    assert ParseFactorAt(t, 0) == Ok(Parsed(e, 5)) by {
      ParseFloatOfDigit('1');
      ParseFloatOfDigit('8');
      CompoundFactor(t, 0);
    }
    TermOfFactor(t, 0, e, 5);
    ExpressionOfTerm(t, 0, e, 5);
    CompoundFractionValue(1.0, 1.0, 8.0, Some(In));
    assert 1.0 + 1.0 / 8.0 == 1.125;
  }

  /** A unitless operand of `+` takes the other side's unit: the tokens of "1 + 2 in" give 3 inches. */
  lemma LooseUnitMatching(t: seq<Token>)
    requires t == [Number("1"), Plus, Number("2"), UnitTok(In)]
    ensures ParseExpressionAt(t, 0).Ok?
    ensures Evaluate(ParseExpressionAt(t, 0).value.expr) == Ok(Dim(Dimension(Fin(3.0), Some(In))))
  {
    var one, twoInches := Quantity(Fin(1.0), None), Quantity(Fin(2.0), Some(In));
    assert ParseExpressionAt(t, 2) == Ok(Parsed(twoInches, 4)) by {
      UnitDigitFactor(t, 2, '2');
      TermOfFactor(t, 2, twoInches, 4);
      ExpressionOfTerm(t, 2, twoInches, 4);
    }
    BareDigitFactor(t, 0, '1');
    TermOfFactor(t, 0, one, 1);
    ExpressionOfSum(t, 0, one, 1, twoInches, 4);
  }

  /** The tokens of "1 in - 2 mm" parse as one inch minus two millimetres. */
  lemma ParseOfDifference(t: seq<Token>)
    requires t == [Number("1"), UnitTok(In), Minus, Number("2"), UnitTok(Mm)]
    ensures ParseExpressionAt(t, 0)
         == Ok(Parsed(Binary(Minus, Quantity(Fin(1.0), Some(In)), Quantity(Fin(2.0), Some(Mm)), None), 5))
  {
    var oneInch, twoMillimetres := Quantity(Fin(1.0), Some(In)), Quantity(Fin(2.0), Some(Mm));
    assert ParseExpressionAt(t, 3) == Ok(Parsed(twoMillimetres, 5)) by {
      UnitDigitFactor(t, 3, '2');
      TermOfFactor(t, 3, twoMillimetres, 5);
      ExpressionOfTerm(t, 3, twoMillimetres, 5);
    }
    UnitDigitFactor(t, 0, '1');
    TermOfFactor(t, 0, oneInch, 2);
    ExpressionOfSum(t, 0, oneInch, 2, twoMillimetres, 5);
  }

  /** `-` negates the right operand and converts it: the tokens of "1 in - 2 mm" give 1 - 2/25.4 inches. */
  lemma SubtractMillimetresFromInches(t: seq<Token>)
    requires t == [Number("1"), UnitTok(In), Minus, Number("2"), UnitTok(Mm)]
    ensures ParseExpressionAt(t, 0).Ok?
    ensures Evaluate(ParseExpressionAt(t, 0).value.expr)
         == Ok(Dim(Dimension(Fin(1.0 - 2.0 / MillimetresPerInch), Some(In))))
  {
    ParseOfDifference(t);
  }

  /** Two united factors cannot be multiplied: the tokens of "1in * 2mm" parse but do not evaluate. */
  lemma ProductOfUnitsFails(t: seq<Token>)
    requires t == [Number("1"), UnitTok(In), Star, Number("2"), UnitTok(Mm)]
    ensures ParseExpressionAt(t, 0).Ok?
    ensures Evaluate(ParseExpressionAt(t, 0).value.expr) == Err(InvalidOperation)
  {
    var oneInch, twoMillimetres := Quantity(Fin(1.0), Some(In)), Quantity(Fin(2.0), Some(Mm));
    var product := Binary(Star, oneInch, twoMillimetres, None);
    assert ParseTermAt(t, 0) == Ok(Parsed(product, 5)) by {
      UnitDigitFactor(t, 3, '2');
      TermOfFactor(t, 3, twoMillimetres, 5);
      UnitDigitFactor(t, 0, '1');
      TermOfProduct(t, 0, oneInch, 2, twoMillimetres, 5);
    }
    ExpressionOfTerm(t, 0, product, 5);
  }

  /** The tokens of "1in / 2mm" parse as one inch over two millimetres. */
  lemma ParseOfRatio(t: seq<Token>)
    requires t == [Number("1"), UnitTok(In), Slash, Number("2"), UnitTok(Mm)]
    ensures ParseExpressionAt(t, 0)
         == Ok(Parsed(Binary(Slash, Quantity(Fin(1.0), Some(In)), Quantity(Fin(2.0), Some(Mm)), None), 5))
  {
    var oneInch, twoMillimetres := Quantity(Fin(1.0), Some(In)), Quantity(Fin(2.0), Some(Mm));
    var ratio := Binary(Slash, oneInch, twoMillimetres, None);
    assert ParseTermAt(t, 0) == Ok(Parsed(ratio, 5)) by {
      UnitDigitFactor(t, 3, '2');
      TermOfFactor(t, 3, twoMillimetres, 5);
      UnitDigitFactor(t, 0, '1');
      TermOfProduct(t, 0, oneInch, 2, twoMillimetres, 5);
    }
    ExpressionOfTerm(t, 0, ratio, 5);
  }

  /** Inches over millimetres is a unitless ratio: the tokens of "1in / 2mm" give 12.7. */
  lemma RatioOfUnits(t: seq<Token>)
    requires t == [Number("1"), UnitTok(In), Slash, Number("2"), UnitTok(Mm)]
    ensures ParseExpressionAt(t, 0).Ok?
    ensures Evaluate(ParseExpressionAt(t, 0).value.expr) == Ok(Dim(Dimension(Fin(12.7), None)))
  {
    ParseOfRatio(t);
    DivideInchesByMillimetres(1.0, 2.0);
  }

  /** The tokens of "1/2in" parse as one over two inches. */
  lemma ParseOfUnresolvedDivision(t: seq<Token>)
    requires t == [Number("1"), Slash, Number("2"), UnitTok(In)]
    ensures ParseExpressionAt(t, 0)
         == Ok(Parsed(Binary(Slash, Quantity(Fin(1.0), None), Quantity(Fin(2.0), Some(In)), None), 4))
  {
    var one, twoInches := Quantity(Fin(1.0), None), Quantity(Fin(2.0), Some(In));
    var quotient := Binary(Slash, one, twoInches, None);
    assert ParseTermAt(t, 0) == Ok(Parsed(quotient, 4)) by {
      UnitDigitFactor(t, 2, '2');
      TermOfFactor(t, 2, twoInches, 4);
      BareDigitFactor(t, 0, '1');
      TermOfProduct(t, 0, one, 1, twoInches, 4);
    }
    ExpressionOfTerm(t, 0, quotient, 4);
  }

  /** A unitless number over a united one stays an unresolved fraction: the tokens of "1/2in". */
  lemma UnresolvedDivision(t: seq<Token>)
    requires t == [Number("1"), Slash, Number("2"), UnitTok(In)]
    ensures ParseExpressionAt(t, 0).Ok?
    ensures Evaluate(ParseExpressionAt(t, 0).value.expr)
         == Ok(Frac(Fraction(Dimension(Fin(1.0), None), Dimension(Fin(2.0), Some(In)))))
  {
    ParseOfUnresolvedDivision(t);
  }

  /** Nothing checks for the end of the input: the tokens of "1in 2" give 1 inch and leave the 2 unread. */
  lemma TrailingTokensIgnored(t: seq<Token>)
    requires t == [Number("1"), UnitTok(In), Number("2")]
    ensures ParseExpressionAt(t, 0) == Ok(Parsed(Quantity(Fin(1.0), Some(In)), 2))
  {
    var oneInch := Quantity(Fin(1.0), Some(In));
    UnitDigitFactor(t, 0, '1');
    TermOfFactor(t, 0, oneInch, 2);
    ExpressionOfTerm(t, 0, oneInch, 2);
  }

  /** A factor that fails makes the term and the expression that start with it fail. */
  lemma FailingFactorFails(t: seq<Token>, i: nat)
    requires i <= |t| && ParseFactorAt(t, i).Err?
    ensures ParseTermAt(t, i).Err? && ParseExpressionAt(t, i).Err?
  {
  }

  /**
   * A parenthesised group whose inner node has no unit of its own never
   * parses, whatever follows it: an operator at the top of the group, as
   * in "(2 + 3) * 4", leaves the node without a unit.
   */
  lemma UnlabelledGroupFails(t: seq<Token>, i: nat)
    requires i < |t| && t[i] == OpenParen
    requires ParseExpressionAt(t, i + 1).Ok? ==> NodeUnit(ParseExpressionAt(t, i + 1).value.expr).None?
    ensures ParseFactorAt(t, i).Err? && ParseExpressionAt(t, i).Err?
  {
    GroupFactor(t, i);
    FailingFactorFails(t, i);
  }

  /** The last four tokens of "(a + b) * c": "b) * c". */
  lemma ScanOfGroupedSumTail(a: char, b: char, c: char)
    requires IsDigit(a) && IsDigit(b) && IsDigit(c)
    ensures Scan(['(', a, ' ', '+', ' ', b, ')', ' ', '*', ' ', c], 5) == Some([Number([b]), CloseParen, Star, Number([c])])
  {
    var s := ['(', a, ' ', '+', ' ', b, ')', ' ', '*', ' ', c];
    var none: seq<Token> := [];
    assert Scan(s, 11) == Some(none);
    ScanDigit(s, 10);
    assert [Number([c])] + none == [Number([c])];
    ScanSkip(s, 9);
    ScanSingle(s, 8);
    assert [Star] + [Number([c])] == [Star, Number([c])];
    ScanSkip(s, 7);
    ScanSingle(s, 6);
    assert [CloseParen] + [Star, Number([c])] == [CloseParen, Star, Number([c])];
    ScanDigit(s, 5);
    assert [Number([b])] + [CloseParen, Star, Number([c])] == [Number([b]), CloseParen, Star, Number([c])];
  }

  /** The tokens of "(a + b) * c" for one-digit numbers a, b and c. */
  lemma ScanOfGroupedSum(a: char, b: char, c: char)
    requires IsDigit(a) && IsDigit(b) && IsDigit(c)
    ensures Scan(['(', a, ' ', '+', ' ', b, ')', ' ', '*', ' ', c], 0)
         == Some([OpenParen, Number([a]), Plus, Number([b]), CloseParen, Star, Number([c])])
  {
    var s := ['(', a, ' ', '+', ' ', b, ')', ' ', '*', ' ', c];
    var tail := [Number([b]), CloseParen, Star, Number([c])];
    ScanOfGroupedSumTail(a, b, c);
    ScanSkip(s, 4);
    ScanSingle(s, 3);
    assert [Plus] + tail == [Plus] + tail;
    ScanSkip(s, 2);
    ScanDigit(s, 1);
    ScanSingle(s, 0);
    assert [OpenParen] + ([Number([a])] + ([Plus] + tail))
        == [OpenParen, Number([a]), Plus, Number([b]), CloseParen, Star, Number([c])];
  }

  lemma TokensOfGroupedSum()
    ensures Scan("(2 + 3) * 4", 0)
         == Some([OpenParen, Number("2"), Plus, Number("3"), CloseParen, Star, Number("4")])
  {
    ScanOfGroupedSum('2', '3', '4');
  }

  /** The tokens of "(2 + 3) * 4" do not parse: the group holds a sum, which has no unit of its own. */
  lemma GroupedSumFails(t: seq<Token>)
    requires t == [OpenParen, Number("2"), Plus, Number("3"), CloseParen, Star, Number("4")]
    ensures ParseExpressionAt(t, 0).Err?
  {
    var two, three := Quantity(Fin(2.0), None), Quantity(Fin(3.0), None);
    var sum := Binary(Plus, two, three, None);
    assert ParseExpressionAt(t, 1) == Ok(Parsed(sum, 4)) by {
      BareDigitFactor(t, 3, '3');
      TermOfFactor(t, 3, three, 4);
      ExpressionOfTerm(t, 3, three, 4);
      BareDigitFactor(t, 1, '2');
      TermOfFactor(t, 1, two, 2);
      ExpressionOfSum(t, 1, two, 2, three, 4);
    }
    UnlabelledGroupFails(t, 0);
  }

  /**
   * "(2 + 3) * 4" has no value: the group holds a sum, which has no unit of
   * its own, so the parser throws (where test/expressions.test.ts expects 20).
   */
  lemma GroupedSumHasNoValue()
    ensures Tokenizes("(2 + 3) * 4")
    ensures TryEvaluate("(2 + 3) * 4") == None
  {
    TokensOfGroupedSum();
    GroupedSumFails(Scan("(2 + 3) * 4", 0).value);
  }

  /** The tokens of "(a in)mm" for a one-digit number a. */
  lemma ScanOfConvertedGroup(a: char)
    requires IsDigit(a)
    ensures Scan(['(', a, 'i', 'n', ')', 'm', 'm'], 0) == Some([OpenParen, Number([a]), UnitTok(In), CloseParen, UnitTok(Mm)])
  {
    var s := ['(', a, 'i', 'n', ')', 'm', 'm'];
    var none: seq<Token> := [];
    assert Scan(s, 7) == Some(none);
    ScanUnit(s, 5);
    assert [UnitTok(Mm)] + none == [UnitTok(Mm)];
    ScanSingle(s, 4);
    assert [CloseParen] + [UnitTok(Mm)] == [CloseParen, UnitTok(Mm)];
    ScanUnit(s, 2);
    assert [UnitTok(In)] + [CloseParen, UnitTok(Mm)] == [UnitTok(In), CloseParen, UnitTok(Mm)];
    ScanDigit(s, 1);
    ScanSingle(s, 0);
    assert [OpenParen] + ([Number([a])] + [UnitTok(In), CloseParen, UnitTok(Mm)])
        == [OpenParen, Number([a]), UnitTok(In), CloseParen, UnitTok(Mm)];
  }

  lemma TokensOfConvertedGroup()
    ensures Scan("(1in)mm", 0) == Some([OpenParen, Number("1"), UnitTok(In), CloseParen, UnitTok(Mm)])
  {
    ScanOfConvertedGroup('1');
  }

  /** The tokens of "(1in)mm" are the group of one inch, labelled in millimetres. */
  lemma ConvertedGroupParses(t: seq<Token>)
    requires t == [OpenParen, Number("1"), UnitTok(In), CloseParen, UnitTok(Mm)]
    ensures ParseExpressionAt(t, 0) == Ok(Parsed(UnitExpression(Mm, Quantity(Fin(1.0), Some(In))), 5))
  {
    var oneInch := Quantity(Fin(1.0), Some(In));
    var converted := UnitExpression(Mm, oneInch);
    assert ParseFactorAt(t, 0) == Ok(Parsed(converted, 5)) by {
      UnitDigitFactor(t, 1, '1');
      TermOfFactor(t, 1, oneInch, 3);
      ExpressionOfTerm(t, 1, oneInch, 3);
      GroupFactor(t, 0);
    }
    TermOfFactor(t, 0, converted, 5);
    ExpressionOfTerm(t, 0, converted, 5);
  }

  /** "(1in)mm" converts one inch to 25.4 millimetres. */
  lemma ConvertedGroup()
    ensures Tokenizes("(1in)mm")
    ensures TryEvaluate("(1in)mm") == Some(Dim(Dimension(Fin(25.4), Some(Mm))))
  {
    TokensOfConvertedGroup();
    ConvertedGroupParses(Scan("(1in)mm", 0).value);
  }
}
