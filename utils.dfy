/** Small shared helpers: predicate negation and the cut-type check. */
module Utils {
  import opened JsRuntime
  import opened Types

  /** `not(predicate)`: the predicate with every answer negated. */
  function Not<T(!new)>(p: T -> bool): (q: T -> bool)
    ensures forall x :: q(x) == !p(x)
  {
    x => !p(x)
  }

  /** Negating twice gives the predicate's answers back. */
  lemma NotNot<T(!new)>(p: T -> bool, x: T)
    ensures Not(Not(p))(x) == p(x)
  {
  }

  /** What `assertCutType` throws. */
  datatype CutTypeError = InvalidCutType

  /**
   * `assertCutType`: passes exactly the five spellings it lists, one of
   * which is "on-line", and has no other effect.
   */
  function AssertCutType(cutType: string): (r: Result<(), CutTypeError>)
    ensures r.Ok? <==> cutType in {"inside", "outside", "on-line", "pocket", "guide"}
  {
    if cutType != "inside" && cutType != "outside" && cutType != "on-line"
       && cutType != "pocket" && cutType != "guide"
    then Err(InvalidCutType)
    else Ok(())
  }

  /**
   * `assertCutType` and the cut-type declaration disagree on one spelling: every
   * declared cut type passes except "online", and the "on-line" it
   * accepts is not a declared cut type.
   */
  lemma {:induction false} CutTypeSpellings()
    ensures forall t: CutType :: AssertCutType(CutTypeName(t)).Ok? <==> t != Online
    ensures AssertCutType("on-line").Ok?
    ensures forall t: CutType :: CutTypeName(t) != "on-line"
  {
    forall t: CutType ensures AssertCutType(CutTypeName(t)).Ok? <==> t != Online {
      match t
      case Online => assert CutTypeName(t) == "online";
      case _ =>
    }
  }
}
