/**
 * The cut-type dropdown: which option list it offers for a selection's cut
 * type and shape, and the validation its change handler runs on a picked value.
 */
module CutTypeDropdown {
  import opened JsRuntime
  import opened Types
  import opened Utils

  /** An entry of the dropdown: a choosable value with its label, or a separator line. */
  datatype DropdownOption = Item(value: string, text: string, disabled: bool) | Separator

  /** The cut types an open shape can take. */
  const OpenCutTypeOptions: seq<DropdownOption> :=
    [Item("online", "On Line", false), Item("guide", "Guide", false)]

  /** The cut types a closed shape can take. */
  const ClosedCutTypeOptions: seq<DropdownOption> :=
    [Item("inside", "Inside", false), Item("outside", "Outside", false), Item("online", "On Line", false),
     Item("pocket", "Pocket", false), Item("guide", "Guide", false)]

  /** The header shown for a selection with differing cut types: a disabled "Mixed" entry. */
  const MixedHeader: seq<DropdownOption> := [Item("Mixed", "Mixed", true), Separator]

  /** The trailer that lets a set cut type be cleared. */
  const ClearTrailer: seq<DropdownOption> := [Separator, Item("", "Clear", false)]

  const OpenCutTypeOptionsWithClear: seq<DropdownOption> := OpenCutTypeOptions + ClearTrailer
  const ClosedCutTypeOptionsWithClear: seq<DropdownOption> := ClosedCutTypeOptions + ClearTrailer
  const MixedOpenCutTypeOptions: seq<DropdownOption> := MixedHeader + OpenCutTypeOptions
  const MixedClosedCutTypeOptions: seq<DropdownOption> := MixedHeader + ClosedCutTypeOptions
  const MixedOpenCutTypeOptionsWithClear: seq<DropdownOption> := MixedOpenCutTypeOptions + ClearTrailer
  const MixedClosedCutTypeOptionsWithClear: seq<DropdownOption> := MixedClosedCutTypeOptions + ClearTrailer

  /**
   * The option list for a cut type (`None` when no cut type is set, "Mixed"
   * for a selection that disagrees), chosen by the component's nested
   * conditional.
   */
  function Options(cutType: Option<string>, shapeIsClosed: bool): seq<DropdownOption> {
    if cutType == Some("Mixed") then
      if Truthy(cutType) then
        (if shapeIsClosed then MixedClosedCutTypeOptionsWithClear else MixedOpenCutTypeOptionsWithClear)
      else
        (if shapeIsClosed then MixedClosedCutTypeOptions else MixedOpenCutTypeOptions)
    else if Truthy(cutType) then
      (if shapeIsClosed then ClosedCutTypeOptionsWithClear else OpenCutTypeOptionsWithClear)
    else
      (if shapeIsClosed then ClosedCutTypeOptions else OpenCutTypeOptions)
  }

  /**
   * The list is made of three independent parts: the "Mixed" header exactly
   * for a mixed selection, the cut types the shape allows, and the "Clear"
   * trailer exactly when a cut type is set.
   */
  lemma OptionsParts(cutType: Option<string>, shapeIsClosed: bool)
    ensures Options(cutType, shapeIsClosed)
      == (if cutType == Some("Mixed") then MixedHeader else [])
         + (if shapeIsClosed then ClosedCutTypeOptions else OpenCutTypeOptions)
         + (if Truthy(cutType) then ClearTrailer else [])
  {
    var body := if shapeIsClosed then ClosedCutTypeOptions else OpenCutTypeOptions;
    if cutType != Some("Mixed") {
      assert [] + body == body;
    }
    if !Truthy(cutType) {
      assert body + [] == body;
    }
  }

  /** A mixed selection always has a set value, so the two mixed lists without "Clear" are never offered. */
  lemma MixedListsWithoutClearUnused(cutType: Option<string>, shapeIsClosed: bool)
    ensures Options(cutType, shapeIsClosed) != MixedClosedCutTypeOptions
    ensures Options(cutType, shapeIsClosed) != MixedOpenCutTypeOptions
  {
    OptionsParts(cutType, shapeIsClosed);
    var r := Options(cutType, shapeIsClosed);
    if cutType == Some("Mixed") {
      assert |r| == |MixedHeader| + |if shapeIsClosed then ClosedCutTypeOptions else OpenCutTypeOptions| + 2;
    } else {
      assert r[0] != Item("Mixed", "Mixed", true);
    }
  }

  /** The value the dropdown shows as selected: `cutType || null`. */
  function SelectedValue(cutType: Option<string>): (r: Option<string>)
    ensures r.Some? <==> Truthy(cutType)
    ensures r.Some? ==> r == cutType
  {
    if Truthy(cutType) then cutType else None
  }

  /** The values the list lets the user pick: its items that are not disabled. */
  ghost predicate Offers(options: seq<DropdownOption>, value: string) {
    exists o :: o in options && o.Item? && !o.disabled && o.value == value
  }

  /** An open shape is never offered inside, outside or pocket cuts; a closed shape is offered all five. */
  lemma OfferedCutTypes(cutType: Option<string>, shapeIsClosed: bool, t: CutType)
    ensures Offers(Options(cutType, shapeIsClosed), CutTypeName(t)) <==> shapeIsClosed || t == Online || t == Guide
  {
    OptionsParts(cutType, shapeIsClosed);
    var r := Options(cutType, shapeIsClosed);
    var body := if shapeIsClosed then ClosedCutTypeOptions else OpenCutTypeOptions;
    if shapeIsClosed || t == Online || t == Guide {
      var o := if t == Online then Item("online", "On Line", false)
               else if t == Guide then Item("guide", "Guide", false)
               else if t == Inside then Item("inside", "Inside", false)
               else if t == Outside then Item("outside", "Outside", false)
               else Item("pocket", "Pocket", false);
      assert o in body;
      assert o in r;
    } else {
      forall o | o in r && o.Item? && !o.disabled
        ensures o.value != CutTypeName(t)
      {
        assert o in MixedHeader || o in body || o in ClearTrailer;
      }
    }
  }

  /** "Clear" (the empty value) is offered exactly when a cut type is set. */
  lemma ClearOfferedWhenSet(cutType: Option<string>, shapeIsClosed: bool)
    ensures Offers(Options(cutType, shapeIsClosed), "") <==> Truthy(cutType)
  {
    OptionsParts(cutType, shapeIsClosed);
    var r := Options(cutType, shapeIsClosed);
    var body := if shapeIsClosed then ClosedCutTypeOptions else OpenCutTypeOptions;
    if Truthy(cutType) {
      assert r[|r| - 1] == Item("", "Clear", false);
    } else {
      forall o | o in r && o.Item? && !o.disabled
        ensures o.value != ""
      {
        assert o in MixedHeader || o in body;
      }
    }
  }

  /** The "Mixed" entry appears exactly for a mixed selection, and it cannot be picked. */
  lemma MixedEntryOnlyWhenMixed(cutType: Option<string>, shapeIsClosed: bool)
    ensures Item("Mixed", "Mixed", true) in Options(cutType, shapeIsClosed) <==> cutType == Some("Mixed")
    ensures !Offers(Options(cutType, shapeIsClosed), "Mixed")
  {
    OptionsParts(cutType, shapeIsClosed);
    var r := Options(cutType, shapeIsClosed);
    var body := if shapeIsClosed then ClosedCutTypeOptions else OpenCutTypeOptions;
    forall o | o in r && o.Item? && o.value == "Mixed"
      ensures o.disabled && cutType == Some("Mixed")
    {
      assert o in MixedHeader || o in body || o in ClearTrailer;
    }
    if cutType == Some("Mixed") {
      assert r[0] == Item("Mixed", "Mixed", true);
    }
  }

  /**
   * `onCutTypeChange`: the empty value (Clear) is passed on unchecked; any
   * other value is passed on only if `assertCutType` accepts it, and throws
   * otherwise.
   */
  function OnCutTypeChange(value: string): (r: Result<string, CutTypeError>)
    ensures r.Ok? ==> r.value == value
    ensures r.Ok? <==> value == "" || AssertCutType(value).Ok?
  {
    if value != "" then
      match AssertCutType(value)
      case Err(e) => Err(e)
      case Ok(_) => Ok(value)
    else Ok(value)
  }

  /**
   * Of the values the dropdown lets the user pick, every one is passed on
   * except "online": picking "On Line" always throws, because `assertCutType`
   * spells that cut type "on-line".
   */
  lemma PickedValueAccepted(cutType: Option<string>, shapeIsClosed: bool, value: string)
    requires Offers(Options(cutType, shapeIsClosed), value)
    ensures OnCutTypeChange(value).Ok? <==> value != "online"
  {
    OptionsParts(cutType, shapeIsClosed);
    var r := Options(cutType, shapeIsClosed);
    var body := if shapeIsClosed then ClosedCutTypeOptions else OpenCutTypeOptions;
    var o :| o in r && o.Item? && !o.disabled && o.value == value;
    assert o in MixedHeader || o in body || o in ClearTrailer;
    assert value in {"inside", "outside", "online", "pocket", "guide", ""};
  }

  /** "On Line" is offered for every shape, so the throwing pick is always reachable. */
  lemma OnLineAlwaysOffered(cutType: Option<string>, shapeIsClosed: bool)
    ensures Offers(Options(cutType, shapeIsClosed), "online")
    ensures OnCutTypeChange("online").Err?
  {
    OfferedCutTypes(cutType, shapeIsClosed, Online);
    assert CutTypeName(Online) == "online";
  }
}
