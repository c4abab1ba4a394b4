/**
 * The path selection editor: how the values shown for a selection of paths
 * are summarised from the paths' own cut data and their components' data.
 */
module PathSelectionEditor {
  import opened JsRuntime
  import opened Types
  import CutTypeDropdown

  /**
   * A path as the editor receives it: its own cut data, whether it is a
   * closed shape, the units it defaults to, and the cut data of the main
   * component it is an instance of, if any.
   */
  datatype EditorPath = EditorPath(id: string, name: string, data: PathData, isClosed: bool,
                                   defaultUnits: RealUnit, componentData: Option<PathData>)

  /** The two cut-data fields the editor summarises. */
  datatype Field = CutDepthField | CutTypeField

  function FieldOf(d: PathData, f: Field): Option<string> {
    match f
    case CutDepthField => d.cutDepth
    case CutTypeField => d.cutType
  }

  /** The path's own value of a field. */
  function Own(p: EditorPath, f: Field): Option<string> {
    FieldOf(p.data, f)
  }

  /** `node.field || node.componentData?.field`: the own value if truthy, else the component's. */
  function Fallback(p: EditorPath, f: Field): (r: Option<string>)
    ensures Truthy(Own(p, f)) ==> r == Own(p, f)
    ensures !Truthy(Own(p, f)) && p.componentData.None? ==> r.None?
    ensures !Truthy(Own(p, f)) && p.componentData.Some? ==> r == FieldOf(p.componentData.value, f)
  {
    if Truthy(Own(p, f)) then Own(p, f)
    else if p.componentData.Some? then FieldOf(p.componentData.value, f)
    else None
  }

  /**
   * The summary shown for a field: the first path's own value when every
   * path's fallback value equals it (nothing for an empty selection), and
   * "Mixed" otherwise.
   */
  function Summary(nodes: seq<EditorPath>, f: Field): (r: Option<string>)
    ensures |nodes| == 0 ==> r.None?
    ensures |nodes| > 0 ==> r == Own(nodes[0], f) || r == Some("Mixed")
  {
    if forall k :: 0 <= k < |nodes| ==> Fallback(nodes[k], f) == Own(nodes[0], f) then
      if |nodes| == 0 then None else Own(nodes[0], f)
    else Some("Mixed")
  }

  /** `nodes.every(node => node.isClosed)`. */
  predicate ShapeIsClosed(nodes: seq<EditorPath>) {
    forall k :: 0 <= k < |nodes| ==> nodes[k].isClosed
  }

  /** The first path's default units, or inches for an empty selection. */
  function DefaultUnits(nodes: seq<EditorPath>): (r: RealUnit)
    ensures |nodes| == 0 ==> r == In
    ensures |nodes| > 0 ==> r == nodes[0].defaultUnits
  {
    if |nodes| > 0 then nodes[0].defaultUnits else In
  }

  /** What the editor passes on to the cut controls. */
  datatype EditorValues = EditorValues(cutDepth: Option<string>, cutType: Option<string>,
                                       shapeIsClosed: bool, defaultUnits: RealUnit)

  function Editor(nodes: seq<EditorPath>): (r: EditorValues)
    ensures r.cutDepth == Summary(nodes, CutDepthField) && r.cutType == Summary(nodes, CutTypeField)
    ensures r.shapeIsClosed == ShapeIsClosed(nodes) && r.defaultUnits == DefaultUnits(nodes)
  {
    EditorValues(Summary(nodes, CutDepthField), Summary(nodes, CutTypeField), ShapeIsClosed(nodes), DefaultUnits(nodes))
  }

  /** An empty selection shows no values, a closed shape and inches. */
  lemma EmptySelection()
    ensures Editor([]) == EditorValues(None, None, true, In)
  {
  }

  /** When every path has the same truthy own value, that value is shown. */
  lemma AgreeingValuesShown(nodes: seq<EditorPath>, f: Field, v: string)
    requires |nodes| > 0 && v != ""
    requires forall k :: 0 <= k < |nodes| ==> Own(nodes[k], f) == Some(v)
    ensures Summary(nodes, f) == Some(v)
  {
    forall k | 0 <= k < |nodes|
      ensures Fallback(nodes[k], f) == Own(nodes[0], f)
    {
    }
  }

  /**
   * A value that is not "Mixed" is what every path falls back to: the shown
   * value is shared by the whole selection.
   */
  lemma ShownValueShared(nodes: seq<EditorPath>, f: Field)
    requires |nodes| > 0 && Summary(nodes, f) != Some("Mixed")
    ensures forall k :: 0 <= k < |nodes| ==> Fallback(nodes[k], f) == Summary(nodes, f)
  {
  }

  /**
   * A path without a truthy own value whose component has a different value
   * makes the summary "Mixed", even when it is the only path selected: a
   * value inherited from a component is never shown as the selection's value.
   */
  lemma InheritedValueShowsMixed(nodes: seq<EditorPath>, f: Field, k: nat)
    requires k < |nodes| && !Truthy(Own(nodes[k], f)) && nodes[k].componentData.Some?
    requires FieldOf(nodes[k].componentData.value, f) != Own(nodes[0], f)
    ensures Summary(nodes, f) == Some("Mixed")
  {
    assert Fallback(nodes[k], f) != Own(nodes[0], f);
  }

  /** A single path with a truthy own value, or with no value anywhere, shows its own value. */
  lemma SingleOwnValueShown(p: EditorPath, f: Field)
    requires Truthy(Own(p, f)) || (Own(p, f).None? && p.componentData.None?)
    ensures Summary([p], f) == Own(p, f)
  {
    assert Fallback(p, f) == Own(p, f);
  }

  /**
   * An own value that is the empty text is falsy, so it falls back to
   * nothing and no longer equals itself: a lone path whose value is "" shows
   * "Mixed".
   */
  lemma EmptyOwnValueShowsMixed(p: EditorPath, f: Field)
    requires Own(p, f) == Some("") && p.componentData.None?
    ensures Summary([p], f) == Some("Mixed")
  {
    assert Fallback([p][0], f) != Own([p][0], f);
  }

  /** A selection is closed exactly when each of its parts is. */
  lemma {:induction false} ShapeIsClosedAppend(a: seq<EditorPath>, b: seq<EditorPath>)
    ensures ShapeIsClosed(a + b) <==> ShapeIsClosed(a) && ShapeIsClosed(b)
  {
    if ShapeIsClosed(a) && ShapeIsClosed(b) {
      forall k | 0 <= k < |a + b|
        ensures (a + b)[k].isClosed
      {
        if k < |a| {
          assert (a + b)[k] == a[k];
        } else {
          assert (a + b)[k] == b[k - |a|];
        }
      }
    }
    if ShapeIsClosed(a + b) {
      forall k | 0 <= k < |a|
        ensures a[k].isClosed
      {
        assert (a + b)[k] == a[k];
      }
      forall k | 0 <= k < |b|
        ensures b[k].isClosed
      {
        assert (a + b)[|a| + k] == b[k];
      }
    }
  }

  /**
   * A selection holding an open path is offered only the open-shape cut
   * types by the dropdown the editor feeds: never inside, outside or pocket.
   */
  lemma OpenPathLimitsCutTypes(nodes: seq<EditorPath>, k: nat, t: CutType)
    requires k < |nodes| && !nodes[k].isClosed
    ensures CutTypeDropdown.Offers(CutTypeDropdown.Options(Summary(nodes, CutTypeField), ShapeIsClosed(nodes)), CutTypeName(t))
            <==> t == Online || t == Guide
  {
    assert !ShapeIsClosed(nodes);
    CutTypeDropdown.OfferedCutTypes(Summary(nodes, CutTypeField), ShapeIsClosed(nodes), t);
  }
}
