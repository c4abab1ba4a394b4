/**
 * The plugin's main thread: classifying the selected design nodes into
 * exportable paths and invalid nodes, reading and writing their cut data in
 * the plugin-data store, and choosing the selection message for the UI.
 */
module PluginMain {
  import opened JsRuntime
  import opened Types
  import opened Utils
  import Host

  /** The node types the classification looks at; every other type is `OtherType`. */
  datatype NodeType =
    | BooleanOperation | Ellipse | Line | Polygon | Rectangle | Star | Text | Vector
    | Component | Group | Instance | Frame
    | OtherType(name: string)

  /** A node of the document tree with its subtree. */
  datatype Node = Node(id: Host.NodeId, name: string, kind: NodeType, children: seq<Node>)

  /** A selected node together with the types of its ancestors, its parent first. */
  datatype Selected = Selected(node: Node, ancestors: seq<NodeType>)

  /** What the UI receives for one node: id, name, type and its cut data. */
  datatype SerializedPath = SerializedPath(id: Host.NodeId, name: string, kind: NodeType, data: PathData)

  /** The two lists a selection is sorted into. */
  datatype PathSelection = PathSelection(nodes: seq<SerializedPath>, invalidNodes: seq<SerializedPath>)

  /** The message sent to the UI when the selection changes. */
  datatype SelectionMessage =
    | Paths(paths: PathSelection)
    | FrameMessage(frameId: Host.NodeId, frameName: string, framePaths: PathSelection)

  datatype Error = NodeNotFound | InvalidStoredCutType | InvalidCutTypeValue

  // ---------------------------------------------------------------------
  // Node classification
  // ---------------------------------------------------------------------

  /** `isExportableLeafNode`: the eight shape types. */
  predicate IsExportableLeafNode(t: NodeType) {
    t == BooleanOperation || t == Ellipse || t == Line || t == Polygon
    || t == Rectangle || t == Star || t == Text || t == Vector
  }

  /** `isGroupLikeNode`: components, groups and instances. */
  predicate IsGroupLikeNode(t: NodeType) {
    t == Component || t == Group || t == Instance
  }

  /** No node type is both an exportable leaf and group-like; a frame is neither. */
  lemma {:induction false} ClassesDisjoint(t: NodeType)
    ensures !(IsExportableLeafNode(t) && IsGroupLikeNode(t))
    ensures !IsExportableLeafNode(Frame) && !IsGroupLikeNode(Frame)
    ensures IsExportableLeafNode(t) ==> !t.OtherType?
  {
  }

  /** Whether some ancestor is an exportable leaf. */
  predicate HasLeafAncestor(s: Selected) {
    exists k :: 0 <= k < |s.ancestors| && IsExportableLeafNode(s.ancestors[k])
  }

  /** `hasLeafNodeParent`: walks from the parent upwards until it finds an exportable leaf. */
  method HasLeafNodeParent(s: Selected) returns (r: bool)
    ensures r <==> HasLeafAncestor(s)
    ensures r ==> s.ancestors != []
  {
    var k := 0;
    while k < |s.ancestors|
      invariant 0 <= k <= |s.ancestors|
      invariant forall j :: 0 <= j < k ==> !IsExportableLeafNode(s.ancestors[j])
    {
      if IsExportableLeafNode(s.ancestors[k]) {
        return true;
      }
      k := k + 1;
    }
    return false;
  }

  /** The nodes below `n`, in depth-first pre-order (the node itself excluded). */
  function Descendants(n: Node): seq<Node>
    decreases n
  {
    DescendantsOf(n.children)
  }

  function DescendantsOf(ns: seq<Node>): seq<Node>
    decreases ns
  {
    if ns == [] then [] else [ns[0]] + Descendants(ns[0]) + DescendantsOf(ns[1..])
  }

  function Filter(ns: seq<Node>, p: NodeType -> bool): (r: seq<Node>)
    ensures forall k :: 0 <= k < |r| ==> p(r[k].kind)
    ensures forall k :: 0 <= k < |r| ==> r[k] in ns
  {
    if ns == [] then []
    else
      assert ns == [ns[0]] + ns[1..];
      (if p(ns[0].kind) then [ns[0]] else []) + Filter(ns[1..], p)
  }

  /** `node.findAll(p)`: the descendants whose type satisfies `p`. */
  function FindAll(n: Node, p: NodeType -> bool): seq<Node> {
    Filter(Descendants(n), p)
  }

  /** A predicate and its negation split a list between them, nothing lost and nothing doubled. */
  lemma {:induction false} FilterSplits(ns: seq<Node>, p: NodeType -> bool)
    ensures multiset(Filter(ns, p)) + multiset(Filter(ns, Not(p))) == multiset(ns)
  {
    if ns != [] {
      FilterSplits(ns[1..], p);
      assert ns == [ns[0]] + ns[1..];
    }
  }

  /** Descendants are strictly smaller than the node they hang under. */
  lemma {:induction false} DescendantsSmaller(n: Node)
    ensures forall d :: d in Descendants(n) ==> d < n
    decreases n
  {
    DescendantsOfSmaller(n.children);
    forall d | d in Descendants(n) ensures d < n {
      assert d in DescendantsOf(n.children);
      var j :| 0 <= j < |n.children| && (d == n.children[j] || d < n.children[j]);
      assert n.children[j] < n;
    }
  }

  lemma {:induction false} DescendantsOfSmaller(ns: seq<Node>)
    ensures forall d :: d in DescendantsOf(ns) ==> exists j :: 0 <= j < |ns| && (d == ns[j] || d < ns[j])
    decreases ns
  {
    if ns != [] {
      DescendantsSmaller(ns[0]);
      DescendantsOfSmaller(ns[1..]);
      forall d | d in DescendantsOf(ns) ensures exists j :: 0 <= j < |ns| && (d == ns[j] || d < ns[j]) {
        assert DescendantsOf(ns) == [ns[0]] + Descendants(ns[0]) + DescendantsOf(ns[1..]);
        if d == ns[0] || d in Descendants(ns[0]) {
          assert 0 <= 0 < |ns| && (d == ns[0] || d < ns[0]);
        } else {
          assert d in DescendantsOf(ns[1..]);
          var j :| 0 <= j < |ns[1..]| && (d == ns[1..][j] || d < ns[1..][j]);
          assert ns[1..][j] == ns[j + 1];
          assert 0 <= j + 1 < |ns| && (d == ns[j + 1] || d < ns[j + 1]);
        }
      }
    }
  }

  /** A node never finds itself. */
  lemma NotOwnDescendant(n: Node)
    ensures n !in Descendants(n)
  {
    DescendantsSmaller(n);
  }

  // ---------------------------------------------------------------------
  // Cut data
  // ---------------------------------------------------------------------

  /**
   * `getNodeData`: an empty stored text counts as absent, and a stored cut
   * type other than "" must pass `assertCutType`.
   */
  function GetNodeData(store: Host.PluginDataStore, id: Host.NodeId): (r: Result<PathData, Error>)
    reads store
    ensures r.Err? <==> store.Get(id, "cutType") != "" && AssertCutType(store.Get(id, "cutType")).Err?
    ensures r.Ok? ==> (r.value.cutDepth.None? <==> store.Get(id, "cutDepth") == "")
    ensures r.Ok? ==> (r.value.cutType.None? <==> store.Get(id, "cutType") == "")
    ensures r.Ok? && r.value.cutDepth.Some? ==> r.value.cutDepth.value == store.Get(id, "cutDepth")
    ensures r.Ok? && r.value.cutType.Some? ==> r.value.cutType.value == store.Get(id, "cutType")
  {
    var cutDepth := store.Get(id, "cutDepth");
    var cutType := store.Get(id, "cutType");
    if cutType != "" && AssertCutType(cutType).Err? then Err(InvalidStoredCutType)
    else Ok(PathData(if cutDepth == "" then None else Some(cutDepth), if cutType == "" then None else Some(cutType)))
  }

  /** `serializeNode`. */
  function SerializeNode(store: Host.PluginDataStore, n: Node): (r: Result<SerializedPath, Error>)
    reads store
    ensures r.Ok? ==> r.value.id == n.id && r.value.name == n.name && r.value.kind == n.kind
    ensures r.Err? <==> GetNodeData(store, n.id).Err?
  {
    match GetNodeData(store, n.id)
    case Ok(data) => Ok(SerializedPath(n.id, n.name, n.kind, data))
    case Err(e) => Err(e)
  }

  /** `nodes.map(serializeNode)`; the first node whose data is invalid throws. */
  function SerializeAll(store: Host.PluginDataStore, ns: seq<Node>): (r: Result<seq<SerializedPath>, Error>)
    reads store
    ensures r.Ok? ==> |r.value| == |ns|
    ensures r.Ok? ==> forall k :: 0 <= k < |ns| ==> SerializeNode(store, ns[k]) == Ok(r.value[k])
    ensures r.Err? <==> exists k :: 0 <= k < |ns| && SerializeNode(store, ns[k]).Err?
  {
    if ns == [] then Ok([])
    else
      match SerializeNode(store, ns[0])
      case Err(e) => Err(e)
      case Ok(first) =>
        match SerializeAll(store, ns[1..])
        case Err(e) =>
          assert exists k :: 0 <= k < |ns[1..]| && SerializeNode(store, ns[1..][k]).Err?;
          Err(e)
        case Ok(rest) => Ok([first] + rest)
  }

  // ---------------------------------------------------------------------
  // Selection
  // ---------------------------------------------------------------------

  /**
   * How `getPathSelection` sorts one selected node: under an exportable leaf
   * it is invalid, whatever its own type; an exportable leaf is a path; a
   * group-like node contributes its exportable descendants as paths and all
   * its other descendants as invalid, but not itself; any other node is
   * invalid and is reported without cut data.
   */
  function Classify(store: Host.PluginDataStore, s: Selected): (r: Result<PathSelection, Error>)
    reads store
  {
    var n := s.node;
    if HasLeafAncestor(s) then
      match SerializeNode(store, n)
      case Err(e) => Err(e)
      case Ok(p) => Ok(PathSelection([], [p]))
    else if IsExportableLeafNode(n.kind) then
      match SerializeNode(store, n)
      case Err(e) => Err(e)
      case Ok(p) => Ok(PathSelection([p], []))
    else if IsGroupLikeNode(n.kind) then
      match SerializeAll(store, FindAll(n, IsExportableLeafNode))
      case Err(e) => Err(e)
      case Ok(valid) =>
        match SerializeAll(store, FindAll(n, Not(IsExportableLeafNode)))
        case Err(e) => Err(e)
        case Ok(invalid) => Ok(PathSelection(valid, invalid))
    else Ok(PathSelection([], [SerializedPath(n.id, n.name, n.kind, PathData(None, None))]))
  }

  /** The two lists `getPathSelection` builds for a selection, or the error it throws. */
  function PathSelectionOf(store: Host.PluginDataStore, selection: seq<Selected>): Result<PathSelection, Error>
    reads store
  {
    if selection == [] then Ok(PathSelection([], []))
    else
      match PathSelectionOf(store, selection[..|selection| - 1])
      case Err(e) => Err(e)
      case Ok(before) =>
        match Classify(store, selection[|selection| - 1])
        case Err(e) => Err(e)
        case Ok(last) =>
          Ok(PathSelection(before.nodes + last.nodes, before.invalidNodes + last.invalidNodes))
  }

  /** Taking one more node appends what `Classify` makes of it to the lists so far. */
  lemma SelectionStep(store: Host.PluginDataStore, selection: seq<Selected>, k: nat, before: PathSelection)
    requires k < |selection|
    requires PathSelectionOf(store, selection[..k]) == Ok(before)
    ensures Classify(store, selection[k]).Err? ==> PathSelectionOf(store, selection[..k + 1]) == Err(Classify(store, selection[k]).error)
    ensures Classify(store, selection[k]).Ok? ==>
      var last := Classify(store, selection[k]).value;
      PathSelectionOf(store, selection[..k + 1]) == Ok(PathSelection(before.nodes + last.nodes, before.invalidNodes + last.invalidNodes))
  {
    assert selection[..k + 1][..k] == selection[..k];
  }

  /** Once a node throws, the whole selection throws the same error. */
  lemma {:induction false} SelectionErrorPersists(store: Host.PluginDataStore, selection: seq<Selected>, k: nat)
    requires k <= |selection| && PathSelectionOf(store, selection[..k]).Err?
    ensures PathSelectionOf(store, selection) == PathSelectionOf(store, selection[..k])
    decreases |selection| - k
  {
    if k < |selection| {
      assert selection[..k + 1][..k] == selection[..k];
      SelectionErrorPersists(store, selection, k + 1);
    } else {
      assert selection[..k] == selection;
    }
  }

  /** `getPathSelection`: one pass over the selection, pushing into the two lists. */
  method GetPathSelection(store: Host.PluginDataStore, selection: seq<Selected>) returns (r: Result<PathSelection, Error>)
    ensures r == PathSelectionOf(store, selection)
  {
    var nodes: seq<SerializedPath> := [];
    var invalidNodes: seq<SerializedPath> := [];
    for k := 0 to |selection|
      invariant PathSelectionOf(store, selection[..k]) == Ok(PathSelection(nodes, invalidNodes))
    {
      var s := selection[k];
      SelectionStep(store, selection, k, PathSelection(nodes, invalidNodes));
      assert nodes + [] == nodes && invalidNodes + [] == invalidNodes;
      var underLeaf := HasLeafNodeParent(s);
      if underLeaf {
        var p := SerializeNode(store, s.node);
        if p.Err? {
          SelectionErrorPersists(store, selection, k + 1);
          return Err(p.error);
        }
        assert Classify(store, s) == Ok(PathSelection([], [p.value]));
        invalidNodes := invalidNodes + [p.value];
      } else if IsExportableLeafNode(s.node.kind) {
        var p := SerializeNode(store, s.node);
        if p.Err? {
          SelectionErrorPersists(store, selection, k + 1);
          return Err(p.error);
        }
        assert Classify(store, s) == Ok(PathSelection([p.value], []));
        nodes := nodes + [p.value];
      } else if IsGroupLikeNode(s.node.kind) {
        var validChildren := SerializeAll(store, FindAll(s.node, IsExportableLeafNode));
        if validChildren.Err? {
          SelectionErrorPersists(store, selection, k + 1);
          return Err(validChildren.error);
        }
        var invalidChildren := SerializeAll(store, FindAll(s.node, Not(IsExportableLeafNode)));
        if invalidChildren.Err? {
          SelectionErrorPersists(store, selection, k + 1);
          return Err(invalidChildren.error);
        }
        assert Classify(store, s) == Ok(PathSelection(validChildren.value, invalidChildren.value));
        nodes := nodes + validChildren.value;
        invalidNodes := invalidNodes + invalidChildren.value;
      } else {
        assert Classify(store, s) == Ok(PathSelection([], [SerializedPath(s.node.id, s.node.name, s.node.kind, PathData(None, None))]));
        invalidNodes := invalidNodes + [SerializedPath(s.node.id, s.node.name, s.node.kind, PathData(None, None))];
      }
    }
    assert selection[..|selection|] == selection;
    return Ok(PathSelection(nodes, invalidNodes));
  }

  /** A node below an exportable leaf is invalid before its own type is looked at. */
  lemma UnderLeafIsInvalid(store: Host.PluginDataStore, s: Selected)
    requires HasLeafAncestor(s) && GetNodeData(store, s.node.id).Ok?
    ensures Classify(store, s)
         == Ok(PathSelection([], [SerializedPath(s.node.id, s.node.name, s.node.kind, GetNodeData(store, s.node.id).value)]))
  {
  }

  /** An exportable leaf with no exportable-leaf ancestor is a path. */
  lemma LeafIsPath(store: Host.PluginDataStore, s: Selected)
    requires !HasLeafAncestor(s) && IsExportableLeafNode(s.node.kind) && GetNodeData(store, s.node.id).Ok?
    ensures Classify(store, s)
         == Ok(PathSelection([SerializedPath(s.node.id, s.node.name, s.node.kind, GetNodeData(store, s.node.id).value)], []))
  {
  }

  /** Serializing keeps each node's type, position by position. */
  lemma SerializedKinds(store: Host.PluginDataStore, ns: seq<Node>)
    requires SerializeAll(store, ns).Ok?
    ensures |SerializeAll(store, ns).value| == |ns|
    ensures forall k :: 0 <= k < |ns| ==> SerializeAll(store, ns).value[k].kind == ns[k].kind
  {
    var r := SerializeAll(store, ns).value;
    forall k | 0 <= k < |ns| ensures r[k].kind == ns[k].kind {
      assert SerializeNode(store, ns[k]) == Ok(r[k]);
    }
  }

  /** A group-like node that classifies is the serialized exportable descendants and the serialized others. */
  lemma GroupClassified(store: Host.PluginDataStore, s: Selected)
    requires !HasLeafAncestor(s) && IsGroupLikeNode(s.node.kind) && Classify(store, s).Ok?
    ensures SerializeAll(store, FindAll(s.node, IsExportableLeafNode)).Ok?
    ensures SerializeAll(store, FindAll(s.node, Not(IsExportableLeafNode))).Ok?
    ensures Classify(store, s) == Ok(PathSelection(SerializeAll(store, FindAll(s.node, IsExportableLeafNode)).value,
                                                   SerializeAll(store, FindAll(s.node, Not(IsExportableLeafNode))).value))
  {
  }

  /**
   * A group-like node contributes every descendant exactly once: the
   * exportable ones as paths, the others as invalid; the group itself is in
   * neither list.
   */
  lemma {:induction false} GroupSplitsDescendants(store: Host.PluginDataStore, s: Selected)
    requires !HasLeafAncestor(s) && IsGroupLikeNode(s.node.kind) && Classify(store, s).Ok?
    ensures |Classify(store, s).value.nodes| + |Classify(store, s).value.invalidNodes| == |Descendants(s.node)|
    ensures forall k :: 0 <= k < |Classify(store, s).value.nodes| ==> IsExportableLeafNode(Classify(store, s).value.nodes[k].kind)
    ensures forall k :: 0 <= k < |Classify(store, s).value.invalidNodes| ==> !IsExportableLeafNode(Classify(store, s).value.invalidNodes[k].kind)
    ensures s.node !in FindAll(s.node, IsExportableLeafNode) + FindAll(s.node, Not(IsExportableLeafNode))
  {
    var n := s.node;
    var valid := FindAll(n, IsExportableLeafNode);
    var invalid := FindAll(n, Not(IsExportableLeafNode));
    FilterSplits(Descendants(n), IsExportableLeafNode);
    assert |multiset(valid)| + |multiset(invalid)| == |multiset(Descendants(n))|;
    GroupClassified(store, s);
    SerializedKinds(store, valid);
    SerializedKinds(store, invalid);
    forall k | 0 <= k < |invalid| ensures !IsExportableLeafNode(invalid[k].kind) {
      assert Not(IsExportableLeafNode)(invalid[k].kind);
    }
    NotOwnDescendant(n);
  }

  /** Any other node is invalid and carries no cut data, whatever the store holds. */
  lemma OtherIsInvalidWithoutData(store: Host.PluginDataStore, s: Selected)
    requires !HasLeafAncestor(s) && !IsExportableLeafNode(s.node.kind) && !IsGroupLikeNode(s.node.kind)
    ensures Classify(store, s) == Ok(PathSelection([], [SerializedPath(s.node.id, s.node.name, s.node.kind, PathData(None, None))]))
  {
  }

  /**
   * `sendSelectionChange`: an empty selection gives empty path lists, a
   * single frame gives the frame with its children sorted, anything else the
   * selection sorted.
   */
  function SelectionChange(store: Host.PluginDataStore, selection: seq<Selected>): (r: Result<SelectionMessage, Error>)
    reads store
    ensures selection == [] ==> r == Ok(Paths(PathSelection([], [])))
    ensures |selection| == 1 && selection[0].node.kind == Frame ==>
      (r.Ok? <==> PathSelectionOf(store, FrameChildren(selection[0])).Ok?)
    ensures |selection| == 1 && selection[0].node.kind == Frame && r.Ok? ==>
      r.value == FrameMessage(selection[0].node.id, selection[0].node.name, PathSelectionOf(store, FrameChildren(selection[0])).value)
    ensures !(|selection| == 1 && selection[0].node.kind == Frame) ==>
      (r.Ok? <==> PathSelectionOf(store, selection).Ok?) && (r.Ok? ==> r.value == Paths(PathSelectionOf(store, selection).value))
  {
    if |selection| == 0 then Ok(Paths(PathSelection([], [])))
    else if |selection| == 1 && selection[0].node.kind == Frame then
      var frame := selection[0];
      match PathSelectionOf(store, FrameChildren(frame))
      case Err(e) => Err(e)
      case Ok(paths) => Ok(FrameMessage(frame.node.id, frame.node.name, paths))
    else
      match PathSelectionOf(store, selection)
      case Err(e) => Err(e)
      case Ok(paths) => Ok(Paths(paths))
  }

  /** The children of a selected frame, each with the frame as its parent. */
  function FrameChildren(frame: Selected): (r: seq<Selected>)
    ensures |r| == |frame.node.children|
    ensures forall k :: 0 <= k < |r| ==> r[k] == Selected(frame.node.children[k], [frame.node.kind] + frame.ancestors)
  {
    seq(|frame.node.children|, k requires 0 <= k < |frame.node.children| => Selected(frame.node.children[k], [frame.node.kind] + frame.ancestors))
  }

  // ---------------------------------------------------------------------
  // SET_DATA
  // ---------------------------------------------------------------------

  /**
   * The effect of the SET_DATA handler on the store, node by node: a missing
   * node throws, leaving the earlier nodes written; a given cut depth is
   * written; a given cut type is written when it is "" or passes
   * `assertCutType`, and otherwise throws after the cut depth was written.
   */
  function SetDataEffect(data: map<Host.NodeId, map<string, string>>, nodeIds: seq<Host.NodeId>,
                         cutDepth: Option<string>, cutType: Option<string>)
    : (r: (map<Host.NodeId, map<string, string>>, Result<(), Error>))
    decreases |nodeIds|
  {
    if nodeIds == [] then (data, Ok(()))
    else
      var id := nodeIds[0];
      if id !in data then (data, Err(NodeNotFound))
      else
        var afterDepth := if cutDepth.Some? then data[id := data[id]["cutDepth" := cutDepth.value]] else data;
        if cutType.Some? && cutType.value != "" && AssertCutType(cutType.value).Err? then
          (afterDepth, Err(InvalidCutTypeValue))
        else
          var afterType := if cutType.Some? then afterDepth[id := afterDepth[id]["cutType" := cutType.value]] else afterDepth;
          SetDataEffect(afterType, nodeIds[1..], cutDepth, cutType)
  }

  /** Whether the cut type of a SET_DATA message may be written. */
  predicate CutTypeWritable(cutType: Option<string>) {
    cutType.None? || cutType.value == "" || AssertCutType(cutType.value).Ok?
  }

  /**
   * When every node exists and the cut type is writable, SET_DATA succeeds
   * and leaves the given fields set on every listed node; no other node
   * changes, and no key other than the two cut fields changes anywhere.
   */
  lemma {:induction false} SetDataWritesEveryNode(data: map<Host.NodeId, map<string, string>>, nodeIds: seq<Host.NodeId>,
                                                  cutDepth: Option<string>, cutType: Option<string>)
    requires forall k :: 0 <= k < |nodeIds| ==> nodeIds[k] in data
    requires CutTypeWritable(cutType)
    ensures var (after, r) := SetDataEffect(data, nodeIds, cutDepth, cutType);
      r.Ok? && after.Keys == data.Keys
      && (forall id :: id in data && id !in nodeIds ==> after[id] == data[id])
      && (forall id :: id in nodeIds && cutDepth.Some? ==> "cutDepth" in after[id] && after[id]["cutDepth"] == cutDepth.value)
      && (forall id :: id in nodeIds && cutType.Some? ==> "cutType" in after[id] && after[id]["cutType"] == cutType.value)
      && (forall id, key :: id in data && key in data[id] && key != "cutDepth" && key != "cutType" ==>
            key in after[id] && after[id][key] == data[id][key])
    decreases |nodeIds|
  {
    if nodeIds != [] {
      var id := nodeIds[0];
      var afterDepth := if cutDepth.Some? then data[id := data[id]["cutDepth" := cutDepth.value]] else data;
      var afterType := if cutType.Some? then afterDepth[id := afterDepth[id]["cutType" := cutType.value]] else afterDepth;
      SetDataWritesEveryNode(afterType, nodeIds[1..], cutDepth, cutType);
      var after := SetDataEffect(afterType, nodeIds[1..], cutDepth, cutType).0;
      assert SetDataEffect(data, nodeIds, cutDepth, cutType).0 == after;
      forall other | other in data && other !in nodeIds ensures after[other] == data[other] {
        assert other !in nodeIds[1..];
      }
      forall other | other in nodeIds && cutDepth.Some? ensures "cutDepth" in after[other] && after[other]["cutDepth"] == cutDepth.value {
        if other !in nodeIds[1..] {
          assert other == id;
        }
      }
      forall other | other in nodeIds && cutType.Some? ensures "cutType" in after[other] && after[other]["cutType"] == cutType.value {
        if other !in nodeIds[1..] {
          assert other == id;
        }
      }
      forall other, key | other in data && key in data[other] && key != "cutDepth" && key != "cutType"
        ensures key in after[other] && after[other][key] == data[other][key]
      {
        assert key in afterType[other] && afterType[other][key] == data[other][key];
      }
    }
  }

  /** The keys a SET_DATA message provides values for. */
  function ProvidedKeys(cutDepth: Option<string>, cutType: Option<string>): (r: set<string>)
    ensures "cutDepth" in r <==> cutDepth.Some?
    ensures "cutType" in r <==> cutType.Some?
    ensures forall key :: key in r ==> key == "cutDepth" || key == "cutType"
  {
    (if cutDepth.Some? then {"cutDepth"} else {}) + (if cutType.Some? then {"cutType"} else {})
  }

  /**
   * SET_DATA writes only the fields the message provides: a listed node
   * keeps every other key, a field left out of the message included, and
   * gains no new one; an unlisted node is untouched.
   */
  lemma {:induction false} SetDataWritesOnlyProvidedFields(data: map<Host.NodeId, map<string, string>>, nodeIds: seq<Host.NodeId>,
                                                           cutDepth: Option<string>, cutType: Option<string>)
    requires forall k :: 0 <= k < |nodeIds| ==> nodeIds[k] in data
    requires CutTypeWritable(cutType)
    ensures var after := SetDataEffect(data, nodeIds, cutDepth, cutType).0;
      after.Keys == data.Keys
      && (forall id :: id in data && id in nodeIds ==>
            after[id] - ProvidedKeys(cutDepth, cutType) == data[id] - ProvidedKeys(cutDepth, cutType))
      && (forall id :: id in data && id !in nodeIds ==> after[id] == data[id])
    decreases |nodeIds|
  {
    if nodeIds != [] {
      var id := nodeIds[0];
      var provided := ProvidedKeys(cutDepth, cutType);
      var afterDepth := if cutDepth.Some? then data[id := data[id]["cutDepth" := cutDepth.value]] else data;
      var afterType := if cutType.Some? then afterDepth[id := afterDepth[id]["cutType" := cutType.value]] else afterDepth;
      assert afterType.Keys == data.Keys;
      assert afterType[id] - provided == data[id] - provided;
      SetDataWritesOnlyProvidedFields(afterType, nodeIds[1..], cutDepth, cutType);
      var after := SetDataEffect(afterType, nodeIds[1..], cutDepth, cutType).0;
      assert SetDataEffect(data, nodeIds, cutDepth, cutType).0 == after;
      forall other | other in data && other in nodeIds
        ensures after[other] - provided == data[other] - provided
      {
        if other == id {
          if other in nodeIds[1..] {
            assert after[other] - provided == afterType[other] - provided;
          } else {
            assert after[other] == afterType[other];
          }
        } else {
          assert other in nodeIds[1..];
          assert afterType[other] == data[other];
        }
      }
      forall other | other in data && other !in nodeIds
        ensures after[other] == data[other]
      {
        assert other !in nodeIds[1..] && afterType[other] == data[other];
      }
    }
  }

  /**
   * A missing node makes SET_DATA throw with the nodes before it already
   * written: the outcome is that of the nodes before it, followed by the
   * error.
   */
  lemma {:induction false} SetDataStopsAtMissingNode(data: map<Host.NodeId, map<string, string>>, nodeIds: seq<Host.NodeId>,
                                                     cutDepth: Option<string>, cutType: Option<string>, k: nat)
    requires k < |nodeIds| && nodeIds[k] !in data
    requires forall j :: 0 <= j < k ==> nodeIds[j] in data
    requires CutTypeWritable(cutType)
    ensures SetDataEffect(data, nodeIds, cutDepth, cutType)
         == (SetDataEffect(data, nodeIds[..k], cutDepth, cutType).0, Err(NodeNotFound))
    decreases k
  {
    if k > 0 {
      var id := nodeIds[0];
      var afterDepth := if cutDepth.Some? then data[id := data[id]["cutDepth" := cutDepth.value]] else data;
      var afterType := if cutType.Some? then afterDepth[id := afterDepth[id]["cutType" := cutType.value]] else afterDepth;
      assert nodeIds[1..][..k - 1] == nodeIds[..k][1..];
      SetDataKeepsNodes(data, id, cutDepth, cutType);
      SetDataStopsAtMissingNode(afterType, nodeIds[1..], cutDepth, cutType, k - 1);
    }
  }

  lemma SetDataKeepsNodes(data: map<Host.NodeId, map<string, string>>, id: Host.NodeId,
                          cutDepth: Option<string>, cutType: Option<string>)
    requires id in data
    ensures var afterDepth := if cutDepth.Some? then data[id := data[id]["cutDepth" := cutDepth.value]] else data;
      var afterType := if cutType.Some? then afterDepth[id := afterDepth[id]["cutType" := cutType.value]] else afterDepth;
      afterType.Keys == data.Keys
  {
  }

  /** An invalid cut type throws at the first node, after its cut depth was written. */
  lemma InvalidCutTypeStopsAtFirstNode(data: map<Host.NodeId, map<string, string>>, nodeIds: seq<Host.NodeId>,
                                       cutDepth: Option<string>, cutType: Option<string>)
    requires nodeIds != [] && nodeIds[0] in data && !CutTypeWritable(cutType)
    ensures SetDataEffect(data, nodeIds, cutDepth, cutType).1 == Err(InvalidCutTypeValue)
    ensures SetDataEffect(data, nodeIds, cutDepth, cutType).0
         == if cutDepth.Some? then data[nodeIds[0] := data[nodeIds[0]]["cutDepth" := cutDepth.value]] else data
  {
  }

  /** The SET_DATA handler. */
  method SetData(store: Host.PluginDataStore, nodeIds: seq<Host.NodeId>, cutDepth: Option<string>, cutType: Option<string>)
    returns (r: Result<(), Error>)
    modifies store
    ensures (store.data, r) == SetDataEffect(old(store.data), nodeIds, cutDepth, cutType)
  {
    for k := 0 to |nodeIds|
      invariant SetDataEffect(old(store.data), nodeIds, cutDepth, cutType)
             == SetDataEffect(store.data, nodeIds[k..], cutDepth, cutType)
    {
      assert nodeIds[k..][1..] == nodeIds[k + 1..];
      var id := nodeIds[k];
      if !store.Exists(id) {
        return Err(NodeNotFound);
      }
      if cutDepth.Some? {
        store.Set(id, "cutDepth", cutDepth.value);
      }
      if cutType.Some? {
        if cutType.value != "" {
          var check := AssertCutType(cutType.value);
          if check.Err? {
            return Err(InvalidCutTypeValue);
          }
        }
        store.Set(id, "cutType", cutType.value);
      }
    }
    return Ok(());
  }
}
