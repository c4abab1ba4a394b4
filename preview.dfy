/**
 * The preview's geometry pipeline: sampling an SVG element's outline into a
 * polygon, choosing per cut type how the cutter's path is derived from it,
 * serialising polygons back into SVG path data, and the list of drawn
 * entries. The polygon-clipping library is a record of uninterpreted
 * operations.
 */
module Preview {
  import opened JsRuntime

  /** A point in the drawing's coordinates. */
  datatype Point = Point(x: real, y: real)

  type Path = seq<Point>

  /** The scale paths are multiplied by before clipping. */
  const Scale: real := 10.0

  /** The cutter diameter the preview draws with. */
  const CutterDiameter: real := 15.0

  /**
   * The clipping library's operations the preview uses, each an arbitrary
   * function: `ScaleUpPaths`, `SimplifyPolygons` with the even-odd rule,
   * `CleanPolygons`, a `ClipperOffset` (miter limit Infinity, arc tolerance
   * 0.25) fed closed polygons with miter joins, `ScaleUpPath`,
   * `MinkowskiSum`, and the unit circle the cutter is built from.
   */
  datatype Clipper = Clipper(
    scaleUpPaths: (seq<Path>, real) -> seq<Path>,
    simplifyPolygonsEvenOdd: seq<Path> -> seq<Path>,
    cleanPolygons: (seq<Path>, real) -> seq<Path>,
    offsetMiterClosed: (seq<Path>, real) -> seq<Path>,
    scaleUpPath: (Path, real) -> Path,
    minkowskiSum: (Path, seq<Path>, bool) -> seq<Path>,
    unitCircle: Path)

  /** An SVG geometry element: its `shaper:cutType` attribute and its outline. */
  datatype GeometryElement = GeometryElement(
    cutType: Option<string>,
    totalLength: real,
    pointAt: real -> Point)

  // ---------------------------------------------------------------------
  // serializePaths
  // ---------------------------------------------------------------------

  /** `!scale`: a zero scale is replaced by 1. */
  function EffectiveScale(scale: real): (s: real)
    ensures s != 0.0
    ensures scale != 0.0 ==> s == scale
  {
    if scale == 0.0 then 1.0 else scale
  }

  /** One point's coordinates divided by the scale, separated by ", ". */
  function PointText(p: Point, scale: real, show: Num -> string): string
    requires scale != 0.0
  {
    show(Fin(p.x / scale)) + ", " + show(Fin(p.y / scale))
  }

  /** The commands for the points of one subpath: "M" before the first, "L" before every later one. */
  function Commands(path: Path, scale: real, show: Num -> string): string
    requires scale != 0.0
    decreases |path|
  {
    if path == [] then ""
    else Commands(path[..|path| - 1], scale, show)
         + (if |path| == 1 then "M" else "L") + PointText(path[|path| - 1], scale, show)
  }

  /** One subpath, closed by "Z". */
  function SubpathText(path: Path, scale: real, show: Num -> string): string
    requires scale != 0.0
  {
    Commands(path, scale, show) + "Z"
  }

  /** The subpaths one after the other. */
  function PathsText(paths: seq<Path>, scale: real, show: Num -> string): string
    requires scale != 0.0
    decreases |paths|
  {
    if paths == [] then ""
    else PathsText(paths[..|paths| - 1], scale, show) + SubpathText(paths[|paths| - 1], scale, show)
  }

  /** What `serializePaths` returns: the subpaths' text, or "M0,0" when that is empty. */
  function SerializedPaths(paths: seq<Path>, scale: real, show: Num -> string): (r: string)
    ensures r != ""
  {
    var text := PathsText(paths, EffectiveScale(scale), show);
    if text == "" then "M0,0" else text
  }

  /** `serializePaths`: nested loops appending to the path text. */
  method SerializePaths(paths: seq<Path>, scale: real, show: Num -> string) returns (svgpath: string)
    ensures svgpath == SerializedPaths(paths, scale, show)
  {
    var s := scale;
    if s == 0.0 {
      s := 1.0;
    }
    svgpath := "";
    for i := 0 to |paths|
      invariant svgpath == PathsText(paths[..i], s, show)
    {
      ghost var before := svgpath;
      var path := paths[i];
      assert path[..0] == [];
      for j := 0 to |path|
        invariant svgpath == before + Commands(path[..j], s, show)
      {
        ghost var current := svgpath;
        if j == 0 {
          svgpath := svgpath + "M";
        } else {
          svgpath := svgpath + "L";
        }
        svgpath := svgpath + PointText(path[j], s, show);
        CommandsStep(path, j, s, show, before, current);
      }
      PathsStep(paths, i, s, show, svgpath);
      svgpath := svgpath + "Z";
    }
    assert paths[..|paths|] == paths;
    if svgpath == "" {
      svgpath := "M0,0";
    }
  }

  /** Appending one point's command extends the subpath's text by one point. */
  lemma CommandsStep(path: Path, j: nat, scale: real, show: Num -> string, before: string, current: string)
    requires scale != 0.0 && j < |path|
    requires current == before + Commands(path[..j], scale, show)
    ensures current + (if j == 0 then "M" else "L") + PointText(path[j], scale, show)
         == before + Commands(path[..j + 1], scale, show)
  {
    assert path[..j + 1][..j] == path[..j];
  }

  /** Closing a complete subpath with "Z" extends the text by one subpath. */
  lemma PathsStep(paths: seq<Path>, i: nat, scale: real, show: Num -> string, current: string)
    requires scale != 0.0 && i < |paths|
    requires current == PathsText(paths[..i], scale, show) + Commands(paths[i][..|paths[i]|], scale, show)
    ensures current + "Z" == PathsText(paths[..i + 1], scale, show)
  {
    assert paths[..i + 1][..i] == paths[..i];
    assert paths[i][..|paths[i]|] == paths[i];
  }

  /** Every subpath contributes at least its "Z", so only an empty list gives "M0,0". */
  lemma {:induction false} PathsTextLength(paths: seq<Path>, scale: real, show: Num -> string)
    requires scale != 0.0
    ensures |PathsText(paths, scale, show)| >= |paths|
    decreases |paths|
  {
    if paths != [] {
      PathsTextLength(paths[..|paths| - 1], scale, show);
    }
  }

  /** An empty list gives "M0,0"; a non-empty one gives the subpaths' own text. */
  lemma EmptyListGivesOrigin(paths: seq<Path>, scale: real, show: Num -> string)
    ensures paths == [] ==> SerializedPaths(paths, scale, show) == "M0,0"
    ensures paths != [] ==> SerializedPaths(paths, scale, show) == PathsText(paths, EffectiveScale(scale), show)
    ensures paths != [] ==> SerializedPaths(paths, scale, show) != "M0,0"
  {
    PathsTextLength(paths, EffectiveScale(scale), show);
    if paths != [] {
      PathsTextEndsInClose(paths, EffectiveScale(scale), show);
    }
  }

  /** A non-empty list's text closes its last subpath, so it ends in 'Z'. */
  lemma PathsTextEndsInClose(paths: seq<Path>, scale: real, show: Num -> string)
    requires scale != 0.0 && paths != []
    ensures var text := PathsText(paths, scale, show); text != [] && text[|text| - 1] == 'Z'
  {
    var last := SubpathText(paths[|paths| - 1], scale, show);
    assert last[|last| - 1] == 'Z';
  }

  /** A list of empty subpaths gives one "Z" per subpath. */
  lemma {:induction false} EmptySubpathsGiveOneZEach(paths: seq<Path>, scale: real, show: Num -> string)
    requires paths != []
    requires forall k :: 0 <= k < |paths| ==> paths[k] == []
    ensures SerializedPaths(paths, scale, show) == seq(|paths|, _ => 'Z')
  {
    ZsOnly(paths, EffectiveScale(scale), show);
  }

  lemma {:induction false} ZsOnly(paths: seq<Path>, scale: real, show: Num -> string)
    requires scale != 0.0
    requires forall k :: 0 <= k < |paths| ==> paths[k] == []
    ensures PathsText(paths, scale, show) == seq(|paths|, _ => 'Z')
    decreases |paths|
  {
    if paths != [] {
      ZsOnly(paths[..|paths| - 1], scale, show);
      assert paths[|paths| - 1] == [];
    }
  }

  /** A non-empty subpath starts with "M" and ends with "Z". */
  lemma {:induction false} SubpathShape(path: Path, scale: real, show: Num -> string)
    requires scale != 0.0 && path != []
    ensures SubpathText(path, scale, show)[0] == 'M'
    ensures SubpathText(path, scale, show)[|SubpathText(path, scale, show)| - 1] == 'Z'
  {
    CommandsStartWithMove(path, scale, show);
  }

  lemma {:induction false} CommandsStartWithMove(path: Path, scale: real, show: Num -> string)
    requires scale != 0.0 && path != []
    ensures |Commands(path, scale, show)| > 0 && Commands(path, scale, show)[0] == 'M'
    decreases |path|
  {
    if |path| > 1 {
      CommandsStartWithMove(path[..|path| - 1], scale, show);
    }
  }

  /** Number of non-empty subpaths. */
  function NonEmptyCount(paths: seq<Path>): nat {
    if paths == [] then 0 else NonEmptyCount(paths[..|paths| - 1]) + (if paths[|paths| - 1] != [] then 1 else 0)
  }

  /** Number of points over all subpaths. */
  function PointCount(paths: seq<Path>): nat {
    if paths == [] then 0 else PointCount(paths[..|paths| - 1]) + |paths[|paths| - 1]|
  }

  /** Whether printed numbers are free of the command letters. */
  ghost predicate PrintsNoCommands(show: Num -> string) {
    forall v :: 'M' !in show(v) && 'L' !in show(v) && 'Z' !in show(v)
  }

  lemma PointTextCounts(p: Point, scale: real, show: Num -> string)
    requires scale != 0.0 && PrintsNoCommands(show)
    ensures Count(PointText(p, scale, show), 'M') == 0
    ensures Count(PointText(p, scale, show), 'L') == 0
    ensures Count(PointText(p, scale, show), 'Z') == 0
  {
    var t := PointText(p, scale, show);
    assert 'M' !in show(Fin(p.x / scale)) && 'M' !in show(Fin(p.y / scale));
    assert 'L' !in show(Fin(p.x / scale)) && 'L' !in show(Fin(p.y / scale));
    assert 'Z' !in show(Fin(p.x / scale)) && 'Z' !in show(Fin(p.y / scale));
    CountAbsent(t, 'M');
    CountAbsent(t, 'L');
    CountAbsent(t, 'Z');
  }

  lemma {:induction false} CommandCountsOfSubpath(path: Path, scale: real, show: Num -> string)
    requires scale != 0.0 && PrintsNoCommands(show)
    ensures Count(Commands(path, scale, show), 'M') == (if path == [] then 0 else 1)
    ensures Count(Commands(path, scale, show), 'L') == (if path == [] then 0 else |path| - 1)
    ensures Count(Commands(path, scale, show), 'Z') == 0
    decreases |path|
  {
    if path != [] {
      var init := path[..|path| - 1];
      var letter := if |path| == 1 then "M" else "L";
      var point := PointText(path[|path| - 1], scale, show);
      CommandCountsOfSubpath(init, scale, show);
      PointTextCounts(path[|path| - 1], scale, show);
      CountAppend(Commands(init, scale, show), letter, 'M');
      CountAppend(Commands(init, scale, show) + letter, point, 'M');
      CountAppend(Commands(init, scale, show), letter, 'L');
      CountAppend(Commands(init, scale, show) + letter, point, 'L');
      CountAppend(Commands(init, scale, show), letter, 'Z');
      CountAppend(Commands(init, scale, show) + letter, point, 'Z');
    }
  }

  /**
   * With numbers printed without the letters M, L and Z, the text holds one
   * "M" per non-empty subpath, one "L" per later point and one "Z" per
   * subpath.
   */
  lemma {:induction false} CommandCounts(paths: seq<Path>, scale: real, show: Num -> string)
    requires scale != 0.0 && PrintsNoCommands(show)
    ensures Count(PathsText(paths, scale, show), 'Z') == |paths|
    ensures Count(PathsText(paths, scale, show), 'M') == NonEmptyCount(paths)
    ensures Count(PathsText(paths, scale, show), 'L') == PointCount(paths) - NonEmptyCount(paths)
    ensures NonEmptyCount(paths) <= PointCount(paths)
    decreases |paths|
  {
    if paths != [] {
      var init := paths[..|paths| - 1];
      var last := paths[|paths| - 1];
      CommandCounts(init, scale, show);
      CommandCountsOfSubpath(last, scale, show);
      CountAppend(Commands(last, scale, show), "Z", 'M');
      CountAppend(Commands(last, scale, show), "Z", 'L');
      CountAppend(Commands(last, scale, show), "Z", 'Z');
      CountAppend(PathsText(init, scale, show), SubpathText(last, scale, show), 'M');
      CountAppend(PathsText(init, scale, show), SubpathText(last, scale, show), 'L');
      CountAppend(PathsText(init, scale, show), SubpathText(last, scale, show), 'Z');
    }
  }

  // ---------------------------------------------------------------------
  // toPath
  // ---------------------------------------------------------------------

  /** How many of 0, step, 2·step, … lie strictly below `length`. */
  function SampleCount(length: real, step: real): (n: nat)
    requires step > 0.0
    ensures length <= 0.0 ==> n == 0
    ensures (n as real) * step >= length
    ensures n > 0 ==> ((n - 1) as real) * step < length
  {
    if length <= 0.0 then 0
    else
      var x := length / step;
      ScaledAgainstLength(0.0, length, step);
      var q := x.Floor;
      var n := if q as real == x then q else q + 1;
      ScaledAgainstLength(n as real, length, step);
      ScaledAgainstLength((n - 1) as real, length, step);
      n
  }

  /** Comparing `k` steps with a length is comparing `k` with the quotient `length / step`. */
  lemma ScaledAgainstLength(k: real, length: real, step: real)
    requires step > 0.0
    ensures k * step < length <==> k < length / step
  {
    var x := length / step;
    assert x * step == length;
    assert (x - k) * step == x * step - k * step;
    if k < x {
      assert (x - k) * step > 0.0;
    } else {
      assert (x - k) * step <= 0.0;
    }
  }

  /** The two bounds pin the count down: no other number of samples satisfies both. */
  lemma SampleCountUnique(length: real, step: real, m: nat)
    requires step > 0.0
    requires (m as real) * step >= length
    requires m > 0 ==> ((m - 1) as real) * step < length
    ensures m == SampleCount(length, step)
  {
    var n := SampleCount(length, step);
    ScaledAgainstLength(m as real, length, step);
    ScaledAgainstLength(n as real, length, step);
    if m > 0 {
      ScaledAgainstLength((m - 1) as real, length, step);
    }
    if n > 0 {
      ScaledAgainstLength((n - 1) as real, length, step);
    }
  }

  /** The distance along the outline of the sample numbered `k`. */
  function SamplePosition(step: real, k: nat): real {
    (k as real) * step
  }

  /** The outline's points at 0, step, …, (n - 1)·step. */
  function PointsAlong(element: GeometryElement, step: real, n: nat): (r: Path)
    ensures |r| == n
    ensures forall k :: 0 <= k < n ==> r[k] == element.pointAt(SamplePosition(step, k))
  {
    if n == 0 then [] else PointsAlong(element, step, n - 1) + [element.pointAt(SamplePosition(step, n - 1))]
  }

  /** The points `toPath` samples: the outline at 0, step, 2·step, … below the total length. */
  function Samples(element: GeometryElement, step: real): Path
    requires step > 0.0
  {
    PointsAlong(element, step, SampleCount(element.totalLength, step))
  }

  /** An outline of length zero (or less) gives no points at all. */
  lemma ZeroLengthHasNoSamples(element: GeometryElement, step: real)
    requires step > 0.0 && element.totalLength <= 0.0
    ensures Samples(element, step) == []
  {
  }

  /** `toPath`: a loop stepping along the outline and pushing each point. */
  method ToPath(element: GeometryElement, stepSize: real) returns (path: Path)
    requires stepSize > 0.0
    ensures path == Samples(element, stepSize)
  {
    var length := element.totalLength;
    path := [];
    var i := 0.0;
    ghost var n: nat := 0;
    while i < length
      invariant i == SamplePosition(stepSize, n)
      invariant n > 0 ==> ((n - 1) as real) * stepSize < length
      invariant n <= SampleCount(length, stepSize)
      invariant path == PointsAlong(element, stepSize, n)
      decreases SampleCount(length, stepSize) - n
    {
      ScaledAgainstLength(n as real, length, stepSize);
      ScaledAgainstLength(SampleCount(length, stepSize) as real, length, stepSize);
      var arr := element.pointAt(i);
      assert Point(arr.x, arr.y) == arr;
      path := path + [Point(arr.x, arr.y)];
      i := i + stepSize;
      n := n + 1;
    }
    SampleCountUnique(length, stepSize, n);
  }

  // ---------------------------------------------------------------------
  // getCutPaths
  // ---------------------------------------------------------------------

  /** The design path and, unless the cut is a guide, the cutter's contour. */
  datatype CutPaths = CutPaths(designPath: string, cutContour: Option<string>)

  /** The sampled outline, scaled up, simplified with the even-odd rule and cleaned. */
  function Cleaned(clipper: Clipper, element: GeometryElement): seq<Path> {
    var scaled := clipper.scaleUpPaths([Samples(element, 1.0)], Scale);
    clipper.cleanPolygons(clipper.simplifyPolygonsEvenOdd(scaled), 0.1 * Scale)
  }

  /** The cutter: the unit circle scaled to the bit's radius (times the scale). */
  function Cutter(clipper: Clipper, cutterDiameter: real): Path {
    clipper.scaleUpPath(clipper.unitCircle, (Scale * cutterDiameter) / 2.0)
  }

  /** Whether the cut type makes the centre line an offset of the outline. */
  predicate IsOffsetCut(cutType: string) {
    cutType == "inside" || cutType == "outside" || cutType == "pocket"
  }

  /**
   * What `getCutPaths` returns, per cut type: a guide keeps only the design
   * path; inside and pocket offset the outline inwards and outside outwards
   * by half the bit (times the scale); any other cut type follows the
   * outline itself; the cutter is swept along the centre line as a closed
   * path only for a pocket.
   */
  function CutPathsOf(clipper: Clipper, element: GeometryElement, cutType: string, cutterDiameter: real, show: Num -> string)
    : (r: CutPaths)
    ensures r.designPath == SerializedPaths(Cleaned(clipper, element), Scale, show)
    ensures r.cutContour.None? <==> cutType == "guide"
    ensures cutType == "inside" || cutType == "pocket" ==>
      r.cutContour == Some(SerializedPaths(clipper.minkowskiSum(Cutter(clipper, cutterDiameter),
        clipper.offsetMiterClosed(Cleaned(clipper, element), -(Scale * cutterDiameter) / 2.0), cutType == "pocket"), Scale, show))
    ensures cutType == "outside" ==>
      r.cutContour == Some(SerializedPaths(clipper.minkowskiSum(Cutter(clipper, cutterDiameter),
        clipper.offsetMiterClosed(Cleaned(clipper, element), (Scale * cutterDiameter) / 2.0), false), Scale, show))
    ensures cutType != "guide" && !IsOffsetCut(cutType) ==>
      r.cutContour == Some(SerializedPaths(clipper.minkowskiSum(Cutter(clipper, cutterDiameter), Cleaned(clipper, element), false), Scale, show))
  {
    var paths := Cleaned(clipper, element);
    if cutType == "guide" then CutPaths(SerializedPaths(paths, Scale, show), None)
    else
      var distance := if cutType == "outside" then (Scale * cutterDiameter) / 2.0 else (Scale * -cutterDiameter) / 2.0;
      var centerline := if IsOffsetCut(cutType) then clipper.offsetMiterClosed(paths, distance) else paths;
      var solution := clipper.minkowskiSum(Cutter(clipper, cutterDiameter), centerline, cutType == "pocket");
      CutPaths(SerializedPaths(paths, Scale, show), Some(SerializedPaths(solution, Scale, show)))
  }

  /** `getCutPaths`: the outline is reassigned step by step, then offset and swept. */
  method GetCutPaths(clipper: Clipper, element: GeometryElement, cutType: string, cutterDiameter: real, show: Num -> string)
    returns (r: CutPaths)
    ensures r == CutPathsOf(clipper, element, cutType, cutterDiameter, show)
  {
    var outline := ToPath(element, 1.0);
    var paths := [outline];
    paths := clipper.scaleUpPaths(paths, Scale);
    paths := clipper.simplifyPolygonsEvenOdd(paths);
    paths := clipper.cleanPolygons(paths, 0.1 * Scale);
    if cutType == "guide" {
      var design := SerializePaths(paths, Scale, show);
      return CutPaths(design, None);
    }
    var centerlinePaths := paths;
    if cutType == "inside" || cutType == "outside" || cutType == "pocket" {
      centerlinePaths := clipper.offsetMiterClosed(paths,
        if cutType == "outside" then (Scale * cutterDiameter) / 2.0 else (Scale * -cutterDiameter) / 2.0);
    }
    var cutter := clipper.scaleUpPath(clipper.unitCircle, (Scale * cutterDiameter) / 2.0);
    var solution := clipper.minkowskiSum(cutter, centerlinePaths, cutType == "pocket");
    var design := SerializePaths(paths, Scale, show);
    var contour := SerializePaths(solution, Scale, show);
    return CutPaths(design, Some(contour));
  }

  /** The Minkowski sweep is closed for a pocket and open for every other cut type. */
  lemma OnlyPocketSweepsClosed(clipper: Clipper, element: GeometryElement, cutterDiameter: real, show: Num -> string)
    ensures CutPathsOf(clipper, element, "pocket", cutterDiameter, show).cutContour
         == Some(SerializedPaths(clipper.minkowskiSum(Cutter(clipper, cutterDiameter),
              clipper.offsetMiterClosed(Cleaned(clipper, element), -(Scale * cutterDiameter) / 2.0), true), Scale, show))
    ensures CutPathsOf(clipper, element, "inside", cutterDiameter, show).cutContour
         == Some(SerializedPaths(clipper.minkowskiSum(Cutter(clipper, cutterDiameter),
              clipper.offsetMiterClosed(Cleaned(clipper, element), -(Scale * cutterDiameter) / 2.0), false), Scale, show))
  {
  }

  /** "online", the "on-line" spelling and any unknown text all cut along the outline itself. */
  lemma OnlineFollowsOutline(clipper: Clipper, element: GeometryElement, cutterDiameter: real, show: Num -> string)
    ensures CutPathsOf(clipper, element, "online", cutterDiameter, show)
         == CutPathsOf(clipper, element, "on-line", cutterDiameter, show)
  {
  }

  // ---------------------------------------------------------------------
  // getCutSVG
  // ---------------------------------------------------------------------

  /** The entries the preview draws. */
  datatype ComputedPath =
    | CutPathsEntry(cutType: string, bitDiameter: real, d: string)
    | DesignPathEntry(cutType: string, d: string)

  /**
   * The entries for one element: none without a cut type, the design path
   * alone for a guide, and otherwise the cutter's contour with the bit
   * diameter followed by the design path.
   */
  function ElementEntries(clipper: Clipper, element: GeometryElement, show: Num -> string): (r: seq<ComputedPath>)
    ensures !Truthy(element.cutType) ==> r == []
    ensures Truthy(element.cutType) && element.cutType.value == "guide" ==>
      r == [DesignPathEntry("guide", CutPathsOf(clipper, element, "guide", CutterDiameter, show).designPath)]
    ensures Truthy(element.cutType) && element.cutType.value != "guide" ==>
      (var paths := CutPathsOf(clipper, element, element.cutType.value, CutterDiameter, show);
       r == [CutPathsEntry(element.cutType.value, CutterDiameter, paths.cutContour.value),
             DesignPathEntry(element.cutType.value, paths.designPath)])
  {
    if Truthy(element.cutType) then
      var cutType := element.cutType.value;
      var offsetPaths := CutPathsOf(clipper, element, cutType, CutterDiameter, show);
      if offsetPaths.cutContour.None? || offsetPaths.cutContour.value == "" then
        [DesignPathEntry(cutType, offsetPaths.designPath)]
      else
        [CutPathsEntry(cutType, CutterDiameter, offsetPaths.cutContour.value),
         DesignPathEntry(cutType, offsetPaths.designPath)]
    else []
  }

  /** `geometry.flatMap(...)`: the entries of every element in document order. */
  function CutSvgEntries(clipper: Clipper, elements: seq<GeometryElement>, show: Num -> string): seq<ComputedPath> {
    if elements == [] then []
    else ElementEntries(clipper, elements[0], show) + CutSvgEntries(clipper, elements[1..], show)
  }

  /** Number of elements that carry a cut type. */
  function WithCutType(elements: seq<GeometryElement>): nat {
    if elements == [] then 0 else (if Truthy(elements[0].cutType) then 1 else 0) + WithCutType(elements[1..])
  }

  /** Number of elements whose cut type is set and is not a guide. */
  function CutElements(elements: seq<GeometryElement>): nat {
    if elements == [] then 0
    else (if Truthy(elements[0].cutType) && elements[0].cutType.value != "guide" then 1 else 0) + CutElements(elements[1..])
  }

  function DesignEntries(entries: seq<ComputedPath>): nat {
    if entries == [] then 0 else (if entries[0].DesignPathEntry? then 1 else 0) + DesignEntries(entries[1..])
  }

  lemma {:induction false} DesignEntriesAppend(a: seq<ComputedPath>, b: seq<ComputedPath>)
    ensures DesignEntries(a + b) == DesignEntries(a) + DesignEntries(b)
  {
    if a != [] {
      assert (a + b)[0] == a[0];
      assert (a + b)[1..] == a[1..] + b;
      DesignEntriesAppend(a[1..], b);
    } else {
      assert a + b == b;
    }
  }

  /**
   * Every element with a cut type is drawn as exactly one design entry, and
   * every such element that is not a guide adds exactly one cut entry
   * besides.
   */
  lemma {:induction false} EntriesPerElement(clipper: Clipper, elements: seq<GeometryElement>, show: Num -> string)
    ensures DesignEntries(CutSvgEntries(clipper, elements, show)) == WithCutType(elements)
    ensures |CutSvgEntries(clipper, elements, show)| == WithCutType(elements) + CutElements(elements)
  {
    if elements != [] {
      var first := ElementEntries(clipper, elements[0], show);
      EntriesPerElement(clipper, elements[1..], show);
      assert |first| == (if Truthy(elements[0].cutType) then 1 else 0)
        + (if Truthy(elements[0].cutType) && elements[0].cutType.value != "guide" then 1 else 0);
      DesignEntriesAppend(first, CutSvgEntries(clipper, elements[1..], show));
    }
  }
}
