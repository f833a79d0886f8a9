/** One-axis benchmark surfaces around a base choice of parameters. */
module Surfaces {
  import opened Common
  import opened Evaluation
  import opened Sensitivity
  import opened Statistics

  /** The fields of the parameters, by name; any other name is unknown. */
  datatype Axis = Lam | Omega | Mu | LockThreshold | LockGateMax | LogisticK | Unknown(name: string)

  function Get(p: Parameters, axis: Axis): real
    requires !axis.Unknown?
  {
    match axis
    case Lam => p.lam
    case Omega => p.omega
    case Mu => p.mu
    case LockThreshold => p.lockThreshold
    case LockGateMax => p.lockGateMax
    case LogisticK => p.logisticK
  }

  /** `dataclasses.replace` of one field. */
  function Replace(p: Parameters, axis: Axis, value: real): Outcome<Parameters> {
    match axis
    case Lam => Success(p.(lam := value))
    case Omega => Success(p.(omega := value))
    case Mu => Success(p.(mu := value))
    case LockThreshold => Success(p.(lockThreshold := value))
    case LockGateMax => Success(p.(lockGateMax := value))
    case LogisticK => Success(p.(logisticK := value))
    case Unknown(_) => Failure(UnknownField)
  }

  lemma ReplaceReplaces(p: Parameters, axis: Axis, value: real)
    ensures Replace(p, axis, value).Success? <==> !axis.Unknown?
    ensures !axis.Unknown? ==>
              forall a: Axis | !a.Unknown? ::
                Get(Replace(p, axis, value).value, a) == if a == axis then value else Get(p, a)
  {
  }

  lemma SameFields(p: Parameters, q: Parameters)
    requires forall a: Axis | !a.Unknown? :: Get(p, a) == Get(q, a)
    ensures p == q
  {
    assert Get(p, Lam) == Get(q, Lam) && Get(p, Omega) == Get(q, Omega) && Get(p, Mu) == Get(q, Mu);
    assert Get(p, LockThreshold) == Get(q, LockThreshold) && Get(p, LockGateMax) == Get(q, LockGateMax);
    assert Get(p, LogisticK) == Get(q, LogisticK);
  }

  datatype AxisGrid = AxisGrid(axis: Axis, values: seq<real>)

  datatype Point = Point(axis: Axis, axisValue: real, parameters: Parameters, summary: Means)

  datatype Surface = Surface(axis: Axis, points: seq<Point>)

  datatype Band = Band(low: real, high: real, span: real)

  datatype SurfaceSummary = SurfaceSummary(
    pointCount: nat, axisMin: real, axisMax: real, transition: Band, compatibility: Band, aftermath: Band)

  function PointAt(engine: Engine, packs: seq<Pack>, base: Parameters, axis: Axis, value: real): Outcome<Point> {
    var parameters :- Replace(base, axis, value);
    var results :- EvaluatePacks(engine, packs, parameters);
    var summary :- SummarizePacks(results);
    Success(Point(axis, value, parameters, summary))
  }

  function PointMaker(engine: Engine, packs: seq<Pack>, base: Parameters, axis: Axis): real -> Outcome<Point> {
    (value: real) => PointAt(engine, packs, base, axis, value)
  }

  function SurfaceOf(engine: Engine, packs: seq<Pack>, base: Parameters, grid: AxisGrid): Outcome<Surface> {
    if packs == [] then Failure(Invalid)
    else if grid.axis.Unknown? then Failure(UnknownAxis)
    else if grid.values == [] then Failure(Invalid)
    else
      var points :- Traverse(PointMaker(engine, packs, base, grid.axis), grid.values);
      Success(Surface(grid.axis, points))
  }

  function SurfaceMaker(engine: Engine, packs: seq<Pack>, base: Parameters): AxisGrid -> Outcome<Surface> {
    (grid: AxisGrid) => SurfaceOf(engine, packs, base, grid)
  }

  function SurfacesOf(engine: Engine, packs: seq<Pack>, base: Parameters, grids: seq<AxisGrid>): Outcome<seq<Surface>> {
    if grids == [] then Failure(Invalid) else Traverse(SurfaceMaker(engine, packs, base), grids)
  }

  function PointColumn(points: seq<Point>, metric: Metric): seq<real> {
    seq(|points|, i requires 0 <= i < |points| => Of(points[i].summary, metric))
  }

  function AxisColumn(points: seq<Point>): seq<real> {
    seq(|points|, i requires 0 <= i < |points| => points[i].axisValue)
  }

  function BandOf(s: seq<real>): Band
    requires s != []
  {
    Band(Min(s), Max(s), Max(s) - Min(s))
  }

  function SummarizeSurface(surface: Surface): Outcome<SurfaceSummary> {
    if surface.points == [] then Failure(Invalid)
    else
      var axis := AxisColumn(surface.points);
      Success(SurfaceSummary(
                |surface.points|, Min(axis), Max(axis),
                BandOf(PointColumn(surface.points, TransitionChannel)),
                BandOf(PointColumn(surface.points, Compatibility)),
                BandOf(PointColumn(surface.points, AftermathBalance))))
  }

  method EvaluateBenchmarkSurface(engine: Engine, packs: seq<Pack>, base: Parameters, axis: Axis, values: seq<real>)
    returns (surface: Outcome<Surface>)
    ensures surface == SurfaceOf(engine, packs, base, AxisGrid(axis, values))
  {
    if packs == [] {
      return Failure(Invalid);
    }
    if axis.Unknown? {
      return Failure(UnknownAxis);
    }
    if values == [] {
      return Failure(Invalid);
    }
    var points: seq<Point> := [];
    for i := 0 to |values|
      invariant Traverse(PointMaker(engine, packs, base, axis), values[..i]) == Success(points)
    {
      assert values[..i + 1][..i] == values[..i];
      var point := PointAt(engine, packs, base, axis, values[i]);
      if point.Failure? {
        FirstFailure(PointMaker(engine, packs, base, axis), values, i);
        return Failure(point.error);
      }
      points := points + [point.value];
    }
    assert values[..|values|] == values;
    surface := Success(Surface(axis, points));
  }

  /** A surface has one point for each axis value, and each point shows what the scenario packs amount to there. */
  lemma SurfacePoints(engine: Engine, packs: seq<Pack>, base: Parameters, grid: AxisGrid)
    requires SurfaceOf(engine, packs, base, grid).Success?
    ensures var points := SurfaceOf(engine, packs, base, grid).value.points;
            && !grid.axis.Unknown? && |points| == |grid.values| > 0
            && forall i :: 0 <= i < |points| ==> PointShows(engine, packs, base, grid.axis, grid.values[i], points[i])
  {
    TraverseIsPointwise(PointMaker(engine, packs, base, grid.axis), grid.values);
    var points := SurfaceOf(engine, packs, base, grid).value.points;
    forall i | 0 <= i < |points| ensures PointShows(engine, packs, base, grid.axis, grid.values[i], points[i]) {
      assert PointAt(engine, packs, base, grid.axis, grid.values[i]) == Success(points[i]);
    }
  }

  ghost predicate PointShows(
    engine: Engine, packs: seq<Pack>, base: Parameters, axis: Axis, value: real, point: Point)
  {
    && point.axis == axis && point.axisValue == value && Replace(base, axis, value) == Success(point.parameters)
    && SnapshotAt(engine, packs, point.parameters).Success?
    && SnapshotAt(engine, packs, point.parameters).value.summary == point.summary
  }

  ghost predicate IsBandOf(b: Band, s: seq<real>) {
    b.low in s && b.high in s && b.span == b.high - b.low && forall x :: x in s ==> b.low <= x <= b.high
  }

  /** The summary of a surface: its size, the range of its axis, and the band of each metric over its points. */
  lemma SurfaceBands(surface: Surface)
    requires surface.points != []
    ensures SummarizeSurface(surface).Success?
    ensures var s := SummarizeSurface(surface).value;
            && s.pointCount == |surface.points|
            && IsBandOf(Band(s.axisMin, s.axisMax, s.axisMax - s.axisMin), AxisColumn(surface.points))
            && IsBandOf(s.transition, PointColumn(surface.points, TransitionChannel))
            && IsBandOf(s.compatibility, PointColumn(surface.points, Compatibility))
            && IsBandOf(s.aftermath, PointColumn(surface.points, AftermathBalance))
  {
  }
}
