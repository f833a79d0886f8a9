/** Multi-axis robustness: a Cartesian parameter grid beside one-axis surfaces, and their joint summary. */
module Robustness {
  import opened Common
  import opened Evaluation
  import opened Sensitivity
  import opened Statistics
  import opened Surfaces

  datatype RobustnessReport = RobustnessReport(
    parameterGrid: seq<Parameters>, sensitivity: SensitivityReport, surfaces: seq<Surface>, axes: seq<Axis>)

  // ---------- the parameter grid ----------

  function Prepend(x: real, rows: seq<seq<real>>): (r: seq<seq<real>>)
    ensures |r| == |rows| && forall i :: 0 <= i < |rows| ==> r[i] == [x] + rows[i]
  {
    seq(|rows|, i requires 0 <= i < |rows| => [x] + rows[i])
  }

  function Cross(xs: seq<real>, rows: seq<seq<real>>): seq<seq<real>> {
    if xs == [] then [] else Prepend(xs[0], rows) + Cross(xs[1..], rows)
  }

  /** `itertools.product`: the last factor varies fastest. */
  function Product(factors: seq<seq<real>>): seq<seq<real>> {
    if factors == [] then [[]] else Cross(factors[0], Product(factors[1..]))
  }

  function ValuesOf(grids: seq<AxisGrid>): seq<seq<real>> {
    seq(|grids|, i requires 0 <= i < |grids| => grids[i].values)
  }

  function AxesOf(grids: seq<AxisGrid>): seq<Axis> {
    seq(|grids|, i requires 0 <= i < |grids| => grids[i].axis)
  }

  /** The keys of a dictionary are different. */
  predicate Distinct(axes: seq<Axis>) {
    forall i, j :: 0 <= i < j < |axes| ==> axes[i] != axes[j]
  }

  function ReplaceAll(base: Parameters, axes: seq<Axis>, row: seq<real>): Outcome<Parameters>
    decreases |axes|
  {
    if axes == [] || row == [] then Success(base)
    else
      var p :- Replace(base, axes[0], row[0]);
      ReplaceAll(p, axes[1..], row[1..])
  }

  function Replacer(base: Parameters, axes: seq<Axis>): seq<real> -> Outcome<Parameters> {
    (row: seq<real>) => ReplaceAll(base, axes, row)
  }

  function ParameterGrid(base: Parameters, grids: seq<AxisGrid>): Outcome<seq<Parameters>> {
    if grids == [] then Failure(Invalid)
    else Traverse(Replacer(base, AxesOf(grids)), Product(ValuesOf(grids)))
  }

  function RobustnessOf(engine: Engine, packs: seq<Pack>, base: Parameters, grids: seq<AxisGrid>)
    : Outcome<RobustnessReport>
  {
    if packs == [] || grids == [] then Failure(Invalid)
    else
      var grid :- ParameterGrid(base, grids);
      var sensitivity :- SensitivityOf(engine, packs, grid);
      var surfaces :- SurfacesOf(engine, packs, base, grids);
      Success(RobustnessReport(grid, sensitivity, surfaces, AxesOf(grids)))
  }

  // ---------- the grid holds exactly the combinations ----------

  lemma {:induction false} CrossHolds(xs: seq<real>, rows: seq<seq<real>>, row: seq<real>)
    ensures row in Cross(xs, rows) <==> row != [] && row[0] in xs && row[1..] in rows
    ensures |Cross(xs, rows)| == |xs| * |rows|
  {
    if xs == [] {
    } else {
      CrossHolds(xs[1..], rows, row);
      var first := Prepend(xs[0], rows);
      if row != [] && row[0] == xs[0] && row[1..] in rows {
        var i :| 0 <= i < |rows| && rows[i] == row[1..];
        assert first[i] == [row[0]] + row[1..] == row;
      }
      if row in first {
        var i :| 0 <= i < |first| && first[i] == row;
        assert row[1..] == rows[i] && row[0] == xs[0];
      }
      assert xs == [xs[0]] + xs[1..];
      assert |xs| * |rows| == |rows| + (|xs| - 1) * |rows|;
    }
  }

  /** The rows that start with the i-th value of the first factor stand together, in the order of the other rows. */
  lemma {:induction false} CrossOrder(xs: seq<real>, rows: seq<seq<real>>, i: nat, j: nat)
    requires i < |xs| && j < |rows|
    ensures 0 <= i * |rows| + j < |Cross(xs, rows)| && Cross(xs, rows)[i * |rows| + j] == [xs[i]] + rows[j]
  {
    CrossHolds(xs[1..], rows, []);
    if i > 0 {
      CrossOrder(xs[1..], rows, i - 1, j);
      assert (i - 1) * |rows| + |rows| == i * |rows|;
    }
  }

  ghost predicate Picks(row: seq<real>, factors: seq<seq<real>>) {
    |row| == |factors| && forall i :: 0 <= i < |row| ==> row[i] in factors[i]
  }

  function Size(factors: seq<seq<real>>): nat {
    if factors == [] then 1 else |factors[0]| * Size(factors[1..])
  }

  /** A row belongs to the product exactly when it picks one value of each factor. */
  lemma {:induction false} ProductHolds(factors: seq<seq<real>>, row: seq<real>)
    ensures row in Product(factors) <==> Picks(row, factors)
    ensures |Product(factors)| == Size(factors)
  {
    if factors != [] {
      CrossHolds(factors[0], Product(factors[1..]), row);
      if row == [] {
        ProductHolds(factors[1..], row);
      } else {
        ProductHolds(factors[1..], row[1..]);
        assert row == [row[0]] + row[1..];
        if Picks(row[1..], factors[1..]) && row[0] in factors[0] {
          forall i | 0 <= i < |row| ensures row[i] in factors[i] {
            assert i > 0 ==> row[i] == row[1..][i - 1] && factors[i] == factors[1..][i - 1];
          }
        }
        if Picks(row, factors) {
          forall i | 0 <= i < |row[1..]| ensures row[1..][i] in factors[1..][i] {
            assert row[1..][i] == row[i + 1] && factors[1..][i] == factors[i + 1];
          }
        }
      }
    }
  }

  predicate Known(axes: seq<Axis>) {
    forall i :: 0 <= i < |axes| ==> !axes[i].Unknown?
  }

  /** `p` has the row's values on the listed axes and agrees with `base` elsewhere. */
  ghost predicate Agrees(p: Parameters, base: Parameters, axes: seq<Axis>, row: seq<real>) {
    && |row| == |axes| && Known(axes)
    && (forall i :: 0 <= i < |axes| ==> Get(p, axes[i]) == row[i])
    && forall a: Axis | !a.Unknown? && a !in axes :: Get(p, a) == Get(base, a)
  }

  lemma {:induction false} ReplaceAllAgrees(base: Parameters, axes: seq<Axis>, row: seq<real>)
    requires |row| == |axes| && Distinct(axes)
    ensures ReplaceAll(base, axes, row).Success? <==> Known(axes)
    ensures Known(axes) ==> Agrees(ReplaceAll(base, axes, row).value, base, axes, row)
    decreases |axes|
  {
    if axes != [] {
      ReplaceReplaces(base, axes[0], row[0]);
      assert axes == [axes[0]] + axes[1..];
      if !axes[0].Unknown? {
        var next := Replace(base, axes[0], row[0]).value;
        ReplaceAllAgrees(next, axes[1..], row[1..]);
        if Known(axes) {
          var p := ReplaceAll(base, axes, row).value;
          assert axes[0] !in axes[1..];
          forall i | 0 <= i < |axes| ensures Get(p, axes[i]) == row[i] {
            assert i > 0 ==> axes[i] == axes[1..][i - 1] && row[i] == row[1..][i - 1];
          }
          forall a: Axis | !a.Unknown? && a !in axes ensures Get(p, a) == Get(base, a) {
            assert a !in axes[1..];
          }
        }
      }
    }
  }

  /** On the grid: a listed value on each listed axis, the base value on every other. */
  ghost predicate OnGrid(p: Parameters, base: Parameters, grids: seq<AxisGrid>) {
    && (forall i :: 0 <= i < |grids| ==> !grids[i].axis.Unknown? && Get(p, grids[i].axis) in grids[i].values)
    && forall a: Axis | !a.Unknown? && a !in AxesOf(grids) :: Get(p, a) == Get(base, a)
  }

  lemma ProductRow(grids: seq<AxisGrid>, row: seq<real>)
    requires row in Product(ValuesOf(grids))
    ensures |row| == |grids| && forall i :: 0 <= i < |grids| ==> row[i] in grids[i].values
  {
    ProductHolds(ValuesOf(grids), row);
    assert forall i :: 0 <= i < |grids| ==> ValuesOf(grids)[i] == grids[i].values;
  }

  lemma GridHoldsOnly(base: Parameters, grids: seq<AxisGrid>, grid: seq<Parameters>, k: nat)
    requires Distinct(AxesOf(grids)) && ParameterGrid(base, grids) == Success(grid) && k < |grid|
    ensures OnGrid(grid[k], base, grids)
  {
    var rows := Product(ValuesOf(grids));
    TraverseIsPointwise(Replacer(base, AxesOf(grids)), rows);
    assert Replacer(base, AxesOf(grids))(rows[k]) == Success(grid[k]);
    ProductRow(grids, rows[k]);
    ReplaceAllAgrees(base, AxesOf(grids), rows[k]);
    forall i | 0 <= i < |grids| ensures !grids[i].axis.Unknown? && Get(grid[k], grids[i].axis) in grids[i].values {
      assert AxesOf(grids)[i] == grids[i].axis;
    }
  }

  lemma GridHoldsAll(base: Parameters, grids: seq<AxisGrid>, grid: seq<Parameters>, p: Parameters)
    requires Distinct(AxesOf(grids)) && ParameterGrid(base, grids) == Success(grid) && OnGrid(p, base, grids)
    ensures p in grid
  {
    var rows, axes := Product(ValuesOf(grids)), AxesOf(grids);
    var row := seq(|grids|, i requires 0 <= i < |grids| => Get(p, grids[i].axis));
    ProductHolds(ValuesOf(grids), row);
    assert Picks(row, ValuesOf(grids));
    var k :| 0 <= k < |rows| && rows[k] == row;
    TraverseIsPointwise(Replacer(base, axes), rows);
    assert Replacer(base, axes)(rows[k]) == Success(grid[k]);
    ReplaceAllAgrees(base, axes, row);
    forall a: Axis | !a.Unknown? ensures Get(p, a) == Get(grid[k], a) {
      if a in axes {
        var i :| 0 <= i < |axes| && axes[i] == a;
        assert Get(grid[k], axes[i]) == row[i];
      }
    }
    SameFields(p, grid[k]);
  }

  /** The parameter grid is every combination of the listed axis values, in number their product. */
  lemma GridIsTheProduct(base: Parameters, grids: seq<AxisGrid>)
    requires Distinct(AxesOf(grids)) && ParameterGrid(base, grids).Success?
    ensures var grid := ParameterGrid(base, grids).value;
            |grid| == Size(ValuesOf(grids)) && forall p :: p in grid <==> OnGrid(p, base, grids)
  {
    var grid := ParameterGrid(base, grids).value;
    TraverseIsPointwise(Replacer(base, AxesOf(grids)), Product(ValuesOf(grids)));
    ProductHolds(ValuesOf(grids), []);
    forall p ensures p in grid <==> OnGrid(p, base, grids) {
      if p in grid {
        var k :| 0 <= k < |grid| && grid[k] == p;
        GridHoldsOnly(base, grids, grid, k);
      }
      if OnGrid(p, base, grids) {
        GridHoldsAll(base, grids, grid, p);
      }
    }
  }

  // ---------- the summary ----------

  function Summaries(surfaces: seq<Surface>): Outcome<seq<SurfaceSummary>> {
    Traverse(SummarizeSurface, surfaces)
  }

  function BandFor(s: SurfaceSummary, metric: Metric): Band {
    match metric
    case TransitionChannel => s.transition
    case Compatibility => s.compatibility
    case AftermathBalance => s.aftermath
  }

  function SurfaceSpans(summaries: seq<SurfaceSummary>, metric: Metric): seq<real> {
    seq(|summaries|, i requires 0 <= i < |summaries| => BandFor(summaries[i], metric).span)
  }

  /** The report's own numbers, given the spans of its surfaces. */
  function OwnSummary(
    report: RobustnessReport, transition: seq<real>, compatibility: seq<real>, aftermath: seq<real>): map<Key, real>
    requires transition != [] && compatibility != [] && aftermath != []
  {
    map[
      GridSize := |report.parameterGrid| as real,
      AxisCount := |report.axes| as real,
      SurfaceCount := |report.surfaces| as real,
      MaxSurfaceSpan(TransitionChannel) := Max(transition),
      MaxSurfaceSpan(Compatibility) := Max(compatibility),
      MaxSurfaceSpan(AftermathBalance) := Max(aftermath),
      SurfaceSpanCenter(TransitionChannel) := Mean(transition),
      SurfaceSpanCenter(Compatibility) := Mean(compatibility),
      SurfaceSpanCenter(AftermathBalance) := Mean(aftermath)]
  }

  /** The report's own numbers, then those of its sensitivity part. */
  function SummaryOf(report: RobustnessReport): Outcome<map<Key, real>> {
    var sensitivity :- SummarizeSensitivity(report.sensitivity);
    if report.surfaces == [] then Failure(Invalid)
    else
      var summaries :- Summaries(report.surfaces);
      TraverseIsPointwise(SummarizeSurface, report.surfaces);
      Success(OwnSummary(
                report, SurfaceSpans(summaries, TransitionChannel), SurfaceSpans(summaries, Compatibility),
                SurfaceSpans(summaries, AftermathBalance)) + sensitivity)
  }

  ghost predicate SpansSoFar(
    summaries: seq<SurfaceSummary>, transition: seq<real>, compatibility: seq<real>, aftermath: seq<real>)
  {
    && transition == SurfaceSpans(summaries, TransitionChannel)
    && compatibility == SurfaceSpans(summaries, Compatibility)
    && aftermath == SurfaceSpans(summaries, AftermathBalance)
  }

  lemma SpansNext(
    summaries: seq<SurfaceSummary>, transition: seq<real>, compatibility: seq<real>, aftermath: seq<real>,
    s: SurfaceSummary)
    requires SpansSoFar(summaries, transition, compatibility, aftermath)
    ensures SpansSoFar(
              summaries + [s], transition + [s.transition.span], compatibility + [s.compatibility.span],
              aftermath + [s.aftermath.span])
  {
  }

  lemma SummariesNext(surfaces: seq<Surface>, i: nat)
    requires i < |surfaces| && Summaries(surfaces[..i]).Success? && SummarizeSurface(surfaces[i]).Success?
    ensures Summaries(surfaces[..i + 1])
         == Success(Summaries(surfaces[..i]).value + [SummarizeSurface(surfaces[i]).value])
  {
    assert surfaces[..i + 1][..i] == surfaces[..i];
  }

  method SummarizeRobustnessReport(report: RobustnessReport) returns (summary: Outcome<map<Key, real>>)
    ensures summary == SummaryOf(report)
  {
    var sensitivity := SummarizeSensitivity(report.sensitivity);
    if sensitivity.Failure? {
      return Failure(sensitivity.error);
    }
    if report.surfaces == [] {
      return Failure(Invalid);
    }
    ghost var summaries: seq<SurfaceSummary> := [];
    var transitionSpans: seq<real>, compatibilitySpans: seq<real>, aftermathSpans: seq<real> := [], [], [];
    for i := 0 to |report.surfaces|
      invariant Summaries(report.surfaces[..i]) == Success(summaries) && |summaries| == i
      invariant SpansSoFar(summaries, transitionSpans, compatibilitySpans, aftermathSpans)
    {
      var s := SummarizeSurface(report.surfaces[i]);
      if s.Failure? {
        FirstFailure(SummarizeSurface, report.surfaces, i);
        return Failure(s.error);
      }
      SummariesNext(report.surfaces, i);
      SpansNext(summaries, transitionSpans, compatibilitySpans, aftermathSpans, s.value);
      transitionSpans := transitionSpans + [s.value.transition.span];
      compatibilitySpans := compatibilitySpans + [s.value.compatibility.span];
      aftermathSpans := aftermathSpans + [s.value.aftermath.span];
      summaries := summaries + [s.value];
    }
    assert report.surfaces[..|report.surfaces|] == report.surfaces;
    summary := Success(OwnSummary(report, transitionSpans, compatibilitySpans, aftermathSpans) + sensitivity.value);
  }

  /** What the report itself contributes of a metric. */
  ghost predicate OwnShows(own: map<Key, real>, report: RobustnessReport, spans: seq<real>, metric: Metric) {
    && spans != []
    && Holds(own, MaxSurfaceSpan(metric), Max(spans)) && Holds(own, SurfaceSpanCenter(metric), Mean(spans))
    && Holds(own, AxisCount, |report.axes| as real) && Holds(own, SurfaceCount, |report.surfaces| as real)
  }

  /** What the sensitivity part contributes of a metric, and that it contributes nothing under other names. */
  ghost predicate SensitivityShows(s: map<Key, real>, report: SensitivityReport, metric: Metric) {
    && report.snapshots != [] && Holds(s, GridSize, |report.snapshots| as real)
    && Holds(s, MaxTransitionSpan, report.maxTransitionSpan)
    && Holds(s, Center(metric), Mean(Column(report.snapshots, metric)))
    && forall key :: key in s ==> key.GridSize? || key.MaxTransitionSpan? || key.Center? || key.MeanSpan?
  }

  ghost predicate Holds(summary: map<Key, real>, key: Key, value: real) {
    key in summary && summary[key] == value
  }

  lemma OwnEntries(
    report: RobustnessReport, transition: seq<real>, compatibility: seq<real>, aftermath: seq<real>, metric: Metric)
    requires transition != [] && compatibility != [] && aftermath != []
    ensures OwnShows(
              OwnSummary(report, transition, compatibility, aftermath), report,
              match metric
              case TransitionChannel => transition
              case Compatibility => compatibility
              case AftermathBalance => aftermath,
              metric)
  {
  }

  lemma SensitivityEntries(report: SensitivityReport, metric: Metric)
    requires SummarizeSensitivity(report).Success?
    requires forall key :: key in report.metricSpans ==> key.MeanSpan?
    ensures SensitivityShows(SummarizeSensitivity(report).value, report, metric)
  {
  }

  /** What the summary says of a metric: the largest of its surface spans, their mean, and its mean on the grid. */
  ghost predicate Shows(
    summary: map<Key, real>, report: RobustnessReport, summaries: seq<SurfaceSummary>, metric: Metric)
  {
    var spans := SurfaceSpans(summaries, metric);
    && spans != [] && report.sensitivity.snapshots != []
    && Holds(summary, MaxSurfaceSpan(metric), Max(spans))
    && Holds(summary, SurfaceSpanCenter(metric), Mean(spans))
    && Holds(summary, Center(metric), Mean(Column(report.sensitivity.snapshots, metric)))
  }

  lemma SummaryIsMerged(report: RobustnessReport)
    requires SummaryOf(report).Success?
    ensures SummarizeSensitivity(report.sensitivity).Success? && Summaries(report.surfaces).Success?
    ensures var summaries := Summaries(report.surfaces).value;
            && |summaries| == |report.surfaces| > 0
            && SummaryOf(report).value
               == OwnSummary(
                    report, SurfaceSpans(summaries, TransitionChannel), SurfaceSpans(summaries, Compatibility),
                    SurfaceSpans(summaries, AftermathBalance)) + SummarizeSensitivity(report.sensitivity).value
  {
    TraverseIsPointwise(SummarizeSurface, report.surfaces);
  }

  /** What the joint summary holds under each name; the grid size is that of the sensitivity part. */
  lemma SummaryEntries(report: RobustnessReport, metric: Metric)
    requires SummaryOf(report).Success?
    requires forall key :: key in report.sensitivity.metricSpans ==> key.MeanSpan?
    ensures var s := SummaryOf(report).value;
            && Summaries(report.surfaces).Success? && Shows(s, report, Summaries(report.surfaces).value, metric)
            && Holds(s, AxisCount, |report.axes| as real) && Holds(s, SurfaceCount, |report.surfaces| as real)
            && Holds(s, GridSize, |report.sensitivity.snapshots| as real)
            && Holds(s, MaxTransitionSpan, report.sensitivity.maxTransitionSpan)
  {
    SummaryIsMerged(report);
    var summaries := Summaries(report.surfaces).value;
    SensitivityEntries(report.sensitivity, metric);
    var t, c, a := SurfaceSpans(summaries, TransitionChannel), SurfaceSpans(summaries, Compatibility),
                   SurfaceSpans(summaries, AftermathBalance);
    OwnEntries(report, t, c, a, metric);
    MergedEntries(
      OwnSummary(report, t, c, a), SummarizeSensitivity(report.sensitivity).value, report, summaries, metric);
  }

  lemma MergedEntries(
    own: map<Key, real>, sensitivity: map<Key, real>, report: RobustnessReport, summaries: seq<SurfaceSummary>,
    metric: Metric)
    requires OwnShows(own, report, SurfaceSpans(summaries, metric), metric)
    requires SensitivityShows(sensitivity, report.sensitivity, metric)
    ensures var s := own + sensitivity;
            && Shows(s, report, summaries, metric)
            && Holds(s, AxisCount, |report.axes| as real) && Holds(s, SurfaceCount, |report.surfaces| as real)
            && Holds(s, GridSize, |report.sensitivity.snapshots| as real)
            && Holds(s, MaxTransitionSpan, report.sensitivity.maxTransitionSpan)
  {
  }
}
