/** When the one-axis surfaces lie inside the Cartesian grid, and what then bounds what. */
module Embedding {
  import opened Common
  import opened Evaluation
  import opened Robustness
  import opened Sensitivity
  import opened Statistics
  import opened Surfaces

  // ---------- what an evaluated report shows ----------

  ghost predicate Evaluated(
    engine: Engine, packs: seq<Pack>, base: Parameters, grids: seq<AxisGrid>, report: RobustnessReport)
  {
    Distinct(AxesOf(grids)) && RobustnessOf(engine, packs, base, grids) == Success(report)
  }

  ghost predicate Surveyed(engine: Engine, packs: seq<Pack>, base: Parameters, grid: AxisGrid, surface: Surface) {
    && surface.axis == grid.axis && !grid.axis.Unknown?
    && |surface.points| == |grid.values| > 0
    && forall k :: 0 <= k < |surface.points| ==>
                     PointShows(engine, packs, base, grid.axis, grid.values[k], surface.points[k])
  }

  lemma EvaluatedSurfaces(
    engine: Engine, packs: seq<Pack>, base: Parameters, grids: seq<AxisGrid>, report: RobustnessReport, i: nat)
    requires Evaluated(engine, packs, base, grids, report)
    ensures |report.surfaces| == |grids| > 0
    ensures i < |grids| ==> Surveyed(engine, packs, base, grids[i], report.surfaces[i])
  {
    TraverseIsPointwise(SurfaceMaker(engine, packs, base), grids);
    if i < |grids| {
      assert SurfaceOf(engine, packs, base, grids[i]) == Success(report.surfaces[i]);
      SurfacePoints(engine, packs, base, grids[i]);
    }
  }

  lemma EvaluatedSnapshots(
    engine: Engine, packs: seq<Pack>, base: Parameters, grids: seq<AxisGrid>, report: RobustnessReport)
    requires Evaluated(engine, packs, base, grids, report)
    ensures var snapshots := report.sensitivity.snapshots;
            && ParameterGrid(base, grids) == Success(report.parameterGrid)
            && |snapshots| == |report.parameterGrid| > 0 && Shaped(snapshots, |packs|)
            && report.sensitivity.metricSpans == MetricSpans(snapshots, METRICS)
            && report.sensitivity.maxTransitionSpan == LargestScenarioSpan(snapshots, |packs|)
    ensures forall i :: 0 <= i < |report.parameterGrid| ==>
                          SnapshotAt(engine, packs, report.parameterGrid[i]) == Success(report.sensitivity.snapshots[i])
  {
    SnapshotsFromGrid(engine, packs, report.parameterGrid, report.sensitivity.snapshots);
  }

  ghost predicate HasKeys(summary: map<Key, real>) {
    && MaxTransitionSpan in summary
    && forall metric: Metric :: MeanSpan(metric) in summary && MaxSurfaceSpan(metric) in summary
  }

  ghost predicate Pointed(surfaces: seq<Surface>) {
    forall i :: 0 <= i < |surfaces| ==> surfaces[i].points != []
  }

  function SpansOver(surfaces: seq<Surface>, metric: Metric): seq<real>
    requires Pointed(surfaces)
  {
    seq(|surfaces|, i requires 0 <= i < |surfaces| => Span(PointColumn(surfaces[i].points, metric)))
  }

  /** The numbers of the summary, in terms of the snapshots and the surfaces. */
  ghost predicate Reads(report: RobustnessReport, scenarios: nat, summary: map<Key, real>) {
    && HasKeys(summary)
    && report.sensitivity.snapshots != [] && Rectangular(report.sensitivity.snapshots, scenarios)
    && report.surfaces != [] && Pointed(report.surfaces)
    && summary[MaxTransitionSpan] == LargestScenarioSpan(report.sensitivity.snapshots, scenarios)
    && forall metric: Metric ::
         && summary[MeanSpan(metric)] == Span(Column(report.sensitivity.snapshots, metric))
         && summary[MaxSurfaceSpan(metric)] == Max(SpansOver(report.surfaces, metric))
  }

  lemma SummariesShowSpans(surfaces: seq<Surface>, metric: Metric)
    requires Pointed(surfaces)
    ensures Summaries(surfaces).Success? && |Summaries(surfaces).value| == |surfaces|
    ensures SurfaceSpans(Summaries(surfaces).value, metric) == SpansOver(surfaces, metric)
  {
    TraverseIsPointwise(SummarizeSurface, surfaces);
    var spans := SurfaceSpans(Summaries(surfaces).value, metric);
    forall i | 0 <= i < |surfaces| ensures spans[i] == SpansOver(surfaces, metric)[i] {
      assert SummarizeSurface(surfaces[i]) == Success(Summaries(surfaces).value[i]);
    }
  }

  lemma EvaluatedIsPointed(
    engine: Engine, packs: seq<Pack>, base: Parameters, grids: seq<AxisGrid>, report: RobustnessReport)
    requires Evaluated(engine, packs, base, grids, report)
    ensures report.surfaces != [] && Pointed(report.surfaces)
  {
    EvaluatedSurfaces(engine, packs, base, grids, report, 0);
    forall i | 0 <= i < |report.surfaces| ensures report.surfaces[i].points != [] {
      EvaluatedSurfaces(engine, packs, base, grids, report, i);
    }
  }

  lemma OwnSummaryReads(
    report: RobustnessReport, summaries: seq<SurfaceSummary>, sensitivity: map<Key, real>, metric: Metric)
    requires summaries != [] && MaxSurfaceSpan(metric) !in sensitivity
    ensures var summary := OwnSummary(
                             report, SurfaceSpans(summaries, TransitionChannel), SurfaceSpans(summaries, Compatibility),
                             SurfaceSpans(summaries, AftermathBalance)) + sensitivity;
            && MaxSurfaceSpan(metric) in summary
            && summary[MaxSurfaceSpan(metric)] == Max(SurfaceSpans(summaries, metric))
  {
  }

  lemma SensitivityReads(report: SensitivityReport, metric: Metric)
    requires report.snapshots != [] && report.metricSpans == MetricSpans(report.snapshots, METRICS)
    ensures var summary := SummarizeSensitivity(report).value;
            && MaxTransitionSpan in summary && summary[MaxTransitionSpan] == report.maxTransitionSpan
            && MeanSpan(metric) in summary && summary[MeanSpan(metric)] == Span(Column(report.snapshots, metric))
            && MaxSurfaceSpan(metric) !in summary
  {
    MetricSpansAre(report.snapshots, METRICS);
    assert METRICS[0] in METRICS && METRICS[1] in METRICS && METRICS[2] in METRICS;
  }

  lemma SummaryReads(
    engine: Engine, packs: seq<Pack>, base: Parameters, grids: seq<AxisGrid>, report: RobustnessReport)
    requires Evaluated(engine, packs, base, grids, report)
    ensures SummaryOf(report).Success? && Reads(report, |packs|, SummaryOf(report).value)
  {
    EvaluatedSnapshots(engine, packs, base, grids, report);
    EvaluatedIsPointed(engine, packs, base, grids, report);
    var snapshots := report.sensitivity.snapshots;
    SummariesShowSpans(report.surfaces, TransitionChannel);
    var summary := SummaryOf(report).value;
    SensitivityReads(report.sensitivity, TransitionChannel);
    forall metric: Metric
      ensures MeanSpan(metric) in summary && MaxSurfaceSpan(metric) in summary
      ensures summary[MeanSpan(metric)] == Span(Column(snapshots, metric))
      ensures summary[MaxSurfaceSpan(metric)] == Max(SpansOver(report.surfaces, metric))
    {
      SummariesShowSpans(report.surfaces, metric);
      SensitivityReads(report.sensitivity, metric);
      OwnSummaryReads(
        report, Summaries(report.surfaces).value, SummarizeSensitivity(report.sensitivity).value, metric);
    }
  }

  // ---------- the surfaces inside the grid ----------

  /** The base parameters lie on every listed axis but the i-th. */
  ghost predicate OnOtherAxes(base: Parameters, grids: seq<AxisGrid>, i: nat) {
    forall j :: 0 <= j < |grids| && j != i && !grids[j].axis.Unknown? ==>
                  Get(base, grids[j].axis) in grids[j].values
  }

  predicate Constant(s: seq<real>) {
    forall i, j :: 0 <= i < j < |s| ==> s[i] == s[j]
  }

  /** Every axis that offers two different values finds the base parameters on all the other axes. */
  ghost predicate BaseCovers(base: Parameters, grids: seq<AxisGrid>) {
    forall i :: 0 <= i < |grids| ==> Constant(grids[i].values) || OnOtherAxes(base, grids, i)
  }

  lemma SurfacePointOnGrid(base: Parameters, grids: seq<AxisGrid>, i: nat, k: nat, p: Parameters)
    requires Distinct(AxesOf(grids)) && Known(AxesOf(grids)) && i < |grids| && k < |grids[i].values|
    requires Replace(base, grids[i].axis, grids[i].values[k]) == Success(p)
    ensures OnGrid(p, base, grids) <==> OnOtherAxes(base, grids, i)
  {
    var axes := AxesOf(grids);
    assert axes[i] == grids[i].axis;
    ReplaceReplaces(base, grids[i].axis, grids[i].values[k]);
    assert forall j :: 0 <= j < |grids| && j != i ==> axes[j] == grids[j].axis != axes[i] && !axes[j].Unknown?;
    assert forall j :: 0 <= j < |grids| && j != i ==> Get(p, grids[j].axis) == Get(base, grids[j].axis);
    assert Get(p, grids[i].axis) == grids[i].values[k];
  }

  /** If the i-th surface lies inside the grid, it spreads no metric further than the grid does. */
  lemma SurfaceSpreadsNoFurther(
    engine: Engine, packs: seq<Pack>, base: Parameters, grids: seq<AxisGrid>, report: RobustnessReport, i: nat,
    metric: Metric)
    requires Evaluated(engine, packs, base, grids, report) && i < |grids| && OnOtherAxes(base, grids, i)
    requires i < |report.surfaces| && report.surfaces[i].points != [] && report.sensitivity.snapshots != []
    ensures Span(PointColumn(report.surfaces[i].points, metric)) <= Span(Column(report.sensitivity.snapshots, metric))
  {
    EvaluatedSurfaces(engine, packs, base, grids, report, i);
    EvaluatedSnapshots(engine, packs, base, grids, report);
    GridIsTheProduct(base, grids);
    GridKnown(base, grids);
    var points, grid := report.surfaces[i].points, report.parameterGrid;
    var column := Column(report.sensitivity.snapshots, metric);
    forall x | x in PointColumn(points, metric) ensures x in column {
      var k :| 0 <= k < |points| && Of(points[k].summary, metric) == x;
      SurfacePointOnGrid(base, grids, i, k, points[k].parameters);
      var g :| 0 <= g < |grid| && grid[g] == points[k].parameters;
      assert column[g] == x;
    }
    SpanOfSubset(PointColumn(points, metric), column);
  }

  lemma GridKnown(base: Parameters, grids: seq<AxisGrid>)
    requires Distinct(AxesOf(grids)) && ParameterGrid(base, grids).Success? && ParameterGrid(base, grids).value != []
    ensures Known(AxesOf(grids))
  {
    GridHoldsOnly(base, grids, ParameterGrid(base, grids).value, 0);
  }

  lemma ConstantSurface(
    engine: Engine, packs: seq<Pack>, base: Parameters, grid: AxisGrid, surface: Surface, metric: Metric)
    requires Surveyed(engine, packs, base, grid, surface) && Constant(grid.values)
    ensures Span(PointColumn(surface.points, metric)) == 0.0
  {
    var column := PointColumn(surface.points, metric);
    forall k | 0 <= k < |column| ensures column[k] == column[0] {
      assert grid.values[k] == grid.values[0];
      assert PointShows(engine, packs, base, grid.axis, grid.values[k], surface.points[k]);
      assert PointShows(engine, packs, base, grid.axis, grid.values[0], surface.points[0]);
    }
    SpanWithin(column, column[0], column[0]);
  }

  /** The two inequalities that tie the surfaces, the grid means and the single scenarios together. */
  ghost predicate Embeds(summary: map<Key, real>)
    requires HasKeys(summary)
  {
    && summary[MaxSurfaceSpan(TransitionChannel)] <= summary[MeanSpan(TransitionChannel)] <= summary[MaxTransitionSpan]
    && summary[MaxSurfaceSpan(Compatibility)] <= summary[MeanSpan(Compatibility)]
    && summary[MaxSurfaceSpan(AftermathBalance)] <= summary[MeanSpan(AftermathBalance)]
  }

  lemma LargestSurfaceEmbeds(
    engine: Engine, packs: seq<Pack>, base: Parameters, grids: seq<AxisGrid>, report: RobustnessReport,
    metric: Metric)
    requires Evaluated(engine, packs, base, grids, report) && BaseCovers(base, grids)
    requires report.surfaces != [] && Pointed(report.surfaces) && report.sensitivity.snapshots != []
    ensures Max(SpansOver(report.surfaces, metric)) <= Span(Column(report.sensitivity.snapshots, metric))
  {
    var spans := SpansOver(report.surfaces, metric);
    var i :| 0 <= i < |spans| && spans[i] == Max(spans);
    EvaluatedSurfaces(engine, packs, base, grids, report, i);
    if Constant(grids[i].values) {
      ConstantSurface(engine, packs, base, grids[i], report.surfaces[i], metric);
    } else {
      SurfaceSpreadsNoFurther(engine, packs, base, grids, report, i, metric);
    }
  }

  /** For every engine: once the base parameters cover the grid, no surface spreads further than the grid. */
  lemma SurfaceSpansEmbed(
    engine: Engine, packs: seq<Pack>, base: Parameters, grids: seq<AxisGrid>, report: RobustnessReport)
    requires Evaluated(engine, packs, base, grids, report) && BaseCovers(base, grids)
    ensures SummaryOf(report).Success? && HasKeys(SummaryOf(report).value) && Embeds(SummaryOf(report).value)
  {
    SummaryReads(engine, packs, base, grids, report);
    EvaluatedSnapshots(engine, packs, base, grids, report);
    MeanSpreadsNoFurther(report.sensitivity.snapshots, |packs|);
    LargestSurfaceEmbeds(engine, packs, base, grids, report, TransitionChannel);
    LargestSurfaceEmbeds(engine, packs, base, grids, report, Compatibility);
    LargestSurfaceEmbeds(engine, packs, base, grids, report, AftermathBalance);
  }

  /** The upper bound needs nothing of the base parameters. */
  lemma MeanSpanIsBounded(
    engine: Engine, packs: seq<Pack>, base: Parameters, grids: seq<AxisGrid>, report: RobustnessReport)
    requires Evaluated(engine, packs, base, grids, report)
    ensures SummaryOf(report).Success? && HasKeys(SummaryOf(report).value)
    ensures SummaryOf(report).value[MeanSpan(TransitionChannel)] <= SummaryOf(report).value[MaxTransitionSpan]
  {
    SummaryReads(engine, packs, base, grids, report);
    EvaluatedSnapshots(engine, packs, base, grids, report);
    MeanSpreadsNoFurther(report.sensitivity.snapshots, |packs|);
  }

  // ---------- the condition is exact ----------

  predicate ValidAt(axis: Axis, x: real) {
    match axis
    case LockThreshold => Unit(x)
    case LockGateMax => Unit(x)
    case Unknown(_) => false
    case _ => x >= 0.0
  }

  /** Inputs that validation lets through on the grid and on the surfaces. */
  ghost predicate Admissible(packs: seq<Pack>, base: Parameters, grids: seq<AxisGrid>) {
    && packs != [] && (forall i :: 0 <= i < |packs| ==> ValidPack(packs[i]))
    && ValidParameters(base)
    && grids != [] && Distinct(AxesOf(grids))
    && forall i :: 0 <= i < |grids| ==>
                     && grids[i].values != []
                     && forall k :: 0 <= k < |grids[i].values| ==> ValidAt(grids[i].axis, grids[i].values[k])
  }

  lemma ValidEverywhere(p: Parameters)
    requires forall a: Axis | !a.Unknown? :: ValidAt(a, Get(p, a))
    ensures ValidParameters(p)
  {
    assert ValidAt(Lam, Get(p, Lam)) && ValidAt(Omega, Get(p, Omega)) && ValidAt(Mu, Get(p, Mu));
    assert ValidAt(LockThreshold, Get(p, LockThreshold)) && ValidAt(LockGateMax, Get(p, LockGateMax));
    assert ValidAt(LogisticK, Get(p, LogisticK));
  }

  lemma GridParametersValid(packs: seq<Pack>, base: Parameters, grids: seq<AxisGrid>, p: Parameters)
    requires Admissible(packs, base, grids) && OnGrid(p, base, grids)
    ensures ValidParameters(p)
  {
    forall a: Axis | !a.Unknown? ensures ValidAt(a, Get(p, a)) {
      if a in AxesOf(grids) {
        var i :| 0 <= i < |grids| && AxesOf(grids)[i] == a;
        var k :| 0 <= k < |grids[i].values| && grids[i].values[k] == Get(p, a);
      } else {
        assert Get(p, a) == Get(base, a);
      }
    }
    ValidEverywhere(p);
  }

  function FlatReport(transition: real): Report {
    Report(0.0, 0.0, 0.0, LockState(false, 0.0, 0.0), 0.0, 0.0, transition, 0.0, 0.0, 0.0, None, None, None, None)
  }

  function Height(spike: Parameters, p: Parameters): real {
    if p == spike then 1.0 else 0.0
  }

  /** An engine that sees a single choice of parameters and nothing else. */
  function Spike(spike: Parameters): Engine {
    (t: Transition, p: Parameters) => Success(FlatReport(Height(spike, p)))
  }

  lemma SpikePack(spike: Parameters, pack: Pack, p: Parameters)
    requires ValidPack(pack) && ValidParameters(p)
    ensures var r := EvaluatePack(Spike(spike), pack, p);
            r.Success? && r.value.summary.transition == Height(spike, p)
  {
    var engine, h := Spike(spike), Height(spike, p);
    TraverseIsPointwise(Evaluator(engine, p), pack.transitions);
    forall i | 0 <= i < |pack.transitions|
      ensures Evaluator(engine, p)(pack.transitions[i]) == Success(FlatReport(h))
    {
      assert EvaluateTransition(engine, pack.transitions[i], p) == Success(FlatReport(h));
    }
    var reports := EvaluateBatch(engine, pack.transitions, p).value;
    MeanWithin(TransitionChannels(reports), h, h);
  }

  lemma SpikeSnapshot(spike: Parameters, packs: seq<Pack>, p: Parameters)
    requires packs != [] && (forall i :: 0 <= i < |packs| ==> ValidPack(packs[i])) && ValidParameters(p)
    ensures SnapshotAt(Spike(spike), packs, p).Success?
    ensures SnapshotAt(Spike(spike), packs, p).value.summary.transition == Height(spike, p)
  {
    var make, h := PackEvaluator(Spike(spike), p), Height(spike, p);
    TraverseIsPointwise(make, packs);
    forall i | 0 <= i < |packs| ensures make(packs[i]).Success? && make(packs[i]).value.summary.transition == h {
      SpikePack(spike, packs[i], p);
    }
    var results := EvaluatePacks(Spike(spike), packs, p).value;
    MeanWithin(TransitionMeans(results), h, h);
  }

  lemma AdmissibleGrid(packs: seq<Pack>, base: Parameters, grids: seq<AxisGrid>)
    requires Admissible(packs, base, grids)
    ensures Known(AxesOf(grids)) && ParameterGrid(base, grids).Success? && ParameterGrid(base, grids).value != []
    ensures forall i :: 0 <= i < |ParameterGrid(base, grids).value| ==>
                          ValidParameters(ParameterGrid(base, grids).value[i])
  {
    var axes, rows := AxesOf(grids), Product(ValuesOf(grids));
    forall i | 0 <= i < |grids| ensures !axes[i].Unknown? {
      assert ValidAt(grids[i].axis, grids[i].values[0]);
    }
    forall k | 0 <= k < |rows| ensures Replacer(base, axes)(rows[k]).Success? {
      ProductRow(grids, rows[k]);
      ReplaceAllAgrees(base, axes, rows[k]);
    }
    TraverseIsPointwise(Replacer(base, axes), rows);
    var first := seq(|grids|, i requires 0 <= i < |grids| => grids[i].values[0]);
    ProductHolds(ValuesOf(grids), first);
    assert Picks(first, ValuesOf(grids));
    var grid := ParameterGrid(base, grids).value;
    forall i | 0 <= i < |grid| ensures ValidParameters(grid[i]) {
      GridHoldsOnly(base, grids, grid, i);
      GridParametersValid(packs, base, grids, grid[i]);
    }
  }

  lemma SurfaceParametersValid(
    packs: seq<Pack>, base: Parameters, grids: seq<AxisGrid>, i: nat, k: nat, p: Parameters)
    requires Admissible(packs, base, grids) && i < |grids| && k < |grids[i].values|
    requires Replace(base, grids[i].axis, grids[i].values[k]) == Success(p)
    ensures ValidParameters(p)
  {
    assert ValidAt(grids[i].axis, grids[i].values[k]);
    ReplaceReplaces(base, grids[i].axis, grids[i].values[k]);
    forall a: Axis | !a.Unknown? ensures ValidAt(a, Get(p, a)) {
    }
    ValidEverywhere(p);
  }

  lemma SpikeSurface(spike: Parameters, packs: seq<Pack>, base: Parameters, grids: seq<AxisGrid>, i: nat)
    requires Admissible(packs, base, grids) && i < |grids|
    ensures SurfaceOf(Spike(spike), packs, base, grids[i]).Success?
  {
    AdmissibleGrid(packs, base, grids);
    assert AxesOf(grids)[i] == grids[i].axis;
    var make := PointMaker(Spike(spike), packs, base, grids[i].axis);
    forall k | 0 <= k < |grids[i].values| ensures make(grids[i].values[k]).Success? {
      var p := Replace(base, grids[i].axis, grids[i].values[k]).value;
      SurfaceParametersValid(packs, base, grids, i, k, p);
      SpikeSnapshot(spike, packs, p);
    }
    TraverseIsPointwise(make, grids[i].values);
  }

  lemma SpikeReport(spike: Parameters, packs: seq<Pack>, base: Parameters, grids: seq<AxisGrid>)
    requires Admissible(packs, base, grids)
    ensures RobustnessOf(Spike(spike), packs, base, grids).Success?
  {
    AdmissibleGrid(packs, base, grids);
    var grid := ParameterGrid(base, grids).value;
    forall g | 0 <= g < |grid| ensures SnapshotMaker(Spike(spike), packs)(grid[g]).Success? {
      SpikeSnapshot(spike, packs, grid[g]);
    }
    TraverseIsPointwise(SnapshotMaker(Spike(spike), packs), grid);
    forall i | 0 <= i < |grids| ensures SurfaceMaker(Spike(spike), packs, base)(grids[i]).Success? {
      SpikeSurface(spike, packs, base, grids, i);
    }
    TraverseIsPointwise(SurfaceMaker(Spike(spike), packs, base), grids);
  }

  /** Off the grid the spike is seen by a surface and missed by every snapshot. */
  lemma SpikeOffGrid(
    packs: seq<Pack>, base: Parameters, grids: seq<AxisGrid>, i: nat, k: nat, m: nat, spike: Parameters,
    report: RobustnessReport)
    requires Admissible(packs, base, grids) && i < |grids| && !OnOtherAxes(base, grids, i)
    requires k < |grids[i].values| && m < |grids[i].values| && grids[i].values[k] != grids[i].values[m]
    requires Replace(base, grids[i].axis, grids[i].values[k]) == Success(spike)
    requires Evaluated(Spike(spike), packs, base, grids, report)
    requires report.surfaces != [] && Pointed(report.surfaces) && report.sensitivity.snapshots != []
    ensures Span(Column(report.sensitivity.snapshots, TransitionChannel)) == 0.0
    ensures Max(SpansOver(report.surfaces, TransitionChannel)) >= 1.0
  {
    AdmissibleGrid(packs, base, grids);
    EvaluatedSnapshots(Spike(spike), packs, base, grids, report);
    EvaluatedSurfaces(Spike(spike), packs, base, grids, report, i);
    SurfacePointOnGrid(base, grids, i, k, spike);
    var grid, column := report.parameterGrid, Column(report.sensitivity.snapshots, TransitionChannel);
    forall g | 0 <= g < |grid| ensures column[g] == 0.0 {
      GridHoldsOnly(base, grids, grid, g);
      SpikeSnapshot(spike, packs, grid[g]);
    }
    SpanWithin(column, 0.0, 0.0);
    SpikeOnSurface(packs, base, grids, i, k, m, spike, report.surfaces[i]);
    assert SpansOver(report.surfaces, TransitionChannel)[i] in SpansOver(report.surfaces, TransitionChannel);
  }

  lemma SpikeOnSurface(
    packs: seq<Pack>, base: Parameters, grids: seq<AxisGrid>, i: nat, k: nat, m: nat, spike: Parameters,
    surface: Surface)
    requires Admissible(packs, base, grids) && i < |grids|
    requires k < |grids[i].values| && m < |grids[i].values| && grids[i].values[k] != grids[i].values[m]
    requires Replace(base, grids[i].axis, grids[i].values[k]) == Success(spike)
    requires Surveyed(Spike(spike), packs, base, grids[i], surface)
    ensures Span(PointColumn(surface.points, TransitionChannel)) >= 1.0
  {
    var points, column := surface.points, PointColumn(surface.points, TransitionChannel);
    assert PointShows(Spike(spike), packs, base, grids[i].axis, grids[i].values[k], points[k]);
    assert PointShows(Spike(spike), packs, base, grids[i].axis, grids[i].values[m], points[m]);
    ReplaceReplaces(base, grids[i].axis, grids[i].values[k]);
    ReplaceReplaces(base, grids[i].axis, grids[i].values[m]);
    assert Get(spike, grids[i].axis) != Get(points[m].parameters, grids[i].axis);
    SurfaceParametersValid(packs, base, grids, i, k, spike);
    SurfaceParametersValid(packs, base, grids, i, m, points[m].parameters);
    SpikeSnapshot(spike, packs, spike);
    SpikeSnapshot(spike, packs, points[m].parameters);
    assert column[k] == 1.0 && column[m] == 0.0;
    DistanceIsAtMostSpan(column, column[k], column[m]);
  }

  ghost predicate EmbedsFor(engine: Engine, packs: seq<Pack>, base: Parameters, grids: seq<AxisGrid>) {
    RobustnessOf(engine, packs, base, grids).Success? ==>
      var summary := SummaryOf(RobustnessOf(engine, packs, base, grids).value);
      summary.Success? && HasKeys(summary.value) && Embeds(summary.value)
  }

  lemma SomeEngineEscapes(packs: seq<Pack>, base: Parameters, grids: seq<AxisGrid>) returns (engine: Engine)
    requires Admissible(packs, base, grids) && !BaseCovers(base, grids)
    ensures !EmbedsFor(engine, packs, base, grids)
  {
    var i :| 0 <= i < |grids| && !Constant(grids[i].values) && !OnOtherAxes(base, grids, i);
    var k, m :| 0 <= k < m < |grids[i].values| && grids[i].values[k] != grids[i].values[m];
    AdmissibleGrid(packs, base, grids);
    assert AxesOf(grids)[i] == grids[i].axis;
    var spike := Replace(base, grids[i].axis, grids[i].values[k]).value;
    engine := Spike(spike);
    SpikeReport(spike, packs, base, grids);
    var report := RobustnessOf(engine, packs, base, grids).value;
    SummaryReads(engine, packs, base, grids, report);
    SpikeOffGrid(packs, base, grids, i, k, m, spike, report);
  }

  /** The surface inequalities hold whatever the engine does exactly when the base parameters cover the grid. */
  lemma EmbeddingIsExact(packs: seq<Pack>, base: Parameters, grids: seq<AxisGrid>)
    requires Admissible(packs, base, grids)
    ensures BaseCovers(base, grids) <==> forall engine: Engine :: EmbedsFor(engine, packs, base, grids)
  {
    if BaseCovers(base, grids) {
      forall engine: Engine ensures EmbedsFor(engine, packs, base, grids) {
        if RobustnessOf(engine, packs, base, grids).Success? {
          SurfaceSpansEmbed(engine, packs, base, grids, RobustnessOf(engine, packs, base, grids).value);
        }
      }
    } else {
      var engine := SomeEngineEscapes(packs, base, grids);
    }
  }
}
