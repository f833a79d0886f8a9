/** Scenario-pack summaries over a parameter grid, and how far their means spread. */
module Sensitivity {
  import opened Common
  import opened Evaluation
  import opened Statistics

  datatype Metric = TransitionChannel | Compatibility | AftermathBalance

  /** The names under which summaries report numbers. */
  datatype Key =
    | GridSize | AxisCount | SurfaceCount | ProfileCount | MeanGridSize | MeanAxisCount
    | Center(metric: Metric) | MeanSpan(metric: Metric) | MaxTransitionSpan
    | MaxSurfaceSpan(metric: Metric) | SurfaceSpanCenter(metric: Metric)
    | Lowest(of: Key) | Highest(of: Key) | Spread(of: Key)

  datatype Snapshot = Snapshot(parameters: Parameters, summary: Means, scenarioMeans: seq<real>)

  datatype SensitivityReport = SensitivityReport(
    snapshots: seq<Snapshot>, metricSpans: map<Key, real>, maxTransitionSpan: real)

  function Of(m: Means, metric: Metric): real {
    match metric
    case TransitionChannel => m.transition
    case Compatibility => m.compatibility
    case AftermathBalance => m.balance
  }

  /** What scenario packs amount to under one choice of parameters. */
  function SnapshotAt(engine: Engine, packs: seq<Pack>, params: Parameters): Outcome<Snapshot> {
    var results :- EvaluatePacks(engine, packs, params);
    var summary :- SummarizePacks(results);
    Success(Snapshot(params, summary, TransitionMeans(results)))
  }

  function SnapshotMaker(engine: Engine, packs: seq<Pack>): Parameters -> Outcome<Snapshot> {
    (params: Parameters) => SnapshotAt(engine, packs, params)
  }

  function Column(snapshots: seq<Snapshot>, metric: Metric): seq<real> {
    seq(|snapshots|, i requires 0 <= i < |snapshots| => Of(snapshots[i].summary, metric))
  }

  predicate Rectangular(snapshots: seq<Snapshot>, scenarios: nat) {
    forall i :: 0 <= i < |snapshots| ==> |snapshots[i].scenarioMeans| == scenarios
  }

  function ScenarioColumn(snapshots: seq<Snapshot>, scenarios: nat, index: nat): seq<real>
    requires Rectangular(snapshots, scenarios) && index < scenarios
  {
    seq(|snapshots|, i requires 0 <= i < |snapshots| => snapshots[i].scenarioMeans[index])
  }

  const METRICS: seq<Metric> := [TransitionChannel, Compatibility, AftermathBalance]

  function MetricSpans(snapshots: seq<Snapshot>, metrics: seq<Metric>): map<Key, real>
    requires snapshots != []
  {
    if metrics == [] then map[]
    else
      var metric := metrics[|metrics| - 1];
      MetricSpans(snapshots, metrics[..|metrics| - 1])[MeanSpan(metric) := Span(Column(snapshots, metric))]
  }

  function ScenarioSpans(snapshots: seq<Snapshot>, scenarios: nat): seq<real>
    requires snapshots != [] && Rectangular(snapshots, scenarios)
  {
    seq(scenarios, index requires 0 <= index < scenarios => Span(ScenarioColumn(snapshots, scenarios, index)))
  }

  /** The largest span of any one scenario's mean transition channel. */
  function LargestScenarioSpan(snapshots: seq<Snapshot>, scenarios: nat): real
    requires snapshots != [] && Rectangular(snapshots, scenarios)
  {
    if scenarios == 0 then 0.0 else Max(ScenarioSpans(snapshots, scenarios))
  }

  function SensitivityOf(engine: Engine, packs: seq<Pack>, grid: seq<Parameters>): Outcome<SensitivityReport> {
    if packs == [] || grid == [] then Failure(Invalid)
    else
      var snapshots :- Traverse(SnapshotMaker(engine, packs), grid);
      SnapshotsFromGrid(engine, packs, grid, snapshots);
      Success(SensitivityReport(snapshots, MetricSpans(snapshots, METRICS), LargestScenarioSpan(snapshots, |packs|)))
  }

  function SummarizeSensitivity(report: SensitivityReport): Outcome<map<Key, real>> {
    if report.snapshots == [] then Failure(Invalid)
    else
      Success(map[
                GridSize := |report.snapshots| as real,
                Center(TransitionChannel) := Mean(Column(report.snapshots, TransitionChannel)),
                Center(Compatibility) := Mean(Column(report.snapshots, Compatibility)),
                Center(AftermathBalance) := Mean(Column(report.snapshots, AftermathBalance)),
                MaxTransitionSpan := report.maxTransitionSpan]
              + report.metricSpans)
  }

  /** The spans recorded are those of the three metrics, under their own names and no other. */
  lemma {:induction false} MetricSpansAre(snapshots: seq<Snapshot>, metrics: seq<Metric>)
    requires snapshots != []
    ensures forall key :: key in MetricSpans(snapshots, metrics) <==> key.MeanSpan? && key.metric in metrics
    ensures forall metric :: metric in metrics ==>
                               MetricSpans(snapshots, metrics)[MeanSpan(metric)] == Span(Column(snapshots, metric))
  {
    if metrics != [] {
      var front := metrics[..|metrics| - 1];
      assert metrics == front + [metrics[|metrics| - 1]];
      MetricSpansAre(snapshots, front);
    }
  }

  // ---------- what the snapshots of a grid look like ----------

  lemma SnapshotShape(engine: Engine, packs: seq<Pack>, params: Parameters)
    requires SnapshotAt(engine, packs, params).Success?
    ensures var s := SnapshotAt(engine, packs, params).value;
            && s.parameters == params && |s.scenarioMeans| == |packs| > 0
            && s.summary.transition == Mean(s.scenarioMeans)
            && InRange(s.summary) && Within(s.scenarioMeans, 0.0, 1.0)
  {
    PacksInRange(engine, packs, params);
    PackMeansInRange(EvaluatePacks(engine, packs, params).value);
  }

  ghost predicate Shaped(snapshots: seq<Snapshot>, scenarios: nat) {
    && Rectangular(snapshots, scenarios) && scenarios > 0
    && forall i :: 0 <= i < |snapshots| ==>
                     && snapshots[i].summary.transition == Mean(snapshots[i].scenarioMeans)
                     && InRange(snapshots[i].summary) && Within(snapshots[i].scenarioMeans, 0.0, 1.0)
  }

  lemma SnapshotsFromGrid(engine: Engine, packs: seq<Pack>, grid: seq<Parameters>, snapshots: seq<Snapshot>)
    requires packs != [] && Traverse(SnapshotMaker(engine, packs), grid) == Success(snapshots)
    ensures |snapshots| == |grid| && Shaped(snapshots, |packs|)
    ensures forall i :: 0 <= i < |grid| ==> SnapshotAt(engine, packs, grid[i]) == Success(snapshots[i])
  {
    TraverseIsPointwise(SnapshotMaker(engine, packs), grid);
    forall i | 0 <= i < |grid|
      ensures SnapshotAt(engine, packs, grid[i]) == Success(snapshots[i]) && Shaped([snapshots[i]], |packs|)
    {
      assert SnapshotMaker(engine, packs)(grid[i]) == Success(snapshots[i]);
      SnapshotShape(engine, packs, grid[i]);
    }
    forall i | 0 <= i < |snapshots| ensures Shaped([snapshots[i]], |packs|) && [snapshots[i]][0] == snapshots[i] {
    }
  }

  // ---------- the span of a mean ----------

  /** Averaging over scenarios cannot spread further than the scenario that spreads most. */
  lemma MeanSpreadsNoFurther(snapshots: seq<Snapshot>, scenarios: nat)
    requires snapshots != [] && Shaped(snapshots, scenarios)
    ensures Span(Column(snapshots, TransitionChannel)) <= LargestScenarioSpan(snapshots, scenarios)
  {
    var means := Column(snapshots, TransitionChannel);
    var spans := ScenarioSpans(snapshots, scenarios);
    var high :| 0 <= high < |means| && means[high] == Max(means);
    var low :| 0 <= low < |means| && means[low] == Min(means);
    var a, b := snapshots[high].scenarioMeans, snapshots[low].scenarioMeans;
    forall k | 0 <= k < |a| ensures a[k] - b[k] <= Max(spans) {
      var column := ScenarioColumn(snapshots, scenarios, k);
      assert column[high] == a[k] && column[low] == b[k];
      DistanceIsAtMostSpan(column, a[k], b[k]);
      assert spans[k] in spans;
    }
    MeansDiffer(a, b, Max(spans));
  }

  lemma SpansInRange(snapshots: seq<Snapshot>, scenarios: nat)
    requires snapshots != [] && Shaped(snapshots, scenarios)
    ensures 0.0 <= LargestScenarioSpan(snapshots, scenarios) <= 1.0
  {
    var spans := ScenarioSpans(snapshots, scenarios);
    var k :| 0 <= k < |spans| && spans[k] == Max(spans);
    SpanWithin(ScenarioColumn(snapshots, scenarios, k), 0.0, 1.0);
  }

  // ---------- the loops ----------

  method EvaluateParameterSensitivity(engine: Engine, packs: seq<Pack>, grid: seq<Parameters>)
    returns (report: Outcome<SensitivityReport>)
    ensures report == SensitivityOf(engine, packs, grid)
  {
    if packs == [] || grid == [] {
      return Failure(Invalid);
    }
    var snapshots: seq<Snapshot> := [];
    for i := 0 to |grid|
      invariant Traverse(SnapshotMaker(engine, packs), grid[..i]) == Success(snapshots)
    {
      assert grid[..i + 1][..i] == grid[..i];
      var snapshot := SnapshotAt(engine, packs, grid[i]);
      if snapshot.Failure? {
        FirstFailure(SnapshotMaker(engine, packs), grid, i);
        return Failure(snapshot.error);
      }
      snapshots := snapshots + [snapshot.value];
    }
    assert grid[..|grid|] == grid;
    SnapshotsFromGrid(engine, packs, grid, snapshots);
    var spans := ComputeMetricSpans(snapshots, METRICS);
    var largest := ComputeMaxTransitionSpan(snapshots);
    report := Success(SensitivityReport(snapshots, spans, largest));
  }

  method ComputeMetricSpans(snapshots: seq<Snapshot>, metrics: seq<Metric>) returns (spans: map<Key, real>)
    requires snapshots != []
    ensures spans == MetricSpans(snapshots, metrics)
  {
    spans := map[];
    for i := 0 to |metrics|
      invariant spans == MetricSpans(snapshots, metrics[..i])
    {
      var values := Column(snapshots, metrics[i]);
      assert metrics[..i + 1][..i] == metrics[..i];
      spans := spans[MeanSpan(metrics[i]) := Max(values) - Min(values)];
    }
    assert metrics[..|metrics|] == metrics;
  }

  method ComputeMaxTransitionSpan(snapshots: seq<Snapshot>) returns (largest: real)
    requires snapshots != [] && Rectangular(snapshots, |snapshots[0].scenarioMeans|)
    ensures largest == LargestScenarioSpan(snapshots, |snapshots[0].scenarioMeans|)
  {
    var scenarios := |snapshots[0].scenarioMeans|;
    var spans: seq<real> := [];
    for index := 0 to scenarios
      invariant |spans| == index
      invariant forall k :: 0 <= k < index ==> spans[k] == ScenarioSpans(snapshots, scenarios)[k]
    {
      var values := ScenarioColumn(snapshots, scenarios, index);
      spans := spans + [Max(values) - Min(values)];
    }
    assert spans == ScenarioSpans(snapshots, scenarios);
    largest := if spans == [] then 0.0 else Max(spans);
  }

  /** The largest scenario span is the span of some scenario, and of no other more; it is 0 without scenarios. */
  lemma LargestSpanIs(snapshots: seq<Snapshot>, scenarios: nat)
    requires snapshots != [] && Rectangular(snapshots, scenarios)
    ensures var largest := LargestScenarioSpan(snapshots, scenarios);
            && (scenarios == 0 ==> largest == 0.0)
            && (forall k :: 0 <= k < scenarios ==> Span(ScenarioColumn(snapshots, scenarios, k)) <= largest)
            && (scenarios > 0 ==>
                  exists k :: 0 <= k < scenarios && Span(ScenarioColumn(snapshots, scenarios, k)) == largest)
  {
    var spans := ScenarioSpans(snapshots, scenarios);
    forall k | 0 <= k < scenarios ensures Span(ScenarioColumn(snapshots, scenarios, k)) in spans {
      assert spans[k] in spans;
    }
    if scenarios > 0 {
      var k :| 0 <= k < |spans| && spans[k] == Max(spans);
      assert Span(ScenarioColumn(snapshots, scenarios, k)) == spans[k];
    }
  }
}
