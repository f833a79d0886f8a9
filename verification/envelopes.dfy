/** What a comparison of profiles reports of each profile and of each metric. */
module Envelopes {
  import opened Classifier
  import opened Common
  import opened Evaluation
  import opened Robustness
  import opened Sensitivity
  import opened Statistics

  lemma {:induction false} AssessmentDescribes(
    engine: Engine, packs: seq<Pack>, base: Parameters, profile: Profile, assessment: Assessment)
    requires EvaluateProfile(engine, packs, base, profile) == Success(assessment)
    requires Distinct(AxesOf(profile.grids))
    ensures assessment.profile == profile && assessment.report.axes == AxesOf(profile.grids)
    ensures |assessment.report.parameterGrid| == Size(ValuesOf(profile.grids))
  {
    GridIsTheProduct(base, profile.grids);
  }

  /** An envelope bears its profile's name, the number of its axes, and the number of their combinations. */
  lemma {:induction false} EnvelopeDescribesProfile(
    engine: Engine, packs: seq<Pack>, base: Parameters, profiles: seq<Profile>, report: EnvelopeReport, i: nat)
    requires Compared(engine, packs, base, profiles, report) && i < |profiles|
    ensures |report.envelopes| == |profiles|
    ensures report.envelopes[i].id == profiles[i].id && report.envelopes[i].axisCount == |profiles[i].grids|
    ensures report.envelopes[i].gridSize == Size(ValuesOf(profiles[i].grids))
  {
    var evaluated := Traverse(ProfileEvaluator(engine, packs, base), profiles).value;
    TraverseIsPointwise(ProfileEvaluator(engine, packs, base), profiles);
    TraverseIsPointwise(ToEnvelope, evaluated);
    assert EvaluateProfile(engine, packs, base, profiles[i]) == Success(evaluated[i]);
    assert ToEnvelope(evaluated[i]) == Success(report.envelopes[i]);
    AssessmentDescribes(engine, packs, base, profiles[i], evaluated[i]);
  }

  lemma {:induction false} BoundsRead(summary: Summary, items: seq<MetricEnvelope>, j: nat)
    requires j < |items| && forall i :: j < i < |items| ==> items[i].metric != items[j].metric
    ensures var r, item := WithBounds(summary, items), items[j];
            && Lowest(item.metric) in r && r[Lowest(item.metric)] == item.low
            && Highest(item.metric) in r && r[Highest(item.metric)] == item.high
            && Spread(item.metric) in r && r[Spread(item.metric)] == item.high - item.low
  {
    if j < |items| - 1 {
      BoundsRead(summary, items[..|items| - 1], j);
    }
  }

  lemma {:induction false} OthersRead(summary: Summary, items: seq<MetricEnvelope>, key: Key)
    requires !key.Lowest? && !key.Highest? && !key.Spread? && key in summary
    ensures key in WithBounds(summary, items) && WithBounds(summary, items)[key] == summary[key]
  {
    if items != [] {
      OthersRead(summary, items[..|items| - 1], key);
    }
  }

  /** The summary of a comparison holds the least, the largest and the span of each metric over the profiles. */
  lemma SummaryHoldsBounds(report: EnvelopeReport, j: nat)
    requires report.envelopes != [] && Comparable(report.envelopes) && j < |ENVELOPE_METRICS|
    requires report.metricEnvelopes == MetricEnvelopes(report.envelopes, |ENVELOPE_METRICS|)
    ensures SummarizeEnvelopes(report).Success?
    ensures var s, metric, column :=
              SummarizeEnvelopes(report).value, ENVELOPE_METRICS[j], ColumnAt(report.envelopes, j);
            && Holds(s, Lowest(metric), Min(column)) && Holds(s, Highest(metric), Max(column))
            && Holds(s, Spread(metric), Max(column) - Min(column))
  {
    MetricEnvelopesDiffer(report.envelopes, report.metricEnvelopes, j);
    BoundsRead(EnvelopeCounts(report.envelopes), report.metricEnvelopes, j);
  }

  function GridSizeOf(): Envelope -> real {
    (e: Envelope) => e.gridSize as real
  }

  function AxisCountOf(): Envelope -> real {
    (e: Envelope) => e.axisCount as real
  }

  lemma CountsAre(envelopes: seq<Envelope>)
    requires envelopes != []
    ensures var counts, n := EnvelopeCounts(envelopes), |envelopes| as real;
            && Holds(counts, ProfileCount, n)
            && Holds(counts, MeanGridSize, MeanBy(GridSizeOf(), envelopes))
            && Holds(counts, MeanAxisCount, MeanBy(AxisCountOf(), envelopes))
  {
    MeanIsMeanBy(GridSizeOf(), envelopes, GridSizes(envelopes));
    MeanIsMeanBy(AxisCountOf(), envelopes, AxisCounts(envelopes));
  }

  /** It also holds how many profiles were compared, and the mean size of their grids and number of their axes. */
  lemma SummaryHoldsCounts(report: EnvelopeReport)
    requires report.envelopes != []
    ensures SummarizeEnvelopes(report).Success?
    ensures var s, n := SummarizeEnvelopes(report).value, |report.envelopes| as real;
            && Holds(s, ProfileCount, n)
            && Holds(s, MeanGridSize, MeanBy(GridSizeOf(), report.envelopes))
            && Holds(s, MeanAxisCount, MeanBy(AxisCountOf(), report.envelopes))
  {
    var counts := EnvelopeCounts(report.envelopes);
    CountsAre(report.envelopes);
    OthersRead(counts, report.metricEnvelopes, ProfileCount);
    OthersRead(counts, report.metricEnvelopes, MeanGridSize);
    OthersRead(counts, report.metricEnvelopes, MeanAxisCount);
  }
}
