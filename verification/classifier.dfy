/** Comparative envelopes over robustness profiles, and the classification of reports and envelopes by severity. */
module Classifier {
  import opened Common
  import opened Embedding
  import opened Evaluation
  import opened Robustness
  import opened Sensitivity
  import opened Statistics
  import opened Surfaces

  /** The labels in alphabetical order. */
  datatype Label = GatingStressed | LockEdge | RetentionPressured | StableCore

  datatype Classification = Classification(
    subject: string, verdict: Label, severity: real, evidence: map<Key, real>)

  datatype Profile = Profile(id: string, grids: seq<AxisGrid>)

  datatype Assessment = Assessment(profile: Profile, report: RobustnessReport)

  datatype Envelope = Envelope(id: string, summary: map<Key, real>, axisCount: nat, gridSize: nat)

  datatype MetricEnvelope = MetricEnvelope(metric: Key, low: real, high: real)

  datatype EnvelopeReport = EnvelopeReport(envelopes: seq<Envelope>, metricEnvelopes: seq<MetricEnvelope>)

  type Summary = map<Key, real>

  // ---------- classification ----------

  /** A number of a summary, or its maximum in an envelope summary, or 0. */
  function Lookup(summary: Summary, key: Key): real {
    if key in summary then summary[key]
    else if Highest(key) in summary then summary[Highest(key)]
    else 0.0
  }

  function Greater(x: real, y: real): real {
    if y > x then y else x
  }

  function Capped(x: real): real {
    if x < 1.0 then x else 1.0
  }

  function SeverityOf(transition: real, gating: real, compatibility: real, aftermath: real): real {
    Greater(Greater(Greater(transition, gating), compatibility), Capped(aftermath / 2.0))
  }

  function LabelOf(transition: real, gating: real, compatibility: real, aftermath: real): Label {
    if transition >= 0.3 || aftermath >= 0.7 then RetentionPressured
    else if gating >= 0.18 then GatingStressed
    else if compatibility >= 0.12 then LockEdge
    else StableCore
  }

  const EVIDENCE_KEYS: seq<Key> := [
    MaxTransitionSpan, MaxSurfaceSpan(TransitionChannel), MaxSurfaceSpan(Compatibility),
    MaxSurfaceSpan(AftermathBalance)]

  const ENVELOPE_EVIDENCE_KEYS: seq<Key> := [
    Highest(MaxTransitionSpan), Highest(MaxSurfaceSpan(TransitionChannel)), Highest(MaxSurfaceSpan(Compatibility)),
    Highest(MaxSurfaceSpan(AftermathBalance))]

  predicate HasAll(summary: Summary, keys: seq<Key>) {
    forall i :: 0 <= i < |keys| ==> keys[i] in summary
  }

  function Evidence(summary: Summary, keys: seq<Key>): Summary {
    map key | key in keys && key in summary :: summary[key]
  }

  function Classify(subject: string, summary: Summary, keys: seq<Key>): Classification {
    var transition := Lookup(summary, MaxTransitionSpan);
    var gating := Lookup(summary, MaxSurfaceSpan(TransitionChannel));
    var compatibility := Lookup(summary, MaxSurfaceSpan(Compatibility));
    var aftermath := Lookup(summary, MaxSurfaceSpan(AftermathBalance));
    Classification(
      subject, LabelOf(transition, gating, compatibility, aftermath),
      SeverityOf(transition, gating, compatibility, aftermath), Evidence(summary, keys))
  }

  function ClassifyRobustness(subject: string, report: RobustnessReport): Outcome<Classification> {
    var summary :- SummaryOf(report);
    if HasAll(summary, EVIDENCE_KEYS) then Success(Classify(subject, summary, EVIDENCE_KEYS))
    else Failure(MissingKey)
  }

  // ---------- comparative envelopes ----------

  const ENVELOPE_METRICS: seq<Key> := [
    MaxTransitionSpan, MeanSpan(TransitionChannel), MeanSpan(Compatibility), MeanSpan(AftermathBalance),
    MaxSurfaceSpan(TransitionChannel), MaxSurfaceSpan(Compatibility), MaxSurfaceSpan(AftermathBalance)]

  function EvaluateProfile(engine: Engine, packs: seq<Pack>, base: Parameters, profile: Profile)
    : Outcome<Assessment>
  {
    var report :- RobustnessOf(engine, packs, base, profile.grids);
    Success(Assessment(profile, report))
  }

  function ProfileEvaluator(engine: Engine, packs: seq<Pack>, base: Parameters)
    : Profile -> Outcome<Assessment>
  {
    (profile: Profile) => EvaluateProfile(engine, packs, base, profile)
  }

  function ToEnvelope(assessment: Assessment): Outcome<Envelope> {
    var summary :- SummaryOf(assessment.report);
    Success(Envelope(assessment.profile.id, summary, |assessment.report.axes|, |assessment.report.parameterGrid|))
  }

  ghost predicate Comparable(envelopes: seq<Envelope>) {
    forall i :: 0 <= i < |envelopes| ==> forall key :: key in ENVELOPE_METRICS ==> key in envelopes[i].summary
  }

  function MetricColumn(envelopes: seq<Envelope>, metric: Key): seq<real>
    requires Comparable(envelopes) && metric in ENVELOPE_METRICS
  {
    seq(|envelopes|, i requires 0 <= i < |envelopes| => envelopes[i].summary[metric])
  }

  function MetricEnvelopes(envelopes: seq<Envelope>, count: nat): seq<MetricEnvelope>
    requires envelopes != [] && Comparable(envelopes) && count <= |ENVELOPE_METRICS|
  {
    seq(count, i requires 0 <= i < count =>
      var values := MetricColumn(envelopes, ENVELOPE_METRICS[i]);
      MetricEnvelope(ENVELOPE_METRICS[i], Min(values), Max(values)))
  }

  predicate DictKeys(profiles: seq<Profile>) {
    forall i :: 0 <= i < |profiles| ==> Distinct(AxesOf(profiles[i].grids))
  }

  function EnvelopesOf(engine: Engine, packs: seq<Pack>, base: Parameters, profiles: seq<Profile>)
    : Outcome<EnvelopeReport>
    requires DictKeys(profiles)
  {
    var evaluated :- Traverse(ProfileEvaluator(engine, packs, base), profiles);
    var envelopes :- Traverse(ToEnvelope, evaluated);
    if envelopes == [] then Failure(Invalid)
    else
      EnvelopesComparable(engine, packs, base, profiles, evaluated, envelopes);
      Success(EnvelopeReport(envelopes, MetricEnvelopes(envelopes, |ENVELOPE_METRICS|)))
  }

  function GridSizes(envelopes: seq<Envelope>): seq<real> {
    seq(|envelopes|, i requires 0 <= i < |envelopes| => envelopes[i].gridSize as real)
  }

  function AxisCounts(envelopes: seq<Envelope>): seq<real> {
    seq(|envelopes|, i requires 0 <= i < |envelopes| => envelopes[i].axisCount as real)
  }

  function WithBounds(summary: Summary, items: seq<MetricEnvelope>): Summary {
    if items == [] then summary
    else
      var item := items[|items| - 1];
      WithBounds(summary, items[..|items| - 1])[Lowest(item.metric) := item.low][Highest(item.metric) := item.high]
      [Spread(item.metric) := item.high - item.low]
  }

  function EnvelopeCounts(envelopes: seq<Envelope>): Summary
    requires envelopes != []
  {
    map[
      ProfileCount := |envelopes| as real,
      MeanGridSize := Mean(GridSizes(envelopes)),
      MeanAxisCount := Mean(AxisCounts(envelopes))]
  }

  function SummarizeEnvelopes(report: EnvelopeReport): Outcome<Summary> {
    if report.envelopes == [] then Failure(Invalid)
    else
      Success(WithBounds(EnvelopeCounts(report.envelopes), report.metricEnvelopes))
  }

  function ClassifyEnvelopes(report: EnvelopeReport): Outcome<Classification> {
    var summary :- SummarizeEnvelopes(report);
    if HasAll(summary, ENVELOPE_EVIDENCE_KEYS) then
      Success(Classify("comparative_envelopes", summary, ENVELOPE_EVIDENCE_KEYS))
    else Failure(MissingKey)
  }

  lemma MetricsHaveKeys(summary: Summary)
    requires HasKeys(summary)
    ensures forall key :: key in ENVELOPE_METRICS ==> key in summary
  {
  }

  lemma {:induction false} ProfileEvaluated(
    engine: Engine, packs: seq<Pack>, base: Parameters, profiles: seq<Profile>,
    evaluated: seq<Assessment>, envelopes: seq<Envelope>, i: nat)
    requires DictKeys(profiles) && i < |profiles|
    requires Traverse(ProfileEvaluator(engine, packs, base), profiles) == Success(evaluated)
    requires Traverse(ToEnvelope, evaluated) == Success(envelopes)
    ensures |evaluated| == |envelopes| == |profiles| && evaluated[i].profile == profiles[i]
    ensures Evaluated(engine, packs, base, profiles[i].grids, evaluated[i].report)
    ensures SummaryOf(evaluated[i].report) == Success(envelopes[i].summary)
    ensures Reads(evaluated[i].report, |packs|, envelopes[i].summary)
  {
    TraverseIsPointwise(ProfileEvaluator(engine, packs, base), profiles);
    TraverseIsPointwise(ToEnvelope, evaluated);
    assert EvaluateProfile(engine, packs, base, profiles[i]) == Success(evaluated[i]);
    assert ToEnvelope(evaluated[i]) == Success(envelopes[i]);
    SummaryReads(engine, packs, base, profiles[i].grids, evaluated[i].report);
  }

  lemma {:induction false} EnvelopesComparable(
    engine: Engine, packs: seq<Pack>, base: Parameters, profiles: seq<Profile>,
    evaluated: seq<Assessment>, envelopes: seq<Envelope>)
    requires DictKeys(profiles)
    requires Traverse(ProfileEvaluator(engine, packs, base), profiles) == Success(evaluated)
    requires Traverse(ToEnvelope, evaluated) == Success(envelopes)
    ensures |envelopes| == |profiles| && Comparable(envelopes)
  {
    TraverseIsPointwise(ProfileEvaluator(engine, packs, base), profiles);
    TraverseIsPointwise(ToEnvelope, evaluated);
    forall i | 0 <= i < |envelopes| ensures forall key :: key in ENVELOPE_METRICS ==> key in envelopes[i].summary {
      ProfileEvaluated(engine, packs, base, profiles, evaluated, envelopes, i);
      MetricsHaveKeys(envelopes[i].summary);
    }
  }

  // ---------- the loops ----------

  method CompareMetrics(envelopes: seq<Envelope>) returns (metricEnvelopes: seq<MetricEnvelope>)
    requires envelopes != [] && Comparable(envelopes)
    ensures metricEnvelopes == MetricEnvelopes(envelopes, |ENVELOPE_METRICS|)
  {
    metricEnvelopes := [];
    for i := 0 to |ENVELOPE_METRICS|
      invariant metricEnvelopes == MetricEnvelopes(envelopes, i)
    {
      var values := MetricColumn(envelopes, ENVELOPE_METRICS[i]);
      metricEnvelopes := metricEnvelopes + [MetricEnvelope(ENVELOPE_METRICS[i], Min(values), Max(values))];
    }
  }

  method SummarizeComparativeEnvelopes(report: EnvelopeReport) returns (summary: Outcome<Summary>)
    ensures summary == SummarizeEnvelopes(report)
  {
    if report.envelopes == [] {
      return Failure(Invalid);
    }
    var start := EnvelopeCounts(report.envelopes);
    var bounds := start;
    var items := report.metricEnvelopes;
    for i := 0 to |items|
      invariant bounds == WithBounds(start, items[..i])
    {
      assert items[..i + 1][..i] == items[..i];
      bounds := bounds[Lowest(items[i].metric) := items[i].low];
      bounds := bounds[Highest(items[i].metric) := items[i].high];
      bounds := bounds[Spread(items[i].metric) := items[i].high - items[i].low];
    }
    assert items[..|items|] == items;
    summary := Success(bounds);
  }

  // ---------- severity ----------

  lemma SurfaceSpanInRange(
    engine: Engine, packs: seq<Pack>, base: Parameters, grid: AxisGrid, surface: Surface, metric: Metric)
    requires Surveyed(engine, packs, base, grid, surface)
    ensures 0.0 <= Span(PointColumn(surface.points, metric)) <= Width(metric)
  {
    var column, low := PointColumn(surface.points, metric), 1.0 - Width(metric);
    forall k | 0 <= k < |column| ensures low <= column[k] <= 1.0 {
      assert PointShows(engine, packs, base, grid.axis, grid.values[k], surface.points[k]);
      SnapshotShape(engine, packs, surface.points[k].parameters);
    }
    SpanWithin(column, low, 1.0);
  }

  /** How wide the validated range of a metric is. */
  function Width(metric: Metric): real {
    if metric == AftermathBalance then 2.0 else 1.0
  }

  lemma LargestSurfaceSpanInRange(
    engine: Engine, packs: seq<Pack>, base: Parameters, grids: seq<AxisGrid>, report: RobustnessReport,
    metric: Metric)
    requires Evaluated(engine, packs, base, grids, report) && report.surfaces != [] && Pointed(report.surfaces)
    ensures 0.0 <= Max(SpansOver(report.surfaces, metric)) <= Width(metric)
  {
    var spans := SpansOver(report.surfaces, metric);
    var i :| 0 <= i < |spans| && spans[i] == Max(spans);
    EvaluatedSurfaces(engine, packs, base, grids, report, i);
    SurfaceSpanInRange(engine, packs, base, grids[i], report.surfaces[i], metric);
  }

  /** The spans that severity is made of, in the ranges that validation gives them. */
  ghost predicate SpansInUnits(summary: Summary) {
    && HasKeys(summary)
    && Unit(summary[MaxTransitionSpan])
    && forall metric: Metric :: 0.0 <= summary[MaxSurfaceSpan(metric)] <= Width(metric)
  }

  lemma SpansReadInRange(
    engine: Engine, packs: seq<Pack>, base: Parameters, grids: seq<AxisGrid>, report: RobustnessReport)
    requires Evaluated(engine, packs, base, grids, report)
    ensures SummaryOf(report).Success? && SpansInUnits(SummaryOf(report).value)
  {
    SummaryReads(engine, packs, base, grids, report);
    EvaluatedSnapshots(engine, packs, base, grids, report);
    SpansInRange(report.sensitivity.snapshots, |packs|);
    var summary := SummaryOf(report).value;
    forall metric: Metric ensures 0.0 <= summary[MaxSurfaceSpan(metric)] <= Width(metric) {
      LargestSurfaceSpanInRange(engine, packs, base, grids, report, metric);
    }
  }

  /** Whatever the engine answers, the severity of an evaluated report is in [0, 1]. */
  lemma RobustnessSeverityInUnit(
    engine: Engine, packs: seq<Pack>, base: Parameters, grids: seq<AxisGrid>, report: RobustnessReport,
    subject: string)
    requires Evaluated(engine, packs, base, grids, report)
    ensures var c := ClassifyRobustness(subject, report); c.Success? && Unit(c.value.severity)
  {
    SpansReadInRange(engine, packs, base, grids, report);
    UnitClassified(subject, report);
  }

  lemma UnitClassified(subject: string, report: RobustnessReport)
    requires SummaryOf(report).Success? && SpansInUnits(SummaryOf(report).value)
    ensures var c := ClassifyRobustness(subject, report);
            c == Success(Classify(subject, SummaryOf(report).value, EVIDENCE_KEYS)) && Unit(c.value.severity)
  {
    UnitSeverity(subject, SummaryOf(report).value);
  }

  lemma UnitSeverity(subject: string, summary: Summary)
    requires SpansInUnits(summary)
    ensures Unit(Classify(subject, summary, EVIDENCE_KEYS).severity)
  {
    assert 0.0 <= summary[MaxSurfaceSpan(TransitionChannel)] <= Width(TransitionChannel);
    assert 0.0 <= summary[MaxSurfaceSpan(Compatibility)] <= Width(Compatibility);
    assert 0.0 <= summary[MaxSurfaceSpan(AftermathBalance)] <= Width(AftermathBalance);
  }

  /** A classification in which the gating span adds nothing to the transition span. */
  ghost predicate GatingAddsNothing(c: Classification, summary: Summary)
    requires HasKeys(summary)
  {
    && c.severity == Greater(Greater(summary[MaxTransitionSpan], summary[MaxSurfaceSpan(Compatibility)]),
                             Capped(summary[MaxSurfaceSpan(AftermathBalance)] / 2.0))
    && (c.verdict.GatingStressed? ==> 0.18 <= summary[MaxTransitionSpan] < 0.3)
  }

  /** On covering base parameters the surfaces never decide how severe the transitions are. */
  lemma GatingIsDominated(
    engine: Engine, packs: seq<Pack>, base: Parameters, grids: seq<AxisGrid>, report: RobustnessReport,
    subject: string)
    requires Evaluated(engine, packs, base, grids, report) && BaseCovers(base, grids)
    ensures var summary, c := SummaryOf(report), ClassifyRobustness(subject, report);
            summary.Success? && HasKeys(summary.value) && c.Success? && GatingAddsNothing(c.value, summary.value)
  {
    SurfaceSpansEmbed(engine, packs, base, grids, report);
    GatingBelow(subject, report);
  }

  lemma GatingBelow(subject: string, report: RobustnessReport)
    requires SummaryOf(report).Success? && HasKeys(SummaryOf(report).value) && Embeds(SummaryOf(report).value)
    ensures var c := ClassifyRobustness(subject, report);
            c.Success? && GatingAddsNothing(c.value, SummaryOf(report).value)
  {
    GatingBelowTransition(subject, SummaryOf(report).value);
  }

  lemma GatingBelowTransition(subject: string, summary: Summary)
    requires HasKeys(summary) && Embeds(summary)
    ensures GatingAddsNothing(Classify(subject, summary, EVIDENCE_KEYS), summary)
  {
  }

  // ---------- the envelope is the worst profile ----------

  lemma {:induction false} WithBoundsKeeps(summary: Summary, items: seq<MetricEnvelope>, key: Key)
    requires !key.Lowest? && !key.Highest? && !key.Spread?
    ensures key in WithBounds(summary, items) <==> key in summary
  {
    if items != [] {
      WithBoundsKeeps(summary, items[..|items| - 1], key);
    }
  }

  lemma {:induction false} WithBoundsReads(summary: Summary, items: seq<MetricEnvelope>, j: nat)
    requires j < |items| && forall i :: j < i < |items| ==> items[i].metric != items[j].metric
    ensures var r := WithBounds(summary, items);
            Highest(items[j].metric) in r && r[Highest(items[j].metric)] == items[j].high
  {
    if j < |items| - 1 {
      WithBoundsReads(summary, items[..|items| - 1], j);
    }
  }

  predicate Plain(key: Key) {
    key.MaxTransitionSpan? || key.MeanSpan? || key.MaxSurfaceSpan?
  }

  lemma BoundsLookup(summary: Summary, items: seq<MetricEnvelope>, j: nat)
    requires j < |items| && forall i :: j < i < |items| ==> items[i].metric != items[j].metric
    requires Plain(items[j].metric) && items[j].metric !in summary
    ensures Lookup(WithBounds(summary, items), items[j].metric) == items[j].high
  {
    WithBoundsReads(summary, items, j);
    WithBoundsKeeps(summary, items, items[j].metric);
  }

  lemma MetricsDiffer(j: nat)
    requires j < |ENVELOPE_METRICS|
    ensures Plain(ENVELOPE_METRICS[j])
    ensures forall i :: j < i < |ENVELOPE_METRICS| ==> ENVELOPE_METRICS[i] != ENVELOPE_METRICS[j]
  {
  }

  lemma MetricEnvelopesDiffer(envelopes: seq<Envelope>, items: seq<MetricEnvelope>, j: nat)
    requires envelopes != [] && Comparable(envelopes) && j < |ENVELOPE_METRICS|
    requires items == MetricEnvelopes(envelopes, |ENVELOPE_METRICS|)
    ensures j < |items| && items[j].metric == ENVELOPE_METRICS[j] && Plain(items[j].metric)
    ensures items[j].high == Max(MetricColumn(envelopes, ENVELOPE_METRICS[j]))
    ensures forall i :: j < i < |items| ==> items[i].metric != items[j].metric
  {
    MetricsDiffer(j);
  }

  /** What the classifier reads from an envelope summary is the largest value over the profiles. */
  lemma EnvelopeLookup(report: EnvelopeReport, j: nat)
    requires report.envelopes != [] && Comparable(report.envelopes) && j < |ENVELOPE_METRICS|
    requires report.metricEnvelopes == MetricEnvelopes(report.envelopes, |ENVELOPE_METRICS|)
    ensures SummarizeEnvelopes(report).Success?
    ensures Lookup(SummarizeEnvelopes(report).value, ENVELOPE_METRICS[j])
         == Max(MetricColumn(report.envelopes, ENVELOPE_METRICS[j]))
  {
    MetricEnvelopesDiffer(report.envelopes, report.metricEnvelopes, j);
    BoundsLookup(EnvelopeCounts(report.envelopes), report.metricEnvelopes, j);
  }

  // ---------- labels and severities ----------

  /** Which spans each label stands for. */
  lemma LabelsAre(transition: real, gating: real, compatibility: real, aftermath: real)
    ensures var verdict := LabelOf(transition, gating, compatibility, aftermath);
            && (verdict == RetentionPressured <==> transition >= 0.3 || aftermath >= 0.7)
            && (verdict == GatingStressed <==> transition < 0.3 && aftermath < 0.7 && gating >= 0.18)
            && (verdict == LockEdge <==>
                transition < 0.3 && aftermath < 0.7 && gating < 0.18 && compatibility >= 0.12)
            && (verdict == StableCore <==>
                transition < 0.3 && aftermath < 0.7 && gating < 0.18 && compatibility < 0.12)
  {
  }

  /** The severity is the least number that is at least each span, the aftermath counting half and at most 1. */
  lemma SeverityIsLeast(transition: real, gating: real, compatibility: real, aftermath: real, x: real)
    ensures SeverityOf(transition, gating, compatibility, aftermath) <= x
       <==> transition <= x && gating <= x && compatibility <= x && (aftermath <= 2.0 * x || 1.0 <= x)
  {
  }

  // ---------- the evidence ----------

  function SeverityFrom(numbers: Summary, keys: seq<Key>): real
    requires |keys| == 4 && HasAll(numbers, keys)
  {
    SeverityOf(numbers[keys[0]], numbers[keys[1]], numbers[keys[2]], numbers[keys[3]])
  }

  function LabelFrom(numbers: Summary, keys: seq<Key>): Label
    requires |keys| == 4 && HasAll(numbers, keys)
  {
    LabelOf(numbers[keys[0]], numbers[keys[1]], numbers[keys[2]], numbers[keys[3]])
  }

  /** The evidence has exactly these entries, and the label and the severity are those of its numbers. */
  ghost predicate Justified(c: Classification, keys: seq<Key>)
    requires |keys| == 4
  {
    && HasAll(c.evidence, keys)
    && (forall key :: key in c.evidence ==> key in keys)
    && c.verdict == LabelFrom(c.evidence, keys)
    && c.severity == SeverityFrom(c.evidence, keys)
  }

  lemma RobustnessIsJustified(subject: string, report: RobustnessReport)
    requires ClassifyRobustness(subject, report).Success?
    ensures Justified(ClassifyRobustness(subject, report).value, EVIDENCE_KEYS)
  {
    var keys := EVIDENCE_KEYS;
    assert keys[0] in keys && keys[1] in keys && keys[2] in keys && keys[3] in keys;
  }

  lemma {:induction false} NoPlainName(report: EnvelopeReport, i: nat)
    requires report.envelopes != [] && i < 4
    ensures EVIDENCE_KEYS[i] !in WithBounds(EnvelopeCounts(report.envelopes), report.metricEnvelopes)
  {
    WithBoundsKeeps(EnvelopeCounts(report.envelopes), report.metricEnvelopes, EVIDENCE_KEYS[i]);
  }

  lemma HighestIsJustified(subject: string, summary: Summary)
    requires HasAll(summary, ENVELOPE_EVIDENCE_KEYS) && forall i :: 0 <= i < 4 ==> EVIDENCE_KEYS[i] !in summary
    ensures Justified(Classify(subject, summary, ENVELOPE_EVIDENCE_KEYS), ENVELOPE_EVIDENCE_KEYS)
  {
    var keys := ENVELOPE_EVIDENCE_KEYS;
    assert keys[0] in keys && keys[1] in keys && keys[2] in keys && keys[3] in keys;
    assert EVIDENCE_KEYS[0] !in summary && EVIDENCE_KEYS[1] !in summary;
    assert EVIDENCE_KEYS[2] !in summary && EVIDENCE_KEYS[3] !in summary;
  }

  /** Also for a report that no comparison produced: a plain name is in no envelope summary. */
  lemma EnvelopeIsJustified(report: EnvelopeReport)
    requires ClassifyEnvelopes(report).Success?
    ensures Justified(ClassifyEnvelopes(report).value, ENVELOPE_EVIDENCE_KEYS)
  {
    var summary := SummarizeEnvelopes(report).value;
    forall i | 0 <= i < 4 ensures EVIDENCE_KEYS[i] !in summary {
      NoPlainName(report, i);
    }
    HighestIsJustified("comparative_envelopes", summary);
  }

  // ---------- the worst profile ----------

  function Rank(verdict: Label): nat {
    match verdict
    case StableCore => 0
    case LockEdge => 1
    case GatingStressed => 2
    case RetentionPressured => 3
  }

  predicate SameLength(t: seq<real>, g: seq<real>, c: seq<real>, a: seq<real>) {
    |t| == |g| == |c| == |a| > 0
  }

  function SeverityAt(t: seq<real>, g: seq<real>, c: seq<real>, a: seq<real>, i: nat): real
    requires SameLength(t, g, c, a) && i < |t|
  {
    SeverityOf(t[i], g[i], c[i], a[i])
  }

  lemma BelowMaxima(t: seq<real>, g: seq<real>, c: seq<real>, a: seq<real>, i: nat)
    requires SameLength(t, g, c, a) && i < |t|
    ensures t[i] <= Max(t) && g[i] <= Max(g) && c[i] <= Max(c) && a[i] <= Max(a)
  {
    AtMostMax(t, i);
    AtMostMax(g, i);
    AtMostMax(c, i);
    AtMostMax(a, i);
  }

  /** The severity of the largest values is the severity of some row, and no row exceeds it. */
  lemma WorstSeverity(t: seq<real>, g: seq<real>, c: seq<real>, a: seq<real>) returns (worst: nat)
    requires SameLength(t, g, c, a)
    ensures worst < |t| && SeverityAt(t, g, c, a, worst) == SeverityOf(Max(t), Max(g), Max(c), Max(a))
    ensures forall i :: 0 <= i < |t| ==> SeverityAt(t, g, c, a, i) <= SeverityOf(Max(t), Max(g), Max(c), Max(a))
  {
    var top := SeverityOf(Max(t), Max(g), Max(c), Max(a));
    forall i | 0 <= i < |t| ensures SeverityAt(t, g, c, a, i) <= top {
      BelowMaxima(t, g, c, a, i);
    }
    if top == Max(t) {
      worst :| 0 <= worst < |t| && t[worst] == Max(t);
    } else if top == Max(g) {
      worst :| 0 <= worst < |g| && g[worst] == Max(g);
    } else if top == Max(c) {
      worst :| 0 <= worst < |c| && c[worst] == Max(c);
    } else {
      worst :| 0 <= worst < |a| && a[worst] == Max(a);
    }
  }

  function RankAt(t: seq<real>, g: seq<real>, c: seq<real>, a: seq<real>, i: nat): nat
    requires SameLength(t, g, c, a) && i < |t|
  {
    Rank(LabelOf(t[i], g[i], c[i], a[i]))
  }

  lemma WorstRank(t: seq<real>, g: seq<real>, c: seq<real>, a: seq<real>) returns (worst: nat)
    requires SameLength(t, g, c, a)
    ensures worst < |t| && RankAt(t, g, c, a, worst) == Rank(LabelOf(Max(t), Max(g), Max(c), Max(a)))
    ensures forall i :: 0 <= i < |t| ==> RankAt(t, g, c, a, i) <= Rank(LabelOf(Max(t), Max(g), Max(c), Max(a)))
  {
    forall i | 0 <= i < |t| ensures RankAt(t, g, c, a, i) <= Rank(LabelOf(Max(t), Max(g), Max(c), Max(a))) {
      BelowMaxima(t, g, c, a, i);
    }
    if Max(t) >= 0.3 {
      worst :| 0 <= worst < |t| && t[worst] == Max(t);
    } else if Max(a) >= 0.7 {
      worst :| 0 <= worst < |a| && a[worst] == Max(a);
    } else if Max(g) >= 0.18 {
      worst :| 0 <= worst < |g| && g[worst] == Max(g);
    } else {
      worst :| 0 <= worst < |c| && c[worst] == Max(c);
    }
    BelowMaxima(t, g, c, a, worst);
  }

  /** How one profile of an envelope report is classified on its own. */
  function ProfileVerdict(envelope: Envelope): Classification {
    Classify(envelope.id, envelope.summary, EVIDENCE_KEYS)
  }

  ghost predicate Compared(
    engine: Engine, packs: seq<Pack>, base: Parameters, profiles: seq<Profile>, report: EnvelopeReport)
  {
    DictKeys(profiles) && EnvelopesOf(engine, packs, base, profiles) == Success(report)
  }

  /** Every envelope shows its own profile. */
  lemma {:induction false} EnvelopesShowProfiles(
    engine: Engine, packs: seq<Pack>, base: Parameters, profiles: seq<Profile>, report: EnvelopeReport, i: nat)
    requires Compared(engine, packs, base, profiles, report)
    ensures |report.envelopes| == |profiles| > 0 && Comparable(report.envelopes)
    ensures report.metricEnvelopes == MetricEnvelopes(report.envelopes, |ENVELOPE_METRICS|)
    ensures i < |profiles| ==>
              var r := RobustnessOf(engine, packs, base, profiles[i].grids);
              && r.Success? && SummaryOf(r.value) == Success(report.envelopes[i].summary)
              && SpansInUnits(report.envelopes[i].summary)
              && ClassifyRobustness(report.envelopes[i].id, r.value) == Success(ProfileVerdict(report.envelopes[i]))
  {
    var evaluated := Traverse(ProfileEvaluator(engine, packs, base), profiles).value;
    EnvelopesComparable(engine, packs, base, profiles, evaluated, report.envelopes);
    if i < |profiles| {
      ProfileEvaluated(engine, packs, base, profiles, evaluated, report.envelopes, i);
      SpansReadInRange(engine, packs, base, profiles[i].grids, evaluated[i].report);
      UnitClassified(report.envelopes[i].id, evaluated[i].report);
    }
  }

  ghost predicate WorstOf(c: Classification, envelopes: seq<Envelope>) {
    && (forall i :: 0 <= i < |envelopes| ==> ProfileVerdict(envelopes[i]).severity <= c.severity)
    && (exists i :: 0 <= i < |envelopes| && ProfileVerdict(envelopes[i]).severity == c.severity)
    && (forall i :: 0 <= i < |envelopes| ==> Rank(ProfileVerdict(envelopes[i]).verdict) <= Rank(c.verdict))
    && (exists i :: 0 <= i < |envelopes| && ProfileVerdict(envelopes[i]).verdict == c.verdict)
  }

  function ColumnAt(envelopes: seq<Envelope>, j: nat): seq<real>
    requires Comparable(envelopes) && j < |ENVELOPE_METRICS|
  {
    MetricColumn(envelopes, ENVELOPE_METRICS[j])
  }

  /** A profile's own verdict is made of its entries in the columns. */
  lemma VerdictFromColumns(envelopes: seq<Envelope>, i: nat)
    requires Comparable(envelopes) && i < |envelopes|
    ensures var t, g, k, a := ColumnAt(envelopes, 0), ColumnAt(envelopes, 4), ColumnAt(envelopes, 5),
                              ColumnAt(envelopes, 6);
            && ProfileVerdict(envelopes[i]).severity == SeverityAt(t, g, k, a, i)
            && Rank(ProfileVerdict(envelopes[i]).verdict) == RankAt(t, g, k, a, i)
  {
    var summary := envelopes[i].summary;
    assert ENVELOPE_METRICS[0] in summary && ENVELOPE_METRICS[4] in summary;
    assert ENVELOPE_METRICS[5] in summary && ENVELOPE_METRICS[6] in summary;
  }

  lemma ColumnsDecide(envelopes: seq<Envelope>, c: Classification)
    requires envelopes != [] && Comparable(envelopes)
    requires var t, g, k, a := ColumnAt(envelopes, 0), ColumnAt(envelopes, 4), ColumnAt(envelopes, 5),
                               ColumnAt(envelopes, 6);
             && c.severity == SeverityOf(Max(t), Max(g), Max(k), Max(a))
             && c.verdict == LabelOf(Max(t), Max(g), Max(k), Max(a))
    ensures WorstOf(c, envelopes)
  {
    var t, g, k, a := ColumnAt(envelopes, 0), ColumnAt(envelopes, 4), ColumnAt(envelopes, 5), ColumnAt(envelopes, 6);
    forall i | 0 <= i < |envelopes|
      ensures ProfileVerdict(envelopes[i]).severity == SeverityAt(t, g, k, a, i)
      ensures Rank(ProfileVerdict(envelopes[i]).verdict) == RankAt(t, g, k, a, i)
    {
      VerdictFromColumns(envelopes, i);
    }
    var m := WorstSeverity(t, g, k, a);
    var n := WorstRank(t, g, k, a);
    assert ProfileVerdict(envelopes[m]).severity == c.severity;
    assert Rank(ProfileVerdict(envelopes[n]).verdict) == Rank(c.verdict);
    assert ProfileVerdict(envelopes[n]).verdict == c.verdict;
  }

  lemma HighestPresent(report: EnvelopeReport, j: nat)
    requires report.envelopes != [] && Comparable(report.envelopes) && j < |ENVELOPE_METRICS|
    requires report.metricEnvelopes == MetricEnvelopes(report.envelopes, |ENVELOPE_METRICS|)
    ensures Highest(ENVELOPE_METRICS[j]) in WithBounds(EnvelopeCounts(report.envelopes), report.metricEnvelopes)
  {
    MetricEnvelopesDiffer(report.envelopes, report.metricEnvelopes, j);
    WithBoundsReads(EnvelopeCounts(report.envelopes), report.metricEnvelopes, j);
  }

  /** A report of compared profiles has every entry that its classification cites. */
  lemma ComparedIsClassified(report: EnvelopeReport)
    requires report.envelopes != [] && Comparable(report.envelopes)
    requires report.metricEnvelopes == MetricEnvelopes(report.envelopes, |ENVELOPE_METRICS|)
    ensures ClassifyEnvelopes(report).Success?
  {
    HighestPresent(report, 0);
    HighestPresent(report, 4);
    HighestPresent(report, 5);
    HighestPresent(report, 6);
  }

  lemma EnvelopeOfMaxima(report: EnvelopeReport)
    requires report.envelopes != [] && Comparable(report.envelopes)
    requires report.metricEnvelopes == MetricEnvelopes(report.envelopes, |ENVELOPE_METRICS|)
    ensures ClassifyEnvelopes(report).Success? && WorstOf(ClassifyEnvelopes(report).value, report.envelopes)
  {
    ComparedIsClassified(report);
    EnvelopeLookup(report, 0);
    EnvelopeLookup(report, 4);
    EnvelopeLookup(report, 5);
    EnvelopeLookup(report, 6);
    ColumnsDecide(report.envelopes, ClassifyEnvelopes(report).value);
  }

  /** The envelopes are classified like the worst of their profiles, and with a severity in [0, 1]. */
  lemma {:induction false} EnvelopeIsWorstProfile(
    engine: Engine, packs: seq<Pack>, base: Parameters, profiles: seq<Profile>, report: EnvelopeReport)
    requires Compared(engine, packs, base, profiles, report)
    ensures var c := ClassifyEnvelopes(report);
            c.Success? && Unit(c.value.severity) && WorstOf(c.value, report.envelopes)
  {
    EnvelopesShowProfiles(engine, packs, base, profiles, report, 0);
    EnvelopeOfMaxima(report);
    var c := ClassifyEnvelopes(report).value;
    var i :| 0 <= i < |report.envelopes| && ProfileVerdict(report.envelopes[i]).severity == c.severity;
    EnvelopesShowProfiles(engine, packs, base, profiles, report, i);
    UnitSeverity(report.envelopes[i].id, report.envelopes[i].summary);
  }
}
