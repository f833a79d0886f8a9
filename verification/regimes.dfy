/** The canonical profiles and stress regimes, and the report that classifies them all. */
module Regimes {
  import opened Classifier
  import opened Common
  import opened Embedding
  import opened Evaluation
  import opened Robustness
  import opened Sensitivity
  import opened Sorting
  import opened Statistics
  import opened Surfaces

  const DEFAULT_PARAMETERS := Parameters(1.0, 1.0, 1.0, 0.7, 0.2, 10.0)

  const STABILITY_WINDOW_AXES := [
    AxisGrid(Lam, [0.95, 1.0, 1.05]),
    AxisGrid(Omega, [0.95, 1.0, 1.05]),
    AxisGrid(LockThreshold, [0.68, 0.7, 0.72])]

  const STABILITY_WINDOW := Profile("stability_window", STABILITY_WINDOW_AXES)

  const GATING_STRESS_WINDOW_AXES := [
    AxisGrid(LockGateMax, [0.16, 0.2, 0.24]),
    AxisGrid(LogisticK, [8.0, 10.0, 12.0]),
    AxisGrid(Mu, [0.9, 1.0, 1.1])]

  const GATING_STRESS_WINDOW := Profile("gating_stress_window", GATING_STRESS_WINDOW_AXES)

  const RETENTION_PRESSURE_WINDOW_AXES := [
    AxisGrid(Lam, [0.9, 1.0, 1.1]),
    AxisGrid(Mu, [0.92, 1.0, 1.08]),
    AxisGrid(Omega, [0.9, 1.0, 1.1])]

  const RETENTION_PRESSURE_WINDOW := Profile("retention_pressure_window", RETENTION_PRESSURE_WINDOW_AXES)

  const CANONICAL_PROFILES := [STABILITY_WINDOW, GATING_STRESS_WINDOW, RETENTION_PRESSURE_WINDOW]

  const LOCK_EDGE_REGIME_AXES := [
    AxisGrid(LockThreshold, [0.74, 0.78, 0.82]),
    AxisGrid(LockGateMax, [0.10, 0.14, 0.18]),
    AxisGrid(Lam, [0.86, 0.92, 0.98])]

  const LOCK_EDGE_REGIME := Profile("lock_edge_regime", LOCK_EDGE_REGIME_AXES)

  const GATING_OVERDRIVE_REGIME_AXES := [
    AxisGrid(LogisticK, [12.0, 14.0, 16.0]),
    AxisGrid(LockGateMax, [0.22, 0.26, 0.3]),
    AxisGrid(Mu, [0.84, 0.92, 1.0])]

  const GATING_OVERDRIVE_REGIME := Profile("gating_overdrive_regime", GATING_OVERDRIVE_REGIME_AXES)

  const RETENTION_COLLAPSE_REGIME_AXES := [
    AxisGrid(Lam, [0.78, 0.84, 0.9]),
    AxisGrid(Mu, [0.8, 0.86, 0.92]),
    AxisGrid(Omega, [0.76, 0.84, 0.92])]

  const RETENTION_COLLAPSE_REGIME := Profile("retention_collapse_regime", RETENTION_COLLAPSE_REGIME_AXES)

  const STRESS_REGIMES := [LOCK_EDGE_REGIME, GATING_OVERDRIVE_REGIME, RETENTION_COLLAPSE_REGIME]

  lemma CoveredByMiddle(base: Parameters, grids: seq<AxisGrid>)
    requires forall i :: 0 <= i < |grids| ==>
                           && !grids[i].axis.Unknown? && |grids[i].values| == 3
                           && Get(base, grids[i].axis) == grids[i].values[1]
    ensures BaseCovers(base, grids)
  {
    forall i | 0 <= i < |grids| ensures OnOtherAxes(base, grids, i) {
      forall j | 0 <= j < |grids| && j != i ensures Get(base, grids[j].axis) in grids[j].values {
        assert grids[j].values[1] in grids[j].values;
      }
    }
  }

  /** Three values, the middle one half way between the others. */
  predicate EvenlySpaced(grid: AxisGrid) {
    && |grid.values| == 3 && grid.values[0] < grid.values[1] < grid.values[2]
    && grid.values[1] - grid.values[0] == grid.values[2] - grid.values[1]
  }

  /** Every profile and regime varies three known axes, each over three evenly spaced valid values. */
  lemma ProfilesAreEven(profile: Profile, i: nat)
    requires (profile in CANONICAL_PROFILES || profile in STRESS_REGIMES) && i < |profile.grids|
    ensures |profile.grids| == 3 && EvenlySpaced(profile.grids[i]) && !profile.grids[i].axis.Unknown?
    ensures profile in CANONICAL_PROFILES ==>
              Get(DEFAULT_PARAMETERS, profile.grids[i].axis) == profile.grids[i].values[1]
  {
  }

  lemma UncoveredByAxes(base: Parameters, grids: seq<AxisGrid>, i: nat, j: nat)
    requires i < |grids| && j < |grids| && i != j && !grids[j].axis.Unknown?
    requires Get(base, grids[j].axis) !in grids[j].values && !Constant(grids[i].values)
    ensures !BaseCovers(base, grids)
  {
  }

  /** The default parameters cover every canonical profile, and no stress regime. */
  lemma DefaultsCover(profile: Profile)
    ensures profile in CANONICAL_PROFILES ==> BaseCovers(DEFAULT_PARAMETERS, profile.grids)
    ensures profile in STRESS_REGIMES ==> !BaseCovers(DEFAULT_PARAMETERS, profile.grids)
  {
    if profile in CANONICAL_PROFILES {
      CoveredByMiddle(DEFAULT_PARAMETERS, profile.grids);
    }
    if profile in STRESS_REGIMES {
      var grids := profile.grids;
      assert grids[1].values[0] != grids[1].values[1];
      UncoveredByAxes(DEFAULT_PARAMETERS, grids, 1, 0);
    }
  }

  lemma CanonicalKeys()
    ensures DictKeys(CANONICAL_PROFILES) && DictKeys(STRESS_REGIMES)
  {
  }

  predicate ValidTriple(grid: AxisGrid) {
    && |grid.values| == 3
    && ValidAt(grid.axis, grid.values[0]) && ValidAt(grid.axis, grid.values[1]) && ValidAt(grid.axis, grid.values[2])
  }

  lemma TriplesAreAdmissible(packs: seq<Pack>, grids: seq<AxisGrid>)
    requires packs != [] && forall i :: 0 <= i < |packs| ==> ValidPack(packs[i])
    requires grids != [] && Distinct(AxesOf(grids)) && forall i :: 0 <= i < |grids| ==> ValidTriple(grids[i])
    ensures Admissible(packs, DEFAULT_PARAMETERS, grids)
  {
  }

  lemma RegimesAreTriples(regime: Profile)
    requires regime in STRESS_REGIMES
    ensures forall i :: 0 <= i < |regime.grids| ==> ValidTriple(regime.grids[i])
  {
  }

  /** With the default parameters, some engine makes a stress regime's surfaces spread further than its grid. */
  lemma StressRegimesEscape(packs: seq<Pack>, regime: Profile) returns (engine: Engine)
    requires regime in STRESS_REGIMES && packs != [] && forall i :: 0 <= i < |packs| ==> ValidPack(packs[i])
    ensures !EmbedsFor(engine, packs, DEFAULT_PARAMETERS, regime.grids)
  {
    DefaultsCover(regime);
    CanonicalKeys();
    RegimesAreTriples(regime);
    TriplesAreAdmissible(packs, regime.grids);
    engine := SomeEngineEscapes(packs, DEFAULT_PARAMETERS, regime.grids);
  }

  /** With the default parameters, the three envelope maxima of transition spans are ordered. */
  lemma {:induction false} CanonicalEnvelopesAreOrdered(engine: Engine, packs: seq<Pack>, report: EnvelopeReport)
    requires Compared(engine, packs, DEFAULT_PARAMETERS, CANONICAL_PROFILES, report)
    ensures SummarizeEnvelopes(report).Success?
    ensures var s := SummarizeEnvelopes(report).value;
            Lookup(s, MaxSurfaceSpan(TransitionChannel)) <= Lookup(s, MeanSpan(TransitionChannel))
         <= Lookup(s, MaxTransitionSpan)
  {
    EnvelopesShowProfiles(engine, packs, DEFAULT_PARAMETERS, CANONICAL_PROFILES, report, 0);
    forall i | 0 <= i < |report.envelopes| ensures EmbedsAt(report.envelopes, i) {
      CanonicalProfileEmbeds(engine, packs, report, i);
    }
    MaximaLookedUp(report);
    OrderedColumns(report.envelopes);
  }

  ghost predicate EmbedsAt(envelopes: seq<Envelope>, i: nat)
    requires i < |envelopes|
  {
    HasKeys(envelopes[i].summary) && Embeds(envelopes[i].summary)
  }

  lemma MaximaLookedUp(report: EnvelopeReport)
    requires report.envelopes != [] && Comparable(report.envelopes)
    requires report.metricEnvelopes == MetricEnvelopes(report.envelopes, |ENVELOPE_METRICS|)
    ensures SummarizeEnvelopes(report).Success?
    ensures var s := SummarizeEnvelopes(report).value;
            && Lookup(s, MaxSurfaceSpan(TransitionChannel)) == Max(ColumnAt(report.envelopes, 4))
            && Lookup(s, MeanSpan(TransitionChannel)) == Max(ColumnAt(report.envelopes, 1))
            && Lookup(s, MaxTransitionSpan) == Max(ColumnAt(report.envelopes, 0))
  {
    EnvelopeLookup(report, 4);
    EnvelopeLookup(report, 1);
    EnvelopeLookup(report, 0);
  }

  lemma OrderedColumns(envelopes: seq<Envelope>)
    requires envelopes != [] && Comparable(envelopes)
    requires forall i :: 0 <= i < |envelopes| ==> EmbedsAt(envelopes, i)
    ensures Max(ColumnAt(envelopes, 4)) <= Max(ColumnAt(envelopes, 1)) <= Max(ColumnAt(envelopes, 0))
  {
    var surface, mean, largest := ColumnAt(envelopes, 4), ColumnAt(envelopes, 1), ColumnAt(envelopes, 0);
    forall i | 0 <= i < |envelopes| ensures surface[i] <= mean[i] <= largest[i] {
      assert EmbedsAt(envelopes, i);
    }
    MaximaOrdered(surface, mean);
    MaximaOrdered(mean, largest);
  }

  lemma MaximaOrdered(a: seq<real>, b: seq<real>)
    requires |a| == |b| > 0 && forall i :: 0 <= i < |a| ==> a[i] <= b[i]
    ensures Max(a) <= Max(b)
  {
    var i :| 0 <= i < |a| && a[i] == Max(a);
    AtMostMax(b, i);
  }

  lemma {:induction false} CanonicalProfileEmbeds(engine: Engine, packs: seq<Pack>, report: EnvelopeReport, i: nat)
    requires Compared(engine, packs, DEFAULT_PARAMETERS, CANONICAL_PROFILES, report) && i < |report.envelopes|
    ensures HasKeys(report.envelopes[i].summary) && Embeds(report.envelopes[i].summary)
  {
    EnvelopesShowProfiles(engine, packs, DEFAULT_PARAMETERS, CANONICAL_PROFILES, report, i);
    var profile := CANONICAL_PROFILES[i];
    assert profile in CANONICAL_PROFILES;
    DefaultsCover(profile);
    var r := RobustnessOf(engine, packs, DEFAULT_PARAMETERS, profile.grids).value;
    SurfaceSpansEmbed(engine, packs, DEFAULT_PARAMETERS, profile.grids, r);
  }

  // ---------- the classifier report ----------

  datatype ClassifierReport = ClassifierReport(
    classifications: seq<Classification>, dominant: Label, histogram: map<Label, nat>, meanSeverity: real,
    comparativeSummary: Summary)

  function Count(cs: seq<Classification>, verdict: Label): nat {
    if cs == [] then 0
    else Count(cs[..|cs| - 1], verdict) + if cs[|cs| - 1].verdict == verdict then 1 else 0
  }

  /** Every classification is counted under one label. */
  lemma {:induction false} CountsAddUp(cs: seq<Classification>)
    ensures Count(cs, GatingStressed) + Count(cs, LockEdge) + Count(cs, RetentionPressured) + Count(cs, StableCore)
         == |cs|
  {
    if cs != [] {
      CountsAddUp(cs[..|cs| - 1]);
    }
  }

  ghost predicate Counts(histogram: map<Label, nat>, cs: seq<Classification>) {
    forall verdict: Label ::
      && (verdict in histogram <==> Count(cs, verdict) > 0)
      && (verdict in histogram ==> histogram[verdict] == Count(cs, verdict))
  }

  method BuildHistogram(cs: seq<Classification>) returns (histogram: map<Label, nat>)
    ensures Counts(histogram, cs)
  {
    histogram := map[];
    for i := 0 to |cs|
      invariant Counts(histogram, cs[..i])
    {
      assert cs[..i + 1][..i] == cs[..i];
      var verdict := cs[i].verdict;
      histogram := histogram[verdict := (if verdict in histogram then histogram[verdict] else 0) + 1];
    }
    assert cs[..|cs|] == cs;
  }

  function Position(verdict: Label): nat {
    match verdict
    case GatingStressed => 0
    case LockEdge => 1
    case RetentionPressured => 2
    case StableCore => 3
  }

  /** The order of the pairs of count and label. */
  predicate Beats(histogram: map<Label, nat>, x: Label, y: Label)
    requires x in histogram && y in histogram
  {
    histogram[x] > histogram[y] || (histogram[x] == histogram[y] && Position(x) >= Position(y))
  }

  function LabelText(verdict: Label): string {
    match verdict
    case GatingStressed => "gating-stressed"
    case LockEdge => "lock-edge"
    case RetentionPressured => "retention-pressured"
    case StableCore => "stable-core"
  }

  /** The order of the labels is that of their texts. */
  lemma PositionIsAlphabetical(x: Label, y: Label)
    ensures Position(x) <= Position(y) <==> AtMost(LabelText(x), LabelText(y))
  {
    AtMostIsTotal(LabelText(x), LabelText(x));
    FirstLetters(x);
    FirstLetters(y);
  }

  lemma FirstLetters(x: Label)
    ensures LabelText(x) != ""
    ensures LabelText(x)[0] == match x
                               case GatingStressed => 'g'
                               case LockEdge => 'l'
                               case RetentionPressured => 'r'
                               case StableCore => 's'
  {
  }

  function Better(histogram: map<Label, nat>, best: Option<Label>, verdict: Label): (better: Option<Label>)
    requires best.Some? ==> best.value in histogram
    ensures better.Some? ==> better.value in histogram
  {
    if verdict !in histogram then best
    else if best.Some? && !Beats(histogram, verdict, best.value) then best
    else Some(verdict)
  }

  function Dominant(histogram: map<Label, nat>): (best: Option<Label>)
    ensures best.Some? ==> best.value in histogram
  {
    var first := Better(histogram, None, GatingStressed);
    var second := Better(histogram, first, LockEdge);
    var third := Better(histogram, second, RetentionPressured);
    Better(histogram, third, StableCore)
  }

  /** The dominant label has the largest count, and is the alphabetically last of several such. */
  lemma DominantWins(histogram: map<Label, nat>, verdict: Label)
    requires verdict in histogram
    ensures Dominant(histogram).Some? && Beats(histogram, Dominant(histogram).value, verdict)
  {
    match verdict
    case GatingStressed =>
    case LockEdge =>
    case RetentionPressured =>
    case StableCore =>
  }

  function Severities(cs: seq<Classification>): seq<real> {
    seq(|cs|, i requires 0 <= i < |cs| => cs[i].severity)
  }

  function ClassifyAssessment(assessment: Assessment): Outcome<Classification> {
    ClassifyRobustness(assessment.profile.id, assessment.report)
  }

  /** The summary of the compared profiles. */
  function ComparativeSummary(engine: Engine, packs: seq<Pack>, base: Parameters): Outcome<Summary> {
    CanonicalKeys();
    var envelopes :- EnvelopesOf(engine, packs, base, CANONICAL_PROFILES);
    SummarizeEnvelopes(envelopes)
  }

  /** The classified stress regimes, then the classified envelopes of the profiles. */
  function ClassificationsOf(engine: Engine, packs: seq<Pack>, base: Parameters): Outcome<seq<Classification>> {
    CanonicalKeys();
    var envelopes :- EnvelopesOf(engine, packs, base, CANONICAL_PROFILES);
    var summary :- SummarizeEnvelopes(envelopes);
    var stress :- Traverse(ProfileEvaluator(engine, packs, base), STRESS_REGIMES);
    var classifications :- Traverse(ClassifyAssessment, stress);
    var comparative :- ClassifyEnvelopes(envelopes);
    Success(classifications + [comparative])
  }

  lemma {:induction false} RegimeSeverityInUnit(
    engine: Engine, packs: seq<Pack>, base: Parameters, regimes: seq<Profile>, stress: seq<Assessment>, i: nat)
    requires DictKeys(regimes) && i < |regimes|
    requires Traverse(ProfileEvaluator(engine, packs, base), regimes) == Success(stress)
    ensures |stress| == |regimes|
    ensures ClassifyAssessment(stress[i]).Success? && Unit(ClassifyAssessment(stress[i]).value.severity)
  {
    TraverseIsPointwise(ProfileEvaluator(engine, packs, base), regimes);
    assert EvaluateProfile(engine, packs, base, regimes[i]) == Success(stress[i]);
    RobustnessSeverityInUnit(engine, packs, base, regimes[i].grids, stress[i].report, regimes[i].id);
  }

  ghost predicate UnitSeverities(cs: seq<Classification>) {
    forall i :: 0 <= i < |cs| ==> Unit(cs[i].severity)
  }

  lemma {:induction false} RegimesInUnit(
    engine: Engine, packs: seq<Pack>, base: Parameters, regimes: seq<Profile>, stress: seq<Assessment>,
    cs: seq<Classification>)
    requires DictKeys(regimes) && Traverse(ProfileEvaluator(engine, packs, base), regimes) == Success(stress)
    requires Traverse(ClassifyAssessment, stress) == Success(cs)
    ensures |cs| == |regimes| && UnitSeverities(cs)
  {
    TraverseIsPointwise(ProfileEvaluator(engine, packs, base), regimes);
    TraverseIsPointwise(ClassifyAssessment, stress);
    forall i | 0 <= i < |cs| ensures Unit(cs[i].severity) {
      RegimeSeverityInUnit(engine, packs, base, regimes, stress, i);
    }
  }

  lemma UnitMean(cs: seq<Classification>)
    requires cs != [] && UnitSeverities(cs)
    ensures Unit(Mean(Severities(cs)))
  {
    MeanWithin(Severities(cs), 0.0, 1.0);
  }

  /** All the severities reported, and so their mean, are in [0, 1]. */
  lemma {:induction false} SeveritiesInUnit(engine: Engine, packs: seq<Pack>, base: Parameters)
    requires ClassificationsOf(engine, packs, base).Success?
    ensures var cs := ClassificationsOf(engine, packs, base).value;
            |cs| == |STRESS_REGIMES| + 1 && UnitSeverities(cs) && Unit(Mean(Severities(cs)))
  {
    CanonicalKeys();
    var envelopes := EnvelopesOf(engine, packs, base, CANONICAL_PROFILES).value;
    EnvelopeIsWorstProfile(engine, packs, base, CANONICAL_PROFILES, envelopes);
    var stress := Traverse(ProfileEvaluator(engine, packs, base), STRESS_REGIMES).value;
    RegimesInUnit(engine, packs, base, STRESS_REGIMES, stress, Traverse(ClassifyAssessment, stress).value);
    UnitMean(ClassificationsOf(engine, packs, base).value);
  }

  lemma {:induction false} SomeLabelCounted(cs: seq<Classification>)
    requires cs != []
    ensures Count(cs, cs[0].verdict) > 0
  {
    if |cs| > 1 {
      SomeLabelCounted(cs[..|cs| - 1]);
    }
  }

  ghost function TotalSeverity(cs: seq<Classification>): real {
    if cs == [] then 0.0 else TotalSeverity(cs[..|cs| - 1]) + cs[|cs| - 1].severity
  }

  lemma {:induction false} SeveritiesAddUp(cs: seq<Classification>)
    ensures Sum(Severities(cs)) == TotalSeverity(cs)
  {
    if cs != [] {
      SeveritiesAddUp(cs[..|cs| - 1]);
      assert Severities(cs)[..|cs| - 1] == Severities(cs[..|cs| - 1]);
    }
  }

  /** The mean that counts every classification once. */
  ghost predicate IsMeanSeverity(x: real, cs: seq<Classification>) {
    cs != [] && x == TotalSeverity(cs) / |cs| as real
  }

  lemma MeanSeverityIs(cs: seq<Classification>)
    requires cs != []
    ensures IsMeanSeverity(Mean(Severities(cs)), cs)
  {
    SeveritiesAddUp(cs);
    assert |Severities(cs)| == |cs|;
  }

  method EvaluateClassifierReport(engine: Engine, packs: seq<Pack>, base: Parameters)
    returns (report: Outcome<ClassifierReport>)
    ensures var cs := ClassificationsOf(engine, packs, base);
            if cs.Failure? then report == Failure(cs.error)
            else
              && report.Success? && report.value.classifications == cs.value
              && Counts(report.value.histogram, cs.value)
              && Dominant(report.value.histogram) == Some(report.value.dominant)
              && IsMeanSeverity(report.value.meanSeverity, cs.value) && Unit(report.value.meanSeverity)
              && ComparativeSummary(engine, packs, base) == Success(report.value.comparativeSummary)
  {
    var outcome := ClassificationsOf(engine, packs, base);
    if outcome.Failure? {
      return Failure(outcome.error);
    }
    SeveritiesInUnit(engine, packs, base);
    var cs := outcome.value;
    var histogram := BuildHistogram(cs);
    SomeLabelCounted(cs);
    DominantWins(histogram, cs[0].verdict);
    MeanSeverityIs(cs);
    var summary := ComparativeSummary(engine, packs, base);
    report := Success(
      ClassifierReport(cs, Dominant(histogram).value, histogram, Mean(Severities(cs)), summary.value));
  }

  ghost predicate ClassifiesRegime(
    engine: Engine, packs: seq<Pack>, base: Parameters, regime: Profile, c: Classification)
  {
    var report := RobustnessOf(engine, packs, base, regime.grids);
    report.Success? && ClassifyRobustness(regime.id, report.value) == Success(c)
  }

  ghost predicate ClassifiesProfiles(engine: Engine, packs: seq<Pack>, base: Parameters, c: Classification) {
    DictKeys(CANONICAL_PROFILES) &&
    var report := EnvelopesOf(engine, packs, base, CANONICAL_PROFILES);
    report.Success? && ClassifyEnvelopes(report.value) == Success(c)
  }

  lemma {:induction false} RegimesClassified(
    engine: Engine, packs: seq<Pack>, base: Parameters, regimes: seq<Profile>, stress: seq<Assessment>,
    cs: seq<Classification>, i: nat)
    requires Traverse(ProfileEvaluator(engine, packs, base), regimes) == Success(stress)
    requires Traverse(ClassifyAssessment, stress) == Success(cs) && i < |regimes|
    ensures |cs| == |regimes| && ClassifiesRegime(engine, packs, base, regimes[i], cs[i])
  {
    TraverseIsPointwise(ProfileEvaluator(engine, packs, base), regimes);
    TraverseIsPointwise(ClassifyAssessment, stress);
    assert EvaluateProfile(engine, packs, base, regimes[i]) == Success(stress[i]);
  }

  /** The report classifies each stress regime under its own name, and then the compared profiles. */
  lemma {:induction false} ReportSubjects(engine: Engine, packs: seq<Pack>, base: Parameters, i: nat)
    requires ClassificationsOf(engine, packs, base).Success? && i < |STRESS_REGIMES|
    ensures var cs := ClassificationsOf(engine, packs, base).value;
            && |cs| == |STRESS_REGIMES| + 1
            && ClassifiesRegime(engine, packs, base, STRESS_REGIMES[i], cs[i])
            && ClassifiesProfiles(engine, packs, base, cs[|cs| - 1])
  {
    CanonicalKeys();
    var stress := Traverse(ProfileEvaluator(engine, packs, base), STRESS_REGIMES).value;
    RegimesClassified(engine, packs, base, STRESS_REGIMES, stress, Traverse(ClassifyAssessment, stress).value, i);
  }
}
