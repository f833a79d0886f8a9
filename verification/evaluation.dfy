/** Transition batches and scenario packs, evaluated by a private engine that may return anything or fail. */
module Evaluation {
  import opened Common
  import opened Statistics
  import opened Text

  datatype CgtError = Invalid | UnknownField | UnknownAxis | EngineFailed | MissingKey

  type Outcome<+T> = Result<T, CgtError>

  datatype Parameters = Parameters(
    lam: real, omega: real, mu: real, lockThreshold: real, lockGateMax: real, logisticK: real)

  datatype Phase = Phase(
    id: string, mass: real, meanRetention: real, harmony: real, fatigue: real, selfPotential: Option<real>)

  /** `other` stands for the arguments that are handed to the engine unchecked. */
  datatype Transition = Transition(
    source: Phase, target: Phase, gateOpenness: real, carryingCapacity: real, localSafety: real,
    continuationChannel: real, other: int)

  datatype Existence = Existence(origin: real, carrier: real, effect: real, score: real)

  datatype Possibility = Possibility(rawPotential: real, constraint: real, carrier: real, score: real)

  datatype DynamicLift = DynamicLift(dwellTime: real, pressure: real, carrier: real, overload: real, lift: real)

  datatype Fate = Fate(
    stability: real, hybridity: real, distortion: real, extinction: real, collapse: real, flourishing: real,
    balance: real)

  datatype LockState = LockState(locked: bool, transitionGate: real, lockGateMax: real)

  datatype Report = Report(
    transmissibility: real, retention: real, selfPotential: real, lock: LockState, delayGate: real,
    compatibility: real, transitionChannel: real, collapse: real, flourishing: real, balance: real,
    existence: Option<Existence>, possibility: Option<Possibility>, lift: Option<DynamicLift>, fate: Option<Fate>)

  /** The private engine: any function of the transition and the parameters. */
  type Engine = (Transition, Parameters) -> Outcome<Report>

  datatype Pack = Pack(id: string, transitions: seq<Transition>)

  /** The three averages of a pack's reports, and equally the three means over all packs. */
  datatype Means = Means(transition: real, compatibility: real, balance: real)

  datatype PackResult = PackResult(id: string, reports: seq<Report>, summary: Means)

  // ---------- validation ----------

  predicate Unit(x: real) {
    0.0 <= x <= 1.0
  }

  predicate ValidPhase(p: Phase) {
    && Strip(p.id) != "" && p.mass >= 0.0 && Unit(p.meanRetention) && Unit(p.harmony) && p.fatigue >= 0.0
    && (p.selfPotential.Some? ==> -1000000.0 <= p.selfPotential.value <= 1000000.0)
  }

  predicate ValidParameters(p: Parameters) {
    && p.lam >= 0.0 && p.omega >= 0.0 && p.mu >= 0.0
    && Unit(p.lockThreshold) && Unit(p.lockGateMax) && p.logisticK >= 0.0
  }

  predicate ValidTransition(t: Transition) {
    && ValidPhase(t.source) && ValidPhase(t.target)
    && Unit(t.gateOpenness) && Unit(t.carryingCapacity) && Unit(t.localSafety) && Unit(t.continuationChannel)
  }

  predicate ValidPack(p: Pack) {
    && Strip(p.id) != "" && p.transitions != []
    && forall i :: 0 <= i < |p.transitions| ==> ValidTransition(p.transitions[i])
  }

  predicate ValidExistence(e: Existence) {
    Unit(e.origin) && Unit(e.carrier) && Unit(e.effect) && Unit(e.score)
  }

  predicate ValidPossibility(p: Possibility) {
    Unit(p.rawPotential) && Unit(p.constraint) && Unit(p.carrier) && Unit(p.score)
  }

  predicate ValidLift(l: DynamicLift) {
    l.dwellTime >= 0.0 && Unit(l.pressure) && Unit(l.carrier) && Unit(l.overload) && Unit(l.lift)
  }

  predicate ValidFate(f: Fate) {
    && Unit(f.stability) && Unit(f.hybridity) && Unit(f.distortion) && Unit(f.extinction) && Unit(f.collapse)
    && Unit(f.flourishing) && -1.0 <= f.balance <= 1.0
  }

  predicate ValidReport(r: Report) {
    && Unit(r.transmissibility) && Unit(r.retention) && -1000000.0 <= r.selfPotential <= 1000000.0
    && Unit(r.delayGate) && Unit(r.compatibility) && Unit(r.transitionChannel)
    && Unit(r.collapse) && Unit(r.flourishing) && -1.0 <= r.balance <= 1.0
    && (r.existence.Some? ==> ValidExistence(r.existence.value))
    && (r.possibility.Some? ==> ValidPossibility(r.possibility.value))
    && (r.lift.Some? ==> ValidLift(r.lift.value))
    && (r.fate.Some? ==> ValidFate(r.fate.value))
    && !(r.lock.transitionGate > r.lock.lockGateMax && r.lock.locked)
  }

  function Checked<T>(ok: bool, value: T): Outcome<T> {
    if ok then Success(value) else Failure(Invalid)
  }

  // ---------- lists whose first failing element decides ----------

  function Traverse<A, B>(f: A -> Outcome<B>, xs: seq<A>): Outcome<seq<B>> {
    if xs == [] then Success([])
    else
      var front :- Traverse(f, xs[..|xs| - 1]);
      var last :- f(xs[|xs| - 1]);
      Success(front + [last])
  }

  ghost predicate Pointwise<A, B>(f: A -> Outcome<B>, xs: seq<A>, ys: seq<B>) {
    |ys| == |xs| && forall i :: 0 <= i < |xs| ==> f(xs[i]) == Success(ys[i])
  }

  lemma {:induction false} TraverseIsPointwise<A, B>(f: A -> Outcome<B>, xs: seq<A>)
    ensures Traverse(f, xs).Success? ==> Pointwise(f, xs, Traverse(f, xs).value)
    ensures (forall i :: 0 <= i < |xs| ==> f(xs[i]).Success?) ==> Traverse(f, xs).Success?
  {
    if xs != [] {
      var front := xs[..|xs| - 1];
      TraverseIsPointwise(f, front);
      if Traverse(f, xs).Success? {
        var ys := Traverse(f, front).value;
        var zs := Traverse(f, xs).value;
        assert f(xs[|xs| - 1]).Success? && zs == ys + [f(xs[|xs| - 1]).value];
        forall i | 0 <= i < |xs| ensures f(xs[i]) == Success(zs[i]) {
          if i < |front| {
            assert front[i] == xs[i];
          }
        }
      }
      if forall i :: 0 <= i < |xs| ==> f(xs[i]).Success? {
        assert forall i :: 0 <= i < |front| ==> f(front[i]) == f(xs[i]);
      }
    }
  }

  lemma {:induction false} FirstFailure<A, B>(f: A -> Outcome<B>, xs: seq<A>, i: nat)
    requires i < |xs| && Traverse(f, xs[..i]).Success? && f(xs[i]).Failure?
    ensures Traverse(f, xs) == Failure(f(xs[i]).error)
  {
    if i + 1 == |xs| {
      assert xs[..|xs| - 1] == xs[..i];
    } else {
      var front := xs[..|xs| - 1];
      assert front[..i] == xs[..i];
      FirstFailure(f, front, i);
    }
  }

  // ---------- batches and packs ----------

  function EvaluateTransition(engine: Engine, t: Transition, params: Parameters): Outcome<Report> {
    var report :- engine(t, params);
    Checked(ValidReport(report), report)
  }

  function Evaluator(engine: Engine, params: Parameters): Transition -> Outcome<Report> {
    (t: Transition) => EvaluateTransition(engine, t, params)
  }

  function EvaluateBatch(engine: Engine, inputs: seq<Transition>, params: Parameters): Outcome<seq<Report>> {
    if inputs == [] || !ValidParameters(params) then Failure(Invalid)
    else Traverse(Evaluator(engine, params), inputs)
  }

  function TransitionChannels(reports: seq<Report>): seq<real> {
    seq(|reports|, i requires 0 <= i < |reports| => reports[i].transitionChannel)
  }

  function Compatibilities(reports: seq<Report>): seq<real> {
    seq(|reports|, i requires 0 <= i < |reports| => reports[i].compatibility)
  }

  function Balances(reports: seq<Report>): seq<real> {
    seq(|reports|, i requires 0 <= i < |reports| => reports[i].balance)
  }

  function SimulateSeries(reports: seq<Report>): Outcome<Means> {
    if reports == [] then Failure(Invalid)
    else
      Success(Means(Mean(TransitionChannels(reports)), Mean(Compatibilities(reports)), Mean(Balances(reports))))
  }

  function SummarizeBatch(engine: Engine, inputs: seq<Transition>, params: Parameters): Outcome<Means> {
    var reports :- EvaluateBatch(engine, inputs, params);
    SimulateSeries(reports)
  }

  function EvaluatePack(engine: Engine, pack: Pack, params: Parameters): Outcome<PackResult> {
    if !ValidParameters(params) || !ValidPack(pack) then Failure(Invalid)
    else
      var reports :- EvaluateBatch(engine, pack.transitions, params);
      var summary :- SummarizeBatch(engine, pack.transitions, params);
      Success(PackResult(pack.id, reports, summary))
  }

  function PackEvaluator(engine: Engine, params: Parameters): Pack -> Outcome<PackResult> {
    (pack: Pack) => EvaluatePack(engine, pack, params)
  }

  function EvaluatePacks(engine: Engine, packs: seq<Pack>, params: Parameters): Outcome<seq<PackResult>> {
    if packs == [] || !ValidParameters(params) then Failure(Invalid)
    else Traverse(PackEvaluator(engine, params), packs)
  }

  function TransitionMeans(results: seq<PackResult>): seq<real> {
    seq(|results|, i requires 0 <= i < |results| => results[i].summary.transition)
  }

  function CompatibilityMeans(results: seq<PackResult>): seq<real> {
    seq(|results|, i requires 0 <= i < |results| => results[i].summary.compatibility)
  }

  function BalanceMeans(results: seq<PackResult>): seq<real> {
    seq(|results|, i requires 0 <= i < |results| => results[i].summary.balance)
  }

  function SummarizePacks(results: seq<PackResult>): Outcome<Means> {
    if results == [] then Failure(Invalid)
    else
      Success(Means(Mean(TransitionMeans(results)), Mean(CompatibilityMeans(results)), Mean(BalanceMeans(results))))
  }

  // ---------- validated ranges reach the means ----------

  predicate InRange(m: Means) {
    Unit(m.transition) && Unit(m.compatibility) && -1.0 <= m.balance <= 1.0
  }

  lemma EvaluatedReportsAreValid(engine: Engine, inputs: seq<Transition>, params: Parameters)
    requires EvaluateBatch(engine, inputs, params).Success?
    ensures var reports := EvaluateBatch(engine, inputs, params).value;
            |reports| == |inputs| > 0 && forall i :: 0 <= i < |reports| ==> ValidReport(reports[i])
  {
    TraverseIsPointwise(Evaluator(engine, params), inputs);
    var reports := EvaluateBatch(engine, inputs, params).value;
    forall i | 0 <= i < |reports| ensures ValidReport(reports[i]) {
      assert EvaluateTransition(engine, inputs[i], params) == Success(reports[i]);
    }
  }

  lemma SeriesInRange(reports: seq<Report>)
    requires reports != [] && forall i :: 0 <= i < |reports| ==> ValidReport(reports[i])
    ensures SimulateSeries(reports).Success? && InRange(SimulateSeries(reports).value)
  {
    MeanWithin(TransitionChannels(reports), 0.0, 1.0);
    MeanWithin(Compatibilities(reports), 0.0, 1.0);
    MeanWithin(Balances(reports), -1.0, 1.0);
  }

  /** Whatever the engine answers, an evaluated pack has averages in the validated ranges. */
  lemma PackAveragesInRange(engine: Engine, pack: Pack, params: Parameters)
    requires EvaluatePack(engine, pack, params).Success?
    ensures InRange(EvaluatePack(engine, pack, params).value.summary)
  {
    EvaluatedReportsAreValid(engine, pack.transitions, params);
    SeriesInRange(EvaluateBatch(engine, pack.transitions, params).value);
  }

  lemma PackMeansInRange(results: seq<PackResult>)
    requires results != [] && forall i :: 0 <= i < |results| ==> InRange(results[i].summary)
    ensures SummarizePacks(results).Success? && InRange(SummarizePacks(results).value)
  {
    MeanWithin(TransitionMeans(results), 0.0, 1.0);
    MeanWithin(CompatibilityMeans(results), 0.0, 1.0);
    MeanWithin(BalanceMeans(results), -1.0, 1.0);
  }

  lemma PacksInRange(engine: Engine, packs: seq<Pack>, params: Parameters)
    requires EvaluatePacks(engine, packs, params).Success?
    ensures var results := EvaluatePacks(engine, packs, params).value;
            |results| == |packs| > 0 && forall i :: 0 <= i < |results| ==> InRange(results[i].summary)
  {
    TraverseIsPointwise(PackEvaluator(engine, params), packs);
    var results := EvaluatePacks(engine, packs, params).value;
    forall i | 0 <= i < |results| ensures InRange(results[i].summary) {
      assert PackEvaluator(engine, params)(packs[i]) == Success(results[i]);
      PackAveragesInRange(engine, packs[i], params);
    }
  }
}
