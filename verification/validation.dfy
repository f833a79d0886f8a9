/** Exactly which inputs and answers of the engine are refused. */
module Validation {
  import opened Common
  import opened Evaluation
  import opened Text

  predicate OutsideUnit(x: real) {
    x < 0.0 || 1.0 < x
  }

  predicate BadParameters(p: Parameters) {
    || p.lam < 0.0 || p.omega < 0.0 || p.mu < 0.0 || p.logisticK < 0.0
    || OutsideUnit(p.lockThreshold) || OutsideUnit(p.lockGateMax)
  }

  predicate BadPhase(p: Phase) {
    || Blank(p.id) || p.mass < 0.0 || p.fatigue < 0.0 || OutsideUnit(p.meanRetention) || OutsideUnit(p.harmony)
    || (p.selfPotential.Some? && (p.selfPotential.value < -1000000.0 || 1000000.0 < p.selfPotential.value))
  }

  predicate BadTransition(t: Transition) {
    || BadPhase(t.source) || BadPhase(t.target) || OutsideUnit(t.gateOpenness) || OutsideUnit(t.carryingCapacity)
    || OutsideUnit(t.localSafety) || OutsideUnit(t.continuationChannel)
  }

  predicate BadPack(p: Pack) {
    || Blank(p.id) || p.transitions == []
    || exists i :: 0 <= i < |p.transitions| && BadTransition(p.transitions[i])
  }

  predicate BadExistence(e: Existence) {
    OutsideUnit(e.origin) || OutsideUnit(e.carrier) || OutsideUnit(e.effect) || OutsideUnit(e.score)
  }

  predicate BadPossibility(p: Possibility) {
    OutsideUnit(p.rawPotential) || OutsideUnit(p.constraint) || OutsideUnit(p.carrier) || OutsideUnit(p.score)
  }

  predicate BadLift(l: DynamicLift) {
    || l.dwellTime < 0.0 || OutsideUnit(l.pressure) || OutsideUnit(l.carrier) || OutsideUnit(l.overload)
    || OutsideUnit(l.lift)
  }

  predicate BadFate(f: Fate) {
    || OutsideUnit(f.stability) || OutsideUnit(f.hybridity) || OutsideUnit(f.distortion) || OutsideUnit(f.extinction)
    || OutsideUnit(f.collapse) || OutsideUnit(f.flourishing) || f.balance < -1.0 || 1.0 < f.balance
  }

  /** A locked transition whose gate exceeds its maximum contradicts itself. */
  predicate BadLock(l: LockState) {
    l.locked && l.lockGateMax < l.transitionGate
  }

  predicate BadReport(r: Report) {
    || OutsideUnit(r.transmissibility) || OutsideUnit(r.retention) || OutsideUnit(r.delayGate)
    || OutsideUnit(r.compatibility) || OutsideUnit(r.transitionChannel) || OutsideUnit(r.collapse)
    || OutsideUnit(r.flourishing) || r.balance < -1.0 || 1.0 < r.balance
    || r.selfPotential < -1000000.0 || 1000000.0 < r.selfPotential
    || (r.existence.Some? && BadExistence(r.existence.value))
    || (r.possibility.Some? && BadPossibility(r.possibility.value))
    || (r.lift.Some? && BadLift(r.lift.value))
    || (r.fate.Some? && BadFate(r.fate.value))
    || BadLock(r.lock)
  }

  lemma BadIsInvalid(p: Parameters, r: Report)
    ensures BadParameters(p) <==> !ValidParameters(p)
    ensures BadReport(r) <==> !ValidReport(r)
  {
  }

  lemma BadTransitionIsInvalid(t: Transition)
    ensures BadTransition(t) <==> !ValidTransition(t)
  {
    TrimmedToNothing(t.source.id);
    TrimmedToNothing(t.target.id);
  }

  lemma BadPackIsInvalid(p: Pack)
    ensures BadPack(p) <==> !ValidPack(p)
  {
    TrimmedToNothing(p.id);
    forall i | 0 <= i < |p.transitions|
      ensures BadTransition(p.transitions[i]) <==> !ValidTransition(p.transitions[i])
    {
      BadTransitionIsInvalid(p.transitions[i]);
    }
  }

  /** The engine fails on the input, or answers outside the ranges. */
  predicate BadAnswer(engine: Engine, t: Transition, params: Parameters) {
    engine(t, params).Failure? || BadReport(engine(t, params).value)
  }

  lemma AnswerIsBad(engine: Engine, t: Transition, params: Parameters)
    ensures BadAnswer(engine, t, params) <==> EvaluateTransition(engine, t, params).Failure?
    ensures !BadAnswer(engine, t, params) ==> EvaluateTransition(engine, t, params) == engine(t, params)
  {
    if engine(t, params).Success? {
      BadIsInvalid(params, engine(t, params).value);
    }
  }

  /** A batch is refused exactly for these reasons, and otherwise returns the answers of the engine as they are. */
  lemma BatchFailsExactly(engine: Engine, inputs: seq<Transition>, params: Parameters)
    ensures var outcome := EvaluateBatch(engine, inputs, params);
            && (outcome.Failure? <==>
                || inputs == [] || BadParameters(params)
                || exists i :: 0 <= i < |inputs| && BadAnswer(engine, inputs[i], params))
            && (outcome.Success? ==>
                  && |outcome.value| == |inputs|
                  && forall i :: 0 <= i < |inputs| ==> engine(inputs[i], params) == Success(outcome.value[i]))
  {
    var f := Evaluator(engine, params);
    TraverseIsPointwise(f, inputs);
    forall i | 0 <= i < |inputs|
      ensures BadAnswer(engine, inputs[i], params) <==> f(inputs[i]).Failure?
      ensures !BadAnswer(engine, inputs[i], params) ==> f(inputs[i]) == engine(inputs[i], params)
    {
      AnswerIsBad(engine, inputs[i], params);
    }
    assert BadParameters(params) <==> !ValidParameters(params);
  }

  /** So is a pack, also for its own id and inputs; its summary is that of its reports. */
  lemma PackFailsExactly(engine: Engine, pack: Pack, params: Parameters)
    ensures var outcome, batch := EvaluatePack(engine, pack, params), EvaluateBatch(engine, pack.transitions, params);
            && (outcome.Failure? <==> BadParameters(params) || BadPack(pack) || batch.Failure?)
            && (outcome.Success? ==>
                  && outcome.value.id == pack.id && batch == Success(outcome.value.reports)
                  && SimulateSeries(outcome.value.reports) == Success(outcome.value.summary))
  {
    BadPackIsInvalid(pack);
    BatchFailsExactly(engine, pack.transitions, params);
    assert BadParameters(params) <==> !ValidParameters(params);
  }

  /** And so are several packs, of which there must be one. */
  lemma PacksFailExactly(engine: Engine, packs: seq<Pack>, params: Parameters)
    ensures var outcome := EvaluatePacks(engine, packs, params);
            && (outcome.Failure? <==>
                || packs == [] || BadParameters(params)
                || exists i :: 0 <= i < |packs| && EvaluatePack(engine, packs[i], params).Failure?)
            && (outcome.Success? ==>
                  && |outcome.value| == |packs|
                  && forall i :: 0 <= i < |packs| ==>
                                   EvaluatePack(engine, packs[i], params) == Success(outcome.value[i]))
  {
    var f := PackEvaluator(engine, params);
    TraverseIsPointwise(f, packs);
    assert forall i :: 0 <= i < |packs| ==> f(packs[i]) == EvaluatePack(engine, packs[i], params);
    assert BadParameters(params) <==> !ValidParameters(params);
  }
}
