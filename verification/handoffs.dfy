/** How executions move the handoff edges into a step under the default policy. */
module Handoffs {
  import opened Common
  import opened Types
  import opened Continuity
  import opened Maestro
  import opened Runs

  // ---------- one observation ----------

  lemma FailureCoefficients(priority: real)
    ensures var c := FromHandoffTelemetry(StepHandoffTelemetry(false, priority));
            c.T == 0.2575 && c.C == 0.4375 && c.M == 0.5125 && 0.0 <= c.N <= 1.0
  {
  }

  lemma SuccessCoefficients(priority: real)
    ensures var c := FromHandoffTelemetry(StepHandoffTelemetry(true, priority));
            c.T == 0.8525 && c.C == 0.0425 && c.N == Clamp(0.70 * priority + 0.15)
  {
  }

  /** A failed attempt costs an edge more than alpha: the loss is at least 0.18 and decays by at most 0.5125. */
  lemma FailureDelta(decay: Decay, priority: real)
    ensures Delta(decay, 1.0, FromHandoffTelemetry(StepHandoffTelemetry(false, priority))) < -0.05
  {
    FailureCoefficients(priority);
    var c := FromHandoffTelemetry(StepHandoffTelemetry(false, priority));
    var e := decay(Clamp(c.M));
    assert IsDecay(decay) && 0.4875 <= e <= 1.0;
    var gain := c.T * c.N - c.C;
    assert gain <= -0.18 by { UnitScale(c.N, c.T); }
    FallsBelow(gain, e);
    assert Delta(decay, 1.0, c) == gain * e * 1.0;
  }

  lemma FallsBelow(gain: real, e: real)
    requires gain <= -0.18 && 0.4875 <= e
    ensures gain * e < -0.05
  {
    MulMonotone(gain, -0.18, e);
  }

  /** A success pays off on the edges into a step unless the plan's priority is well below zero. */
  predicate SuccessPays(priority: real) {
    0.8525 * Clamp(0.70 * priority + 0.15) > 0.0425
  }

  lemma NonNegativePriorityPays(priority: real)
    requires priority >= 0.0
    ensures SuccessPays(priority)
  {
  }

  lemma SuccessDelta(decay: Decay, dt: real, priority: real)
    requires dt > 0.0
    ensures Delta(decay, dt, FromHandoffTelemetry(StepHandoffTelemetry(true, priority))) > 0.0
       <==> SuccessPays(priority)
  {
    SuccessCoefficients(priority);
    DeltaSignAndBound(decay, dt, FromHandoffTelemetry(StepHandoffTelemetry(true, priority)));
  }

  function EdgePsi(k: State, id: string): real {
    if id in k.edges then k.edges[id].psi else 0.0
  }

  /** The edge lost more than alpha, is not active, and its rerouting was announced since `k`. */
  ghost predicate Fell(k: State, t: State, id: string) {
    && id in t.edges && !t.edges[id].state.Active?
    && EdgePsi(t, id) < EdgePsi(k, id) - DEFAULT_POLICY.alpha
    && k.events <= t.events
    && exists i :: |k.events| <= i < |t.events| && t.events[i] == Event(None, Reroute, id)
  }

  lemma FailureObservation(cfg: Config, k: State, source: string, target: string, priority: real)
    requires cfg.policy == DEFAULT_POLICY
    ensures var t := ObserveHandoff(cfg, k, source, target, StepHandoffTelemetry(false, priority));
            Fell(k, t, EdgeId(source, target))
  {
    var h := StepHandoffTelemetry(false, priority);
    FailureDelta(cfg.decay, priority);
    FailureCoefficients(priority);
    var id := EdgeId(source, target);
    var d := EdgeVerdict(cfg, id, EdgeBefore(k.edges, source, target), h, |k.decisions|);
    assert d.action.Reroute? && !d.newState.Active? && d.id == id;
    var t := ObserveHandoff(cfg, k, source, target, h);
    assert t.events[|k.events|] == Event(None, Reroute, id);
  }

  // ---------- all handoffs of a step ----------

  /** Some listed dependency was executed by an agent, and hands over to `target` along this edge. */
  ghost predicate Touched(w: Workflow, deps: seq<string>, target: string, id: string)
    requires forall d :: d in deps ==> d in w.steps
  {
    exists i :: 0 <= i < |deps| && w.steps[deps[i]].assignee != "" && id == EdgeId(w.steps[deps[i]].assignee, target)
  }

  lemma TouchedCons(w: Workflow, deps: seq<string>, target: string, id: string)
    requires deps != [] && forall d :: d in deps ==> d in w.steps
    ensures Touched(w, deps, target, id) <==>
            (w.steps[deps[0]].assignee != "" && id == EdgeId(w.steps[deps[0]].assignee, target))
            || Touched(w, deps[1..], target, id)
  {
    if Touched(w, deps[1..], target, id) {
      var i :| 0 <= i < |deps[1..]| && w.steps[deps[1..][i]].assignee != ""
               && id == EdgeId(w.steps[deps[1..][i]].assignee, target);
      assert deps[i + 1] == deps[1..][i];
    }
    if Touched(w, deps, target, id) {
      var i :| 0 <= i < |deps| && w.steps[deps[i]].assignee != "" && id == EdgeId(w.steps[deps[i]].assignee, target);
      if i > 0 {
        assert deps[1..][i - 1] == deps[i];
      }
    }
  }

  ghost predicate SameEdge(k: State, t: State, id: string) {
    (id in t.edges <==> id in k.edges) && (id in k.edges ==> t.edges[id] == k.edges[id]) && k.events <= t.events
  }

  lemma FellThenSame(k: State, k1: State, t: State, id: string)
    requires Fell(k, k1, id) && SameEdge(k1, t, id)
    ensures Fell(k, t, id)
  {
    var i :| |k.events| <= i < |k1.events| && k1.events[i] == Event(None, Reroute, id);
    assert t.events[i] == k1.events[i];
  }

  lemma FellTwice(k: State, k1: State, t: State, id: string)
    requires k.events <= k1.events && EdgePsi(k1, id) <= EdgePsi(k, id) && Fell(k1, t, id)
    ensures Fell(k, t, id)
  {
    var i :| |k1.events| <= i < |t.events| && t.events[i] == Event(None, Reroute, id);
  }

  lemma {:induction false} FailureFalls(
    cfg: Config, k: State, w: Workflow, deps: seq<string>, target: string, id: string)
    requires cfg.policy == DEFAULT_POLICY && forall d :: d in deps ==> d in w.steps
    ensures var t := ObserveDependencies(cfg, k, w, deps, target, false);
            if Touched(w, deps, target, id) then Fell(k, t, id) else SameEdge(k, t, id)
    decreases |deps|
  {
    if deps != [] {
      var source, h := w.steps[deps[0]].assignee, StepHandoffTelemetry(false, w.plan.priority);
      var k1 := if source == "" then k else ObserveHandoff(cfg, k, source, target, h);
      var t := ObserveDependencies(cfg, k, w, deps, target, false);
      assert t == ObserveDependencies(cfg, k1, w, deps[1..], target, false);
      FailureFalls(cfg, k1, w, deps[1..], target, id);
      TouchedCons(w, deps, target, id);
      if source != "" {
        FailureObservation(cfg, k, source, target, w.plan.priority);
        if Touched(w, deps[1..], target, id) {
          FellTwice(k, k1, t, id);
        } else if id == EdgeId(source, target) {
          FellThenSame(k, k1, t, id);
        }
      }
    }
  }

  /** Successes move every touched edge in the same direction. */
  lemma {:induction false} SuccessMoves(
    cfg: Config, k: State, w: Workflow, deps: seq<string>, target: string, id: string)
    requires cfg.policy.dt > 0.0 && forall d :: d in deps ==> d in w.steps
    ensures var t := ObserveDependencies(cfg, k, w, deps, target, true);
            && (!Touched(w, deps, target, id) ==> EdgePsi(t, id) == EdgePsi(k, id))
            && (Touched(w, deps, target, id) ==> (EdgePsi(t, id) > EdgePsi(k, id) <==> SuccessPays(w.plan.priority)))
    decreases |deps|
  {
    if deps != [] {
      var source, h := w.steps[deps[0]].assignee, StepHandoffTelemetry(true, w.plan.priority);
      var k1 := if source == "" then k else ObserveHandoff(cfg, k, source, target, h);
      assert ObserveDependencies(cfg, k, w, deps, target, true)
          == ObserveDependencies(cfg, k1, w, deps[1..], target, true);
      SuccessMoves(cfg, k1, w, deps[1..], target, id);
      TouchedCons(w, deps, target, id);
      SuccessDelta(cfg.decay, cfg.policy.dt, w.plan.priority);
    }
  }

  // ---------- turns ----------

  lemma TurnEdges(cfg: Config, k: State, wid: string, sid: string, agentId: string)
    requires AtTurn(k, wid, sid) && agentId in k.agents && agentId != ""
    ensures var k1 := RunStep(cfg, k, wid, sid, agentId);
            && wid in k1.workflows
            && var w1 := k1.workflows[wid];
            && (forall d :: d in w1.steps[sid].spec.dependsOn ==> d in w1.steps)
            && var k2 :=
                 ObserveDependencies(cfg, k1, w1, w1.steps[sid].spec.dependsOn, agentId, cfg.results(|k.calls|).ok);
            var t := TurnOn(cfg, k, wid, sid, agentId);
            k1.edges == k.edges && k.events <= k1.events && t.edges == k2.edges && k2.events <= t.events
  {
    var k1 := RunStep(cfg, k, wid, sid, agentId);
    RunStepFrame(cfg, k, wid, sid, agentId);
    HandoffFrame(cfg, k1, wid, sid);
    ObserveFromStepsFrame(cfg, ObserveStepHandoffs(cfg, k1, wid, sid), wid);
  }

  /** The edge from the agent that completed dependency `d` to the agent that now runs the step. */
  function IncomingEdge(w: Workflow, d: string, agentId: string): string
    requires d in w.steps
  {
    EdgeId(w.steps[d].assignee, agentId)
  }

  lemma IncomingTouched(w: Workflow, w1: Workflow, sid: string, s: Step, d: string, agentId: string)
    requires Runnable(w, sid) && w1 == WithStep(w, sid, s) && s.spec == w.steps[sid].spec
    requires d in w.steps[sid].spec.dependsOn && w.steps[d].assignee != ""
    ensures (forall x :: x in w1.steps[sid].spec.dependsOn ==> x in w1.steps)
            && Touched(w1, w1.steps[sid].spec.dependsOn, agentId, IncomingEdge(w, d, agentId))
  {
    var deps := w.steps[sid].spec.dependsOn;
    var i :| 0 <= i < |deps| && deps[i] == d;
    assert w1.steps[deps[i]] == w.steps[d];
  }

  lemma FellAcross(k: State, k1: State, k2: State, t: State, id: string)
    requires Fell(k1, k2, id)
    requires k1.edges == k.edges && k.events <= k1.events && t.edges == k2.edges && k2.events <= t.events
    ensures Fell(k, t, id)
  {
    var i :| |k1.events| <= i < |k2.events| && k2.events[i] == Event(None, Reroute, id);
    assert t.events[i] == k2.events[i];
  }

  /**
    Under the default policy a failed attempt lowers the Psi of every observed handoff into the step by more than
    alpha, leaves none of them active and announces a reroute for each, for every structural report and priority.
   */
  lemma FailedTurnDegradesHandoffs(cfg: Config, k: State, wid: string, sid: string, agentId: string, d: string)
    requires AtTurn(k, wid, sid) && agentId in k.agents && agentId != ""
    requires cfg.policy == DEFAULT_POLICY && !cfg.results(|k.calls|).ok
    requires d in k.workflows[wid].steps[sid].spec.dependsOn && k.workflows[wid].steps[d].assignee != ""
    ensures Fell(k, TurnOn(cfg, k, wid, sid, agentId), IncomingEdge(k.workflows[wid], d, agentId))
  {
    var k1 := RunStep(cfg, k, wid, sid, agentId);
    RunStepFrame(cfg, k, wid, sid, agentId);
    TurnEdges(cfg, k, wid, sid, agentId);
    var w, w1 := k.workflows[wid], k1.workflows[wid];
    var id, deps := IncomingEdge(w, d, agentId), w1.steps[sid].spec.dependsOn;
    IncomingTouched(w, w1, sid, Ran(cfg, k, wid, sid, agentId), d, agentId);
    FailureFalls(cfg, k1, w1, deps, agentId, id);
    FellAcross(k, k1, ObserveDependencies(cfg, k1, w1, deps, agentId, false), TurnOn(cfg, k, wid, sid, agentId), id);
  }

  /** A successful attempt raises every observed handoff into the step exactly when success pays at this priority. */
  lemma SuccessfulTurnRaisesHandoffs(cfg: Config, k: State, wid: string, sid: string, agentId: string, d: string)
    requires AtTurn(k, wid, sid) && agentId in k.agents && agentId != ""
    requires cfg.policy.dt > 0.0 && cfg.results(|k.calls|).ok
    requires d in k.workflows[wid].steps[sid].spec.dependsOn && k.workflows[wid].steps[d].assignee != ""
    ensures var id := IncomingEdge(k.workflows[wid], d, agentId);
            EdgePsi(TurnOn(cfg, k, wid, sid, agentId), id) > EdgePsi(k, id)
            <==> SuccessPays(k.workflows[wid].plan.priority)
  {
    var k1 := RunStep(cfg, k, wid, sid, agentId);
    RunStepFrame(cfg, k, wid, sid, agentId);
    TurnEdges(cfg, k, wid, sid, agentId);
    var w, w1 := k.workflows[wid], k1.workflows[wid];
    IncomingTouched(w, w1, sid, Ran(cfg, k, wid, sid, agentId), d, agentId);
    SuccessMoves(cfg, k1, w1, w1.steps[sid].spec.dependsOn, agentId, IncomingEdge(w, d, agentId));
  }
}
