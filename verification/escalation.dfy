/** When a run escalates, degrades or completes a workflow. */
module Escalation {
  import opened Types
  import opened Continuity
  import opened Governor
  import opened Maestro
  import opened Runs
  import opened Scheduling
  import opened Operations
  import opened Lifetimes
  import Verdicts

  /** The default-policy escalation threshold for f failed steps out of n, free of fractions. */
  predicate RiskTooHigh(f: int, n: int) {
    f > 0 && f * (24 * n + 180) >= 323 * n
  }

  lemma RiskThresholds(f: int, n: int)
    requires 0 <= f <= n
    ensures f < 6 ==> !RiskTooHigh(f, n)
    ensures f >= 14 ==> RiskTooHigh(f, n)
  {
    if f >= 14 {
      assert f * (24 * n + 180) >= 14 * (24 * n + 180) by { IntMulMonotone(14, f, 24 * n + 180); }
    } else if f < 6 {
      assert f * (24 * n) <= 5 * (24 * n) by { IntMulMonotone(f, 5, 24 * n); }
      assert f * (24 * n + 180) == f * (24 * n) + f * 180;
    }
  }

  lemma IntMulMonotone(a: int, b: int, c: int)
    requires a <= b && 0 <= c
    ensures a * c <= b * c
  {
    var d := b - a;
    assert d * c >= 0;
    assert b * c == a * c + d * c;
  }

  /** What risk and reward the steps of a workflow amount to, before clamping. */
  function CostOf(f: real, share: real): real {
    0.0425 + 0.06 * f + 0.45 * share
  }

  function MortalityOf(f: real, share: real): real {
    if f == 0.0 then 0.015 else 0.0675 + 0.035 * f + 0.5 * share
  }

  /** The number of steps that shares refer to; a workflow without steps counts as one. */
  function Total(steps: map<string, Step>): (n: int)
    ensures n > 0
  {
    if |steps| == 0 then 1 else |steps|
  }

  function SynergyOf(f: real, share: real, progress: real): real {
    (if f == 0.0 then 0.6125 else 0.35) + 0.30 * (progress * (1.0 - share))
  }

  /** For all steps, also running ones: synergy and need grow with the completed steps, the risks with failed ones. */
  lemma StepCoefficients(steps: map<string, Step>, priority: real)
    ensures var c := FromWorkflowTelemetry(StepTelemetry(steps, priority));
            var f, r := |InState(steps, StepState.Failed)| as real, |InState(steps, StepState.Running)| as real;
            var progress := |InState(steps, StepState.Completed)| as real / Total(steps) as real;
            && c.T == Clamp(SynergyOf(f, f / Total(steps) as real, progress))
            && c.N == Clamp(0.80 * priority + 0.20 * progress)
            && c.C == Clamp(CostOf(f, f / Total(steps) as real) + 0.025 * r)
            && c.M == Clamp(MortalityOf(f, f / Total(steps) as real))
  {
  }

  /** In the default range the mortality coefficient never decides: it is high only when the cost is. */
  lemma RiskIsCost(f: int, n: int, share: real)
    requires 0 <= f <= n && n > 0 && share == f as real / n as real
    ensures Clamp(CostOf(f as real, share)) >= 0.85 || Clamp(MortalityOf(f as real, share)) >= 0.85
       <==> RiskTooHigh(f, n)
  {
    var x, y := f as real, n as real;
    assert share * y == x;
    assert 0.0 <= share <= 1.0 by {
      if share > 1.0 { ShareTooBig(share, y); }
    }
    assert CostOf(x, share) >= 0.85 <==> 24.0 * x + 180.0 * share >= 323.0;
    ScaleRisk(f, n, share);
  }

  lemma ShareTooBig(share: real, y: real)
    requires share > 1.0 && y > 0.0
    ensures share * y > y
  {
    var d := share - 1.0;
    assert d * y > 0.0;
    assert share * y == y + d * y;
  }

  lemma ScaleRisk(f: int, n: int, share: real)
    requires 0 <= f <= n && n > 0 && share * n as real == f as real
    ensures 24.0 * f as real + 180.0 * share >= 323.0 <==> f * (24 * n + 180) >= 323 * n
  {
    var x, y := f as real, n as real;
    var gap := 24.0 * x + 180.0 * share - 323.0;
    assert gap * y == 24.0 * (x * y) + 180.0 * (share * y) - 323.0 * y;
    assert x * y == (f * n) as real;
    assert gap * y == (24 * (f * n) + 180 * f - 323 * n) as real;
    assert f * (24 * n + 180) == 24 * (f * n) + 180 * f;
    SignOfProduct(gap, y);
  }

  // ---------- one observation ----------

  ghost predicate NoneRunning(steps: map<string, Step>) {
    forall id :: id in steps ==> !steps[id].state.Running?
  }

  ghost predicate AllCompleted(steps: map<string, Step>) {
    forall id :: id in steps ==> steps[id].state.Completed?
  }

  /**
    The state of a workflow after an observation, for every structural report: a failed step shows as
    escalated or degraded, and completed means that all steps are, unless the policy escalates even then.
   */
  ghost predicate Observed(p: Policy, w: Workflow) {
    var f := |InState(w.steps, StepState.Failed)|;
    && !w.state.Failed?
    && (f > 0 ==> w.state.Escalated? || w.state.Degraded?)
    && (w.state.Completed? <==> w.steps != map[] && AllCompleted(w.steps) && p.quarantinePolicyRisk > 0.0425)
    && (p == DEFAULT_POLICY ==> (w.state.Escalated? <==> RiskTooHigh(f, |w.steps|)))
    && (f == 0 && w.state.Escalated? ==> p.quarantinePolicyRisk <= 0.0425)
  }

  lemma CompletedCount(steps: map<string, Step>)
    ensures |InState(steps, StepState.Completed)| == |steps| <==> AllCompleted(steps)
    ensures AllCompleted(steps) ==> InState(steps, StepState.Failed) == {}
  {
    Verdicts.StateCounts(steps, StepState.Completed);
  }

  lemma FailedCount(steps: map<string, Step>)
    ensures |InState(steps, StepState.Failed)| <= |steps|
  {
    SubsetSize(InState(steps, StepState.Failed), steps.Keys);
  }

  lemma SubsetSize(a: set<string>, b: set<string>)
    requires a <= b
    ensures |a| <= |b|
  {
    assert b == a + (b - a);
  }

  lemma VerdictObserved(cfg: Config, w: Workflow, tick: nat)
    requires NoneRunning(w.steps) && AllExhausted(cfg.policy, w.steps)
    ensures var d := WorkflowVerdict(cfg, w, StepTelemetry(w.steps, w.plan.priority), tick);
            Observed(cfg.policy, w.(state := d.newPhase))
  {
    var f, n := |InState(w.steps, StepState.Failed)|, Total(w.steps);
    assert InState(w.steps, StepState.Running) == {};
    StepCoefficients(w.steps, w.plan.priority);
    CompletedCount(w.steps);
    FailedCount(w.steps);
    RiskIsCost(f, n, f as real / n as real);
  }

  // ---------- whole runs ----------

  lemma AttemptedExhausts(cfg: Config, k: State, wid: string)
    requires Attempted(cfg, k, wid)
    ensures AllExhausted(cfg.policy, k.workflows[wid].steps) && NoneRunning(k.workflows[wid].steps)
  {
  }

  /** An observation of the steps leaves the workflow as `Observed` describes. */
  lemma ObservationObserved(cfg: Config, k: State, wid: string)
    requires Attempted(cfg, k, wid)
    ensures var t := ObserveFromSteps(cfg, k, wid);
            wid in t.workflows && Observed(cfg.policy, t.workflows[wid])
  {
    AttemptedExhausts(cfg, k, wid);
    var w := k.workflows[wid];
    VerdictObserved(cfg, w, |k.decisions|);
    ObservedOfSteps(cfg.policy, w.(state := ObserveFromSteps(cfg, k, wid).workflows[wid].state),
                    ObserveFromSteps(cfg, k, wid).workflows[wid]);
  }

  lemma ObservedOfSteps(p: Policy, w: Workflow, w': Workflow)
    requires Observed(p, w) && w'.steps == w.steps && w'.state == w.state
    ensures Observed(p, w')
  {
  }

  lemma TurnObserved(cfg: Config, k: State, wid: string, sid: string, agentId: string)
    requires AtTurn(k, wid, sid) && agentId in k.agents && Attempted(cfg, k, wid)
    ensures var t := TurnOn(cfg, k, wid, sid, agentId);
            wid in t.workflows && Observed(cfg.policy, t.workflows[wid])
  {
    var k1 := RunStep(cfg, k, wid, sid, agentId);
    RunStepFrame(cfg, k, wid, sid, agentId);
    HandoffFrame(cfg, k1, wid, sid);
    var k2 := ObserveStepHandoffs(cfg, k1, wid, sid);
    assert Advances(cfg, k, wid, sid, agentId, k2);
    AttemptedStep(cfg, k, wid, sid, agentId, k2);
    ObservationObserved(cfg, k2, wid);
  }

  /** `Observed` at every point of a run, and never more failures than the thresholds allow. */
  ghost predicate Watched(cfg: Config, k: State, wid: string) {
    && Attempted(cfg, k, wid)
    && Observed(cfg.policy, k.workflows[wid])
    && (cfg.policy == DEFAULT_POLICY ==> |InState(k.workflows[wid].steps, StepState.Failed)| <= 14)
  }

  lemma FailedGrowsByOne(w: Workflow, w': Workflow, sid: string, s: Step)
    requires sid in w.steps && OneStepChanged(w, w', sid, s)
    ensures |InState(w'.steps, StepState.Failed)| <= |InState(w.steps, StepState.Failed)| + 1
  {
    var a, b := InState(w.steps, StepState.Failed), InState(w'.steps, StepState.Failed);
    SubsetSize(b, a + {sid});
  }

  lemma NotEscalatedYet(w: Workflow)
    requires Observed(DEFAULT_POLICY, w) && !w.state.Escalated?
    ensures |InState(w.steps, StepState.Failed)| < 14
  {
    FailedCount(w.steps);
    RiskThresholds(|InState(w.steps, StepState.Failed)|, |w.steps|);
  }

  lemma WatchedStep(cfg: Config, k: State, wid: string, sid: string, agentId: string)
    requires AtTurn(k, wid, sid) && agentId in k.agents && Watched(cfg, k, wid)
    ensures Watched(cfg, TurnOn(cfg, k, wid, sid, agentId), wid)
  {
    var t := TurnOn(cfg, k, wid, sid, agentId);
    TurnOnEffect(cfg, k, wid, sid, agentId);
    TurnObserved(cfg, k, wid, sid, agentId);
    AttemptedStep(cfg, k, wid, sid, agentId, t);
    if cfg.policy == DEFAULT_POLICY {
      NotEscalatedYet(k.workflows[wid]);
      FailedGrowsByOne(k.workflows[wid], t.workflows[wid], sid, Ran(cfg, k, wid, sid, agentId));
    }
  }

  lemma FreshWatched(cfg: Config, k: State, wid: string)
    requires Fresh(k, wid)
    ensures Watched(cfg, Started(k, wid), wid)
  {
    FreshLives(cfg, k, wid);
    var w := k.workflows[wid];
    assert InState(w.steps, StepState.Failed) == {};
    if w.steps != map[] {
      var id :| id in w.steps;
      assert w.steps[id].state.Pending?;
    }
  }

  lemma LoopWatched(cfg: Config, k: State, wid: string)
    requires Fresh(k, wid)
    ensures Watched(cfg, RunSteps(cfg, Started(k, wid), wid).state, wid)
  {
    FreshWatched(cfg, k, wid);
    StartedValid(k, wid);
    var inv := (s: State) => Watched(cfg, s, wid);
    forall s: State, sid: string | AtTurn(s, wid, sid) && inv(s)
      ensures inv(Turn(cfg, s, wid, sid).state)
    {
      TurnEffect(cfg, s, wid, sid);
      var a := Assigned(cfg, s, wid, sid);
      if a.Success? {
        WatchedStep(cfg, s, wid, sid, a.value);
      }
    }
    RunInduction(cfg, Started(k, wid), wid, inv);
  }

  lemma ClosingObservationWatched(cfg: Config, s: State, wid: string)
    requires Watched(cfg, s, wid)
    ensures Watched(cfg, ObserveFromSteps(cfg, s, wid), wid)
  {
    ObservationObserved(cfg, s, wid);
    ObserveFromStepsFrame(cfg, s, wid);
  }

  lemma RunWatched(cfg: Config, k: State, wid: string)
    requires Fresh(k, wid) && cfg.hasRuntime
    ensures Watched(cfg, RunWorkflow(cfg, k, wid).state, wid)
  {
    LoopWatched(cfg, k, wid);
    var s := RunSteps(cfg, Started(k, wid), wid);
    if s.outcome.Quiescent? {
      ClosingObservationWatched(cfg, s.state, wid);
    }
  }

  /** The invariant of any run: where it stops, the state shows what the steps are. */
  ghost predicate StopsObserved(cfg: Config, k: State, wid: string) {
    && Attempted(cfg, k, wid)
    && (Stops(k.workflows[wid].state) ==> Observed(cfg.policy, k.workflows[wid]))
  }

  lemma TurnStopsObserved(cfg: Config, k: State, wid: string, sid: string, agentId: string)
    requires AtTurn(k, wid, sid) && agentId in k.agents && Attempted(cfg, k, wid)
    ensures StopsObserved(cfg, TurnOn(cfg, k, wid, sid, agentId), wid)
  {
    TurnOnEffect(cfg, k, wid, sid, agentId);
    TurnObserved(cfg, k, wid, sid, agentId);
    AttemptedStep(cfg, k, wid, sid, agentId, TurnOn(cfg, k, wid, sid, agentId));
  }

  lemma LoopObserved(cfg: Config, k: State, wid: string)
    requires Valid(k) && Attempted(cfg, k, wid)
    ensures StopsObserved(cfg, RunSteps(cfg, Started(k, wid), wid).state, wid)
  {
    StartedValid(k, wid);
    var inv := (s: State) => StopsObserved(cfg, s, wid);
    forall s: State, sid: string | AtTurn(s, wid, sid) && inv(s)
      ensures inv(Turn(cfg, s, wid, sid).state)
    {
      TurnEffect(cfg, s, wid, sid);
      var a := Assigned(cfg, s, wid, sid);
      if a.Success? {
        TurnStopsObserved(cfg, s, wid, sid, a.value);
      }
    }
    RunInduction(cfg, Started(k, wid), wid, inv);
  }

  /** Any run that raises no exception leaves the workflow as `Observed` describes. */
  lemma RunObserved(cfg: Config, k: State, wid: string)
    requires Valid(k) && Attempted(cfg, k, wid)
    ensures var r := RunWorkflow(cfg, k, wid);
            !r.outcome.Raised? ==> wid in r.state.workflows && Observed(cfg.policy, r.state.workflows[wid])
  {
    RunCloses(cfg, k, wid);
    if cfg.hasRuntime {
      StartedValid(k, wid);
      LoopObserved(cfg, k, wid);
      var s := RunSteps(cfg, Started(k, wid), wid);
      if s.outcome.Quiescent? {
        ObservationObserved(cfg, s.state, wid);
      }
    }
  }

  /** What the state of a workflow says about its steps. */
  ghost predicate Verdict(p: Policy, w: Workflow) {
    var f := |InState(w.steps, StepState.Failed)|;
    && (f > 0 ==> w.state.Escalated? || w.state.Degraded?)
    && (w.state.Completed? <==> w.steps != map[] && AllCompleted(w.steps) && p.quarantinePolicyRisk > 0.0425)
    && (p == DEFAULT_POLICY ==>
          && (w.state.Escalated? <==> RiskTooHigh(f, |w.steps|))
          && (f < 6 ==> !w.state.Escalated?)
          && (f >= 14 ==> w.state.Escalated?))
  }

  lemma ObservedVerdict(p: Policy, w: Workflow)
    requires Observed(p, w)
    ensures Verdict(p, w)
  {
    FailedCount(w.steps);
    RiskThresholds(|InState(w.steps, StepState.Failed)|, |w.steps|);
  }

  /**
    After every run that raises no exception, first or later, under any policy and any structural reports: a failed
    step leaves the workflow escalated or degraded, and the workflow is completed exactly when it has steps, all of
    them are and the policy does not escalate even then. Under the default policy it is escalated exactly when the
    failures are too many, which never holds below 6 and always from 14 on.
   */
  lemma RunVerdict(cfg: Config, k: State, wid: string)
    requires Reachable(cfg, k) && wid in k.workflows
    ensures var r := RunWorkflow(cfg, k, wid);
            !r.outcome.Raised? ==> wid in r.state.workflows && Verdict(cfg.policy, r.state.workflows[wid])
  {
    ReachableLives(cfg, k, wid);
    RunLives(cfg, k, wid);
    RunObserved(cfg, k, wid);
    var r := RunWorkflow(cfg, k, wid);
    if !r.outcome.Raised? {
      ObservedVerdict(cfg.policy, r.state.workflows[wid]);
    }
  }

  /**
    Under the default policy a fresh run holds at most 14 failed steps, is never escalated with fewer than 6 and
    always with 14; in between, f failures out of n escalate it exactly when f * (24 n + 180) >= 323 n.
   */
  lemma DefaultRunEscalation(cfg: Config, k: State, wid: string)
    requires Fresh(k, wid) && cfg.hasRuntime && cfg.policy == DEFAULT_POLICY
    ensures var t := RunWorkflow(cfg, k, wid).state;
            && wid in t.workflows
            && var w := t.workflows[wid];
            && var f := |InState(w.steps, StepState.Failed)|;
            && f <= 14
            && (f < 6 ==> !w.state.Escalated?)
            && (f >= 14 ==> w.state.Escalated?)
            && (w.state.Escalated? <==> RiskTooHigh(f, |w.steps|))
  {
    RunWatched(cfg, k, wid);
    FreshLives(cfg, k, wid);
    RunLives(cfg, k, wid);
    var w := RunWorkflow(cfg, k, wid).state.workflows[wid];
    FailedCount(w.steps);
    RiskThresholds(|InState(w.steps, StepState.Failed)|, |w.steps|);
  }

  // ---------- the Psi of a workflow ----------

  /** The increment (T N - C) exp(-M) dt at the coefficients of steps none of which is running. */
  function StepGain(cfg: Config, steps: map<string, Step>, priority: real): real {
    var f, n := |InState(steps, StepState.Failed)| as real, Total(steps) as real;
    var progress := |InState(steps, StepState.Completed)| as real / n;
    var reward := Clamp(SynergyOf(f, f / n, progress)) * Clamp(0.80 * priority + 0.20 * progress);
    (reward - Clamp(CostOf(f, f / n))) * cfg.decay(Clamp(MortalityOf(f, f / n))) * cfg.policy.dt
  }

  lemma StepGainIs(cfg: Config, steps: map<string, Step>, priority: real)
    requires |InState(steps, StepState.Running)| == 0
    ensures StepGain(cfg, steps, priority)
         == Delta(cfg.decay, cfg.policy.dt, FromWorkflowTelemetry(StepTelemetry(steps, priority)))
  {
    StepCoefficients(steps, priority);
    var c := FromWorkflowTelemetry(StepTelemetry(steps, priority));
    assert Clamp(c.T) == c.T && Clamp(c.N) == c.N && Clamp(c.C) == c.C && Clamp(c.M) == c.M;
  }

  lemma ObservedPsi(cfg: Config, k: State, wid: string)
    requires wid in k.workflows
    ensures var t, w := ObserveFromSteps(cfg, k, wid), k.workflows[wid];
            && wid in t.workflows && t.workflows[wid].previousPsi == w.psi
            && t.workflows[wid].psi
               == w.psi
                  + Delta(cfg.decay, cfg.policy.dt, FromWorkflowTelemetry(StepTelemetry(w.steps, w.plan.priority)))
  {
  }

  /** An observation in a run moves the Psi of the workflow by the gain of its steps. */
  lemma ObservationMovesPsi(cfg: Config, k: State, wid: string)
    requires Attempted(cfg, k, wid)
    ensures var t, w := ObserveFromSteps(cfg, k, wid), k.workflows[wid];
            && wid in t.workflows && t.workflows[wid].previousPsi == w.psi
            && t.workflows[wid].psi == w.psi + StepGain(cfg, w.steps, w.plan.priority)
  {
    var w := k.workflows[wid];
    AttemptedExhausts(cfg, k, wid);
    assert InState(w.steps, StepState.Running) == {};
    StepGainIs(cfg, w.steps, w.plan.priority);
    ObservedPsi(cfg, k, wid);
  }

  lemma CompletedCoefficients(steps: map<string, Step>, priority: real)
    requires steps != map[] && AllCompleted(steps)
    ensures var c := FromWorkflowTelemetry(StepTelemetry(steps, priority));
            c.T == 0.9125 && c.N == Clamp(0.80 * priority + 0.20) && c.C == 0.0425
  {
    CompletedCount(steps);
    assert InState(steps, StepState.Running) == {};
    assert |InState(steps, StepState.Completed)| as real / Total(steps) as real == 1.0;
    StepCoefficients(steps, priority);
  }

  /** So a completed workflow gains Psi with every observation if its priority is not negative. */
  lemma CompletedWorkflowGains(cfg: Config, k: State, wid: string)
    requires Attempted(cfg, k, wid) && cfg.policy.dt > 0.0 && k.workflows[wid].plan.priority >= 0.0
    requires k.workflows[wid].steps != map[] && AllCompleted(k.workflows[wid].steps)
    ensures wid in ObserveFromSteps(cfg, k, wid).workflows
    ensures ObserveFromSteps(cfg, k, wid).workflows[wid].psi > k.workflows[wid].psi
  {
    var w := k.workflows[wid];
    CompletedCoefficients(w.steps, w.plan.priority);
    ObservedPsi(cfg, k, wid);
    DeltaSignAndBound(cfg.decay, cfg.policy.dt, FromWorkflowTelemetry(StepTelemetry(w.steps, w.plan.priority)));
    var n := Clamp(0.80 * w.plan.priority + 0.20);
    assert 0.9125 * n >= 0.9125 * 0.20;
  }
}
