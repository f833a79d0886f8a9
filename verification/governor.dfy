/** The three ordered decision trees of the lifecycle governor. */
module Governor {
  import opened Common
  import opened Types

  function NeedsReview(c: Criticality): bool {
    c.High? || c.Critical?
  }

  /** `a` is the record after its Psi, streak and coefficients were updated; `a.state` is still the previous state. */
  function Decide(p: Policy, a: Agent, c: Coefficients, dpsi: real, r: Report): Decision {
    var critical := a.spec.criticality.Critical?;
    var (next, review) :=
      if c.M >= p.quarantinePolicyRisk || c.C >= p.quarantinePolicyRisk then
        (Quarantined, true)
      else if a.state.Archived? then
        if c.N >= p.reactivationNeed && r.compatibility >= 0.55 && r.aftermathBalance >= p.minAftermathBalance then
          (Transitional, critical)
        else
          (Archived, false)
      else if critical && p.criticalRequiresReview
              && (dpsi < -p.alpha || r.transitionChannel >= p.maxTransitionChannel
                  || r.aftermathBalance < p.minAftermathBalance) then
        (Transitional, true)
      else if !critical && r.rank == Some(Extinct) then
        (Archived, false)
      else if r.rank == Some(Distorted) && dpsi < 0.0 then
        (Transitional, NeedsReview(a.spec.criticality))
      else if a.failureStreak >= p.maxFailureStreak then
        (Transitional, NeedsReview(a.spec.criticality))
      else if critical && a.psi <= p.archiveMaxPsi then
        (Transitional, true)
      else if !critical && a.psi <= p.archiveMaxPsi && r.retention < p.minRetention
              && r.aftermathBalance < p.minAftermathBalance then
        (Archived, false)
      else if dpsi < -p.alpha || r.transitionChannel >= p.maxTransitionChannel then
        (Transitional, false)
      else if a.psi >= p.activeMinPsi && r.retention >= p.minRetention then
        (Active, false)
      else
        (a.state, false);
    AgentDecision(a.spec.id, a.state, next, a.psi, dpsi, c, review)
  }

  function DecideEdge(p: Policy, edgeId: string, e: Edge, c: Coefficients, dpsi: real, r: Report): Decision {
    var (next, action) :=
      if c.C >= p.quarantinePolicyRisk || c.M >= p.quarantinePolicyRisk then
        (Quarantined, Quarantine)
      else if r.rank == Some(Extinct) then
        (Archived, Reroute)
      else if r.rank == Some(Distorted) && dpsi < 0.0 then
        (Transitional, Reroute)
      else if e.psi <= p.archiveMaxPsi && r.aftermathBalance < p.minAftermathBalance then
        (Archived, Reroute)
      else if dpsi < -p.alpha || r.transitionChannel >= p.maxTransitionChannel || e.psi < p.minEdgePsi then
        (Transitional, Reroute)
      else if r.retention >= p.minRetention && r.compatibility >= 0.55 then
        (Active, Handoff)
      else
        (e.state, MaestroAction.Observe);
    EdgeDecision(edgeId, e.state, next, e.psi, dpsi, c, action)
  }

  function InState(steps: map<string, Step>, state: StepState): set<string> {
    set id | id in steps && steps[id].state == state
  }

  function Cap(p: Policy, spec: StepSpec): int {
    if spec.maxRetries < p.maxStepAttempts then spec.maxRetries else p.maxStepAttempts
  }

  predicate AllExhausted(p: Policy, steps: map<string, Step>) {
    forall id | id in InState(steps, StepState.Failed) :: steps[id].attempts >= Cap(p, steps[id].spec)
  }

  function DecideWorkflow(p: Policy, w: Workflow, c: Coefficients, dpsi: real, r: Report): Decision {
    var failed := InState(w.steps, StepState.Failed);
    var completed := InState(w.steps, StepState.Completed);
    var (next, action, review) :=
      if c.M >= p.quarantinePolicyRisk || c.C >= p.quarantinePolicyRisk then
        (Escalated, Escalate, true)
      else if |completed| == |w.steps| && |w.steps| != 0 then
        (WorkflowState.Completed, Finalize, false)
      else if r.rank == Some(Extinct) && |w.steps| != 0 then
        (Degraded, Reroute, false)
      else if r.rank == Some(Distorted) && dpsi < 0.0 then
        (Degraded, Reroute, false)
      else if |failed| != 0 && AllExhausted(p, w.steps) then
        (Degraded, Reroute, false)
      else if dpsi < -p.alpha || w.psi < p.minWorkflowPsi || r.transitionChannel >= p.maxTransitionChannel then
        (Degraded, Reroute, false)
      else if |InState(w.steps, Pending)| != 0 || |InState(w.steps, StepState.Running)| != 0 then
        (WorkflowState.Running, Delegate, false)
      else
        (Paused, Pause, false);
    WorkflowDecision(w.plan.id, w.state, next, w.psi, dpsi, c, action, review)
  }
}
