/** What each verdict of the governor amounts to, whatever the order in which its conditions are tried. */
module Verdicts {
  import opened Common
  import opened Types
  import opened Governor
  import opened Maestro

  predicate AtRisk(p: Policy, c: Coefficients) {
    c.M >= p.quarantinePolicyRisk || c.C >= p.quarantinePolicyRisk
  }

  predicate IsExtinct(r: Report) {
    r.rank == Some(Extinct)
  }

  predicate DistortedDecline(r: Report, dpsi: real) {
    r.rank == Some(Distorted) && dpsi < 0.0
  }

  /** Psi does not fall faster than alpha, and the transition channel is below its limit. */
  predicate Steady(p: Policy, dpsi: real, r: Report) {
    dpsi >= -p.alpha && r.transitionChannel < p.maxTransitionChannel
  }

  /** Nothing moves the agent out of its state. */
  predicate Unshaken(p: Policy, a: Agent, dpsi: real, r: Report) {
    && Steady(p, dpsi, r) && !DistortedDecline(r, dpsi) && a.failureStreak < p.maxFailureStreak
    && if a.spec.criticality.Critical?
       then a.psi > p.archiveMaxPsi && (p.criticalRequiresReview ==> r.aftermathBalance >= p.minAftermathBalance)
       else !Spent(p, a, dpsi, r)
  }

  /** What an agent needs in order to become active from another state. */
  predicate Recovers(p: Policy, a: Agent, dpsi: real, r: Report) {
    Unshaken(p, a, dpsi, r) && a.psi >= p.activeMinPsi && r.retention >= p.minRetention
  }

  /** What retires an agent that is not critical. */
  predicate Spent(p: Policy, a: Agent, dpsi: real, r: Report) {
    || IsExtinct(r)
    || (a.psi <= p.archiveMaxPsi && r.retention < p.minRetention && r.aftermathBalance < p.minAftermathBalance
        && a.failureStreak < p.maxFailureStreak && !DistortedDecline(r, dpsi))
  }

  predicate InDemand(p: Policy, c: Coefficients, r: Report) {
    c.N >= p.reactivationNeed && r.compatibility >= 0.55 && r.aftermathBalance >= p.minAftermathBalance
  }

  /** What a reviewer has to look at in the demotion of a critical agent. */
  predicate CriticalConcern(p: Policy, a: Agent, dpsi: real, r: Report) {
    || (p.criticalRequiresReview && (!Steady(p, dpsi, r) || r.aftermathBalance < p.minAftermathBalance))
    || DistortedDecline(r, dpsi) || a.failureStreak >= p.maxFailureStreak || a.psi <= p.archiveMaxPsi
  }

  /** Exactly when a decision on an agent needs review. */
  predicate NeedsLook(p: Policy, a: Agent, c: Coefficients, dpsi: real, r: Report) {
    || AtRisk(p, c)
    || (match a.spec.criticality
        case Critical => if a.state.Archived? then InDemand(p, c, r) else CriticalConcern(p, a, dpsi, r)
        case High =>
          && !a.state.Archived? && !IsExtinct(r)
          && (DistortedDecline(r, dpsi) || a.failureStreak >= p.maxFailureStreak)
        case _ => false)
  }

  /**
    Exactly when an agent is active, archived, transitional or quarantined afterwards, whatever it was before, and
    exactly when the decision needs review.
   */
  lemma AgentTransitions(p: Policy, a: Agent, c: Coefficients, dpsi: real, r: Report)
    ensures var next := Decide(p, a, c, dpsi, r).newState;
            var settled, spent := Unshaken(p, a, dpsi, r), !a.spec.criticality.Critical? && Spent(p, a, dpsi, r);
            if AtRisk(p, c) then next == Quarantined
            else if a.state.Archived? then next == if InDemand(p, c, r) then Transitional else Archived
            else
              && (next.Active? <==> if a.state.Active? then settled else Recovers(p, a, dpsi, r))
              && (next.Archived? <==> spent)
              && (next.Transitional? <==>
                  !spent && (!settled || (a.state.Transitional? && !Recovers(p, a, dpsi, r))))
              && (next.Quarantined? <==> a.state.Quarantined? && settled && !Recovers(p, a, dpsi, r))
    ensures var d := Decide(p, a, c, dpsi, r);
            && d.AgentDecision? && (d.review <==> NeedsLook(p, a, c, dpsi, r))
            && d.id == a.spec.id && d.previousState == a.state
            && d.psi == a.psi && d.dpsi == dpsi && d.coefficients == c
  {
  }

  /** What makes a handoff worth rerouting. */
  predicate Frayed(p: Policy, e: Edge, dpsi: real, r: Report) {
    || IsExtinct(r) || DistortedDecline(r, dpsi) || !Steady(p, dpsi, r) || e.psi < p.minEdgePsi
    || (e.psi <= p.archiveMaxPsi && r.aftermathBalance < p.minAftermathBalance)
  }

  /** What makes a frayed handoff one to be archived. */
  predicate Retires(p: Policy, e: Edge, dpsi: real, r: Report) {
    || IsExtinct(r)
    || (!DistortedDecline(r, dpsi) && e.psi <= p.archiveMaxPsi && r.aftermathBalance < p.minAftermathBalance)
  }

  /** Exactly when an edge is quarantined, rerouted or confirmed; any other edge stays as it is. */
  lemma EdgeVerdicts(p: Policy, id: string, e: Edge, c: Coefficients, dpsi: real, r: Report)
    ensures var d := DecideEdge(p, id, e, c, dpsi, r);
            && (d.action.Quarantine? <==> AtRisk(p, c)) && (d.action.Quarantine? ==> d.newState.Quarantined?)
            && (d.action.Reroute? <==> !AtRisk(p, c) && Frayed(p, e, dpsi, r))
            && (d.action.Reroute? ==>
                  d.newState == if Retires(p, e, dpsi, r) then Archived else Transitional)
            && (d.action.Handoff? <==>
                !AtRisk(p, c) && !Frayed(p, e, dpsi, r) && r.retention >= p.minRetention && r.compatibility >= 0.55)
            && (d.action.Handoff? ==> d.newState.Active?)
            && (d.action.Observe? ==> d.newState == e.state)
            && (d.action.Quarantine? || d.action.Reroute? || d.action.Handoff? || d.action.Observe?)
            && d.id == id && d.previousState == e.state && d.psi == e.psi && d.dpsi == dpsi && d.coefficients == c
  {
  }

  lemma StateCounts(steps: map<string, Step>, state: StepState)
    ensures |InState(steps, state)| == 0 <==> forall id :: id in steps ==> steps[id].state != state
    ensures |InState(steps, state)| == |steps| <==> forall id :: id in steps ==> steps[id].state == state
  {
    var found := InState(steps, state);
    assert forall id :: id in found <==> id in steps && steps[id].state == state;
    assert steps.Keys == found + (steps.Keys - found);
    if |found| == |steps| {
      assert steps.Keys - found == {};
    }
    if forall id :: id in steps ==> steps[id].state == state {
      assert found == steps.Keys;
    }
    if forall id :: id in steps ==> steps[id].state != state {
      assert found == {};
    }
  }

  ghost predicate AllDone(w: Workflow) {
    w.steps != map[] && forall id :: id in w.steps ==> w.steps[id].state.Completed?
  }

  /** Some step failed, and every failed one used up its retries or the attempts that the policy grants. */
  ghost predicate Exhausted(p: Policy, w: Workflow) {
    && (exists id :: id in w.steps && w.steps[id].state.Failed?)
    && forall id :: id in w.steps && w.steps[id].state.Failed? ==>
                      w.steps[id].attempts >= w.steps[id].spec.maxRetries || w.steps[id].attempts >= p.maxStepAttempts
  }

  ghost predicate Declining(p: Policy, w: Workflow, dpsi: real, r: Report) {
    || (IsExtinct(r) && w.steps != map[]) || DistortedDecline(r, dpsi) || !Steady(p, dpsi, r)
    || w.psi < p.minWorkflowPsi || Exhausted(p, w)
  }

  ghost predicate HasWork(w: Workflow) {
    exists id :: id in w.steps && (w.steps[id].state.Pending? || w.steps[id].state.Running?)
  }

  lemma ExhaustedIs(p: Policy, w: Workflow)
    ensures Exhausted(p, w) <==> |InState(w.steps, StepState.Failed)| != 0 && AllExhausted(p, w.steps)
  {
    StateCounts(w.steps, StepState.Failed);
    var failed := InState(w.steps, StepState.Failed);
    if AllExhausted(p, w.steps) {
      forall id | id in w.steps && w.steps[id].state.Failed?
        ensures w.steps[id].attempts >= w.steps[id].spec.maxRetries || w.steps[id].attempts >= p.maxStepAttempts
      {
        assert id in failed;
      }
    }
  }

  /** The five verdicts on a workflow exclude one another and leave no case out; each has its own action. */
  lemma WorkflowVerdicts(p: Policy, w: Workflow, c: Coefficients, dpsi: real, r: Report)
    ensures var next := DecideWorkflow(p, w, c, dpsi, r).newPhase;
            && (next.Escalated? <==> AtRisk(p, c))
            && (next.Completed? <==> !AtRisk(p, c) && AllDone(w))
            && (next.Degraded? <==> !AtRisk(p, c) && !AllDone(w) && Declining(p, w, dpsi, r))
            && (next.Running? <==> !AtRisk(p, c) && !AllDone(w) && !Declining(p, w, dpsi, r) && HasWork(w))
            && (next.Paused? <==> !AtRisk(p, c) && !AllDone(w) && !Declining(p, w, dpsi, r) && !HasWork(w))
    ensures var d := DecideWorkflow(p, w, c, dpsi, r);
            && (d.newPhase.Escalated? ==> d.action == Escalate && d.review)
            && (d.newPhase.Completed? ==> d.action == Finalize) && (d.newPhase.Degraded? ==> d.action == Reroute)
            && (d.newPhase.Running? ==> d.action == Delegate) && (d.newPhase.Paused? ==> d.action == Pause)
            && (!d.newPhase.Escalated? ==> !d.review)
            && d.id == w.plan.id && d.previousPhase == w.state
            && d.psi == w.psi && d.dpsi == dpsi && d.coefficients == c
  {
    StateCounts(w.steps, StepState.Completed);
    StateCounts(w.steps, Pending);
    StateCounts(w.steps, StepState.Running);
    ExhaustedIs(p, w);
  }

  /** What an observation of a handoff announces: quarantines and reroutes, under the id of the edge. */
  lemma HandoffAnnounces(cfg: Config, k: State, source: string, target: string, h: HandoffTelemetry)
    ensures var t := ObserveHandoff(cfg, k, source, target, h);
            && |t.decisions| == |k.decisions| + 1
            && var d := t.decisions[|k.decisions|];
            && d.EdgeDecision? && d.id == source + "->" + target
            && t.events
               == k.events + if d.action == Reroute || d.action == Quarantine then [Event(None, d.action, d.id)] else []
  {
  }

  /** Pausing, escalating, finalizing and rerouting set the state of the workflow; no other action does. */
  lemma InterventionStates(k: State, wid: string, action: MaestroAction, subject: string)
    requires wid in k.workflows
    ensures var t := Intervene(k, wid, action, subject);
            && wid in t.workflows && t.workflows.Keys == k.workflows.Keys
            && (forall other :: other in k.workflows && other != wid ==> t.workflows[other] == k.workflows[other])
            && t.events == k.events + [Event(Some(wid), action, subject)]
            && var before, after := k.workflows[wid], t.workflows[wid];
            && after == before.(state := after.state)
            && (action == Pause ==> after.state == Paused) && (action == Escalate ==> after.state == Escalated)
            && (action == Finalize ==> after.state.Completed?) && (action == Reroute ==> after.state == Degraded)
            && (action !in {Pause, Escalate, Finalize, Reroute} ==> after.state == before.state)
  {
  }
}
