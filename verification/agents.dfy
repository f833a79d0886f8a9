/** What no sequence of operations can do to an agent. */
module AgentSafety {
  import opened Common
  import opened Types
  import opened Continuity
  import opened Governor
  import opened Maestro
  import opened Runs
  import opened Operations

  // ---------- one decision ----------

  /** Whatever the report, the governor leaves an agent active only below the streak limit. */
  lemma ActiveMeansBelowLimit(p: Policy, a: Agent, c: Coefficients, dpsi: real, r: Report)
    ensures Decide(p, a, c, dpsi, r).newState.Active? ==> a.failureStreak < p.maxFailureStreak
  {
  }

  predicate IsCritical(a: Agent) {
    a.spec.criticality.Critical?
  }

  /** Entering TRANSITIONAL or QUARANTINED from another state. */
  predicate Demotes(d: Decision)
    requires d.AgentDecision?
  {
    (d.newState.Transitional? || d.newState.Quarantined?) && d.newState != d.previousState
  }

  lemma CriticalVerdict(p: Policy, a: Agent, c: Coefficients, dpsi: real, r: Report)
    requires IsCritical(a)
    ensures var d := Decide(p, a, c, dpsi, r);
            && (!a.state.Archived? ==> !d.newState.Archived?)
            && (p.criticalRequiresReview && Demotes(d) ==> d.review)
  {
  }

  /** The record after an observation. */
  function AgentAfter(cfg: Config, a: Agent, m: AgentTelemetry, tick: nat): Agent {
    Measured(cfg, a, m).(state := AgentVerdict(cfg, a, m, tick).newState)
  }

  // ---------- every reachable state ----------

  predicate BelowLimit(p: Policy, a: Agent) {
    a.state.Active? ==> a.failureStreak < p.maxFailureStreak
  }

  predicate NotArchivedIfCritical(a: Agent) {
    IsCritical(a) ==> !a.state.Archived?
  }

  predicate Reviewed(p: Policy, spec: AgentSpec, d: Decision)
    requires d.AgentDecision?
  {
    spec.criticality.Critical? && p.criticalRequiresReview && Demotes(d) ==> d.review
  }

  ghost predicate LogReviewed(p: Policy, k: State) {
    forall i :: 0 <= i < |k.decisions| && k.decisions[i].AgentDecision? ==>
                  && k.decisions[i].id in k.agents
                  && Reviewed(p, k.agents[k.decisions[i].id].spec, k.decisions[i])
  }

  ghost predicate AgentsSafe(p: Policy, agents: map<string, Agent>) {
    forall id :: id in agents ==>
                   && (p.maxFailureStreak >= 1 ==> BelowLimit(p, agents[id]))
                   && NotArchivedIfCritical(agents[id])
  }

  ghost predicate Safe(p: Policy, k: State) {
    AgentsSafe(p, k.agents) && LogReviewed(p, k)
  }

  lemma ObserveSafe(cfg: Config, k: State, id: string, m: AgentTelemetry)
    requires id in k.agents && k.agents[id].spec.id == id && Safe(cfg.policy, k)
    ensures Safe(cfg.policy, ObserveAgent(cfg, k, id, m))
  {
    var a, c := k.agents[id], FromAgentTelemetry(m);
    var dpsi, r := Delta(cfg.decay, cfg.policy.dt, c), cfg.reports(|k.decisions|);
    ActiveMeansBelowLimit(cfg.policy, Measured(cfg, a, m), c, dpsi, r);
    if IsCritical(a) {
      CriticalVerdict(cfg.policy, Measured(cfg, a, m), c, dpsi, r);
    }
  }

  /** Later entries of the log that concern no agent change nothing. */
  ghost predicate OnlyLater(k: State, t: State) {
    && t.agents == k.agents && k.decisions <= t.decisions
    && forall i :: |k.decisions| <= i < |t.decisions| ==> !t.decisions[i].AgentDecision?
  }

  lemma LaterSafe(p: Policy, k: State, t: State)
    requires Safe(p, k) && OnlyLater(k, t)
    ensures Safe(p, t)
  {
    forall i | 0 <= i < |t.decisions| && t.decisions[i].AgentDecision?
      ensures t.decisions[i].id in t.agents && Reviewed(p, t.agents[t.decisions[i].id].spec, t.decisions[i])
    {
      assert t.decisions[i] == k.decisions[i];
    }
  }

  lemma {:induction false} DependenciesOnlyLater(
    cfg: Config, k: State, w: Workflow, deps: seq<string>, target: string, ok: bool)
    requires forall d :: d in deps ==> d in w.steps
    ensures OnlyLater(k, ObserveDependencies(cfg, k, w, deps, target, ok))
    decreases |deps|
  {
    if deps != [] {
      var source, h := w.steps[deps[0]].assignee, StepHandoffTelemetry(ok, w.plan.priority);
      var k1 := if source == "" then k else ObserveHandoff(cfg, k, source, target, h);
      DependenciesOnlyLater(cfg, k1, w, deps[1..], target, ok);
    }
  }

  /** After its execution, a turn only observes edges and the workflow. */
  lemma TurnOnlyLater(cfg: Config, k: State, wid: string, sid: string, agentId: string)
    requires wid in k.workflows && Known(k.workflows[wid], sid) && agentId in k.agents
    ensures OnlyLater(RunStep(cfg, k, wid, sid, agentId), TurnOn(cfg, k, wid, sid, agentId))
  {
    var k1 := RunStep(cfg, k, wid, sid, agentId);
    RunStepFrame(cfg, k, wid, sid, agentId);
    HandoffFrame(cfg, k1, wid, sid);
    var w1 := k1.workflows[wid];
    var s1 := w1.steps[sid];
    DependenciesOnlyLater(cfg, k1, w1, s1.spec.dependsOn, s1.assignee, s1.state.Completed?);
    var k2 := ObserveStepHandoffs(cfg, k1, wid, sid);
    WorkflowOnlyLater(cfg, k2, wid);
  }

  lemma WorkflowOnlyLater(cfg: Config, k: State, wid: string)
    requires wid in k.workflows
    ensures OnlyLater(k, ObserveFromSteps(cfg, k, wid))
  {
  }

  lemma RunStepSafe(cfg: Config, k: State, wid: string, sid: string, agentId: string)
    requires wid in k.workflows && Known(k.workflows[wid], sid)
    requires agentId in k.agents && k.agents[agentId].spec.id == agentId && Safe(cfg.policy, k)
    ensures Safe(cfg.policy, RunStep(cfg, k, wid, sid, agentId))
  {
    var w := k.workflows[wid];
    var k1 := k.(calls := k.calls + [StepCall(w, sid, agentId)]);
    ObserveSafe(cfg, k1, agentId, ExecutionTelemetry(cfg, |k.calls|, k.agents[agentId].failureStreak, w.plan.priority));
  }

  lemma RunSafe(cfg: Config, k: State, wid: string)
    requires Valid(k) && Safe(cfg.policy, k)
    ensures Safe(cfg.policy, RunWorkflow(cfg, k, wid).state)
  {
    if cfg.hasRuntime && wid in k.workflows {
      StartedValid(k, wid);
      var inv := (s: State) => Safe(cfg.policy, s);
      forall s: State, sid: string | AtTurn(s, wid, sid) && inv(s)
        ensures inv(Turn(cfg, s, wid, sid).state)
      {
        TurnEffect(cfg, s, wid, sid);
        var a := Assigned(cfg, s, wid, sid);
        if a.Success? {
          RunStepSafe(cfg, s, wid, sid, a.value);
          TurnOnlyLater(cfg, s, wid, sid, a.value);
          LaterSafe(cfg.policy, RunStep(cfg, s, wid, sid, a.value), TurnOn(cfg, s, wid, sid, a.value));
        }
      }
      RunInduction(cfg, Started(k, wid), wid, inv);
      var s := RunSteps(cfg, Started(k, wid), wid).state;
      WorkflowOnlyLater(cfg, s, wid);
      LaterSafe(cfg.policy, s, ObserveFromSteps(cfg, s, wid));
    }
  }

  lemma ApplySafe(cfg: Config, k: State, op: Op)
    requires Valid(k) && Safe(cfg.policy, k)
    ensures Safe(cfg.policy, Apply(cfg, k, op))
  {
    match op
    case AddAgent(spec, initial) =>
    case AgentMetrics(id, m) => if id in k.agents { ObserveSafe(cfg, k, id, m); }
    case DoTask(taskId, capability, priority) =>
      var r := TaskAgent(cfg, k, capability);
      TaskAgentIsEligible(cfg, k, capability);
      if r.Success? {
        var k1 := k.(calls := k.calls + [Call(r.value, DirectTask(taskId, capability, priority))]);
        ObserveSafe(cfg, k1, r.value, DirectTelemetry(cfg, |k.calls|, k.agents[r.value].failureStreak, priority));
      }
    case HandoffMetrics(source, target, h) => LaterSafe(cfg.policy, k, ObserveHandoff(cfg, k, source, target, h));
    case NewPlan(plan) =>
    case PlanMetrics(wid, t) => if wid in k.workflows { LaterSafe(cfg.policy, k, ObserveWorkflow(cfg, k, wid, t)); }
    case RunPlan(wid) => RunSafe(cfg, k, wid);
    case Intervention(wid, action, subject) =>
  }

  /**
    In every reachable state, for all policies, telemetry and reports: an active agent is below a positive streak
    limit, a critical agent is not archived, and every logged demotion of a critical agent asked for review where
    the policy wants it.
   */
  lemma {:induction false} AgentsStaySafe(cfg: Config, ops: seq<Op>)
    ensures Safe(cfg.policy, Reached(cfg, ops))
    decreases |ops|
  {
    if ops != [] {
      AgentsStaySafe(cfg, ops[..|ops| - 1]);
      ApplySafe(cfg, Reached(cfg, ops[..|ops| - 1]), ops[|ops| - 1]);
    }
  }

  ghost predicate ActiveBelowLimit(p: Policy, k: State) {
    forall id :: id in k.agents ==> BelowLimit(p, k.agents[id])
  }

  /** The streak limit protects every reachable state exactly when it is positive: a new agent has streak 0. */
  lemma StreakLimitExact(cfg: Config)
    ensures (forall ops :: ActiveBelowLimit(cfg.policy, Reached(cfg, ops))) <==> cfg.policy.maxFailureStreak >= 1
  {
    if cfg.policy.maxFailureStreak >= 1 {
      forall ops ensures ActiveBelowLimit(cfg.policy, Reached(cfg, ops)) {
        AgentsStaySafe(cfg, ops);
      }
    } else {
      var op := AddAgent(AgentSpec("a", [], Medium), None);
      assert [op][..0] == [];
      assert Reached(cfg, [op]) == Apply(cfg, Reached(cfg, []), op);
      assert "a" in Reached(cfg, [op]).agents;
      assert !ActiveBelowLimit(cfg.policy, Reached(cfg, [op]));
    }
  }
}
