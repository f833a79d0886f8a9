/** Agents that are only ever observed through their own executions. */
module Executions {
  import opened Common
  import opened Types
  import opened Continuity
  import opened Maestro
  import opened Runs
  import opened Operations
  import opened AgentSafety

  /** How many of the agent's latest calls failed since its last success. */
  function Trailing(cfg: Config, calls: seq<Call>, id: string): nat {
    if calls == [] then 0
    else
      var i := |calls| - 1;
      if calls[i].agentId != id then Trailing(cfg, calls[..i], id)
      else if cfg.results(i).ok then 0
      else Trailing(cfg, calls[..i], id) + 1
  }

  /** No agent ever had more consecutive failing calls than the limit. */
  ghost predicate StreaksLimited(cfg: Config, calls: seq<Call>) {
    forall i: nat, id: string :: i <= |calls| ==> Trailing(cfg, calls[..i], id) <= cfg.policy.maxFailureStreak
  }

  ghost predicate StreaksExact(cfg: Config, k: State) {
    forall id :: Trailing(cfg, k.calls, id) == if id in k.agents then k.agents[id].failureStreak else 0
  }

  ghost predicate NoneQuarantined(k: State) {
    forall id :: id in k.agents ==> !k.agents[id].state.Quarantined?
  }

  /** The kernel when every agent observation came from an execution. */
  ghost predicate Executed(cfg: Config, k: State) {
    && StreaksExact(cfg, k)
    && (cfg.policy.maxFailureStreak >= 1 ==> StreaksLimited(cfg, k.calls) && ActiveBelowLimit(cfg.policy, k))
    && (cfg.policy.quarantinePolicyRisk > 0.55 ==> NoneQuarantined(k))
  }

  /** The telemetry of an execution: no policy risk, no overlap, no age, a cost of at most 1. */
  predicate FromExecution(cfg: Config, i: nat, streak: int, m: AgentTelemetry) {
    && m.failureCount == (if cfg.results(i).ok then 0 else streak + 1)
    && m.policyRisk == 0.0 && m.overlapScore == 0.0 && m.ageSeconds == 0.0 && m.resourceCost <= 1.0
  }

  lemma ExecutionNeverQuarantines(cfg: Config, a: Agent, i: nat, m: AgentTelemetry, tick: nat)
    requires FromExecution(cfg, i, a.failureStreak, m) && cfg.policy.quarantinePolicyRisk > 0.55
    ensures !a.state.Quarantined? ==> !AgentAfter(cfg, a, m, tick).state.Quarantined?
  {
    var c := FromAgentTelemetry(m);
    assert c.C <= 0.55 && c.M <= 0.5;
  }

  /** The bound 0.55 is exact: a slow execution at full cost reaches it. */
  lemma ExpensiveExecutionQuarantines(cfg: Config, a: Agent, i: nat, priority: real, tick: nat)
    requires cfg.policy.quarantinePolicyRisk <= 0.55
    requires cfg.results(i).cost >= 1.0 && cfg.results(i).latencyMs >= 10000.0
    ensures AgentAfter(cfg, a, ExecutionTelemetry(cfg, i, a.failureStreak, priority), tick).state.Quarantined?
  {
    var m := ExecutionTelemetry(cfg, i, a.failureStreak, priority);
    assert FromAgentTelemetry(m).C == 0.55;
  }

  /** One execution: `id` was active, made one call, and was observed through it. */
  ghost predicate Execution(cfg: Config, k: State, t: State, id: string, m: AgentTelemetry, tick: nat) {
    && id in k.agents && k.agents[id].state.Active?
    && FromExecution(cfg, |k.calls|, k.agents[id].failureStreak, m)
    && |t.calls| == |k.calls| + 1 && t.calls[..|k.calls|] == k.calls && t.calls[|k.calls|].agentId == id
    && t.agents == k.agents[id := AgentAfter(cfg, k.agents[id], m, tick)]
  }

  lemma ExecutionStreaks(cfg: Config, k: State, t: State, id: string, m: AgentTelemetry, tick: nat)
    requires Executed(cfg, k) && Execution(cfg, k, t, id, m, tick)
    ensures StreaksExact(cfg, t)
  {
  }

  lemma ExecutionLimit(cfg: Config, k: State, t: State, id: string, m: AgentTelemetry, tick: nat)
    requires Executed(cfg, k) && Execution(cfg, k, t, id, m, tick) && cfg.policy.maxFailureStreak >= 1
    ensures StreaksLimited(cfg, t.calls)
  {
    forall i: nat, x: string | i <= |t.calls| ensures Trailing(cfg, t.calls[..i], x) <= cfg.policy.maxFailureStreak {
      if i <= |k.calls| {
        assert t.calls[..i] == k.calls[..i];
      } else {
        assert t.calls[..i] == t.calls && k.calls[..|k.calls|] == k.calls;
        assert BelowLimit(cfg.policy, k.agents[id]);
      }
    }
  }

  lemma ExecutionStep(cfg: Config, k: State, t: State, id: string, m: AgentTelemetry, tick: nat)
    requires Executed(cfg, k) && Execution(cfg, k, t, id, m, tick)
    ensures Executed(cfg, t)
  {
    ExecutionStreaks(cfg, k, t, id, m, tick);
    if cfg.policy.maxFailureStreak >= 1 {
      ExecutionLimit(cfg, k, t, id, m, tick);
    }
    var a, c := k.agents[id], FromAgentTelemetry(m);
    ActiveMeansBelowLimit(cfg.policy, Measured(cfg, a, m), c, Delta(cfg.decay, cfg.policy.dt, c), cfg.reports(tick));
    if cfg.policy.quarantinePolicyRisk > 0.55 {
      ExecutionNeverQuarantines(cfg, a, |k.calls|, m, tick);
    }
  }

  lemma TurnExecutes(cfg: Config, k: State, wid: string, sid: string, agentId: string)
    requires wid in k.workflows && Known(k.workflows[wid], sid)
    requires agentId in k.agents && k.agents[agentId].state.Active?
    ensures Execution(cfg, k, TurnOn(cfg, k, wid, sid, agentId), agentId,
                      ExecutionTelemetry(
                        cfg, |k.calls|, k.agents[agentId].failureStreak, k.workflows[wid].plan.priority),
                      |k.decisions|)
  {
    TurnOnlyLater(cfg, k, wid, sid, agentId);
    TurnOnEffect(cfg, k, wid, sid, agentId);
  }

  lemma QuietExecuted(cfg: Config, k: State, t: State)
    requires Executed(cfg, k) && t.agents == k.agents && t.calls == k.calls
    ensures Executed(cfg, t)
  {
  }

  lemma RunExecuted(cfg: Config, k: State, wid: string)
    requires Valid(k) && Executed(cfg, k)
    ensures Executed(cfg, RunWorkflow(cfg, k, wid).state)
  {
    if cfg.hasRuntime && wid in k.workflows {
      StartedValid(k, wid);
      QuietExecuted(cfg, k, Started(k, wid));
      var inv := (s: State) => Executed(cfg, s);
      forall s: State, sid: string | AtTurn(s, wid, sid) && inv(s)
        ensures inv(Turn(cfg, s, wid, sid).state)
      {
        TurnEffect(cfg, s, wid, sid);
        var a := Assigned(cfg, s, wid, sid);
        if a.Success? {
          TurnExecutes(cfg, s, wid, sid, a.value);
          ExecutionStep(cfg, s, TurnOn(cfg, s, wid, sid, a.value), a.value,
                        ExecutionTelemetry(
                          cfg, |s.calls|, s.agents[a.value].failureStreak, s.workflows[wid].plan.priority),
                        |s.decisions|);
        }
      }
      RunInduction(cfg, Started(k, wid), wid, inv);
      var s := RunSteps(cfg, Started(k, wid), wid).state;
      ObserveFromStepsFrame(cfg, s, wid);
      QuietExecuted(cfg, s, ObserveFromSteps(cfg, s, wid));
    }
  }

  /** The operations that observe agents only through executions. */
  predicate Executes(op: Op) {
    !op.AgentMetrics?
  }

  predicate AllExecute(ops: seq<Op>) {
    forall i :: 0 <= i < |ops| ==> Executes(ops[i])
  }

  lemma ApplyExecuted(cfg: Config, k: State, op: Op)
    requires Executes(op) && Valid(k) && Executed(cfg, k)
    ensures Executed(cfg, Apply(cfg, k, op))
  {
    match op
    case AddAgent(spec, initial) =>
    case DoTask(taskId, capability, priority) =>
      var r := TaskAgent(cfg, k, capability);
      TaskAgentIsEligible(cfg, k, capability);
      if r.Success? {
        ExecutionStep(cfg, k, Apply(cfg, k, op), r.value,
                      DirectTelemetry(cfg, |k.calls|, k.agents[r.value].failureStreak, priority), |k.decisions|);
      }
    case HandoffMetrics(source, target, h) => QuietExecuted(cfg, k, Apply(cfg, k, op));
    case NewPlan(plan) => QuietExecuted(cfg, k, Apply(cfg, k, op));
    case PlanMetrics(wid, t) => QuietExecuted(cfg, k, Apply(cfg, k, op));
    case RunPlan(wid) => RunExecuted(cfg, k, wid);
    case Intervention(wid, action, subject) => QuietExecuted(cfg, k, Apply(cfg, k, op));
  }

  /**
    When agents are observed only through executions, across all workflows and direct tasks: the streak on record is
    the number of trailing failures, no agent is handed more failing tasks in a row than a limit of at least one, and
    under a risk limit above 0.55 no agent is quarantined.
   */
  lemma {:induction false} ExecutionsAreLimited(cfg: Config, ops: seq<Op>)
    requires AllExecute(ops)
    ensures Executed(cfg, Reached(cfg, ops))
    decreases |ops|
  {
    if ops != [] {
      ExecutionsAreLimited(cfg, ops[..|ops| - 1]);
      ApplyExecuted(cfg, Reached(cfg, ops[..|ops| - 1]), ops[|ops| - 1]);
    } else {
      assert forall i: nat, id: string :: i <= 0 ==> Trailing(cfg, EMPTY.calls[..i], id) == 0;
    }
  }

  /** A runtime whose every result is slow and costly. */
  function Costly(cfg: Config): Config {
    cfg.(hasRuntime := true, results := (i: nat) => TaskResult(true, "", "", 10000.0, 1.0))
  }

  /** One registration and one costly direct task. */
  function CostlyOps(): seq<Op> {
    [AddAgent(AgentSpec("a", ["c"], Medium), None), DoTask("t", "c", 0.0)]
  }

  lemma CostlyTask(cfg: Config, k: State)
    requires k == Register(EMPTY, AgentSpec("a", ["c"], Medium), None) && Valid(k)
    requires cfg.policy.quarantinePolicyRisk <= 0.55
    ensures var t := Apply(Costly(cfg), k, DoTask("t", "c", 0.0));
            "a" in t.agents && t.agents["a"].state.Quarantined?
  {
    var c, a := Costly(cfg), k.agents["a"];
    TaskAgentIsEligible(c, k, "c");
    EligibleIdsKnown(k.agents, k.roster, "c");
    assert k.roster == ["a"];
    assert Eligible(a, "c");
    assert TaskAgent(c, k, "c") == Success("a");
    assert FromAgentTelemetry(DirectTelemetry(c, 0, 0, 0.0)).C == 0.55;
  }

  lemma CostlyOpsQuarantine(cfg: Config)
    requires cfg.policy.quarantinePolicyRisk <= 0.55
    ensures AllExecute(CostlyOps()) && !NoneQuarantined(Reached(Costly(cfg), CostlyOps()))
  {
    var ops, c := CostlyOps(), Costly(cfg);
    ReachedNext(c, [], ops[0]);
    ReachedNext(c, [ops[0]], ops[1]);
    assert [] + [ops[0]] == [ops[0]] && [ops[0]] + [ops[1]] == ops;
    CostlyTask(cfg, Reached(c, [ops[0]]));
  }

  /**
    Executions alone quarantine no agent in any reachable state, whatever the results and reports, if and only if the
    policy's risk limit exceeds 0.55.
   */
  lemma QuarantineLimitExact(cfg: Config)
    ensures (forall c: Config, ops :: c.policy == cfg.policy && AllExecute(ops) ==> NoneQuarantined(Reached(c, ops)))
       <==> cfg.policy.quarantinePolicyRisk > 0.55
  {
    if cfg.policy.quarantinePolicyRisk > 0.55 {
      forall c: Config, ops | c.policy == cfg.policy && AllExecute(ops) ensures NoneQuarantined(Reached(c, ops)) {
        ExecutionsAreLimited(c, ops);
      }
    } else {
      CostlyOpsQuarantine(cfg);
    }
  }
}
