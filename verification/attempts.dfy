/** What one execution does to the Psi of its agent. */
module Attempts {
  import opened Types
  import opened Continuity
  import opened Maestro
  import opened Runs
  import opened Operations

  /** The latency that counts for the i-th call: the reported one, or the measured one if none is reported. */
  lemma LatencyIs(cfg: Config, i: nat)
    ensures cfg.results(i).latencyMs != 0.0 ==> Latency(cfg, i) == cfg.results(i).latencyMs
    ensures cfg.results(i).latencyMs == 0.0 ==> Latency(cfg, i) == cfg.elapsed(i)
  {
  }

  /** An increment of Psi at the given synergy, need, cost and mortality. */
  function Gain(cfg: Config, t: real, n: real, c: real, m: real): real {
    (t * n - c) * cfg.decay(m) * cfg.policy.dt
  }

  /** The need for work of a priority. */
  function Need(priority: real): real {
    Clamp(if priority < 1.0 then 0.70 * priority else 0.45 + 0.25 * priority)
  }

  /** The cost of the i-th call. */
  function CallCost(cfg: Config, i: nat): real {
    var cost := cfg.results(i).cost;
    Clamp((if cost < 1.0 then 0.35 * cost else 0.35) + 0.20 * Clamp(Latency(cfg, i) / 10000.0))
  }

  /** The mortality of an agent that failed `failures` times in a row, with the i-th call. */
  function CallMortality(cfg: Config, i: nat, failures: int): real {
    Clamp(0.40 * Clamp(failures as real / 10.0) + 0.10 * Clamp(Latency(cfg, i) / 20000.0))
  }

  function FailuresAfter(cfg: Config, i: nat, streak: int): int {
    if cfg.results(i).ok then 0 else streak + 1
  }

  /** What a step's attempt is worth: synergy 0.72 for a success and 0.1825 for a failure. */
  lemma ExecutionCoefficients(cfg: Config, i: nat, streak: int, priority: real)
    ensures FromAgentTelemetry(ExecutionTelemetry(cfg, i, streak, priority))
         == Coefficients(
              if cfg.results(i).ok then 0.72 else 0.1825, Need(priority), CallCost(cfg, i),
              CallMortality(cfg, i, FailuresAfter(cfg, i, streak)))
  {
  }

  /** What a direct task is worth: synergy 0.68 for a success and 0.48 for a failure. */
  lemma DirectCoefficients(cfg: Config, i: nat, streak: int, priority: real)
    ensures FromAgentTelemetry(DirectTelemetry(cfg, i, streak, priority))
         == Coefficients(
              if cfg.results(i).ok then 0.68 else 0.48, Need(priority), CallCost(cfg, i),
              CallMortality(cfg, i, FailuresAfter(cfg, i, streak)))
  {
  }

  /** From `k` to `t` the agent's Psi moved as an execution of this synergy moves it, and no other agent changed. */
  ghost predicate Moved(cfg: Config, k: State, t: State, agentId: string, synergy: real, priority: real) {
    && agentId in k.agents && t.agents.Keys == k.agents.Keys
    && (forall id :: id in k.agents && id != agentId ==> t.agents[id] == k.agents[id])
    && var a, b, i := k.agents[agentId], t.agents[agentId], |k.calls|;
    && b.failureStreak == FailuresAfter(cfg, i, a.failureStreak) && b.observations == a.observations + 1
    && b.previousPsi == a.psi
    && b.psi
       == a.psi + Gain(cfg, synergy, Need(priority), CallCost(cfg, i), CallMortality(cfg, i, b.failureStreak))
  }

  lemma DeltaIsGain(cfg: Config, m: AgentTelemetry)
    ensures var c := FromAgentTelemetry(m);
            Delta(cfg.decay, cfg.policy.dt, c) == Gain(cfg, c.T, c.N, c.C, c.M)
  {
    var c := FromAgentTelemetry(m);
    assert Clamp(c.T) == c.T && Clamp(c.N) == c.N && Clamp(c.C) == c.C && Clamp(c.M) == c.M;
  }

  lemma ObservedRecord(cfg: Config, k: State, agentId: string, m: AgentTelemetry)
    requires agentId in k.agents
    ensures var t := ObserveAgent(cfg, k, agentId, m);
            && t.agents == k.agents[agentId := t.agents[agentId]]
            && var a, b := k.agents[agentId], t.agents[agentId];
            && b.failureStreak == m.failureCount && b.observations == a.observations + 1 && b.previousPsi == a.psi
            && b.psi == a.psi + Delta(cfg.decay, cfg.policy.dt, FromAgentTelemetry(m))
  {
  }

  lemma ObservedMoves(
    cfg: Config, k: State, k1: State, agentId: string, m: AgentTelemetry, synergy: real, priority: real)
    requires agentId in k.agents && k1.agents == k.agents
    requires m.failureCount == FailuresAfter(cfg, |k.calls|, k.agents[agentId].failureStreak)
    requires FromAgentTelemetry(m)
          == Coefficients(
               synergy, Need(priority), CallCost(cfg, |k.calls|), CallMortality(cfg, |k.calls|, m.failureCount))
    ensures Moved(cfg, k, ObserveAgent(cfg, k1, agentId, m), agentId, synergy, priority)
  {
    DeltaIsGain(cfg, m);
    ObservedRecord(cfg, k1, agentId, m);
  }

  lemma SameAgents(cfg: Config, k: State, s: State, t: State, agentId: string, synergy: real, priority: real)
    requires Moved(cfg, k, s, agentId, synergy, priority) && t.agents == s.agents
    ensures Moved(cfg, k, t, agentId, synergy, priority)
  {
  }

  /** An attempt moves its agent's Psi by ((0.72 or 0.1825) N - C) exp(-M) dt, and no other agent. */
  lemma AttemptMovesPsi(cfg: Config, k: State, wid: string, sid: string, agentId: string)
    requires wid in k.workflows && Known(k.workflows[wid], sid) && agentId in k.agents
    ensures Moved(
              cfg, k, TurnOn(cfg, k, wid, sid, agentId), agentId, if cfg.results(|k.calls|).ok then 0.72 else 0.1825,
              k.workflows[wid].plan.priority)
  {
    var i, priority := |k.calls|, k.workflows[wid].plan.priority;
    var m := ExecutionTelemetry(cfg, i, k.agents[agentId].failureStreak, priority);
    var synergy := if cfg.results(i).ok then 0.72 else 0.1825;
    ExecutionCoefficients(cfg, i, k.agents[agentId].failureStreak, priority);
    var k1 := k.(calls := k.calls + [StepCall(k.workflows[wid], sid, agentId)]);
    ObservedMoves(cfg, k, k1, agentId, m, synergy, priority);
    var s := RunStep(cfg, k, wid, sid, agentId);
    assert s.agents == ObserveAgent(cfg, k1, agentId, m).agents;
    RunStepFrame(cfg, k, wid, sid, agentId);
    HandoffFrame(cfg, s, wid, sid);
    ObserveFromStepsFrame(cfg, ObserveStepHandoffs(cfg, s, wid, sid), wid);
    SameAgents(
      cfg, k, ObserveAgent(cfg, k1, agentId, m), TurnOn(cfg, k, wid, sid, agentId), agentId, synergy, priority);
  }

  lemma GainSign(cfg: Config, t: real, n: real, c: real, m: real)
    requires 0.0 <= t <= 1.0 && 0.0 <= n <= 1.0 && 0.0 <= c <= 1.0 && 0.0 <= m <= 1.0 && cfg.policy.dt > 0.0
    ensures var gain := Gain(cfg, t, n, c, m);
            (gain > 0.0 <==> t * n > c) && (gain < 0.0 <==> t * n < c)
  {
    var e := cfg.decay(m);
    assert IsDecay(cfg.decay) && 0.0 < e <= 1.0;
    IncrementSignAndBound(t, n, c, e, cfg.policy.dt, Gain(cfg, t, n, c, m));
  }

  /** From `k` to `t` the agent's Psi rose or fell as its synergy at this need exceeds the cost or falls short of it. */
  ghost predicate Weighed(cfg: Config, k: State, t: State, agentId: string, synergy: real, priority: real) {
    && agentId in k.agents && agentId in t.agents
    && var a, b, cost := k.agents[agentId].psi, t.agents[agentId].psi, CallCost(cfg, |k.calls|);
    && (b > a <==> synergy * Need(priority) > cost)
    && (b < a <==> synergy * Need(priority) < cost)
  }

  lemma MovedIsWeighed(cfg: Config, k: State, t: State, agentId: string, synergy: real, priority: real)
    requires Moved(cfg, k, t, agentId, synergy, priority) && 0.0 <= synergy <= 1.0 && cfg.policy.dt > 0.0
    ensures Weighed(cfg, k, t, agentId, synergy, priority)
  {
    var i := |k.calls|;
    GainSign(
      cfg, synergy, Need(priority), CallCost(cfg, i), CallMortality(cfg, i, t.agents[agentId].failureStreak));
  }

  /** So a success raises its agent's Psi exactly if 0.72 N > C, and a failure exactly if 0.1825 N > C. */
  lemma AttemptIsWeighed(cfg: Config, k: State, wid: string, sid: string, agentId: string)
    requires wid in k.workflows && Known(k.workflows[wid], sid) && agentId in k.agents && cfg.policy.dt > 0.0
    ensures Weighed(
              cfg, k, TurnOn(cfg, k, wid, sid, agentId), agentId, if cfg.results(|k.calls|).ok then 0.72 else 0.1825,
              k.workflows[wid].plan.priority)
  {
    AttemptMovesPsi(cfg, k, wid, sid, agentId);
    MovedIsWeighed(
      cfg, k, TurnOn(cfg, k, wid, sid, agentId), agentId, if cfg.results(|k.calls|).ok then 0.72 else 0.1825,
      k.workflows[wid].plan.priority);
  }

  /** A direct task moves its agent's Psi by ((0.68 or 0.48) N - C) exp(-M) dt, and no other agent. */
  lemma TaskMovesPsi(cfg: Config, k: State, op: Op)
    requires Valid(k) && op.DoTask? && TaskAgent(cfg, k, op.capability).Success?
    ensures var agentId, synergy := TaskAgent(cfg, k, op.capability).value,
                                    if cfg.results(|k.calls|).ok then 0.68 else 0.48;
            Moved(cfg, k, Apply(cfg, k, op), agentId, synergy, op.priority)
    ensures cfg.policy.dt > 0.0 ==>
              Weighed(
                cfg, k, Apply(cfg, k, op), TaskAgent(cfg, k, op.capability).value,
                if cfg.results(|k.calls|).ok then 0.68 else 0.48, op.priority)
  {
    TaskAgentIsEligible(cfg, k, op.capability);
    var agentId, i := TaskAgent(cfg, k, op.capability).value, |k.calls|;
    var synergy := if cfg.results(i).ok then 0.68 else 0.48;
    DirectCoefficients(cfg, i, k.agents[agentId].failureStreak, op.priority);
    var k1 := k.(calls := k.calls + [Call(agentId, DirectTask(op.taskId, op.capability, op.priority))]);
    ObservedMoves(
      cfg, k, k1, agentId, DirectTelemetry(cfg, i, k.agents[agentId].failureStreak, op.priority), synergy, op.priority);
    if cfg.policy.dt > 0.0 {
      MovedIsWeighed(cfg, k, Apply(cfg, k, op), agentId, synergy, op.priority);
    }
  }
}
