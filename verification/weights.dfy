/** How much each telemetry reading weighs in the coefficients. */
module Weights {
  import opened Types
  import opened Continuity

  /** The clamped value lies between the value and every number of the unit interval, so it is the nearest of them. */
  lemma ClampIsNearest(v: real, y: real)
    requires 0.0 <= y <= 1.0
    ensures 0.0 <= Clamp(v) <= 1.0 && (v <= Clamp(v) <= y || y <= Clamp(v) <= v)
  {
  }

  predicate Inside(x: real) {
    0.0 < x < 1.0
  }

  /** Away from the ends of the unit interval the coefficient moves by `shift`, and not at all if that is 0. */
  predicate Shifts(before: real, after: real, shift: real) {
    (shift == 0.0 ==> after == before) && (Inside(before) && Inside(after) ==> after - before == shift)
  }

  predicate Moves(c: Coefficients, c': Coefficients, t: real, n: real, cost: real, m: real) {
    Shifts(c.T, c'.T, t) && Shifts(c.N, c'.N, n) && Shifts(c.C, c'.C, cost) && Shifts(c.M, c'.M, m)
  }

  /** Readings that enter through a limited share of a scale; beyond the scale they have no effect. */
  predicate OnScale(a: real, b: real, scale: real) {
    0.0 <= a <= scale && 0.0 <= b <= scale
  }

  predicate OffScale(a: real, b: real, scale: real) {
    (a >= scale && b >= scale) || (a <= 0.0 && b <= 0.0)
  }

  // ---------- agents ----------

  lemma AgentZero()
    ensures FromAgentTelemetry(AgentTelemetry(0.0, 0.0, 0.0, 0.0, 0.0, 0.0, 0.0, 0.0, 0, 0.0, 0.0, 0.0, 0.0))
         == Coefficients(0.0, 0.0, 0.0, 0.0)
  {
  }

  /** What cooperation, handoffs and successes add to the synergy of an agent, and to nothing else. */
  lemma AgentSynergyWeights(m: AgentTelemetry, x: real)
    ensures var c := FromAgentTelemetry(m);
            && Moves(
                 c, FromAgentTelemetry(m.(cooperationSuccess := m.cooperationSuccess + x)), 0.45 * x, 0.0, 0.0, 0.0)
            && Moves(c, FromAgentTelemetry(m.(usefulHandoffRate := m.usefulHandoffRate + x)), 0.35 * x, 0.0, 0.0, 0.0)
            && Moves(c, FromAgentTelemetry(m.(successRate := m.successRate + x)), 0.20 * x, 0.0, 0.0, 0.0)
  {
  }

  /** What demand, priority, queue and boost add to the need, and to nothing else. */
  lemma AgentNeedWeights(m: AgentTelemetry, x: real)
    ensures var c := FromAgentTelemetry(m);
            && Moves(c, FromAgentTelemetry(m.(demandRate := m.demandRate + x)), 0.0, 0.45 * x, 0.0, 0.0)
            && Moves(c, FromAgentTelemetry(m.(businessPriority := m.businessPriority + x)), 0.0, 0.25 * x, 0.0, 0.0)
            && Moves(c, FromAgentTelemetry(m.(queueDepth := m.queueDepth + x)), 0.0, 0.20 * x, 0.0, 0.0)
            && Moves(c, FromAgentTelemetry(m.(needBoost := m.needBoost + x)), 0.0, 0.10 * x, 0.0, 0.0)
  {
  }

  /** What resources and overlap add to the cost, and to nothing else. */
  lemma AgentCostWeights(m: AgentTelemetry, x: real)
    ensures var c := FromAgentTelemetry(m);
            && Moves(c, FromAgentTelemetry(m.(resourceCost := m.resourceCost + x)), 0.0, 0.0, 0.35 * x, 0.0)
            && Moves(c, FromAgentTelemetry(m.(overlapScore := m.overlapScore + x)), 0.0, 0.0, 0.25 * x, 0.0)
  {
  }

  /** What policy risk adds to cost and mortality. */
  lemma AgentRiskWeights(m: AgentTelemetry, x: real)
    ensures var c := FromAgentTelemetry(m);
            && Moves(c, FromAgentTelemetry(m.(policyRisk := m.policyRisk + x)), 0.0, 0.0, 0.20 * x, 0.25 * x)
  {
  }

  /** Latency counts up to 10 s for the cost and up to 20 s for the mortality. */
  lemma AgentLatencyWeight(m: AgentTelemetry, x: real)
    ensures var c, c' := FromAgentTelemetry(m), FromAgentTelemetry(m.(latencyP95Ms := m.latencyP95Ms + x));
            && c'.T == c.T && c'.N == c.N
            && (OnScale(m.latencyP95Ms, m.latencyP95Ms + x, 10000.0) ==> Shifts(c.C, c'.C, 0.00002 * x))
            && (OffScale(m.latencyP95Ms, m.latencyP95Ms + x, 10000.0) ==> c'.C == c.C)
            && (OnScale(m.latencyP95Ms, m.latencyP95Ms + x, 20000.0) ==> Shifts(c.M, c'.M, 0.000005 * x))
            && (OffScale(m.latencyP95Ms, m.latencyP95Ms + x, 20000.0) ==> c'.M == c.M)
  {
  }

  /** Each of the first ten failures adds 0.04 to the mortality, and a day of age adds 0.25. */
  lemma AgentAgeWeight(m: AgentTelemetry, n: int, x: real)
    ensures var c, c' := FromAgentTelemetry(m), FromAgentTelemetry(m.(failureCount := m.failureCount + n));
            && c'.T == c.T && c'.N == c.N && c'.C == c.C
            && (0 <= m.failureCount <= 10 && 0 <= m.failureCount + n <= 10 ==> Shifts(c.M, c'.M, 0.04 * n as real))
            && (m.failureCount >= 10 && m.failureCount + n >= 10 ==> c'.M == c.M)
    ensures var c, c' := FromAgentTelemetry(m), FromAgentTelemetry(m.(ageSeconds := m.ageSeconds + 86400.0 * x));
            && c'.T == c.T && c'.N == c.N && c'.C == c.C
            && (OnScale(m.ageSeconds, m.ageSeconds + 86400.0 * x, 86400.0) ==> Shifts(c.M, c'.M, 0.25 * x))
            && (OffScale(m.ageSeconds, m.ageSeconds + 86400.0 * x, 86400.0) ==> c'.M == c.M)
  {
  }

  // ---------- handoffs ----------

  lemma HandoffZero()
    ensures FromHandoffTelemetry(HandoffTelemetry(0.0, 0.0, 0.0, 0.0, 0.0, 0.0, 0.0, 0.0, 0.0))
         == Coefficients(0.10, 0.0, 0.0, 0.0)
  {
  }

  /** What quality, preserved context and acceptance add to the synergy of a handoff, and to nothing else. */
  lemma HandoffSynergyWeights(h: HandoffTelemetry, x: real)
    ensures var c := FromHandoffTelemetry(h);
            && Moves(c, FromHandoffTelemetry(h.(artifactQuality := h.artifactQuality + x)), 0.35 * x, 0.0, 0.0, 0.0)
            && Moves(
                 c, FromHandoffTelemetry(h.(contextPreservation := h.contextPreservation + x)), 0.30 * x, 0.0, 0.0, 0.0)
            && Moves(c, FromHandoffTelemetry(h.(acceptanceRate := h.acceptanceRate + x)), 0.25 * x, 0.0, 0.0, 0.0)
  {
  }

  /** What demand and priority add to the need, and to nothing else. */
  lemma HandoffNeedWeights(h: HandoffTelemetry, x: real)
    ensures var c := FromHandoffTelemetry(h);
            && Moves(c, FromHandoffTelemetry(h.(demandRate := h.demandRate + x)), 0.0, 0.70 * x, 0.0, 0.0)
            && Moves(c, FromHandoffTelemetry(h.(handoffPriority := h.handoffPriority + x)), 0.0, 0.30 * x, 0.0, 0.0)
  {
  }

  /** What ambiguity takes from the synergy and adds to cost and mortality. */
  lemma HandoffAmbiguityWeights(h: HandoffTelemetry, x: real)
    ensures var c := FromHandoffTelemetry(h);
            && Moves(c, FromHandoffTelemetry(h.(ambiguity := h.ambiguity + x)), -0.10 * x, 0.0, 0.25 * x, 0.25 * x)
  {
  }

  /** What rework and policy risk add to cost and mortality. */
  lemma HandoffReworkWeights(h: HandoffTelemetry, x: real)
    ensures var c := FromHandoffTelemetry(h);
            && Moves(c, FromHandoffTelemetry(h.(reworkRate := h.reworkRate + x)), 0.0, 0.0, 0.35 * x, 0.45 * x)
            && Moves(c, FromHandoffTelemetry(h.(policyRisk := h.policyRisk + x)), 0.0, 0.0, 0.20 * x, 0.20 * x)
  {
  }

  lemma HandoffLatencyWeight(h: HandoffTelemetry, x: real)
    ensures var c, c' := FromHandoffTelemetry(h), FromHandoffTelemetry(h.(latencyMs := h.latencyMs + x));
            && c'.T == c.T && c'.N == c.N
            && (OnScale(h.latencyMs, h.latencyMs + x, 10000.0) ==> Shifts(c.C, c'.C, 0.00002 * x))
            && (OffScale(h.latencyMs, h.latencyMs + x, 10000.0) ==> c'.C == c.C)
            && (OnScale(h.latencyMs, h.latencyMs + x, 20000.0) ==> Shifts(c.M, c'.M, 0.000005 * x))
            && (OffScale(h.latencyMs, h.latencyMs + x, 20000.0) ==> c'.M == c.M)
  {
  }

  // ---------- workflows ----------

  lemma WorkflowZero()
    ensures FromWorkflowTelemetry(WorkflowTelemetry(0.0, 0.0, 0.0, 0.0, 0.0, 0.0, 0.0, 0.0, 0.0, 0.0, 0.0))
         == Coefficients(0.0, 0.0, 0.0, 0.15)
  {
  }

  /** What coordination, alignment and confidence add to the synergy of a workflow. */
  lemma WorkflowSynergyWeights(w: WorkflowTelemetry, x: real)
    ensures var c := FromWorkflowTelemetry(w);
            && Moves(
                 c, FromWorkflowTelemetry(w.(coordinationQuality := w.coordinationQuality + x)),
                 0.35 * x, 0.0, 0.0, 0.0)
            && Moves(c, FromWorkflowTelemetry(w.(goalAlignment := w.goalAlignment + x)), 0.35 * x, 0.0, 0.0, -0.15 * x)
            && Moves(
                 c, FromWorkflowTelemetry(w.(completionConfidence := w.completionConfidence + x)),
                 0.30 * x, 0.0, 0.0, 0.0)
  {
  }

  /** What demand, priority and progress add to the need, and to nothing else. */
  lemma WorkflowNeedWeights(w: WorkflowTelemetry, x: real)
    ensures var c := FromWorkflowTelemetry(w);
            && Moves(c, FromWorkflowTelemetry(w.(demandRate := w.demandRate + x)), 0.0, 0.55 * x, 0.0, 0.0)
            && Moves(c, FromWorkflowTelemetry(w.(businessPriority := w.businessPriority + x)), 0.0, 0.25 * x, 0.0, 0.0)
            && Moves(c, FromWorkflowTelemetry(w.(progressRate := w.progressRate + x)), 0.0, 0.20 * x, 0.0, 0.0)
  {
  }

  /** What cost and latency add to the cost, and risk to the mortality. */
  lemma WorkflowPressureWeights(w: WorkflowTelemetry, x: real)
    ensures var c := FromWorkflowTelemetry(w);
            && Moves(c, FromWorkflowTelemetry(w.(costPressure := w.costPressure + x)), 0.0, 0.0, 0.30 * x, 0.0)
            && Moves(c, FromWorkflowTelemetry(w.(latencyPressure := w.latencyPressure + x)), 0.0, 0.0, 0.25 * x, 0.0)
            && Moves(c, FromWorkflowTelemetry(w.(riskPressure := w.riskPressure + x)), 0.0, 0.0, 0.0, 0.35 * x)
  {
  }

  /** What rework and blocking add to cost and mortality. */
  lemma WorkflowBlockingWeights(w: WorkflowTelemetry, x: real)
    ensures var c := FromWorkflowTelemetry(w);
            && Moves(c, FromWorkflowTelemetry(w.(reworkRate := w.reworkRate + x)), 0.0, 0.0, 0.25 * x, 0.25 * x)
            && Moves(c, FromWorkflowTelemetry(w.(blockingRate := w.blockingRate + x)), 0.0, 0.0, 0.20 * x, 0.25 * x)
  {
  }
}
