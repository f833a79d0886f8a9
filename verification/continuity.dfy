/** Telemetry to coefficients, and the integration of Psi. */
module Continuity {
  import opened Types

  function Clamp(value: real): real {
    if value < 0.0 then 0.0 else if value > 1.0 then 1.0 else value
  }

  function FromAgentTelemetry(m: AgentTelemetry): Coefficients {
    Coefficients(
      T := Clamp(0.45 * m.cooperationSuccess + 0.35 * m.usefulHandoffRate + 0.20 * m.successRate),
      N := Clamp(0.45 * m.demandRate + 0.25 * m.businessPriority + 0.20 * m.queueDepth + 0.10 * m.needBoost),
      C := Clamp(0.35 * m.resourceCost + 0.25 * m.overlapScore
                 + 0.20 * Clamp(m.latencyP95Ms / 10000.0) + 0.20 * m.policyRisk),
      M := Clamp(0.40 * Clamp(m.failureCount as real / 10.0) + 0.25 * Clamp(m.ageSeconds / 86400.0)
                 + 0.25 * m.policyRisk + 0.10 * Clamp(m.latencyP95Ms / 20000.0)))
  }

  function FromHandoffTelemetry(h: HandoffTelemetry): Coefficients {
    Coefficients(
      T := Clamp(0.35 * h.artifactQuality + 0.30 * h.contextPreservation
                 + 0.25 * h.acceptanceRate + 0.10 * (1.0 - h.ambiguity)),
      N := Clamp(0.70 * h.demandRate + 0.30 * h.handoffPriority),
      C := Clamp(0.35 * h.reworkRate + 0.25 * h.ambiguity
                 + 0.20 * Clamp(h.latencyMs / 10000.0) + 0.20 * h.policyRisk),
      M := Clamp(0.45 * h.reworkRate + 0.25 * h.ambiguity
                 + 0.20 * h.policyRisk + 0.10 * Clamp(h.latencyMs / 20000.0)))
  }

  function FromWorkflowTelemetry(w: WorkflowTelemetry): Coefficients {
    Coefficients(
      T := Clamp(0.35 * w.coordinationQuality + 0.35 * w.goalAlignment + 0.30 * w.completionConfidence),
      N := Clamp(0.55 * w.demandRate + 0.25 * w.businessPriority + 0.20 * w.progressRate),
      C := Clamp(0.30 * w.costPressure + 0.25 * w.latencyPressure + 0.25 * w.reworkRate + 0.20 * w.blockingRate),
      M := Clamp(0.35 * w.riskPressure + 0.25 * w.blockingRate
                 + 0.25 * w.reworkRate + 0.15 * (1.0 - w.goalAlignment)))
  }

  /** What the proofs use of m |-> exp(-m) on the unit interval. */
  ghost predicate IsDecay(e: real -> real) {
    forall m: real :: 0.0 <= m <= 1.0 ==> 0.0 < e(m) <= 1.0 && 1.0 - m <= e(m)
  }

  type Decay = e: real -> real | IsDecay(e) ghost witness (m: real) => 1.0

  function Delta(decay: Decay, dt: real, c: Coefficients): real {
    (Clamp(c.T) * Clamp(c.N) - Clamp(c.C)) * decay(Clamp(c.M)) * dt
  }

  lemma MulMonotone(a: real, b: real, c: real)
    requires a <= b && 0.0 <= c
    ensures a * c <= b * c
  {
    var d := b - a;
    assert d * c >= 0.0;
    assert b * c == a * c + d * c;
  }

  lemma SignOfProduct(x: real, e: real)
    requires e > 0.0
    ensures (x > 0.0 <==> x * e > 0.0) && (x < 0.0 <==> x * e < 0.0)
  {
  }

  /** Scaling a value of the unit interval by `s` leaves it in [0, s]. */
  lemma UnitScale(x: real, s: real)
    requires 0.0 <= x <= 1.0 && 0.0 <= s
    ensures 0.0 <= x * s <= s
  {
    var d := 1.0 - x;
    assert d * s >= 0.0;
    assert s == x * s + d * s;
  }

  /** Scaling a value of [-1, 1] by `s` leaves it in [-s, s]. */
  lemma SignedScale(x: real, s: real)
    requires -1.0 <= x <= 1.0 && 0.0 <= s
    ensures -s <= x * s <= s
  {
    if x >= 0.0 {
      UnitScale(x, s);
    } else {
      var y := -x;
      UnitScale(y, s);
      assert x * s == -(y * s);
    }
  }

  lemma IncrementSignAndBound(t: real, n: real, c: real, e: real, dt: real, d: real)
    requires d == (t * n - c) * e * dt
    requires 0.0 <= t <= 1.0 && 0.0 <= n <= 1.0 && 0.0 <= c <= 1.0 && 0.0 < e <= 1.0 && dt > 0.0
    ensures -dt <= d <= dt && (d > 0.0 <==> t * n > c) && (d < 0.0 <==> t * n < c)
  {
    UnitScale(t, n);
    var share := t * n;
    assert 0.0 <= share <= 1.0;
    var gain := share - c;
    SignedScale(gain, e);
    SignOfProduct(gain, e);
    var rate := gain * e;
    assert -1.0 <= rate <= 1.0;
    SignOfProduct(rate, dt);
    SignedScale(rate, dt);
    assert d == rate * dt;
  }

  /** The sign of an increment is that of T*N - C, and no increment exceeds dt, whatever the coefficients. */
  lemma DeltaSignAndBound(decay: Decay, dt: real, c: Coefficients)
    requires dt > 0.0
    ensures var d := Delta(decay, dt, c);
            && -dt <= d <= dt
            && (d > 0.0 <==> Clamp(c.T) * Clamp(c.N) > Clamp(c.C))
            && (d < 0.0 <==> Clamp(c.T) * Clamp(c.N) < Clamp(c.C))
  {
    var t, n, k, e := Clamp(c.T), Clamp(c.N), Clamp(c.C), decay(Clamp(c.M));
    assert IsDecay(decay) && 0.0 < e <= 1.0;
    IncrementSignAndBound(t, n, k, e, dt, Delta(decay, dt, c));
  }
}
