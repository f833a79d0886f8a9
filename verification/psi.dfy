/** Psi is conserved: it is the sum of the increments of the decisions in the audit log. */
module PsiConservation {
  import opened Types
  import opened Continuity
  import opened Maestro
  import opened Runs
  import opened Operations

  datatype Subject = AgentSubject(id: string) | EdgeSubject(id: string) | WorkflowSubject(id: string)

  function SubjectOf(d: Decision): Subject {
    match d
    case AgentDecision(id, _, _, _, _, _, _) => AgentSubject(id)
    case EdgeDecision(id, _, _, _, _, _, _) => EdgeSubject(id)
    case WorkflowDecision(id, _, _, _, _, _, _, _) => WorkflowSubject(id)
  }

  function PsiOf(k: State, s: Subject): real {
    match s
    case AgentSubject(id) => if id in k.agents then k.agents[id].psi else 0.0
    case EdgeSubject(id) => if id in k.edges then k.edges[id].psi else 0.0
    case WorkflowSubject(id) => if id in k.workflows then k.workflows[id].psi else 0.0
  }

  function SumOf(ds: seq<Decision>, s: Subject): real {
    if ds == [] then 0.0
    else SumOf(ds[..|ds| - 1], s) + if SubjectOf(ds[|ds| - 1]) == s then ds[|ds| - 1].dpsi else 0.0
  }

  function CountOf(ds: seq<Decision>, s: Subject): nat {
    if ds == [] then 0
    else CountOf(ds[..|ds| - 1], s) + if SubjectOf(ds[|ds| - 1]) == s then 1 else 0
  }

  /** The increment is bounded by dt and has the sign of T*N - C of the coefficients it was computed from. */
  ghost predicate FairIncrement(p: Policy, d: Decision) {
    var c := d.coefficients;
    && -p.dt <= d.dpsi <= p.dt
    && (d.dpsi > 0.0 <==> Clamp(c.T) * Clamp(c.N) > Clamp(c.C))
    && (d.dpsi < 0.0 <==> Clamp(c.T) * Clamp(c.N) < Clamp(c.C))
  }

  /** Every decision records the Psi its subject had after all decisions up to and including this one. */
  ghost predicate Ledger(p: Policy, ds: seq<Decision>) {
    forall i :: 0 <= i < |ds| ==> ds[i].psi == SumOf(ds[..i + 1], SubjectOf(ds[i])) && FairIncrement(p, ds[i])
  }

  ghost predicate Conserved(p: Policy, k: State) {
    && (forall s :: PsiOf(k, s) == SumOf(k.decisions, s))
    && Ledger(p, k.decisions)
  }

  // ---------- one decision ----------

  /** `t` differs from `k` by one decision, whose increment went to its subject's Psi. */
  ghost predicate Books(p: Policy, k: State, t: State, d: Decision) {
    && t.decisions == k.decisions + [d]
    && FairIncrement(p, d)
    && d.psi == PsiOf(k, SubjectOf(d)) + d.dpsi
    && PsiOf(t, SubjectOf(d)) == d.psi
    && forall s :: s != SubjectOf(d) ==> PsiOf(t, s) == PsiOf(k, s)
  }

  lemma SumAppend(ds: seq<Decision>, d: Decision, s: Subject)
    ensures SumOf(ds + [d], s) == SumOf(ds, s) + if SubjectOf(d) == s then d.dpsi else 0.0
  {
    assert (ds + [d])[..|ds|] == ds;
  }

  lemma BooksConserve(p: Policy, k: State, t: State, d: Decision)
    requires Conserved(p, k) && Books(p, k, t, d)
    ensures Conserved(p, t)
  {
    forall s ensures PsiOf(t, s) == SumOf(t.decisions, s) {
      SumAppend(k.decisions, d, s);
    }
    forall i | 0 <= i < |t.decisions|
      ensures t.decisions[i].psi == SumOf(t.decisions[..i + 1], SubjectOf(t.decisions[i]))
      ensures FairIncrement(p, t.decisions[i])
    {
      if i < |k.decisions| {
        assert t.decisions[..i + 1] == k.decisions[..i + 1];
      } else {
        assert t.decisions[..i + 1] == k.decisions + [d];
        SumAppend(k.decisions, d, SubjectOf(d));
      }
    }
  }

  /** A change that makes no decision must leave every Psi alone. */
  lemma QuietConserve(p: Policy, k: State, t: State)
    requires Conserved(p, k) && t.decisions == k.decisions && forall s :: PsiOf(t, s) == PsiOf(k, s)
    ensures Conserved(p, t)
  {
  }

  lemma ObserveBooks(cfg: Config, k: State, id: string, m: AgentTelemetry)
    requires cfg.policy.dt > 0.0 && id in k.agents && k.agents[id].spec.id == id
    ensures Books(cfg.policy, k, ObserveAgent(cfg, k, id, m), AgentVerdict(cfg, k.agents[id], m, |k.decisions|))
  {
    DeltaSignAndBound(cfg.decay, cfg.policy.dt, FromAgentTelemetry(m));
  }

  lemma HandoffBooks(cfg: Config, k: State, source: string, target: string, h: HandoffTelemetry)
    requires cfg.policy.dt > 0.0
    ensures var e := EdgeBefore(k.edges, source, target);
            Books(cfg.policy, k, ObserveHandoff(cfg, k, source, target, h),
                  EdgeVerdict(cfg, EdgeId(source, target), e, h, |k.decisions|))
  {
    DeltaSignAndBound(cfg.decay, cfg.policy.dt, FromHandoffTelemetry(h));
  }

  lemma WorkflowBooks(cfg: Config, k: State, wid: string, t: WorkflowTelemetry)
    requires cfg.policy.dt > 0.0 && wid in k.workflows && k.workflows[wid].plan.id == wid
    ensures Books(cfg.policy, k, ObserveWorkflow(cfg, k, wid, t),
                  WorkflowVerdict(cfg, k.workflows[wid], t, |k.decisions|))
  {
    DeltaSignAndBound(cfg.decay, cfg.policy.dt, FromWorkflowTelemetry(t));
  }

  // ---------- runs ----------

  lemma RunStepConserves(cfg: Config, k: State, wid: string, sid: string, agentId: string)
    requires cfg.policy.dt > 0.0 && wid in k.workflows && Known(k.workflows[wid], sid)
    requires agentId in k.agents && k.agents[agentId].spec.id == agentId && Conserved(cfg.policy, k)
    ensures Conserved(cfg.policy, RunStep(cfg, k, wid, sid, agentId))
  {
    var w, i := k.workflows[wid], |k.calls|;
    var k1 := k.(calls := k.calls + [StepCall(w, sid, agentId)]);
    var m := ExecutionTelemetry(cfg, i, k.agents[agentId].failureStreak, w.plan.priority);
    ObserveBooks(cfg, k1, agentId, m);
    QuietConserve(cfg.policy, k, k1);
    var d := AgentVerdict(cfg, k1.agents[agentId], m, |k1.decisions|);
    BooksConserve(cfg.policy, k1, ObserveAgent(cfg, k1, agentId, m), d);
    QuietConserve(cfg.policy, ObserveAgent(cfg, k1, agentId, m), RunStep(cfg, k, wid, sid, agentId));
  }

  lemma {:induction false} DependenciesConserve(
    cfg: Config, k: State, w: Workflow, deps: seq<string>, target: string, ok: bool)
    requires cfg.policy.dt > 0.0 && Conserved(cfg.policy, k) && forall d :: d in deps ==> d in w.steps
    ensures Conserved(cfg.policy, ObserveDependencies(cfg, k, w, deps, target, ok))
    decreases |deps|
  {
    if deps != [] {
      var source, h := w.steps[deps[0]].assignee, StepHandoffTelemetry(ok, w.plan.priority);
      var k1 := if source == "" then k else ObserveHandoff(cfg, k, source, target, h);
      if source != "" {
        HandoffBooks(cfg, k, source, target, h);
        BooksConserve(cfg.policy, k, k1,
                      EdgeVerdict(cfg, EdgeId(source, target), EdgeBefore(k.edges, source, target), h, |k.decisions|));
      }
      DependenciesConserve(cfg, k1, w, deps[1..], target, ok);
    }
  }

  lemma StepsObservationConserves(cfg: Config, k: State, wid: string)
    requires cfg.policy.dt > 0.0 && wid in k.workflows && k.workflows[wid].plan.id == wid && Conserved(cfg.policy, k)
    ensures Conserved(cfg.policy, ObserveFromSteps(cfg, k, wid))
  {
    var w := k.workflows[wid];
    WorkflowBooks(cfg, k, wid, StepTelemetry(w.steps, w.plan.priority));
    BooksConserve(cfg.policy, k, ObserveFromSteps(cfg, k, wid),
                  WorkflowVerdict(cfg, w, StepTelemetry(w.steps, w.plan.priority), |k.decisions|));
  }

  lemma TurnConserves(cfg: Config, k: State, wid: string, sid: string, agentId: string)
    requires cfg.policy.dt > 0.0 && AtTurn(k, wid, sid) && agentId in k.agents && Conserved(cfg.policy, k)
    ensures Conserved(cfg.policy, TurnOn(cfg, k, wid, sid, agentId))
  {
    var k1 := RunStep(cfg, k, wid, sid, agentId);
    RunStepConserves(cfg, k, wid, sid, agentId);
    RunStepFrame(cfg, k, wid, sid, agentId);
    HandoffFrame(cfg, k1, wid, sid);
    var w1 := k1.workflows[wid];
    var s1 := w1.steps[sid];
    DependenciesConserve(cfg, k1, w1, s1.spec.dependsOn, s1.assignee, s1.state.Completed?);
    var k2 := ObserveStepHandoffs(cfg, k1, wid, sid);
    StepsObservationConserves(cfg, k2, wid);
  }

  lemma RunConserves(cfg: Config, k: State, wid: string)
    requires cfg.policy.dt > 0.0 && Valid(k) && Conserved(cfg.policy, k)
    ensures Conserved(cfg.policy, RunWorkflow(cfg, k, wid).state)
  {
    if cfg.hasRuntime && wid in k.workflows {
      StartedValid(k, wid);
      QuietConserve(cfg.policy, k, Started(k, wid));
      var inv := (s: State) => Conserved(cfg.policy, s);
      forall s: State, sid: string | AtTurn(s, wid, sid) && inv(s)
        ensures inv(Turn(cfg, s, wid, sid).state)
      {
        TurnEffect(cfg, s, wid, sid);
        var a := Assigned(cfg, s, wid, sid);
        if a.Success? {
          TurnConserves(cfg, s, wid, sid, a.value);
        }
      }
      RunInduction(cfg, Started(k, wid), wid, inv);
      var s := RunSteps(cfg, Started(k, wid), wid).state;
      StepsObservationConserves(cfg, s, wid);
    }
  }

  lemma TaskConserves(cfg: Config, k: State, taskId: string, capability: string, priority: real)
    requires cfg.policy.dt > 0.0 && Valid(k) && Conserved(cfg.policy, k)
    ensures Conserved(cfg.policy, Apply(cfg, k, DoTask(taskId, capability, priority)))
  {
    var p, t, r := cfg.policy, Apply(cfg, k, DoTask(taskId, capability, priority)), TaskAgent(cfg, k, capability);
    TaskAgentIsEligible(cfg, k, capability);
    if r.Success? {
      var k1 := k.(calls := k.calls + [Call(r.value, DirectTask(taskId, capability, priority))]);
      var m := DirectTelemetry(cfg, |k.calls|, k.agents[r.value].failureStreak, priority);
      QuietConserve(p, k, k1);
      ObserveBooks(cfg, k1, r.value, m);
      BooksConserve(p, k1, t, AgentVerdict(cfg, k1.agents[r.value], m, |k1.decisions|));
    }
  }

  lemma ApplyConserves(cfg: Config, k: State, op: Op)
    requires cfg.policy.dt > 0.0 && Valid(k) && Conserved(cfg.policy, k)
    ensures Conserved(cfg.policy, Apply(cfg, k, op))
  {
    var p, t := cfg.policy, Apply(cfg, k, op);
    match op
    case AddAgent(spec, initial) => QuietConserve(p, k, t);
    case AgentMetrics(id, m) =>
      if id in k.agents {
        ObserveBooks(cfg, k, id, m);
        BooksConserve(p, k, t, AgentVerdict(cfg, k.agents[id], m, |k.decisions|));
      }
    case DoTask(taskId, capability, priority) =>
      TaskConserves(cfg, k, taskId, capability, priority);
    case HandoffMetrics(source, target, h) =>
      HandoffBooks(cfg, k, source, target, h);
      var d := EdgeVerdict(cfg, EdgeId(source, target), EdgeBefore(k.edges, source, target), h, |k.decisions|);
      BooksConserve(p, k, t, d);
    case NewPlan(plan) => QuietConserve(p, k, t);
    case PlanMetrics(wid, m) =>
      if wid in k.workflows {
        WorkflowBooks(cfg, k, wid, m);
        BooksConserve(p, k, t, WorkflowVerdict(cfg, k.workflows[wid], m, |k.decisions|));
      }
    case RunPlan(wid) => RunConserves(cfg, k, wid);
    case Intervention(wid, action, subject) => QuietConserve(p, k, t);
  }

  /** In every reachable state each Psi is the sum of its increments, and each decision shows a prefix of that sum. */
  lemma {:induction false} PsiIsConserved(cfg: Config, ops: seq<Op>)
    requires cfg.policy.dt > 0.0
    ensures Conserved(cfg.policy, Reached(cfg, ops))
    decreases |ops|
  {
    if ops != [] {
      PsiIsConserved(cfg, ops[..|ops| - 1]);
      ApplyConserves(cfg, Reached(cfg, ops[..|ops| - 1]), ops[|ops| - 1]);
    } else {
      forall s ensures PsiOf(EMPTY, s) == SumOf(EMPTY.decisions, s) {
      }
    }
  }

  function Times(n: nat, x: real): real {
    if n == 0 then 0.0 else Times(n - 1, x) + x
  }

  lemma {:induction false} TimesIsProduct(n: nat, x: real)
    ensures Times(n, x) == n as real * x
  {
    if n != 0 {
      TimesIsProduct(n - 1, x);
      var y := (n - 1) as real;
      assert n as real == y + 1.0;
      assert (y + 1.0) * x == y * x + x;
    }
  }

  lemma {:induction false} SumBound(p: Policy, ds: seq<Decision>, s: Subject)
    requires forall i :: 0 <= i < |ds| ==> -p.dt <= ds[i].dpsi <= p.dt
    ensures -Times(CountOf(ds, s), p.dt) <= SumOf(ds, s) <= Times(CountOf(ds, s), p.dt)
  {
    if ds != [] {
      SumBound(p, ds[..|ds| - 1], s);
    }
  }

  predicate Within(x: real, n: nat, dt: real) {
    -(n as real * dt) <= x <= n as real * dt
  }

  lemma WithinTimes(x: real, n: nat, dt: real)
    requires -Times(n, dt) <= x <= Times(n, dt)
    ensures Within(x, n, dt)
  {
    TimesIsProduct(n, dt);
  }

  lemma LedgerBound(p: Policy, k: State, s: Subject)
    requires Conserved(p, k)
    ensures Within(PsiOf(k, s), CountOf(k.decisions, s), p.dt)
  {
    SumBound(p, k.decisions, s);
    WithinTimes(PsiOf(k, s), CountOf(k.decisions, s), p.dt);
  }

  /** After n observations of a subject, |Psi| <= n * dt. */
  lemma PsiIsBounded(cfg: Config, ops: seq<Op>, s: Subject)
    requires cfg.policy.dt > 0.0
    ensures Within(PsiOf(Reached(cfg, ops), s), CountOf(Reached(cfg, ops).decisions, s), cfg.policy.dt)
  {
    PsiIsConserved(cfg, ops);
    LedgerBound(cfg.policy, Reached(cfg, ops), s);
  }
}
