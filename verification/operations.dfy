/** The kernel's public operations, and induction over every sequence of them. */
module Operations {
  import opened Common
  import opened Types
  import opened Maestro
  import opened Runs

  datatype Op =
    | AddAgent(spec: AgentSpec, initial: Option<AgentTelemetry>)
    | AgentMetrics(agentId: string, m: AgentTelemetry)
    | DoTask(taskId: string, capability: string, priority: real)
    | HandoffMetrics(source: string, target: string, h: HandoffTelemetry)
    | NewPlan(plan: Plan)
    | PlanMetrics(wid: string, t: WorkflowTelemetry)
    | RunPlan(wid: string)
    | Intervention(wid: string, action: MaestroAction, subject: string)

  /** The agent `run_task` chooses. */
  function TaskAgent(cfg: Config, k: State, capability: string): Result<string, KernelError>
    requires forall id :: id in k.roster ==> id in k.agents
  {
    var candidates := RouteCandidates(cfg.policy, k.agents, k.roster, capability);
    if !cfg.hasRuntime then Failure(NoRuntime)
    else if candidates == [] then Failure(NoActiveAgent(capability))
    else Success(candidates[0])
  }

  lemma TaskAgentIsEligible(cfg: Config, k: State, capability: string)
    requires forall id :: id in k.roster ==> id in k.agents
    ensures var r := TaskAgent(cfg, k, capability);
            r.Success? ==> r.value in k.agents && Eligible(k.agents[r.value], capability)
  {
    AssignedIsEligible(cfg.policy, k, StepSpec("", capability, [], "", 0));
  }

  /** An operation that raises an exception leaves the kernel as it was, but for the turns of a run already taken. */
  function Apply(cfg: Config, k: State, op: Op): State
    requires Valid(k)
  {
    match op
    case AddAgent(spec, initial) => if spec.id in k.agents then k else Register(k, spec, initial)
    case AgentMetrics(id, m) => if id in k.agents then ObserveAgent(cfg, k, id, m) else k
    case DoTask(taskId, capability, priority) =>
      TaskAgentIsEligible(cfg, k, capability);
      var r := TaskAgent(cfg, k, capability);
      if r.Success? then RunTask(cfg, k, r.value, taskId, capability, priority) else k
    case HandoffMetrics(source, target, h) => ObserveHandoff(cfg, k, source, target, h)
    case NewPlan(plan) => if plan.id in k.workflows then k else CreateWorkflow(k, plan)
    case PlanMetrics(wid, t) => if wid in k.workflows then ObserveWorkflow(cfg, k, wid, t) else k
    case RunPlan(wid) => RunWorkflow(cfg, k, wid).state
    case Intervention(wid, action, subject) => if wid in k.workflows then Intervene(k, wid, action, subject) else k
  }

  // ---------- every operation keeps the dictionaries consistent ----------

  lemma RegisterValid(k: State, spec: AgentSpec, initial: Option<AgentTelemetry>)
    requires Valid(k) && spec.id !in k.agents
    ensures Valid(Register(k, spec, initial))
  {
    var t := Register(k, spec, initial);
    assert t.agents.Keys == k.agents.Keys + {spec.id};
  }

  ghost predicate StepsListed(steps: map<string, Step>, order: seq<string>) {
    && Lists(order, steps.Keys)
    && forall id :: id in steps ==> steps[id] == NewStep(steps[id].spec) && steps[id].spec.id == id
  }

  lemma {:induction false} BuildStepsListed(specs: seq<StepSpec>, steps: map<string, Step>, order: seq<string>)
    requires StepsListed(steps, order)
    ensures var (s, o) := BuildSteps(specs, steps, order); StepsListed(s, o)
    decreases |specs|
  {
    if specs != [] {
      var id := specs[0].id;
      var steps', order' := steps[id := NewStep(specs[0])], if id in steps then order else order + [id];
      assert steps'.Keys == steps.Keys + {id};
      assert StepsListed(steps', order');
      BuildStepsListed(specs[1..], steps', order');
    }
  }

  lemma NewWorkflowListed(plan: Plan)
    ensures ValidWorkflow(NewWorkflow(plan))
    ensures var w := NewWorkflow(plan); forall id :: id in w.steps ==> w.steps[id] == NewStep(w.steps[id].spec)
  {
    BuildStepsListed(plan.steps, map[], []);
  }

  lemma CreateWorkflowValid(k: State, plan: Plan)
    requires Valid(k) && plan.id !in k.workflows
    ensures Valid(CreateWorkflow(k, plan))
  {
    NewWorkflowListed(plan);
  }

  lemma ApplyValid(cfg: Config, k: State, op: Op)
    requires Valid(k)
    ensures Valid(Apply(cfg, k, op))
  {
    match op
    case AddAgent(spec, initial) => if spec.id !in k.agents { RegisterValid(k, spec, initial); }
    case AgentMetrics(id, m) => if id in k.agents { ObserveAgentValid(cfg, k, id, m); }
    case DoTask(taskId, capability, priority) =>
      TaskAgentIsEligible(cfg, k, capability);
      var r := TaskAgent(cfg, k, capability);
      if r.Success? {
        var k1 := k.(calls := k.calls + [Call(r.value, DirectTask(taskId, capability, priority))]);
        ObserveAgentValid(cfg, k1, r.value,
                          DirectTelemetry(cfg, |k.calls|, k.agents[r.value].failureStreak, priority));
      }
    case HandoffMetrics(source, target, h) =>
    case NewPlan(plan) => if plan.id !in k.workflows { CreateWorkflowValid(k, plan); }
    case PlanMetrics(wid, t) =>
    case RunPlan(wid) => RunValid(cfg, k, wid);
    case Intervention(wid, action, subject) =>
  }

  /** The state after a sequence of operations on a new kernel. */
  function Reached(cfg: Config, ops: seq<Op>): (k: State)
    ensures Valid(k)
  {
    if ops == [] then EMPTY
    else
      ApplyValid(cfg, Reached(cfg, ops[..|ops| - 1]), ops[|ops| - 1]);
      Apply(cfg, Reached(cfg, ops[..|ops| - 1]), ops[|ops| - 1])
  }

  lemma ReachedNext(cfg: Config, front: seq<Op>, op: Op)
    ensures Reached(cfg, front + [op]) == Apply(cfg, Reached(cfg, front), op)
  {
    assert (front + [op])[..|front|] == front;
  }

  ghost predicate Reachable(cfg: Config, k: State) {
    exists ops :: Reached(cfg, ops) == k
  }
}
