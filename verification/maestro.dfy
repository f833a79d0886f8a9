/** The kernel's operations as functions on an immutable snapshot of its registries and logs. */
module Maestro {
  import opened Common
  import opened Types
  import opened Continuity
  import opened Governor

  /**
    Everything the kernel does not decide itself: `results` is what the runtime answers to its i-th call,
    `elapsed` the measured latency of that call, `reports` the structural report of the i-th observation.
    Theorems quantify over all of them.
   */
  datatype Config = Config(
    policy: Policy,
    decay: Decay,
    hasRuntime: bool,
    results: nat -> TaskResult,
    elapsed: nat -> real,
    reports: nat -> Report)

  /** `roster` is the insertion order of `agents`; `calls` is the history of `runtime.run`. */
  datatype State = State(
    agents: map<string, Agent>,
    roster: seq<string>,
    edges: map<string, Edge>,
    workflows: map<string, Workflow>,
    events: seq<Event>,
    decisions: seq<Decision>,
    calls: seq<Call>)

  const EMPTY := State(map[], [], map[], map[], [], [], [])

  // ---------- dictionaries in insertion order ----------

  ghost predicate Distinct(s: seq<string>) {
    forall i, j :: 0 <= i < j < |s| ==> s[i] != s[j]
  }

  ghost predicate Lists(order: seq<string>, keys: set<string>) {
    Distinct(order) && forall id :: id in order <==> id in keys
  }

  ghost predicate ValidWorkflow(w: Workflow) {
    Lists(w.order, w.steps.Keys) && forall id :: id in w.steps ==> w.steps[id].spec.id == id
  }

  ghost predicate Valid(k: State) {
    && Lists(k.roster, k.agents.Keys)
    && (forall id :: id in k.agents ==> k.agents[id].spec.id == id)
    && forall id :: id in k.workflows ==> ValidWorkflow(k.workflows[id]) && k.workflows[id].plan.id == id
  }

  // ---------- agents ----------

  function NewAgent(spec: AgentSpec, initial: Option<AgentTelemetry>): Agent {
    Agent(spec, Active, 0.0, 0.0,
          if initial.Some? then Some(FromAgentTelemetry(initial.value)) else None, 0, 0)
  }

  function Register(k: State, spec: AgentSpec, initial: Option<AgentTelemetry>): State
    requires spec.id !in k.agents
  {
    k.(agents := k.agents[spec.id := NewAgent(spec, initial)], roster := k.roster + [spec.id])
  }

  /** The record after its Psi and streak are updated, before the governor speaks. */
  function Measured(cfg: Config, a: Agent, m: AgentTelemetry): Agent {
    var c := FromAgentTelemetry(m);
    a.(previousPsi := a.psi,
    psi := a.psi + Delta(cfg.decay, cfg.policy.dt, c),
    failureStreak := m.failureCount,
    lastCoefficients := Some(c),
    observations := a.observations + 1)
  }

  function AgentVerdict(cfg: Config, a: Agent, m: AgentTelemetry, tick: nat): Decision {
    var c := FromAgentTelemetry(m);
    Decide(cfg.policy, Measured(cfg, a, m), c, Delta(cfg.decay, cfg.policy.dt, c), cfg.reports(tick))
  }

  function ObserveAgent(cfg: Config, k: State, id: string, m: AgentTelemetry): State
    requires id in k.agents
  {
    var d := AgentVerdict(cfg, k.agents[id], m, |k.decisions|);
    k.(agents := k.agents[id := Measured(cfg, k.agents[id], m).(state := d.newState)],
    decisions := k.decisions + [d])
  }

  lemma ObserveAgentValid(cfg: Config, k: State, id: string, m: AgentTelemetry)
    requires Valid(k) && id in k.agents
    ensures Valid(ObserveAgent(cfg, k, id, m))
  {
    var t := ObserveAgent(cfg, k, id, m);
    assert t.agents.Keys == k.agents.Keys;
  }

  predicate Eligible(a: Agent, capability: string) {
    a.state.Active? && capability in a.spec.capabilities
  }

  function EligibleIds(agents: map<string, Agent>, ids: seq<string>, capability: string): seq<string>
    requires forall id :: id in ids ==> id in agents
  {
    if ids == [] then []
    else
      (if Eligible(agents[ids[0]], capability) then [ids[0]] else []) + EligibleIds(agents, ids[1..], capability)
  }

  /** `a` comes strictly before `b` in descending order of (psi, -failureStreak). */
  predicate Outranks(a: Agent, b: Agent) {
    a.psi > b.psi || (a.psi == b.psi && a.failureStreak < b.failureStreak)
  }

  function Insert(agents: map<string, Agent>, id: string, ids: seq<string>): (r: seq<string>)
    requires id in agents && forall x :: x in ids ==> x in agents
    ensures multiset(r) == multiset(ids) + multiset{id}
    ensures forall x :: x in r ==> x in agents
  {
    if ids == [] || !Outranks(agents[ids[0]], agents[id]) then [id] + ids
    else
      assert ids == [ids[0]] + ids[1..];
      [ids[0]] + Insert(agents, id, ids[1..])
  }

  /** A stable sort, as `sorted` is. */
  function SortByRank(agents: map<string, Agent>, ids: seq<string>): (r: seq<string>)
    requires forall x :: x in ids ==> x in agents
    ensures multiset(r) == multiset(ids)
    ensures forall x :: x in r ==> x in agents
  {
    if ids == [] then []
    else
      assert ids == [ids[0]] + ids[1..];
      Insert(agents, ids[0], SortByRank(agents, ids[1..]))
  }

  function RouteCandidates(p: Policy, agents: map<string, Agent>, roster: seq<string>, capability: string): seq<string>
    requires forall id :: id in roster ==> id in agents
  {
    EligibleIdsKnown(agents, roster, capability);
    var ids := EligibleIds(agents, roster, capability);
    if p.preferHighPsiAgents then SortByRank(agents, ids) else ids
  }

  /** The candidates are exactly the listed agents that are active and capable. */
  lemma EligibleIdsKnown(agents: map<string, Agent>, ids: seq<string>, capability: string)
    requires forall id :: id in ids ==> id in agents
    ensures forall id :: id in EligibleIds(agents, ids, capability)
                         <==> id in ids && Eligible(agents[id], capability)
  {
    if ids != [] {
      EligibleIdsKnown(agents, ids[1..], capability);
      assert ids == [ids[0]] + ids[1..];
    }
  }

  function AssignAgent(p: Policy, k: State, spec: StepSpec): Result<string, KernelError>
    requires forall id :: id in k.roster ==> id in k.agents
  {
    if spec.preferredAgentId != "" && spec.preferredAgentId !in k.agents then
      Failure(UnknownAgent(spec.preferredAgentId))
    else if spec.preferredAgentId != "" && Eligible(k.agents[spec.preferredAgentId], spec.capability) then
      Success(spec.preferredAgentId)
    else
      var candidates := RouteCandidates(p, k.agents, k.roster, spec.capability);
      if candidates == [] then Failure(NoActiveAgent(spec.capability)) else Success(candidates[0])
  }

  function MinOne(x: real): real {
    if x < 1.0 then x else 1.0
  }

  function Latency(cfg: Config, i: nat): real {
    if cfg.results(i).latencyMs != 0.0 then cfg.results(i).latencyMs else cfg.elapsed(i)
  }

  function DirectTelemetry(cfg: Config, i: nat, streak: int, priority: real): AgentTelemetry {
    var r := cfg.results(i);
    AgentTelemetry(
      successRate := if r.ok then 1.0 else 0.0,
      cooperationSuccess := 0.6,
      usefulHandoffRate := 0.6,
      demandRate := MinOne(priority),
      businessPriority := priority,
      resourceCost := MinOne(r.cost),
      failureCount := if r.ok then 0 else streak + 1,
      latencyP95Ms := Latency(cfg, i))
  }

  /** `run_task` once an agent is chosen. */
  function RunTask(cfg: Config, k: State, agentId: string, taskId: string, capability: string, priority: real): State
    requires agentId in k.agents
  {
    var i := |k.calls|;
    var k1 := k.(calls := k.calls + [Call(agentId, DirectTask(taskId, capability, priority))]);
    ObserveAgent(cfg, k1, agentId, DirectTelemetry(cfg, i, k.agents[agentId].failureStreak, priority))
  }

  // ---------- handoffs ----------

  function EdgeId(source: string, target: string): string {
    source + "->" + target
  }

  function EdgeBefore(edges: map<string, Edge>, source: string, target: string): Edge {
    var id := EdgeId(source, target);
    if id in edges then edges[id] else Edge(source, target, Active, 0.0, 0.0, None, 0)
  }

  function MeasuredEdge(cfg: Config, e: Edge, h: HandoffTelemetry): Edge {
    var c := FromHandoffTelemetry(h);
    e.(previousPsi := e.psi,
    psi := e.psi + Delta(cfg.decay, cfg.policy.dt, c),
    lastCoefficients := Some(c),
    observations := e.observations + 1)
  }

  function EdgeVerdict(cfg: Config, id: string, e: Edge, h: HandoffTelemetry, tick: nat): Decision {
    var c := FromHandoffTelemetry(h);
    DecideEdge(cfg.policy, id, MeasuredEdge(cfg, e, h), c, Delta(cfg.decay, cfg.policy.dt, c), cfg.reports(tick))
  }

  function EdgeEvents(d: Decision): seq<Event>
    requires d.EdgeDecision?
  {
    if d.action.Reroute? || d.action.Quarantine? then [Event(None, d.action, d.id)] else []
  }

  function ObserveHandoff(cfg: Config, k: State, source: string, target: string, h: HandoffTelemetry): State {
    var id := EdgeId(source, target);
    var e := EdgeBefore(k.edges, source, target);
    var d := EdgeVerdict(cfg, id, e, h, |k.decisions|);
    k.(edges := k.edges[id := MeasuredEdge(cfg, e, h).(state := d.newState)],
    decisions := k.decisions + [d],
    events := k.events + EdgeEvents(d))
  }

  function StepHandoffTelemetry(ok: bool, priority: real): HandoffTelemetry {
    HandoffTelemetry(
      artifactQuality := if ok then 0.85 else 0.25,
      contextPreservation := if ok then 0.80 else 0.30,
      acceptanceRate := if ok then 0.90 else 0.20,
      reworkRate := if ok then 0.05 else 0.75,
      ambiguity := if ok then 0.10 else 0.70,
      demandRate := priority)
  }

  /** One observation for each dependency that was ever assigned, in the order the step lists them. */
  function ObserveDependencies(cfg: Config, k: State, w: Workflow, deps: seq<string>, target: string, ok: bool): State
    requires forall d :: d in deps ==> d in w.steps
    decreases |deps|
  {
    if deps == [] then k
    else
      var source := w.steps[deps[0]].assignee;
      var k1 := if source == "" then k
                else ObserveHandoff(cfg, k, source, target, StepHandoffTelemetry(ok, w.plan.priority));
      ObserveDependencies(cfg, k1, w, deps[1..], target, ok)
  }

  function ObserveStepHandoffs(cfg: Config, k: State, wid: string, sid: string): State
    requires wid in k.workflows && sid in k.workflows[wid].steps
    requires forall d :: d in k.workflows[wid].steps[sid].spec.dependsOn ==> d in k.workflows[wid].steps
  {
    var w := k.workflows[wid];
    var s := w.steps[sid];
    if s.assignee == "" then k
    else ObserveDependencies(cfg, k, w, s.spec.dependsOn, s.assignee, s.state.Completed?)
  }

  // ---------- workflows ----------

  function NewStep(spec: StepSpec): Step {
    Step(spec, Pending, "", 0, "", "")
  }

  /** A pending step for each given one, in order; a repeated id keeps its first place and its last value. */
  function BuildSteps(specs: seq<StepSpec>, steps: map<string, Step>, order: seq<string>)
    : (map<string, Step>, seq<string>)
  {
    if specs == [] then (steps, order)
    else
      var id := specs[0].id;
      BuildSteps(specs[1..], steps[id := NewStep(specs[0])], if id in steps then order else order + [id])
  }

  function NewWorkflow(plan: Plan): Workflow {
    var (steps, order) := BuildSteps(plan.steps, map[], []);
    Workflow(plan, Draft, 0.0, 0.0, None, steps, order)
  }

  function CreateWorkflow(k: State, plan: Plan): State
    requires plan.id !in k.workflows
  {
    k.(workflows := k.workflows[plan.id := NewWorkflow(plan)],
    events := k.events + [Event(None, MaestroAction.Observe, plan.id)])
  }

  function MeasuredWorkflow(cfg: Config, w: Workflow, t: WorkflowTelemetry): Workflow {
    var c := FromWorkflowTelemetry(t);
    w.(previousPsi := w.psi,
    psi := w.psi + Delta(cfg.decay, cfg.policy.dt, c),
    lastCoefficients := Some(c))
  }

  function WorkflowVerdict(cfg: Config, w: Workflow, t: WorkflowTelemetry, tick: nat): Decision {
    var c := FromWorkflowTelemetry(t);
    DecideWorkflow(cfg.policy, MeasuredWorkflow(cfg, w, t), c, Delta(cfg.decay, cfg.policy.dt, c), cfg.reports(tick))
  }

  function ObserveWorkflow(cfg: Config, k: State, wid: string, t: WorkflowTelemetry): State
    requires wid in k.workflows
  {
    var w := k.workflows[wid];
    var d := WorkflowVerdict(cfg, w, t, |k.decisions|);
    k.(workflows := k.workflows[wid := MeasuredWorkflow(cfg, w, t).(state := d.newPhase)],
    decisions := k.decisions + [d],
    events := k.events + [Event(Some(wid), d.action, wid)])
  }

  function StepTelemetry(steps: map<string, Step>, priority: real): WorkflowTelemetry {
    var total := if |steps| == 0 then 1.0 else |steps| as real;
    var failed := |InState(steps, StepState.Failed)| as real;
    var running := |InState(steps, StepState.Running)| as real;
    var progress := |InState(steps, StepState.Completed)| as real / total;
    var blocking := failed / total;
    WorkflowTelemetry(
      goalAlignment := if failed == 0.0 then 0.9 else 0.55,
      progressRate := progress,
      completionConfidence := progress * (1.0 - blocking),
      coordinationQuality := if failed == 0.0 then 0.85 else 0.45,
      blockingRate := blocking,
      reworkRate := blocking,
      costPressure := 0.10 + 0.20 * failed,
      latencyPressure := 0.05 + 0.10 * running,
      riskPressure := 0.10 * failed,
      demandRate := priority,
      businessPriority := priority)
  }

  function ObserveFromSteps(cfg: Config, k: State, wid: string): State
    requires wid in k.workflows
  {
    var w := k.workflows[wid];
    ObserveWorkflow(cfg, k, wid, StepTelemetry(w.steps, w.plan.priority))
  }

  function InterventionState(w: WorkflowState, action: MaestroAction): WorkflowState {
    match action
    case Pause => Paused
    case Escalate => Escalated
    case Finalize => WorkflowState.Completed
    case Reroute => Degraded
    case _ => w
  }

  function Intervene(k: State, wid: string, action: MaestroAction, subject: string): State
    requires wid in k.workflows
  {
    var w := k.workflows[wid];
    k.(workflows := k.workflows[wid := w.(state := InterventionState(w.state, action))],
    events := k.events + [Event(Some(wid), action, subject)])
  }

  // ---------- running a workflow ----------

  /** Lookup in dependency order; it stops at the first dependency that is not completed. */
  function DependenciesMet(steps: map<string, Step>, deps: seq<string>): Result<bool, KernelError> {
    if deps == [] then Success(true)
    else if deps[0] !in steps then Failure(UnknownDependency(deps[0]))
    else if !steps[deps[0]].state.Completed? then Success(false)
    else DependenciesMet(steps, deps[1..])
  }

  function ReadySteps(steps: map<string, Step>, order: seq<string>): Result<seq<string>, KernelError>
    requires forall id :: id in order ==> id in steps
  {
    if order == [] then Success([])
    else
      var met := if steps[order[0]].state.Pending? then DependenciesMet(steps, steps[order[0]].spec.dependsOn)
                 else Success(false);
      match met
      case Failure(e) => Failure(e)
      case Success(here) =>
        match ReadySteps(steps, order[1..])
        case Failure(e) => Failure(e)
        case Success(rest) => Success((if here then [order[0]] else []) + rest)
  }

  predicate Known(w: Workflow, sid: string) {
    sid in w.steps && forall d :: d in w.steps[sid].spec.dependsOn ==> d in w.steps
  }

  function DependencyOutputs(w: Workflow, sid: string): map<string, string>
    requires Known(w, sid)
  {
    map d | d in w.steps[sid].spec.dependsOn :: w.steps[d].output
  }

  function ExecutionTelemetry(cfg: Config, i: nat, streak: int, priority: real): AgentTelemetry {
    var r := cfg.results(i);
    AgentTelemetry(
      successRate := if r.ok then 1.0 else 0.0,
      cooperationSuccess := if r.ok then 0.65 else 0.25,
      usefulHandoffRate := if r.ok then 0.65 else 0.20,
      demandRate := MinOne(priority),
      businessPriority := priority,
      resourceCost := MinOne(r.cost),
      failureCount := if r.ok then 0 else streak + 1,
      latencyP95Ms := Latency(cfg, i))
  }

  function StepAfter(p: Policy, s: Step, agentId: string, r: TaskResult): Step {
    s.(assignee := agentId,
    attempts := s.attempts + 1,
    output := r.output,
    error := r.error,
    state := if r.ok then StepState.Completed
    else if s.attempts + 1 < Cap(p, s.spec) then Pending
    else StepState.Failed)
  }

  function ClosingEvents(wid: string, sid: string, s: Step): seq<Event> {
    if s.state.Pending? then [Event(Some(wid), Retry, sid)]
    else if s.state.Failed? then [Event(Some(wid), Reroute, sid)]
    else []
  }

  function StepCall(w: Workflow, sid: string, agentId: string): Call
    requires Known(w, sid)
  {
    var s := w.steps[sid];
    var outputs := DependencyOutputs(w, sid);
    Call(agentId, StepTask(w.plan.id, sid, s.attempts + 1, s.spec.capability, outputs, w.plan.priority))
  }

  function WithStep(w: Workflow, sid: string, s: Step): Workflow {
    w.(steps := w.steps[sid := s])
  }

  /** `_run_step` once `agentId` is assigned. */
  function RunStep(cfg: Config, k: State, wid: string, sid: string, agentId: string): State
    requires wid in k.workflows && Known(k.workflows[wid], sid) && agentId in k.agents
  {
    var w := k.workflows[wid];
    var i := |k.calls|;
    var s := StepAfter(cfg.policy, w.steps[sid], agentId, cfg.results(i));
    var k1 := k.(calls := k.calls + [StepCall(w, sid, agentId)]);
    var k2 := ObserveAgent(cfg, k1, agentId,
                           ExecutionTelemetry(cfg, i, k.agents[agentId].failureStreak, w.plan.priority));
    k2.(workflows := k.workflows[wid := WithStep(w, sid, s)],
    events := k.events + [Event(Some(wid), Delegate, sid)] + ClosingEvents(wid, sid, s))
  }

  /** `Interrupted` is the return in mid-batch, `Quiescent` the break out of the loop. */
  datatype Outcome = Continue | Interrupted | Quiescent | Raised(error: KernelError)

  datatype Progress = Progress(state: State, outcome: Outcome)

  predicate Stops(s: WorkflowState) {
    s.Escalated? || s.Failed?
  }

  /** Run the step on the assigned agent, observe its handoffs, observe the workflow. */
  function TurnOn(cfg: Config, k: State, wid: string, sid: string, agentId: string): State
    requires wid in k.workflows && Known(k.workflows[wid], sid) && agentId in k.agents
  {
    var k1 := RunStep(cfg, k, wid, sid, agentId);
    var k2 := ObserveStepHandoffs(cfg, k1, wid, sid);
    HandoffFrame(cfg, k1, wid, sid);
    ObserveFromSteps(cfg, k2, wid)
  }

  /** One step of one batch. */
  function Turn(cfg: Config, k: State, wid: string, sid: string): Progress
    requires Valid(k) && wid in k.workflows && Known(k.workflows[wid], sid)
  {
    match AssignAgent(cfg.policy, k, k.workflows[wid].steps[sid].spec)
    case Failure(e) => Progress(k, Raised(e))
    case Success(agentId) =>
      AssignedIsEligible(cfg.policy, k, k.workflows[wid].steps[sid].spec);
      var t := TurnOn(cfg, k, wid, sid, agentId);
      Progress(t, if wid in t.workflows && Stops(t.workflows[wid].state) then Interrupted else Continue)
  }

  lemma AssignedIsEligible(p: Policy, k: State, spec: StepSpec)
    requires forall id :: id in k.roster ==> id in k.agents
    ensures var r := AssignAgent(p, k, spec);
            r.Success? ==> r.value in k.agents && Eligible(k.agents[r.value], spec.capability)
  {
    EligibleIdsKnown(k.agents, k.roster, spec.capability);
    var ids := EligibleIds(k.agents, k.roster, spec.capability);
    var candidates := RouteCandidates(p, k.agents, k.roster, spec.capability);
    assert multiset(candidates) == multiset(ids);
    if candidates != [] {
      assert candidates[0] in multiset(candidates);
      assert candidates[0] in ids;
    }
  }

  /** Handoff observations touch only edges, decisions and events. */
  lemma DependenciesFrame(cfg: Config, k: State, w: Workflow, deps: seq<string>, target: string, ok: bool)
    requires forall d :: d in deps ==> d in w.steps
    ensures var k' := ObserveDependencies(cfg, k, w, deps, target, ok);
            k' == k.(edges := k'.edges, decisions := k'.decisions, events := k'.events)
    decreases |deps|
  {
    if deps != [] {
      var source := w.steps[deps[0]].assignee;
      var k1 := if source == "" then k
      else ObserveHandoff(cfg, k, source, target, StepHandoffTelemetry(ok, w.plan.priority));
      DependenciesFrame(cfg, k1, w, deps[1..], target, ok);
    }
  }

  lemma HandoffFrame(cfg: Config, k: State, wid: string, sid: string)
    requires wid in k.workflows && Known(k.workflows[wid], sid)
    ensures var k' := ObserveStepHandoffs(cfg, k, wid, sid);
            k' == k.(edges := k'.edges, decisions := k'.decisions, events := k'.events)
  {
    var w := k.workflows[wid];
    var s := w.steps[sid];
    DependenciesFrame(cfg, k, w, s.spec.dependsOn, s.assignee, s.state.Completed?);
  }
}
