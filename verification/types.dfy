/** The enums, specifications, telemetry and policy that the kernel works on. */
module Types {
  import opened Common

  datatype AgentState = Active | Transitional | Archived | Quarantined

  datatype Criticality = Low | Medium | High | Critical

  datatype WorkflowState = Draft | Running | Paused | Degraded | Completed | Failed | Escalated

  datatype StepState = Pending | Running | Completed | Failed | Skipped

  datatype MaestroAction =
    | Delegate | Handoff | Parallelize | Retry | Reroute | Merge | Pause
    | Quarantine | Archive | Reactivate | Escalate | Finalize | Observe

  datatype ExistenceRank = Flourishing | Stable | Hybrid | Distorted | Transient | Extinct

  /** The exceptions the kernel raises. */
  datatype KernelError =
    | NoRuntime
    | UnknownAgent(agentId: string)
    | UnknownWorkflow(workflowId: string)
    | UnknownDependency(stepId: string)
    | NoActiveAgent(capability: string)
    | AgentAlreadyRegistered(agentId: string)
    | WorkflowAlreadyExists(workflowId: string)
    | BadStepSize

  datatype AgentSpec = AgentSpec(id: string, capabilities: seq<string>, criticality: Criticality)

  /** An empty `preferredAgentId` stands for both None and "": the kernel only tests its truth value. */
  datatype StepSpec = StepSpec(
    id: string,
    capability: string,
    dependsOn: seq<string>,
    preferredAgentId: string,
    maxRetries: int)

  datatype Plan = Plan(id: string, steps: seq<StepSpec>, priority: real)

  datatype TaskResult = TaskResult(ok: bool, output: string, error: string, latencyMs: real, cost: real)

  datatype Coefficients = Coefficients(T: real, N: real, C: real, M: real)

  datatype AgentTelemetry = AgentTelemetry(
    successRate: real := 1.0,
    cooperationSuccess: real := 0.5,
    usefulHandoffRate: real := 0.5,
    demandRate: real := 0.0,
    businessPriority: real := 0.5,
    resourceCost: real := 0.0,
    overlapScore: real := 0.0,
    policyRisk: real := 0.0,
    failureCount: int := 0,
    ageSeconds: real := 0.0,
    latencyP95Ms: real := 0.0,
    queueDepth: real := 0.0,
    needBoost: real := 0.0)

  datatype HandoffTelemetry = HandoffTelemetry(
    artifactQuality: real := 0.5,
    contextPreservation: real := 0.5,
    acceptanceRate: real := 0.5,
    reworkRate: real := 0.0,
    latencyMs: real := 0.0,
    ambiguity: real := 0.0,
    policyRisk: real := 0.0,
    demandRate: real := 0.5,
    handoffPriority: real := 0.5)

  datatype WorkflowTelemetry = WorkflowTelemetry(
    goalAlignment: real := 0.5,
    progressRate: real := 0.0,
    completionConfidence: real := 0.0,
    coordinationQuality: real := 0.5,
    blockingRate: real := 0.0,
    reworkRate: real := 0.0,
    costPressure: real := 0.0,
    latencyPressure: real := 0.0,
    riskPressure: real := 0.0,
    demandRate: real := 0.5,
    businessPriority: real := 0.5)

  datatype Policy = Policy(
    dt: real := 1.0,
    alpha: real := 0.05,
    activeMinPsi: real := 0.20,
    archiveMaxPsi: real := -0.10,
    reactivationNeed: real := 0.72,
    minRetention: real := 0.12,
    maxTransitionChannel: real := 0.78,
    minAftermathBalance: real := -0.05,
    quarantinePolicyRisk: real := 0.85,
    criticalRequiresReview: bool := true,
    maxFailureStreak: int := 3,
    minEdgePsi: real := -0.04,
    minWorkflowPsi: real := -0.02,
    maxStepAttempts: int := 2,
    preferHighPsiAgents: bool := true)

  const DEFAULT_POLICY := Policy()

  /** What the governor reads of a structural transition report. Its engine is private, so every value is possible. */
  datatype Report = Report(
    retention: real,
    compatibility: real,
    transitionChannel: real,
    aftermathBalance: real,
    rank: Option<ExistenceRank>)

  datatype Agent = Agent(
    spec: AgentSpec,
    state: AgentState,
    psi: real,
    previousPsi: real,
    lastCoefficients: Option<Coefficients>,
    failureStreak: int,
    observations: nat)

  datatype Edge = Edge(
    source: string,
    target: string,
    state: AgentState,
    psi: real,
    previousPsi: real,
    lastCoefficients: Option<Coefficients>,
    observations: nat)

  /** An empty `assignee` stands for both None and "", as in `StepSpec`. */
  datatype Step = Step(
    spec: StepSpec,
    state: StepState,
    assignee: string,
    attempts: nat,
    output: string,
    error: string)

  /** `order` is the insertion order of the `steps` dictionary. */
  datatype Workflow = Workflow(
    plan: Plan,
    state: WorkflowState,
    psi: real,
    previousPsi: real,
    lastCoefficients: Option<Coefficients>,
    steps: map<string, Step>,
    order: seq<string>)

  datatype Event = Event(workflowId: Option<string>, action: MaestroAction, subject: string)

  /** What the audit sink receives from the three kinds of observation. */
  datatype Decision =
    | AgentDecision(
        id: string, previousState: AgentState, newState: AgentState,
        psi: real, dpsi: real, coefficients: Coefficients, review: bool)
    | EdgeDecision(
        id: string, previousState: AgentState, newState: AgentState,
        psi: real, dpsi: real, coefficients: Coefficients, action: MaestroAction)
    | WorkflowDecision(
        id: string, previousPhase: WorkflowState, newPhase: WorkflowState,
        psi: real, dpsi: real, coefficients: Coefficients, action: MaestroAction, review: bool)

  datatype Task =
    | DirectTask(taskId: string, capability: string, priority: real)
    | StepTask(
        workflowId: string, stepId: string, attempt: nat,
        capability: string, dependencies: map<string, string>, priority: real)

  /** One call of `runtime.run`. */
  datatype Call = Call(agentId: string, task: Task)
}
