/** The kernel itself: records updated in place, and methods that refine the operations of `Maestro`. */
module Kernel {
  import opened Common
  import opened Types
  import opened Continuity
  import opened Governor
  import opened Maestro
  import opened Runs
  import opened Operations

  class AgentRecord {
    const spec: AgentSpec
    var state: AgentState
    var psi: real
    var previousPsi: real
    var lastCoefficients: Option<Coefficients>
    var failureStreak: int
    var observations: nat

    constructor (spec: AgentSpec, initial: Option<AgentTelemetry>)
      ensures View() == NewAgent(spec, initial)
    {
      this.spec := spec;
      state, psi, previousPsi, failureStreak, observations := Active, 0.0, 0.0, 0, 0;
      lastCoefficients := if initial.Some? then Some(FromAgentTelemetry(initial.value)) else None;
    }

    /** Integrates one observation and lets the governor set the state. */
    method Absorb(cfg: Config, m: AgentTelemetry, tick: nat) returns (d: Decision)
      modifies this
      ensures d == AgentVerdict(cfg, old(View()), m, tick)
      ensures View() == Measured(cfg, old(View()), m).(state := d.newState)
    {
      var c := FromAgentTelemetry(m);
      previousPsi := psi;
      var dpsi := Delta(cfg.decay, cfg.policy.dt, c);
      psi := psi + dpsi;
      failureStreak := m.failureCount;
      lastCoefficients := Some(c);
      observations := observations + 1;
      d := Decide(cfg.policy, View(), c, dpsi, cfg.reports(tick));
      state := d.newState;
    }

    function View(): Agent
      reads this
    {
      Agent(spec, state, psi, previousPsi, lastCoefficients, failureStreak, observations)
    }
  }

  class WorkflowRecord {
    const plan: Plan
    const order: seq<string>
    var state: WorkflowState
    var psi: real
    var previousPsi: real
    var lastCoefficients: Option<Coefficients>
    var steps: map<string, Step>

    constructor (plan: Plan, steps: map<string, Step>, order: seq<string>)
      ensures View() == Workflow(plan, Draft, 0.0, 0.0, None, steps, order)
    {
      this.plan, this.steps, this.order := plan, steps, order;
      state, psi, previousPsi, lastCoefficients := Draft, 0.0, 0.0, None;
    }

    /** The step goes to an agent for one more attempt. */
    method Begin(sid: string, agentId: string)
      requires sid in steps
      modifies this`steps
      ensures steps == old(steps)[sid := Begun(old(steps)[sid], agentId)]
    {
      var s := steps[sid];
      steps := steps[sid := s.(assignee := agentId, state := StepState.Running, attempts := s.attempts + 1)];
    }

    /** The step stores its result. */
    method Store(sid: string, result: TaskResult)
      requires sid in steps
      modifies this`steps
      ensures steps == old(steps)[sid := Stored(old(steps)[sid], result)]
    {
      steps := steps[sid := steps[sid].(output := result.output, error := result.error,
      state := if result.ok then StepState.Completed else StepState.Failed)];
    }

    /** The step becomes pending again. */
    method Reopen(sid: string)
      requires sid in steps
      modifies this`steps
      ensures steps == old(steps)[sid := old(steps)[sid].(state := Pending)]
    {
      steps := steps[sid := steps[sid].(state := Pending)];
    }

    method Absorb(cfg: Config, t: WorkflowTelemetry, tick: nat) returns (d: Decision)
      modifies this
      ensures d == WorkflowVerdict(cfg, old(View()), t, tick)
      ensures View() == MeasuredWorkflow(cfg, old(View()), t).(state := d.newPhase)
    {
      var c := FromWorkflowTelemetry(t);
      previousPsi := psi;
      var dpsi := Delta(cfg.decay, cfg.policy.dt, c);
      psi := psi + dpsi;
      lastCoefficients := Some(c);
      d := DecideWorkflow(cfg.policy, View(), c, dpsi, cfg.reports(tick));
      state := d.newPhase;
    }

    function View(): Workflow
      reads this
    {
      Workflow(plan, state, psi, previousPsi, lastCoefficients, steps, order)
    }
  }

  class MaestroKernel {
    const cfg: Config
    var registry: map<string, AgentRecord>
    var roster: seq<string>
    var handoffs: map<string, Edge>
    var workflows: map<string, WorkflowRecord>
    var events: seq<Event>
    var decisions: seq<Decision>
    var calls: seq<Call>

    // What the records stand for.
    ghost var agents: map<string, Agent>
    ghost var flows: map<string, Workflow>

    ghost function View(): State
      reads this
    {
      State(agents, roster, handoffs, flows, events, decisions, calls)
    }

    ghost predicate AgentsShown()
      reads this`registry, this`agents, registry.Values
    {
      && registry.Keys == agents.Keys
      && forall id :: id in registry ==> registry[id].spec.id == id && registry[id].View() == agents[id]
    }

    ghost predicate WorkflowsShown()
      reads this`workflows, this`flows, workflows.Values
    {
      && workflows.Keys == flows.Keys
      && forall wid :: wid in workflows ==> workflows[wid].plan.id == wid && workflows[wid].View() == flows[wid]
    }

    ghost predicate Valid()
      reads this, registry.Values, workflows.Values
    {
      AgentsShown() && WorkflowsShown()
    }

    constructor (cfg: Config)
      ensures Valid() && this.cfg == cfg && View() == EMPTY
    {
      this.cfg := cfg;
      registry, roster, handoffs, workflows := map[], [], map[], map[];
      events, decisions, calls := [], [], [];
      agents, flows := map[], map[];
    }

    /** The continuity engine refuses a step size that is not positive. */
    static method Create(cfg: Config) returns (r: Result<MaestroKernel, KernelError>)
      ensures cfg.policy.dt <= 0.0 ==> r == Failure(BadStepSize)
      ensures cfg.policy.dt > 0.0 ==>
                r.Success? && fresh(r.value) && r.value.cfg == cfg && r.value.Valid() && r.value.View() == EMPTY
    {
      if cfg.policy.dt <= 0.0 {
        r := Failure(BadStepSize);
      } else {
        var kernel := new MaestroKernel(cfg);
        r := Success(kernel);
      }
    }

    method Emit(workflowId: Option<string>, action: MaestroAction, subject: string)
      modifies this`events
      ensures events == old(events) + [Event(workflowId, action, subject)]
    {
      events := events + [Event(workflowId, action, subject)];
    }

    // ---------- agents ----------

    method RegisterAgent(spec: AgentSpec, initial: Option<AgentTelemetry>)
      returns (r: Result<AgentRecord, KernelError>)
      requires AgentsShown()
      modifies this`registry, this`roster, this`agents
      ensures AgentsShown()
      ensures if spec.id in old(registry) then
                r == Failure(AgentAlreadyRegistered(spec.id)) && View() == old(View()) && registry == old(registry)
              else
                && View() == Register(old(View()), spec, initial)
                && r.Success? && fresh(r.value) && registry == old(registry)[spec.id := r.value]
    {
      if spec.id in registry {
        r := Failure(AgentAlreadyRegistered(spec.id));
      } else {
        var record := new AgentRecord(spec, initial);
        registry := registry[spec.id := record];
        roster := roster + [spec.id];
        agents := agents[spec.id := record.View()];
        r := Success(record);
      }
    }

    method ObserveRecord(agentId: string, m: AgentTelemetry) returns (d: Decision)
      requires AgentsShown() && agentId in registry
      modifies this, registry[agentId]
      ensures AgentsShown() && registry == old(registry) && workflows == old(workflows)
      ensures old(WorkflowsShown()) ==> WorkflowsShown()
      ensures View() == ObserveAgent(cfg, old(View()), agentId, m)
      ensures decisions == old(decisions) + [d]
    {
      var record := registry[agentId];
      d := record.Absorb(cfg, m, |decisions|);
      decisions := decisions + [d];
      agents := agents[agentId := record.View()];
    }

    method Observe(agentId: string, m: AgentTelemetry) returns (r: Result<Decision, KernelError>)
      requires AgentsShown()
      modifies this, registry.Values
      ensures AgentsShown() && registry == old(registry) && workflows == old(workflows)
      ensures if agentId !in registry then r == Failure(UnknownAgent(agentId)) && View() == old(View())
              else View() == ObserveAgent(cfg, old(View()), agentId, m)
                   && r == Success(decisions[|decisions| - 1])
    {
      if agentId in registry {
        var d := ObserveRecord(agentId, m);
        r := Success(d);
      } else {
        r := Failure(UnknownAgent(agentId));
      }
    }

    // ---------- handoffs ----------

    method ObserveHandoff(source: string, target: string, h: HandoffTelemetry) returns (d: Decision)
      modifies this`handoffs, this`decisions, this`events
      ensures View() == Maestro.ObserveHandoff(cfg, old(View()), source, target, h)
    {
      var id := EdgeId(source, target);
      if id !in handoffs {
        handoffs := handoffs[id := Edge(source, target, Active, 0.0, 0.0, None, 0)];
      }
      var record := handoffs[id];
      var c := FromHandoffTelemetry(h);
      var dpsi := Delta(cfg.decay, cfg.policy.dt, c);
      record := record.(previousPsi := record.psi, psi := record.psi + dpsi,
      lastCoefficients := Some(c), observations := record.observations + 1);
      d := DecideEdge(cfg.policy, id, record, c, dpsi, cfg.reports(|decisions|));
      handoffs := handoffs[id := record.(state := d.newState)];
      decisions := decisions + [d];
      Announce(d);
    }

    /** Reroutes and quarantines of an edge are events too. */
    method Announce(d: Decision)
      requires d.EdgeDecision?
      modifies this`events
      ensures events == old(events) + EdgeEvents(d)
    {
      if d.action.Reroute? || d.action.Quarantine? {
        Emit(None, d.action, d.id);
      }
    }

    // ---------- workflows ----------

    /** The dictionary comprehension over the plan's steps. */
    method StepRecords(specs: seq<StepSpec>) returns (steps: map<string, Step>, order: seq<string>)
      ensures (steps, order) == BuildSteps(specs, map[], [])
    {
      steps, order := map[], [];
      for i := 0 to |specs|
        invariant BuildSteps(specs[i..], steps, order) == BuildSteps(specs, map[], [])
      {
        var spec := specs[i];
        assert specs[i..][0] == spec && specs[i..][1..] == specs[i + 1..];
        order := if spec.id in steps then order else order + [spec.id];
        steps := steps[spec.id := NewStep(spec)];
      }
    }

    method CreateWorkflow(plan: Plan) returns (r: Result<WorkflowRecord, KernelError>)
      requires WorkflowsShown()
      modifies this`workflows, this`flows, this`events
      ensures WorkflowsShown()
      ensures if plan.id in old(workflows) then
                r == Failure(WorkflowAlreadyExists(plan.id)) && View() == old(View()) && workflows == old(workflows)
              else
                && View() == Maestro.CreateWorkflow(old(View()), plan)
                && r.Success? && fresh(r.value) && workflows == old(workflows)[plan.id := r.value]
    {
      if plan.id in workflows {
        r := Failure(WorkflowAlreadyExists(plan.id));
      } else {
        var steps, order := StepRecords(plan.steps);
        var record := new WorkflowRecord(plan, steps, order);
        workflows := workflows[plan.id := record];
        flows := flows[plan.id := record.View()];
        Emit(None, MaestroAction.Observe, plan.id);
        r := Success(record);
      }
    }

    method RecordWorkflow(wid: string, t: WorkflowTelemetry) returns (d: Decision)
      requires WorkflowsShown() && wid in workflows
      modifies this`flows, this`decisions, workflows[wid]
      ensures WorkflowsShown()
      ensures d == WorkflowVerdict(cfg, old(flows)[wid], t, |old(decisions)|)
      ensures flows == old(flows)[wid := MeasuredWorkflow(cfg, old(flows)[wid], t).(state := d.newPhase)]
      ensures decisions == old(decisions) + [d]
    {
      var record := workflows[wid];
      d := record.Absorb(cfg, t, |decisions|);
      decisions := decisions + [d];
      flows := flows[wid := record.View()];
    }

    method ObserveKnownWorkflow(wid: string, t: WorkflowTelemetry) returns (d: Decision)
      requires WorkflowsShown() && wid in workflows
      modifies this, workflows[wid]
      ensures WorkflowsShown() && registry == old(registry) && workflows == old(workflows)
      ensures View() == Maestro.ObserveWorkflow(cfg, old(View()), wid, t)
    {
      d := RecordWorkflow(wid, t);
      Emit(Some(wid), d.action, wid);
    }

    method ObserveWorkflow(wid: string, t: WorkflowTelemetry) returns (r: Result<Decision, KernelError>)
      requires WorkflowsShown()
      modifies this, workflows.Values
      ensures WorkflowsShown() && registry == old(registry) && workflows == old(workflows)
      ensures if wid in workflows then View() == Maestro.ObserveWorkflow(cfg, old(View()), wid, t) && r.Success?
              else r == Failure(UnknownWorkflow(wid)) && View() == old(View())
    {
      if wid in workflows {
        var d := ObserveKnownWorkflow(wid, t);
        r := Success(d);
      } else {
        r := Failure(UnknownWorkflow(wid));
      }
    }

    /** A state set from outside the governor. */
    method Mark(wid: string, state: WorkflowState)
      requires WorkflowsShown() && wid in workflows
      modifies this`flows, workflows[wid]
      ensures WorkflowsShown() && flows == old(flows)[wid := old(flows)[wid].(state := state)]
    {
      var record := workflows[wid];
      record.state := state;
      flows := flows[wid := record.View()];
    }

    static method StateAfter(state: WorkflowState, action: MaestroAction) returns (after: WorkflowState)
      ensures after == InterventionState(state, action)
    {
      after := state;
      if action == Pause {
        after := Paused;
      } else if action == Escalate {
        after := Escalated;
      } else if action == Finalize {
        after := WorkflowState.Completed;
      } else if action == Reroute {
        after := Degraded;
      }
    }

    method MarkAndTell(wid: string, state: WorkflowState, action: MaestroAction, subject: string)
      requires WorkflowsShown() && wid in workflows
      modifies this`flows, this`events, workflows[wid]
      ensures WorkflowsShown() && flows == old(flows)[wid := old(flows)[wid].(state := state)]
      ensures events == old(events) + [Event(Some(wid), action, subject)]
    {
      Mark(wid, state);
      Emit(Some(wid), action, subject);
    }

    method Intervene(wid: string, action: MaestroAction, subject: string) returns (r: Result<Event, KernelError>)
      requires WorkflowsShown()
      modifies this`flows, this`events, workflows.Values
      ensures WorkflowsShown()
      ensures if wid in workflows then
                View() == Maestro.Intervene(old(View()), wid, action, subject)
                && r == Success(Event(Some(wid), action, subject))
              else r == Failure(UnknownWorkflow(wid)) && View() == old(View())
    {
      if wid in workflows {
        var state := StateAfter(workflows[wid].state, action);
        MarkAndTell(wid, state, action, subject);
        r := Success(Event(Some(wid), action, subject));
      } else {
        r := Failure(UnknownWorkflow(wid));
      }
    }

    // ---------- the steps of a workflow ----------

    /** How many of the steps are in the state. */
    static method CountSteps(steps: map<string, Step>, order: seq<string>, state: StepState) returns (n: nat)
      requires Lists(order, steps.Keys)
      ensures n == |InState(steps, state)|
    {
      n := 0;
      ghost var seen := {};
      for i := 0 to |order|
        invariant seen == set id | id in InState(steps, state) && id in order[..i]
        invariant n == |seen|
      {
        assert order[..i + 1] == order[..i] + [order[i]];
        assert order[i] !in order[..i];
        if steps[order[i]].state == state {
          n := n + 1;
          seen := seen + {order[i]};
        }
      }
      assert order[..|order|] == order;
      assert seen == InState(steps, state);
    }

    method ObserveCounts(wid: string) returns (d: Decision)
      requires WorkflowsShown() && wid in workflows && Lists(workflows[wid].order, workflows[wid].steps.Keys)
      modifies this, workflows[wid]
      ensures WorkflowsShown() && registry == old(registry) && workflows == old(workflows)
      ensures View() == ObserveFromSteps(cfg, old(View()), wid)
    {
      var workflow := workflows[wid];
      var total := if |workflow.steps| == 0 then 1.0 else |workflow.steps| as real;
      var completed := CountSteps(workflow.steps, workflow.order, StepState.Completed);
      var failed := CountSteps(workflow.steps, workflow.order, StepState.Failed);
      var running := CountSteps(workflow.steps, workflow.order, StepState.Running);
      var progress := completed as real / total;
      var blocking := failed as real / total;
      var telemetry := WorkflowTelemetry(
        goalAlignment := if failed == 0 then 0.9 else 0.55,
        progressRate := progress,
        completionConfidence := progress * (1.0 - blocking),
        coordinationQuality := if failed == 0 then 0.85 else 0.45,
        blockingRate := blocking,
        reworkRate := blocking,
        costPressure := 0.10 + 0.20 * failed as real,
        latencyPressure := 0.05 + 0.10 * running as real,
        riskPressure := 0.10 * failed as real,
        demandRate := workflow.plan.priority,
        businessPriority := workflow.plan.priority);
      assert telemetry == StepTelemetry(workflow.steps, workflow.plan.priority);
      d := ObserveKnownWorkflow(wid, telemetry);
    }

    /** Whether all the dependencies are completed; the search ends at the first that is not, or that is unknown. */
    static method AllCompleted(steps: map<string, Step>, deps: seq<string>) returns (r: Result<bool, KernelError>)
      ensures r == DependenciesMet(steps, deps)
    {
      for i := 0 to |deps|
        invariant DependenciesMet(steps, deps) == DependenciesMet(steps, deps[i..])
      {
        assert deps[i..][0] == deps[i] && deps[i..][1..] == deps[i + 1..];
        if deps[i] !in steps {
          return Failure(UnknownDependency(deps[i]));
        }
        if steps[deps[i]].state != StepState.Completed {
          return Success(false);
        }
      }
      r := Success(true);
    }

    /** `ready` followed by the ready steps of the remaining order. */
    static ghost function Gathered(ready: seq<string>, rest: Result<seq<string>, KernelError>)
      : Result<seq<string>, KernelError>
    {
      match rest
      case Failure(e) => Failure(e)
      case Success(ids) => Success(ready + ids)
    }

    static method CollectReady(steps: map<string, Step>, order: seq<string>)
      returns (r: Result<seq<string>, KernelError>)
      requires forall id :: id in order ==> id in steps
      ensures r == Maestro.ReadySteps(steps, order)
    {
      var ready := [];
      assert order[0..] == order;
      GatheredNone(Maestro.ReadySteps(steps, order));
      for i := 0 to |order|
        invariant Maestro.ReadySteps(steps, order) == Gathered(ready, Maestro.ReadySteps(steps, order[i..]))
      {
        assert order[i..][0] == order[i] && order[i..][1..] == order[i + 1..];
        var met := Success(false);
        if steps[order[i]].state == Pending {
          met := AllCompleted(steps, steps[order[i]].spec.dependsOn);
        }
        if met.Failure? {
          return Failure(met.error);
        }
        ghost var before := ready;
        if met.value {
          ready := ready + [order[i]];
        }
        GatheredStep(before, met.value, order[i], Maestro.ReadySteps(steps, order[i + 1..]));
      }
      assert order[|order|..] == [] && ready + [] == ready;
      r := Success(ready);
    }

    static lemma GatheredNone(rest: Result<seq<string>, KernelError>)
      ensures Gathered([], rest) == rest
    {
      if rest.Success? {
        assert [] + rest.value == rest.value;
      }
    }

    static lemma GatheredStep(ready: seq<string>, here: bool, id: string, rest: Result<seq<string>, KernelError>)
      ensures Gathered(ready, match rest
                              case Failure(e) => Failure(e)
                              case Success(ids) => Success((if here then [id] else []) + ids))
           == Gathered(if here then ready + [id] else ready, rest)
    {
      if rest.Success? {
        assert ready + ((if here then [id] else []) + rest.value)
            == (if here then ready + [id] else ready) + rest.value;
      }
    }

    method ReadySteps(wid: string) returns (r: Result<seq<string>, KernelError>)
      requires WorkflowsShown() && (wid in workflows ==> Lists(workflows[wid].order, workflows[wid].steps.Keys))
      ensures r == if wid in workflows then Maestro.ReadySteps(flows[wid].steps, flows[wid].order)
                   else Failure(UnknownWorkflow(wid))
    {
      if wid in workflows {
        r := CollectReady(workflows[wid].steps, workflows[wid].order);
      } else {
        r := Failure(UnknownWorkflow(wid));
      }
    }

    // ---------- routing ----------

    /** The comprehension over the registry, in registration order. */
    method CollectEligible(capability: string) returns (candidates: seq<string>)
      requires AgentsShown() && forall id :: id in roster ==> id in registry
      ensures candidates == EligibleIds(agents, roster, capability)
    {
      candidates := [];
      assert roster[0..] == roster;
      for i := 0 to |roster|
        invariant EligibleIds(agents, roster, capability) == candidates + EligibleIds(agents, roster[i..], capability)
      {
        assert roster[i..][0] == roster[i] && roster[i..][1..] == roster[i + 1..];
        var record := registry[roster[i]];
        if record.state == Active && capability in record.spec.capabilities {
          candidates := candidates + [roster[i]];
        }
      }
      assert roster[|roster|..] == [];
    }

    method RouteCandidates(capability: string) returns (candidates: seq<string>)
      requires AgentsShown() && forall id :: id in roster ==> id in registry
      ensures candidates == Maestro.RouteCandidates(cfg.policy, agents, roster, capability)
    {
      candidates := CollectEligible(capability);
      EligibleIdsKnown(agents, roster, capability);
      if cfg.policy.preferHighPsiAgents {
        candidates := SortRecords(candidates);
      }
    }

    /** `sorted` by descending (psi, -failure_streak), keeping the order of equals. */
    method SortRecords(ids: seq<string>) returns (sorted: seq<string>)
      requires AgentsShown() && forall id :: id in ids ==> id in registry
      ensures sorted == SortByRank(agents, ids)
    {
      var views := map id | id in registry :: registry[id].View();
      assert views == agents;
      sorted := SortByRank(views, ids);
    }

    method AssignAgent(spec: StepSpec) returns (r: Result<string, KernelError>)
      requires AgentsShown() && forall id :: id in roster ==> id in registry
      ensures r == Maestro.AssignAgent(cfg.policy, View(), spec)
    {
      if spec.preferredAgentId != "" {
        if spec.preferredAgentId !in registry {
          return Failure(UnknownAgent(spec.preferredAgentId));
        }
        var preferred := registry[spec.preferredAgentId];
        if preferred.state == Active && spec.capability in preferred.spec.capabilities {
          return Success(spec.preferredAgentId);
        }
      }
      var candidates := RouteCandidates(spec.capability);
      if candidates == [] {
        return Failure(NoActiveAgent(spec.capability));
      }
      r := Success(candidates[0]);
    }

    // ---------- running ----------

    method CallRuntime(agentId: string, task: Task) returns (result: TaskResult)
      modifies this`calls
      ensures calls == old(calls) + [Call(agentId, task)] && result == cfg.results(|old(calls)|)
    {
      result := cfg.results(|calls|);
      calls := calls + [Call(agentId, task)];
    }

    method BeginStep(wid: string, sid: string, agentId: string)
      requires WorkflowsShown() && wid in workflows && sid in flows[wid].steps
      modifies this, workflows[wid]
      ensures WorkflowsShown() && registry == old(registry) && workflows == old(workflows)
      ensures var w := old(flows)[wid];
              View() == old(View()).(
              workflows := old(flows)[wid := WithStep(w, sid, Begun(w.steps[sid], agentId))])
    {
      var workflow := workflows[wid];
      workflow.Begin(sid, agentId);
      flows := flows[wid := workflow.View()];
    }

    method ComposeTask(wid: string, sid: string) returns (task: Task)
      requires WorkflowsShown() && wid in workflows && Known(flows[wid], sid)
      ensures task == TaskOf(flows[wid], sid)
    {
      var workflow := workflows[wid];
      var s := workflow.steps[sid];
      var dependencies := map d | d in s.spec.dependsOn :: workflow.steps[d].output;
      task := StepTask(workflow.plan.id, sid, s.attempts, s.spec.capability, dependencies, workflow.plan.priority);
    }

    method StartStep(wid: string, sid: string, agentId: string) returns (task: Task)
      requires WorkflowsShown() && wid in workflows && Known(flows[wid], sid)
      modifies this, workflows[wid]
      ensures WorkflowsShown() && registry == old(registry) && workflows == old(workflows)
      ensures var w := old(flows)[wid];
              View() == old(View()).(
              workflows := old(flows)[wid := WithStep(w, sid, Begun(w.steps[sid], agentId))],
              events := old(events) + [Event(Some(wid), Delegate, sid)])
      ensures task == StepCall(old(flows)[wid], sid, agentId).task
    {
      BeginStep(wid, sid, agentId);
      Emit(Some(wid), Delegate, sid);
      TaskOfBegun(old(flows)[wid], sid, agentId);
      task := ComposeTask(wid, sid);
    }

    method StoreResult(wid: string, sid: string, result: TaskResult)
      requires WorkflowsShown() && wid in workflows && sid in flows[wid].steps
      modifies this, workflows[wid]
      ensures WorkflowsShown() && registry == old(registry) && workflows == old(workflows)
      ensures var w := old(flows)[wid];
              View() == old(View()).(workflows := old(flows)[wid := WithStep(w, sid, Stored(w.steps[sid], result))])
    {
      var workflow := workflows[wid];
      workflow.Store(sid, result);
      flows := flows[wid := workflow.View()];
    }

    method RetryStep(wid: string, sid: string)
      requires WorkflowsShown() && wid in workflows && sid in flows[wid].steps
      modifies this, workflows[wid]
      ensures WorkflowsShown() && registry == old(registry) && workflows == old(workflows)
      ensures old(AgentsShown()) ==> AgentsShown()
      ensures View() == Retried(old(View()), wid, sid)
    {
      var workflow := workflows[wid];
      workflow.Reopen(sid);
      flows := flows[wid := workflow.View()];
      Emit(Some(wid), Retry, sid);
    }

    /** A failed attempt is followed by a retry while attempts are left, and by a reroute otherwise. */
    method CloseStep(wid: string, sid: string, ok: bool)
      requires WorkflowsShown() && wid in workflows && sid in flows[wid].steps
      requires flows[wid].steps[sid].state == if ok then StepState.Completed else StepState.Failed
      modifies this, workflows[wid]
      ensures WorkflowsShown() && registry == old(registry) && workflows == old(workflows)
      ensures old(AgentsShown()) ==> AgentsShown()
      ensures View() == Closed(cfg.policy, old(View()), wid, sid)
    {
      ClosedAs(cfg.policy, View(), wid, sid);
      var s := workflows[wid].steps[sid];
      if !ok && s.attempts < Cap(cfg.policy, s.spec) {
        RetryStep(wid, sid);
      } else if !ok {
        Emit(Some(wid), Reroute, sid);
      }
    }

    method StartAndCall(wid: string, sid: string, agentId: string) returns (result: TaskResult)
      requires WorkflowsShown() && wid in workflows && Known(flows[wid], sid)
      modifies this, workflows[wid]
      ensures WorkflowsShown() && registry == old(registry) && workflows == old(workflows)
      ensures result == cfg.results(|old(calls)|)
      ensures var w := old(flows)[wid];
              View() == old(View()).(
              workflows := old(flows)[wid := WithStep(w, sid, Begun(w.steps[sid], agentId))],
              calls := old(calls) + [StepCall(old(flows)[wid], sid, agentId)],
              events := old(events) + [Event(Some(wid), Delegate, sid)])
    {
      var task := StartStep(wid, sid, agentId);
      result := CallRuntime(agentId, task);
    }

    /** One attempt up to the answer of the runtime, which the step stores. */
    method Execute(wid: string, sid: string, agentId: string) returns (result: TaskResult)
      requires WorkflowsShown() && wid in workflows && Known(flows[wid], sid)
      modifies this, workflows[wid]
      ensures WorkflowsShown() && registry == old(registry) && workflows == old(workflows)
      ensures result == cfg.results(|old(calls)|)
      ensures View() == Executed(cfg, old(View()), wid, sid, agentId)
    {
      result := StartAndCall(wid, sid, agentId);
      StoreResult(wid, sid, result);
      StoredOnce(old(flows), wid, sid, agentId, result);
    }

    /** The agent is observed before the attempt is closed. */
    method ExecuteObserved(wid: string, sid: string, agentId: string) returns (ok: bool)
      requires AgentsShown() && WorkflowsShown()
      requires wid in workflows && Known(flows[wid], sid) && agentId in registry
      modifies this, workflows[wid], registry[agentId]
      ensures AgentsShown() && WorkflowsShown()
      ensures registry == old(registry) && workflows == old(workflows)
      ensures View() == Answered(cfg, old(View()), wid, sid, agentId) && ok == cfg.results(|old(calls)|).ok
    {
      var i, streak, priority := |calls|, registry[agentId].failureStreak, workflows[wid].plan.priority;
      var result := Execute(wid, sid, agentId);
      var d := ObserveRecord(agentId, ExecutionTelemetry(cfg, i, streak, priority));
      ok := result.ok;
    }

    method AttemptStep(wid: string, sid: string, agentId: string)
      requires AgentsShown() && WorkflowsShown()
      requires wid in workflows && Known(flows[wid], sid) && agentId in registry
      modifies this, workflows[wid], registry[agentId]
      ensures AgentsShown() && WorkflowsShown()
      ensures registry == old(registry) && workflows == old(workflows)
      ensures View() == Maestro.RunStep(cfg, old(View()), wid, sid, agentId)
    {
      RunStepParts(cfg, View(), wid, sid, agentId);
      var ok := ExecuteObserved(wid, sid, agentId);
      CloseStep(wid, sid, ok);
    }

    method ObserveStepHandoffs(wid: string, sid: string)
      requires Valid() && wid in workflows && Known(flows[wid], sid)
      modifies this`handoffs, this`decisions, this`events
      ensures Valid()
      ensures View() == Maestro.ObserveStepHandoffs(cfg, old(View()), wid, sid)
    {
      ghost var k, w := View(), flows[wid];
      var steps, priority := workflows[wid].steps, workflows[wid].plan.priority;
      var s := steps[sid];
      if s.spec.dependsOn != [] && s.assignee != "" {
        var deps, ok := s.spec.dependsOn, s.state == StepState.Completed;
        assert deps[0..] == deps;
        for i := 0 to |deps|
          invariant ObserveDependencies(cfg, View(), w, deps[i..], s.assignee, ok)
                 == ObserveDependencies(cfg, k, w, deps, s.assignee, ok)
        {
          assert deps[i..][0] == deps[i] && deps[i..][1..] == deps[i + 1..];
          var source := steps[deps[i]].assignee;
          if source != "" {
            var d := ObserveHandoff(source, s.assignee, StepHandoffTelemetry(ok, priority));
          }
        }
      }
    }

    // The three parts of a turn leave every record that they do not write as it was.

    method RunStep(wid: string, sid: string, agentId: string)
      requires Valid() && wid in workflows && Known(flows[wid], sid) && agentId in registry
      modifies this, workflows[wid], registry[agentId]
      ensures Valid() && registry == old(registry) && workflows == old(workflows)
      ensures View() == Maestro.RunStep(cfg, old(View()), wid, sid, agentId)
      ensures Known(flows[wid], sid)
    {
      ghost var k := View();
      AttemptStep(wid, sid, agentId);
      RunStepKeeps(cfg, k, wid, sid, agentId, View());
    }

    method ObserveWorkflowFromSteps(wid: string)
      requires Valid() && wid in workflows && Lists(flows[wid].order, flows[wid].steps.Keys)
      modifies this, workflows[wid]
      ensures Valid() && registry == old(registry) && workflows == old(workflows)
      ensures View() == ObserveFromSteps(cfg, old(View()), wid)
    {
      var d := ObserveCounts(wid);
    }

    method RunAndHandOver(wid: string, sid: string, agentId: string)
      requires Valid() && wid in workflows && Known(flows[wid], sid) && agentId in registry
      modifies this, workflows[wid], registry[agentId]
      ensures Valid() && registry == old(registry) && workflows == old(workflows)
      ensures View() == HandedOver(cfg, old(View()), wid, sid, agentId)
    {
      RunStep(wid, sid, agentId);
      ObserveStepHandoffs(wid, sid);
    }

    method RunAndObserve(wid: string, sid: string, agentId: string)
      requires Valid() && wid in workflows && Known(flows[wid], sid) && agentId in registry
      requires Lists(flows[wid].order, flows[wid].steps.Keys)
      modifies this, workflows[wid], registry[agentId]
      ensures Valid() && registry == old(registry) && workflows == old(workflows)
      ensures View() == TurnOn(cfg, old(View()), wid, sid, agentId)
    {
      TurnParts(cfg, View(), wid, sid, agentId);
      RunAndHandOver(wid, sid, agentId);
      ObserveWorkflowFromSteps(wid);
    }

    /** The body of the inner loop of `run_workflow`. */
    method Turn(wid: string, sid: string) returns (outcome: Outcome)
      requires Valid() && Maestro.Valid(View()) && wid in workflows && Known(flows[wid], sid)
      modifies this, registry.Values, workflows.Values
      ensures Valid() && registry == old(registry) && workflows == old(workflows)
      ensures Progress(View(), outcome) == Maestro.Turn(cfg, old(View()), wid, sid)
    {
      ghost var k := View();
      var a := AssignAgent(workflows[wid].steps[sid].spec);
      if a.Failure? {
        outcome := Raised(a.error);
      } else {
        AssignedIsEligible(cfg.policy, k, flows[wid].steps[sid].spec);
        TurnOnEffect(cfg, k, wid, sid, a.value);
        RunAndObserve(wid, sid, a.value);
        outcome := if Stops(workflows[wid].state) then Interrupted else Continue;
      }
    }

    /** One iteration of the inner loop, of a batch that started in `k`. */
    method BatchTurn(wid: string, ready: seq<string>, i: nat, ghost k: State) returns (outcome: Outcome)
      requires Maestro.Valid(k) && wid in k.workflows && AllKnown(k.workflows[wid], ready) && i < |ready|
      requires Valid() && wid in workflows && BatchLeft(cfg, k, wid, ready, View(), ready[i..])
      modifies this, registry.Values, workflows.Values
      ensures Valid() && registry == old(registry) && workflows == old(workflows)
      ensures BatchPosition(cfg, k, wid, ready, Progress(View(), outcome), i + 1)
    {
      BatchUnfold(cfg, k, wid, ready, View(), i);
      outcome := Turn(wid, ready[i]);
    }

    method RunBatch(wid: string, ready: seq<string>) returns (outcome: Outcome)
      requires Valid() && Maestro.Valid(View()) && wid in workflows && AllKnown(flows[wid], ready)
      modifies this, registry.Values, workflows.Values
      ensures Valid() && registry == old(registry) && workflows == old(workflows)
      ensures Progress(View(), outcome) == Runs.RunBatch(cfg, old(View()), wid, ready)
    {
      ghost var k := View();
      BatchStarts(cfg, k, wid, ready);
      outcome := Continue;
      var i := 0;
      while i < |ready| && outcome == Continue
        invariant i <= |ready|
        invariant registry == old(registry) && workflows == old(workflows)
        invariant Valid()
        invariant BatchPosition(cfg, k, wid, ready, Progress(View(), outcome), i)
      {
        outcome := BatchTurn(wid, ready, i, k);
        i := i + 1;
      }
      BatchDone(cfg, k, wid, ready, Progress(View(), outcome), i);
    }

    method Start(wid: string)
      requires Valid() && wid in workflows
      modifies this, workflows[wid]
      ensures Valid() && registry == old(registry) && workflows == old(workflows)
      ensures View() == Started(old(View()), wid)
    {
      MarkAndTell(wid, WorkflowState.Running, Delegate, wid);
    }

    /** One round of `while True`: leave when nothing is ready, otherwise run the batch. */
    method RunRound(wid: string) returns (outcome: Outcome)
      requires Valid() && Maestro.Valid(View()) && wid in workflows
      modifies this, registry.Values, workflows.Values
      ensures Valid() && registry == old(registry) && workflows == old(workflows)
      ensures Progress(View(), outcome) == Round(cfg, old(View()), wid)
    {
      ReadyExactly(flows[wid], flows[wid].order);
      var ready := ReadySteps(wid);
      if ready.Failure? {
        outcome := Raised(ready.error);
      } else if ready.value == [] {
        outcome := Quiescent;
      } else {
        outcome := RunBatch(wid, ready.value);
      }
    }

    method RunLoop(wid: string) returns (outcome: Outcome)
      requires Valid() && Maestro.Valid(View()) && wid in workflows
      modifies this, registry.Values, workflows.Values
      ensures Valid() && registry == old(registry) && workflows == old(workflows)
      ensures Progress(View(), outcome) == RunSteps(cfg, old(View()), wid)
    {
      ghost var k := View();
      outcome := Continue;
      while outcome == Continue
        invariant registry == old(registry) && workflows == old(workflows)
        invariant Valid()
        invariant LoopPosition(cfg, k, wid, Progress(View(), outcome))
        decreases outcome == Continue, LoopBudget(cfg.policy, View(), wid)
      {
        LoopUnfold(cfg, k, wid, View());
        outcome := RunRound(wid);
      }
    }

    method RunWorkflow(wid: string) returns (outcome: Outcome)
      requires Valid() && Maestro.Valid(View())
      modifies this, registry.Values, workflows.Values
      ensures Valid() && registry == old(registry) && workflows == old(workflows)
      ensures Progress(View(), outcome) == Runs.RunWorkflow(cfg, old(View()), wid)
    {
      if !cfg.hasRuntime {
        outcome := Raised(NoRuntime);
      } else if wid !in workflows {
        outcome := Raised(UnknownWorkflow(wid));
      } else {
        ghost var k := View();
        StartedValid(k, wid);
        LoopValid(cfg, k, wid);
        Start(wid);
        outcome := RunLoop(wid);
        if outcome == Quiescent {
          ObserveWorkflowFromSteps(wid);
        }
      }
    }

    method RunTask(taskId: string, capability: string, priority: real) returns (r: Result<TaskResult, KernelError>)
      requires AgentsShown() && forall id :: id in roster ==> id in registry
      modifies this, registry.Values
      ensures AgentsShown() && registry == old(registry) && workflows == old(workflows)
      ensures match TaskAgent(cfg, old(View()), capability)
              case Failure(e) => r == Failure(e) && View() == old(View())
              case Success(agentId) =>
                && agentId in old(agents)
                && View() == Maestro.RunTask(cfg, old(View()), agentId, taskId, capability, priority)
                && r == Success(cfg.results(|old(calls)|))
    {
      if !cfg.hasRuntime {
        r := Failure(NoRuntime);
      } else {
        TaskAgentIsEligible(cfg, View(), capability);
        var candidates := RouteCandidates(capability);
        if candidates == [] {
          r := Failure(NoActiveAgent(capability));
        } else {
          var i := |calls|;
          var result := CallRuntime(candidates[0], DirectTask(taskId, capability, priority));
          var telemetry := DirectTelemetry(cfg, i, registry[candidates[0]].failureStreak, priority);
          var d := ObserveRecord(candidates[0], telemetry);
          r := Success(result);
        }
      }
    }
  }

  lemma RunStepKeeps(cfg: Config, k: State, wid: string, sid: string, agentId: string, t: State)
    requires wid in k.workflows && Known(k.workflows[wid], sid) && agentId in k.agents
    requires t == Maestro.RunStep(cfg, k, wid, sid, agentId)
    ensures wid in t.workflows && Known(t.workflows[wid], sid)
  {
    RunStepFrame(cfg, k, wid, sid, agentId);
  }

  /** The state after a step ran and its handoffs were observed. */
  function HandedOver(cfg: Config, k: State, wid: string, sid: string, agentId: string): State
    requires wid in k.workflows && Known(k.workflows[wid], sid) && agentId in k.agents
  {
    Maestro.ObserveStepHandoffs(cfg, Maestro.RunStep(cfg, k, wid, sid, agentId), wid, sid)
  }

  lemma TurnParts(cfg: Config, k: State, wid: string, sid: string, agentId: string)
    requires wid in k.workflows && Known(k.workflows[wid], sid) && agentId in k.agents
    ensures var t := HandedOver(cfg, k, wid, sid, agentId);
            && wid in t.workflows && t.workflows[wid].order == k.workflows[wid].order
            && t.workflows[wid].steps.Keys == k.workflows[wid].steps.Keys
    ensures TurnOn(cfg, k, wid, sid, agentId) == ObserveFromSteps(cfg, HandedOver(cfg, k, wid, sid, agentId), wid)
  {
    RunStepFrame(cfg, k, wid, sid, agentId);
    HandoffFrame(cfg, Maestro.RunStep(cfg, k, wid, sid, agentId), wid, sid);
  }

  /** The loop body as a function. */
  ghost function Round(cfg: Config, k: State, wid: string): Progress
    requires Maestro.Valid(k) && wid in k.workflows
  {
    var w := k.workflows[wid];
    match Maestro.ReadySteps(w.steps, w.order)
    case Failure(e) => Progress(k, Raised(e))
    case Success(ready) =>
      ReadyExactly(w, w.order);
      if ready == [] then Progress(k, Quiescent) else Runs.RunBatch(cfg, k, wid, ready)
  }

  ghost function LoopBudget(p: Policy, k: State, wid: string): nat {
    if Maestro.Valid(k) && wid in k.workflows then WorkflowBudget(p, k.workflows[wid]) else 0
  }

  /** Where the loop that started in `k` stands. */
  ghost predicate LoopPosition(cfg: Config, k: State, wid: string, t: Progress)
    requires Maestro.Valid(k) && wid in k.workflows
  {
    if t.outcome.Continue? then
      Maestro.Valid(t.state) && wid in t.state.workflows && RunSteps(cfg, t.state, wid) == RunSteps(cfg, k, wid)
    else t == RunSteps(cfg, k, wid)
  }

  lemma LoopUnfold(cfg: Config, k: State, wid: string, s: State)
    requires Maestro.Valid(k) && wid in k.workflows && LoopPosition(cfg, k, wid, Progress(s, Continue))
    ensures LoopPosition(cfg, k, wid, Round(cfg, s, wid))
    ensures var t := Round(cfg, s, wid);
            t.outcome.Continue? ==> LoopBudget(cfg.policy, t.state, wid) < LoopBudget(cfg.policy, s, wid)
  {
    var w := s.workflows[wid];
    var ready := Maestro.ReadySteps(w.steps, w.order);
    if ready.Success? && ready.value != [] {
      ReadyExactly(w, w.order);
      BatchProgress(cfg, s, wid, ready.value);
    }
  }

  /** Where the batch that started in `k` stands: running the rest completes it, unless it has already stopped. */
  ghost predicate BatchPosition(cfg: Config, k: State, wid: string, ready: seq<string>, t: Progress, i: nat)
    requires Maestro.Valid(k) && wid in k.workflows && AllKnown(k.workflows[wid], ready) && i <= |ready|
  {
    if t.outcome.Continue? then BatchLeft(cfg, k, wid, ready, t.state, ready[i..])
    else t == Runs.RunBatch(cfg, k, wid, ready)
  }

  /** Running the remaining steps from `s` completes the batch that started in `k`. */
  ghost predicate BatchLeft(cfg: Config, k: State, wid: string, ready: seq<string>, s: State, rest: seq<string>)
    requires Maestro.Valid(k) && wid in k.workflows && AllKnown(k.workflows[wid], ready)
  {
    && Maestro.Valid(s) && wid in s.workflows && AllKnown(s.workflows[wid], rest)
    && Runs.RunBatch(cfg, s, wid, rest) == Runs.RunBatch(cfg, k, wid, ready)
  }

  lemma BatchStarts(cfg: Config, k: State, wid: string, ready: seq<string>)
    requires Maestro.Valid(k) && wid in k.workflows && AllKnown(k.workflows[wid], ready)
    ensures BatchPosition(cfg, k, wid, ready, Progress(k, Continue), 0)
  {
    assert ready[0..] == ready;
  }

  lemma BatchDone(cfg: Config, k: State, wid: string, ready: seq<string>, t: Progress, i: nat)
    requires Maestro.Valid(k) && wid in k.workflows && AllKnown(k.workflows[wid], ready) && i <= |ready|
    requires BatchPosition(cfg, k, wid, ready, t, i) && (i == |ready| || !t.outcome.Continue?)
    ensures t == Runs.RunBatch(cfg, k, wid, ready)
  {
    assert ready[|ready|..] == [];
  }

  lemma BatchUnfold(cfg: Config, k: State, wid: string, ready: seq<string>, s: State, i: nat)
    requires Maestro.Valid(k) && wid in k.workflows && AllKnown(k.workflows[wid], ready)
    requires i < |ready| && BatchLeft(cfg, k, wid, ready, s, ready[i..])
    ensures Known(s.workflows[wid], ready[i])
    ensures BatchPosition(cfg, k, wid, ready, Maestro.Turn(cfg, s, wid, ready[i]), i + 1)
  {
    assert ready[i..][0] == ready[i] && ready[i..][1..] == ready[i + 1..];
    TurnEffect(cfg, s, wid, ready[i]);
    KeptKnown(s, wid, Maestro.Turn(cfg, s, wid, ready[i]).state, ready[i + 1..]);
  }

  /** The state after the runtime has answered and the step has stored the result. */
  function Executed(cfg: Config, k: State, wid: string, sid: string, agentId: string): State
    requires wid in k.workflows && Known(k.workflows[wid], sid)
  {
    var w := k.workflows[wid];
    var s := Stored(Begun(w.steps[sid], agentId), cfg.results(|k.calls|));
    k.(workflows := k.workflows[wid := WithStep(w, sid, s)],
    calls := k.calls + [StepCall(w, sid, agentId)],
    events := k.events + [Event(Some(wid), Delegate, sid)])
  }

  /** The state after the agent, too, was observed. */
  function Answered(cfg: Config, k: State, wid: string, sid: string, agentId: string): State
    requires wid in k.workflows && Known(k.workflows[wid], sid) && agentId in k.agents
  {
    var streak, priority := k.agents[agentId].failureStreak, k.workflows[wid].plan.priority;
    ObserveAgent(
      cfg, Executed(cfg, k, wid, sid, agentId), agentId, ExecutionTelemetry(cfg, |k.calls|, streak, priority))
  }

  /** The step after its attempt is closed: pending again if it failed with attempts left. */
  function ClosedStep(p: Policy, s: Step): Step {
    if s.state.Failed? && s.attempts < Cap(p, s.spec) then s.(state := Pending) else s
  }

  function Closed(p: Policy, k: State, wid: string, sid: string): State
    requires wid in k.workflows && sid in k.workflows[wid].steps
  {
    var w := k.workflows[wid];
    var s := ClosedStep(p, w.steps[sid]);
    k.(workflows := k.workflows[wid := WithStep(w, sid, s)], events := k.events + ClosingEvents(wid, sid, s))
  }

  function Retried(k: State, wid: string, sid: string): State
    requires wid in k.workflows && sid in k.workflows[wid].steps
  {
    var w := k.workflows[wid];
    k.(workflows := k.workflows[wid := WithStep(w, sid, w.steps[sid].(state := Pending))],
    events := k.events + [Event(Some(wid), Retry, sid)])
  }

  lemma ClosedAs(p: Policy, k: State, wid: string, sid: string)
    requires wid in k.workflows && sid in k.workflows[wid].steps
    ensures var s := k.workflows[wid].steps[sid];
            && (s.state.Failed? && s.attempts < Cap(p, s.spec) ==> Closed(p, k, wid, sid) == Retried(k, wid, sid))
            && (s.state.Failed? && s.attempts >= Cap(p, s.spec) ==>
                  Closed(p, k, wid, sid) == k.(events := k.events + [Event(Some(wid), Reroute, sid)]))
            && (s.state.Completed? ==> Closed(p, k, wid, sid) == k)
  {
    var w := k.workflows[wid];
    assert w.steps[sid := w.steps[sid]] == w.steps;
    assert k.workflows[wid := WithStep(w, sid, w.steps[sid])] == k.workflows;
  }

  lemma ClosedIsAfter(p: Policy, s: Step, agentId: string, r: TaskResult)
    ensures ClosedStep(p, Stored(Begun(s, agentId), r)) == StepAfter(p, s, agentId, r)
  {
  }

  /** `Maestro.RunStep` is the execution, the observation of the agent and the closing of the attempt. */
  lemma RunStepParts(cfg: Config, k: State, wid: string, sid: string, agentId: string)
    requires wid in k.workflows && Known(k.workflows[wid], sid) && agentId in k.agents
    ensures var k1 := Answered(cfg, k, wid, sid, agentId);
            && wid in k1.workflows && sid in k1.workflows[wid].steps
            && k1.workflows[wid].steps[sid].state
               == (if cfg.results(|k.calls|).ok then StepState.Completed else StepState.Failed)
            && Maestro.RunStep(cfg, k, wid, sid, agentId) == Closed(cfg.policy, k1, wid, sid)
  {
    var w := k.workflows[wid];
    var s := Stored(Begun(w.steps[sid], agentId), cfg.results(|k.calls|));
    var s' := StepAfter(cfg.policy, w.steps[sid], agentId, cfg.results(|k.calls|));
    ClosedIsAfter(cfg.policy, w.steps[sid], agentId, cfg.results(|k.calls|));
    assert WithStep(WithStep(w, sid, s), sid, s') == WithStep(w, sid, s') by {
      assert w.steps[sid := s][sid := s'] == w.steps[sid := s'];
    }
  }

  function Begun(s: Step, agentId: string): Step {
    s.(assignee := agentId, state := StepState.Running, attempts := s.attempts + 1)
  }

  function Stored(s: Step, r: TaskResult): Step {
    s.(output := r.output, error := r.error, state := if r.ok then StepState.Completed else StepState.Failed)
  }

  /** The envelope handed out for a step that has begun. */
  function TaskOf(w: Workflow, sid: string): Task
    requires Known(w, sid)
  {
    var s := w.steps[sid];
    StepTask(w.plan.id, sid, s.attempts, s.spec.capability, DependencyOutputs(w, sid), w.plan.priority)
  }

  lemma TaskOfBegun(w: Workflow, sid: string, agentId: string)
    requires Known(w, sid)
    ensures var w1 := WithStep(w, sid, Begun(w.steps[sid], agentId));
            Known(w1, sid) && TaskOf(w1, sid) == StepCall(w, sid, agentId).task
  {
    var w1 := WithStep(w, sid, Begun(w.steps[sid], agentId));
    assert DependencyOutputs(w1, sid) == DependencyOutputs(w, sid);
  }

  /** Beginning a step and storing its result is one update of its workflow. */
  lemma StoredOnce(flows: map<string, Workflow>, wid: string, sid: string, agentId: string, r: TaskResult)
    requires wid in flows && sid in flows[wid].steps
    ensures var w := flows[wid];
            var w1 := WithStep(w, sid, Begun(w.steps[sid], agentId));
            flows[wid := w1][wid := WithStep(w1, sid, Stored(w1.steps[sid], r))]
            == flows[wid := WithStep(w, sid, Stored(Begun(w.steps[sid], agentId), r))]
  {
    var w := flows[wid];
    var begun := Begun(w.steps[sid], agentId);
    var w1 := WithStep(w, sid, begun);
    assert w1.steps[sid := Stored(begun, r)] == w.steps[sid := Stored(begun, r)];
  }
}
