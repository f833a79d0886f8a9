/** A workflow created in a reachable state is fresh: nothing in the logs mentions it yet. */
module Freshness {
  import opened Types
  import opened Maestro
  import opened Runs
  import opened Scheduling
  import opened Operations

  predicate KnownEvent(e: Event, workflows: set<string>) {
    e.workflowId.Some? ==> e.workflowId.value in workflows
  }

  predicate KnownCall(c: Call, workflows: set<string>) {
    c.task.StepTask? ==> c.task.workflowId in workflows
  }

  /** Logs mention only workflows that exist. */
  ghost predicate Mentions(k: State) {
    && (forall i :: 0 <= i < |k.events| ==> KnownEvent(k.events[i], k.workflows.Keys))
    && forall i :: 0 <= i < |k.calls| ==> KnownCall(k.calls[i], k.workflows.Keys)
  }

  lemma {:induction false} HandoffsMention(
    cfg: Config, k: State, w: Workflow, deps: seq<string>, target: string, ok: bool)
    requires Mentions(k) && forall d :: d in deps ==> d in w.steps
    ensures Mentions(ObserveDependencies(cfg, k, w, deps, target, ok))
    decreases |deps|
  {
    if deps != [] {
      var source, h := w.steps[deps[0]].assignee, StepHandoffTelemetry(ok, w.plan.priority);
      var k1 := if source == "" then k else ObserveHandoff(cfg, k, source, target, h);
      HandoffsMention(cfg, k1, w, deps[1..], target, ok);
    }
  }

  lemma ObservationMentions(cfg: Config, k: State, wid: string)
    requires Mentions(k) && wid in k.workflows
    ensures Mentions(ObserveFromSteps(cfg, k, wid))
  {
    var t := ObserveFromSteps(cfg, k, wid);
    assert t.workflows.Keys == k.workflows.Keys;
  }

  lemma RunStepMentions(cfg: Config, k: State, wid: string, sid: string, agentId: string)
    requires Mentions(k) && wid in k.workflows && k.workflows[wid].plan.id == wid
    requires Known(k.workflows[wid], sid) && agentId in k.agents
    ensures Mentions(RunStep(cfg, k, wid, sid, agentId))
  {
    var t := RunStep(cfg, k, wid, sid, agentId);
    RunStepFrame(cfg, k, wid, sid, agentId);
    assert t.workflows.Keys == k.workflows.Keys;
    forall i | 0 <= i < |t.events| ensures KnownEvent(t.events[i], t.workflows.Keys) {
      if i < |k.events| {
        assert t.events[i] == k.events[i];
      }
    }
  }

  lemma TurnMentions(cfg: Config, k: State, wid: string, sid: string, agentId: string)
    requires AtTurn(k, wid, sid) && agentId in k.agents && Mentions(k)
    ensures Mentions(TurnOn(cfg, k, wid, sid, agentId))
  {
    var k1 := RunStep(cfg, k, wid, sid, agentId);
    RunStepMentions(cfg, k, wid, sid, agentId);
    RunStepFrame(cfg, k, wid, sid, agentId);
    HandoffFrame(cfg, k1, wid, sid);
    var w1 := k1.workflows[wid];
    var s1 := w1.steps[sid];
    HandoffsMention(cfg, k1, w1, s1.spec.dependsOn, s1.assignee, s1.state.Completed?);
    ObservationMentions(cfg, ObserveStepHandoffs(cfg, k1, wid, sid), wid);
  }

  lemma RunMentions(cfg: Config, k: State, wid: string)
    requires Valid(k) && Mentions(k)
    ensures Mentions(RunWorkflow(cfg, k, wid).state)
  {
    if cfg.hasRuntime && wid in k.workflows {
      StartedValid(k, wid);
      assert Started(k, wid).workflows.Keys == k.workflows.Keys;
      var inv := (s: State) => Mentions(s);
      forall s: State, sid: string | AtTurn(s, wid, sid) && inv(s)
        ensures inv(Turn(cfg, s, wid, sid).state)
      {
        TurnEffect(cfg, s, wid, sid);
        var a := Assigned(cfg, s, wid, sid);
        if a.Success? {
          TurnMentions(cfg, s, wid, sid, a.value);
        }
      }
      RunInduction(cfg, Started(k, wid), wid, inv);
      ObservationMentions(cfg, RunSteps(cfg, Started(k, wid), wid).state, wid);
    }
  }

  lemma ApplyMentions(cfg: Config, k: State, op: Op)
    requires Valid(k) && Mentions(k)
    ensures Mentions(Apply(cfg, k, op))
  {
    var t := Apply(cfg, k, op);
    match op
    case AddAgent(spec, initial) =>
    case AgentMetrics(id, m) =>
    case DoTask(taskId, capability, priority) => TaskAgentIsEligible(cfg, k, capability);
    case HandoffMetrics(source, target, h) =>
    case NewPlan(plan) => assert k.workflows.Keys <= t.workflows.Keys;
    case PlanMetrics(wid, m) => assert t.workflows.Keys == k.workflows.Keys;
    case RunPlan(wid) => RunMentions(cfg, k, wid);
    case Intervention(wid, action, subject) => assert t.workflows.Keys == k.workflows.Keys;
  }

  lemma {:induction false} LogsMentionKnownWorkflows(cfg: Config, ops: seq<Op>)
    ensures Mentions(Reached(cfg, ops))
    decreases |ops|
  {
    if ops != [] {
      LogsMentionKnownWorkflows(cfg, ops[..|ops| - 1]);
      ApplyMentions(cfg, Reached(cfg, ops[..|ops| - 1]), ops[|ops| - 1]);
    }
  }

  lemma CreatedIsFresh(k: State, plan: Plan)
    requires Valid(k) && Mentions(k) && plan.id !in k.workflows
    ensures Fresh(CreateWorkflow(k, plan), plan.id)
  {
    CreateWorkflowValid(k, plan);
    NewWorkflowListed(plan);
    var t := CreateWorkflow(k, plan);
    forall i | 0 <= i < |t.calls| ensures !IsCallFor(t.calls[i], plan.id) {
      assert KnownCall(k.calls[i], k.workflows.Keys);
    }
  }

  /** Creating a workflow in any reachable state starts it fresh, so the theorems about fresh runs apply to it. */
  lemma CreationIsFresh(cfg: Config, k: State, plan: Plan)
    requires Reachable(cfg, k) && plan.id !in k.workflows
    ensures Fresh(CreateWorkflow(k, plan), plan.id)
  {
    var ops :| Reached(cfg, ops) == k;
    LogsMentionKnownWorkflows(cfg, ops);
    CreatedIsFresh(k, plan);
  }
}
