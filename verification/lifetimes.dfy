/** What holds of every workflow in every reachable state, through any number of runs and other operations. */
module Lifetimes {
  import opened Types
  import opened Maestro
  import opened Runs
  import opened Dependencies
  import opened Scheduling
  import opened Operations
  import opened Freshness

  // ---------- one operation ----------

  lemma AdvanceBypasses(cfg: Config, k: State, other: string, sid: string, agentId: string, t: State, wid: string)
    requires other in k.workflows && Known(k.workflows[other], sid) && k.workflows[other].plan.id == other
    requires Advances(cfg, k, other, sid, agentId, t) && wid in k.workflows
    ensures wid != other ==> Bypasses(k, t, wid)
    ensures t.workflows.Keys == k.workflows.Keys
  {
    assert t.calls[|k.calls|] == StepCall(k.workflows[other], sid, agentId);
  }

  lemma TurnBypasses(cfg: Config, k: State, other: string, sid: string, wid: string)
    requires AtTurn(k, other, sid) && wid in k.workflows
    ensures var t := Turn(cfg, k, other, sid).state;
            t.workflows.Keys == k.workflows.Keys && (wid != other ==> Bypasses(k, t, wid))
  {
    TurnEffect(cfg, k, other, sid);
    var a := Assigned(cfg, k, other, sid);
    if a.Success? {
      AdvanceBypasses(cfg, k, other, sid, a.value, Turn(cfg, k, other, sid).state, wid);
    }
  }

  lemma RunAddsNoWorkflow(cfg: Config, k: State, wid: string)
    requires Valid(k) && wid in k.workflows
    ensures RunWorkflow(cfg, k, wid).state.workflows.Keys == k.workflows.Keys
  {
    if cfg.hasRuntime {
      StartedValid(k, wid);
      assert Started(k, wid).workflows.Keys == k.workflows.Keys;
      var inv := (s: State) => s.workflows.Keys == k.workflows.Keys;
      forall s: State, sid: string | AtTurn(s, wid, sid) && inv(s)
        ensures inv(Turn(cfg, s, wid, sid).state)
      {
        TurnBypasses(cfg, s, wid, sid, wid);
      }
      RunInduction(cfg, Started(k, wid), wid, inv);
      ObserveFromStepsFrame(cfg, RunSteps(cfg, Started(k, wid), wid).state, wid);
    }
  }

  lemma ObservationBypasses(cfg: Config, s: State, other: string, wid: string)
    requires other in s.workflows && wid in s.workflows
    ensures Bypasses(s, ObserveFromSteps(cfg, s, other), wid)
  {
  }

  lemma StartBypasses(k: State, other: string, wid: string)
    requires other in k.workflows && wid in k.workflows
    ensures Bypasses(k, Started(k, other), wid)
  {
  }

  /** The run of one workflow passes every other one by. */
  lemma RunBypasses(cfg: Config, k: State, other: string, wid: string)
    requires Valid(k) && wid in k.workflows && wid != other
    ensures Bypasses(k, RunWorkflow(cfg, k, other).state, wid)
  {
    if cfg.hasRuntime && other in k.workflows {
      StartedValid(k, other);
      StartBypasses(k, other, wid);
      var inv := (s: State) => Bypasses(k, s, wid);
      forall s: State, sid: string | AtTurn(s, other, sid) && inv(s)
        ensures inv(Turn(cfg, s, other, sid).state)
      {
        TurnBypasses(cfg, s, other, sid, wid);
        BypassesThrough(k, s, Turn(cfg, s, other, sid).state, wid);
      }
      RunInduction(cfg, Started(k, other), other, inv);
      var s := RunSteps(cfg, Started(k, other), other).state;
      ObservationBypasses(cfg, s, other, wid);
      BypassesThrough(k, s, ObserveFromSteps(cfg, s, other), wid);
    }
  }

  lemma QuietBypasses(k: State, t: State, wid: string)
    requires wid in k.workflows && wid in t.workflows && SameRecords(k.workflows[wid], t.workflows[wid])
    requires t.calls == k.calls
    ensures Bypasses(k, t, wid)
  {
  }

  lemma UpdateBypasses(k: State, t: State, wid: string, other: string)
    requires wid in k.workflows && other in t.workflows && t.calls == k.calls
    requires t.workflows == k.workflows[other := t.workflows[other]]
    requires other == wid ==> SameRecords(k.workflows[wid], t.workflows[wid])
    ensures Bypasses(k, t, wid)
  {
  }

  lemma TaskBypasses(cfg: Config, k: State, op: Op, wid: string)
    requires Valid(k) && wid in k.workflows && op.DoTask?
    ensures Bypasses(k, Apply(cfg, k, op), wid)
  {
    TaskAgentIsEligible(cfg, k, op.capability);
  }

  lemma PlanBypasses(cfg: Config, k: State, op: Op, wid: string)
    requires Valid(k) && wid in k.workflows && (op.NewPlan? || op.PlanMetrics? || op.Intervention?)
    ensures Bypasses(k, Apply(cfg, k, op), wid)
  {
    match op
    case NewPlan(plan) =>
      if plan.id !in k.workflows {
        UpdateBypasses(k, CreateWorkflow(k, plan), wid, plan.id);
      } else {
        QuietBypasses(k, k, wid);
      }
    case PlanMetrics(other, t) =>
      if other in k.workflows {
        UpdateBypasses(k, ObserveWorkflow(cfg, k, other, t), wid, other);
      } else {
        QuietBypasses(k, k, wid);
      }
    case Intervention(other, action, subject) =>
      if other in k.workflows {
        UpdateBypasses(k, Intervene(k, other, action, subject), wid, other);
      } else {
        QuietBypasses(k, k, wid);
      }
  }

  lemma AgentBypasses(cfg: Config, k: State, op: Op, wid: string)
    requires Valid(k) && wid in k.workflows && (op.AddAgent? || op.AgentMetrics? || op.HandoffMetrics?)
    ensures Bypasses(k, Apply(cfg, k, op), wid)
  {
    QuietBypasses(k, Apply(cfg, k, op), wid);
  }

  /** Only its own run touches the steps of a workflow or calls for it. */
  lemma OperationBypasses(cfg: Config, k: State, op: Op, wid: string)
    requires Valid(k) && wid in k.workflows && op != RunPlan(wid)
    ensures Bypasses(k, Apply(cfg, k, op), wid)
  {
    if op.RunPlan? {
      RunBypasses(cfg, k, op.wid, wid);
    } else if op.DoTask? {
      TaskBypasses(cfg, k, op, wid);
    } else if op.AddAgent? || op.AgentMetrics? || op.HandoffMetrics? {
      AgentBypasses(cfg, k, op, wid);
    } else {
      PlanBypasses(cfg, k, op, wid);
    }
  }

  lemma AddsAtMostThePlan(cfg: Config, k: State, op: Op, wid: string)
    requires Valid(k) && wid !in k.workflows && wid in Apply(cfg, k, op).workflows
    ensures op.NewPlan? && op.plan.id == wid
  {
    match op
    case AddAgent(spec, initial) =>
    case AgentMetrics(id, m) =>
    case DoTask(taskId, capability, priority) => TaskAgentIsEligible(cfg, k, capability);
    case HandoffMetrics(source, target, h) =>
    case NewPlan(plan) =>
    case PlanMetrics(id, m) =>
    case RunPlan(other) =>
      if other in k.workflows {
        RunAddsNoWorkflow(cfg, k, other);
      }
    case Intervention(id, action, subject) =>
  }

  // ---------- every reachable state ----------

  ghost predicate AllLive(cfg: Config, k: State) {
    forall wid :: wid in k.workflows ==> Lives(cfg, k, wid)
  }

  lemma ApplyLives(cfg: Config, k: State, op: Op, wid: string)
    requires Valid(k) && Mentions(k) && AllLive(cfg, k) && wid in Apply(cfg, k, op).workflows
    ensures Lives(cfg, Apply(cfg, k, op), wid)
  {
    if wid !in k.workflows {
      AddsAtMostThePlan(cfg, k, op, wid);
      CreatedIsFresh(k, op.plan);
      FreshLives(cfg, CreateWorkflow(k, op.plan), wid);
    } else if op == RunPlan(wid) {
      RunLives(cfg, k, wid);
    } else {
      OperationBypasses(cfg, k, op, wid);
      BypassedLives(cfg, k, Apply(cfg, k, op), wid);
    }
  }

  lemma {:induction false} ReachedLive(cfg: Config, ops: seq<Op>)
    ensures AllLive(cfg, Reached(cfg, ops))
    decreases |ops|
  {
    if ops != [] {
      var k := Reached(cfg, ops[..|ops| - 1]);
      ReachedLive(cfg, ops[..|ops| - 1]);
      LogsMentionKnownWorkflows(cfg, ops[..|ops| - 1]);
      forall wid | wid in Reached(cfg, ops).workflows ensures Lives(cfg, Reached(cfg, ops), wid) {
        ApplyLives(cfg, k, ops[|ops| - 1], wid);
      }
    }
  }

  lemma ReachableLives(cfg: Config, k: State, wid: string)
    requires Reachable(cfg, k) && wid in k.workflows
    ensures Valid(k) && Lives(cfg, k, wid)
  {
    var ops :| Reached(cfg, ops) == k;
    ReachedLive(cfg, ops);
  }

  // ---------- main results ----------

  /**
    A second attempt is within both limits, the step's own and the policy's; a step fails only when another attempt
    would exceed one of them, and is completed by an attempt.
   */
  predicate Tried(p: Policy, s: Step) {
    && (s.attempts > 1 ==> s.attempts <= s.spec.maxRetries && s.attempts <= p.maxStepAttempts)
    && (s.state.Failed? ==> s.attempts > 0 && (s.attempts >= s.spec.maxRetries || s.attempts >= p.maxStepAttempts))
    && (s.state.Pending? && s.attempts > 0 ==> s.attempts < s.spec.maxRetries && s.attempts < p.maxStepAttempts)
    && (s.state.Completed? ==> s.attempts > 0)
    && (s.state.Pending? || s.state.Completed? || s.state.Failed?)
  }

  /**
    Over the whole life of a workflow, whatever its plan and the results: the attempts of a step are the calls made
    for it and never exceed its limits, and the calls for the workflow never exceed all the bounds together.
   */
  lemma AttemptsAreBounded(cfg: Config, k: State, wid: string)
    requires Reachable(cfg, k) && wid in k.workflows
    ensures var w := k.workflows[wid];
            && ValidWorkflow(w)
            && (forall id :: id in w.steps ==>
                               && w.steps[id].attempts == CallsOf(k.calls, wid, id)
                               && Tried(cfg.policy, w.steps[id]))
            && CallsFor(k.calls, wid) <= BoundSum(cfg.policy, w.steps, w.order)
  {
    ReachableLives(cfg, k, wid);
    LifeIsBounded(cfg, k, wid);
  }

  /** Every run, first or later, ends within the attempts that the steps of its workflow have left. */
  lemma RunIsBounded(cfg: Config, k: State, wid: string)
    requires Reachable(cfg, k) && wid in k.workflows
    ensures var t := RunWorkflow(cfg, k, wid).state;
            && ValidWorkflow(k.workflows[wid])
            && wid in t.workflows && SamePlan(k.workflows[wid], t.workflows[wid])
            && |t.calls| <= |k.calls| + WorkflowBudget(cfg.policy, k.workflows[wid])
  {
    ReachableLives(cfg, k, wid);
    RunLives(cfg, k, wid);
  }

  /** Every runtime call for a step was handed the final outputs of dependencies completed by earlier calls. */
  lemma EveryCallIsFed(cfg: Config, k: State, wid: string)
    requires Reachable(cfg, k) && wid in k.workflows
    ensures AllFed(cfg, k, wid)
  {
    ReachableLives(cfg, k, wid);
  }

  /**
    When the loop of any run breaks, every step is completed, or failed with its attempts exhausted, or was never
    attempted and depends on a failed step or is on or behind a cycle.
   */
  lemma QuiescentSettles(cfg: Config, k: State, wid: string)
    requires Reachable(cfg, k) && wid in k.workflows
    ensures var r := RunWorkflow(cfg, k, wid);
            r.outcome.Quiescent? ==> wid in r.state.workflows && Settled(cfg.policy, r.state.workflows[wid].steps)
  {
    ReachableLives(cfg, k, wid);
    RunLives(cfg, k, wid);
  }

  /** No step on or behind a dependency cycle was ever handed to the runtime. */
  lemma CycleNeverRuns(cfg: Config, k: State, wid: string, id: string, i: nat)
    requires Reachable(cfg, k) && wid in k.workflows && OnOrBehindCycle(k.workflows[wid].steps, id)
    requires i < |k.calls|
    ensures !IsCallOf(k.calls[i], wid, id)
  {
    ReachableLives(cfg, k, wid);
    CycleNeverCalled(cfg, k, wid, id, i);
  }

  /** What an attempt writes into the record of its step. */
  lemma AttemptRecord(cfg: Config, k: State, wid: string, sid: string, agentId: string)
    requires AtTurn(k, wid, sid) && agentId in k.agents
    ensures var t, r := TurnOn(cfg, k, wid, sid, agentId), cfg.results(|k.calls|);
            && wid in t.workflows && sid in t.workflows[wid].steps
            && var s, s' := k.workflows[wid].steps[sid], t.workflows[wid].steps[sid];
            && s'.spec == s.spec && s'.assignee == agentId && s'.attempts == s.attempts + 1
            && s'.output == r.output && s'.error == r.error
            && (s'.state.Completed? <==> r.ok)
            && (s'.state.Pending? <==>
                !r.ok && s.attempts + 1 < s.spec.maxRetries && s.attempts + 1 < cfg.policy.maxStepAttempts)
            && (s'.state.Failed? <==> !s'.state.Completed? && !s'.state.Pending?)
            && |t.calls| == |k.calls| + 1 && t.calls[|k.calls|].agentId == agentId
  {
    TurnOnEffect(cfg, k, wid, sid, agentId);
  }
}
