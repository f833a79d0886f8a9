/** The exceptions a run can raise, and what each of them tells about the kernel. */
module Exceptions {
  import opened Types
  import opened Maestro
  import opened Runs

  ghost predicate ListsAbsent(w: Workflow, d: string) {
    exists id :: id in w.steps && d in w.steps[id].spec.dependsOn && d !in w.steps
  }

  ghost predicate PrefersUnknown(k: State, w: Workflow, agentId: string) {
    exists id :: id in w.steps && agentId != "" && w.steps[id].spec.preferredAgentId == agentId && agentId !in k.agents
  }

  /** A step could run now, but no registered agent is active and has its capability. */
  ghost predicate Starved(k: State, w: Workflow, capability: string) {
    && (exists id :: Runnable(w, id) && w.steps[id].spec.capability == capability)
    && forall id :: id in k.agents ==> !Eligible(k.agents[id], capability)
  }

  /** Why the loop of a run stopped in `k` with an exception. */
  ghost predicate Reason(k: State, wid: string, e: KernelError)
    requires wid in k.workflows
  {
    match e
    case UnknownDependency(d) => ListsAbsent(k.workflows[wid], d)
    case UnknownAgent(agentId) => PrefersUnknown(k, k.workflows[wid], agentId)
    case NoActiveAgent(capability) => Starved(k, k.workflows[wid], capability)
    case _ => false
  }

  lemma {:induction false} DependencyFailure(steps: map<string, Step>, deps: seq<string>)
    ensures var r := DependenciesMet(steps, deps);
            r.Failure? ==> r.error.UnknownDependency? && r.error.stepId in deps && r.error.stepId !in steps
  {
    if deps != [] {
      DependencyFailure(steps, deps[1..]);
      assert deps[0] in deps;
    }
  }

  lemma {:induction false} ReadyFailure(w: Workflow, order: seq<string>)
    requires forall id :: id in order ==> id in w.steps
    ensures var r := ReadySteps(w.steps, order);
            r.Failure? ==> r.error.UnknownDependency? && ListsAbsent(w, r.error.stepId)
  {
    if order != [] {
      DependencyFailure(w.steps, w.steps[order[0]].spec.dependsOn);
      ReadyFailure(w, order[1..]);
    }
  }

  lemma AssignmentFailure(p: Policy, k: State, w: Workflow, sid: string)
    requires Valid(k) && Runnable(w, sid)
    ensures var r := AssignAgent(p, k, w.steps[sid].spec);
            r.Failure? ==>
              || (r.error.UnknownAgent? && PrefersUnknown(k, w, r.error.agentId))
              || (r.error.NoActiveAgent? && Starved(k, w, r.error.capability))
  {
    var spec := w.steps[sid].spec;
    var r := AssignAgent(p, k, spec);
    if r.Failure? && r.error.NoActiveAgent? {
      var ids := EligibleIds(k.agents, k.roster, spec.capability);
      assert multiset(RouteCandidates(p, k.agents, k.roster, spec.capability)) == multiset(ids);
      assert |multiset(ids)| == 0;
      EligibleIdsKnown(k.agents, k.roster, spec.capability);
      assert ids == [];
    }
  }

  ghost predicate Explained(r: Progress, wid: string) {
    r.outcome.Raised? ==> wid in r.state.workflows && Reason(r.state, wid, r.outcome.error)
  }

  lemma TurnRaises(cfg: Config, k: State, wid: string, sid: string)
    requires Valid(k) && wid in k.workflows && Runnable(k.workflows[wid], sid)
    ensures Explained(Turn(cfg, k, wid, sid), wid)
  {
    TurnEffect(cfg, k, wid, sid);
    AssignmentFailure(cfg.policy, k, k.workflows[wid], sid);
  }

  lemma {:induction false} BatchRaises(cfg: Config, k: State, wid: string, ready: seq<string>)
    requires Valid(k) && wid in k.workflows && ReadyTogether(k.workflows[wid], ready)
    ensures Explained(RunBatch(cfg, k, wid, ready), wid)
    decreases |ready|
  {
    if ready != [] {
      TurnRaises(cfg, k, wid, ready[0]);
      TurnAdvancesBatch(cfg, k, wid, ready);
      var t := Turn(cfg, k, wid, ready[0]);
      if t.outcome.Continue? {
        BatchRaises(cfg, t.state, wid, ready[1..]);
      }
    }
  }

  lemma {:induction false} LoopRaises(cfg: Config, k: State, wid: string)
    requires Valid(k) && wid in k.workflows
    ensures Explained(RunSteps(cfg, k, wid), wid)
    decreases WorkflowBudget(cfg.policy, k.workflows[wid])
  {
    var w := k.workflows[wid];
    var ready := ReadySteps(w.steps, w.order);
    ReadyFailure(w, w.order);
    if ready.Success? && ready.value != [] {
      ReadyExactly(w, w.order);
      BatchProgress(cfg, k, wid, ready.value);
      BatchRaises(cfg, k, wid, ready.value);
      var r := RunBatch(cfg, k, wid, ready.value);
      if r.outcome.Continue? {
        LoopRaises(cfg, r.state, wid);
      }
    }
  }

  /** What an exception means, in terms of the kernel before the run where that is possible. */
  ghost predicate RaisedFor(cfg: Config, k: State, wid: string, t: State, e: KernelError) {
    match e
    case NoRuntime => !cfg.hasRuntime
    case UnknownWorkflow(id) => cfg.hasRuntime && id == wid && wid !in k.workflows
    case UnknownDependency(d) => wid in k.workflows && ListsAbsent(k.workflows[wid], d)
    case UnknownAgent(agentId) => wid in k.workflows && PrefersUnknown(k, k.workflows[wid], agentId)
    case NoActiveAgent(capability) => wid in t.workflows && Starved(t, t.workflows[wid], capability)
    case _ => false
  }

  lemma ReasonBefore(cfg: Config, k: State, wid: string, t: State, e: KernelError)
    requires wid in k.workflows && Kept(k, wid, t) && Reason(t, wid, e)
    ensures RaisedFor(cfg, k, wid, t, e)
  {
    match e
    case UnknownDependency(d) =>
      var steps := t.workflows[wid].steps;
      var id :| id in steps && d in steps[id].spec.dependsOn && d !in steps;
      assert id in k.workflows[wid].steps && d in k.workflows[wid].steps[id].spec.dependsOn;
    case UnknownAgent(agentId) =>
      var steps := t.workflows[wid].steps;
      var id :| id in steps && agentId != "" && steps[id].spec.preferredAgentId == agentId;
      assert id in k.workflows[wid].steps && k.workflows[wid].steps[id].spec.preferredAgentId == agentId;
    case NoActiveAgent(capability) =>
  }

  /**
    A run raises an exception only for want of a runtime, of the workflow, of a step that some step depends on, of an
    agent that some step prefers, or of any active capable agent for a step that could run.
   */
  lemma RunRaisesOnlyFor(cfg: Config, k: State, wid: string)
    requires Valid(k)
    ensures var r := RunWorkflow(cfg, k, wid);
            r.outcome.Raised? ==> RaisedFor(cfg, k, wid, r.state, r.outcome.error)
  {
    if cfg.hasRuntime && wid in k.workflows {
      StartedValid(k, wid);
      LoopRaises(cfg, Started(k, wid), wid);
      var r := RunSteps(cfg, Started(k, wid), wid);
      RunInduction(cfg, Started(k, wid), wid, x => true);
      if r.outcome.Raised? {
        ReasonBefore(cfg, Started(k, wid), wid, r.state, r.outcome.error);
        StartedReasons(cfg, k, wid, r.state, r.outcome.error);
      }
    }
  }

  lemma StartedReasons(cfg: Config, k: State, wid: string, t: State, e: KernelError)
    requires wid in k.workflows && RaisedFor(cfg, Started(k, wid), wid, t, e)
    ensures RaisedFor(cfg, k, wid, t, e)
  {
  }

  /** What a caller can check of a plan before a run: its dependencies exist and its preferred agents are registered. */
  ghost predicate Resolved(k: State, w: Workflow) {
    forall id :: id in w.steps ==>
                   && Known(w, id)
                   && (w.steps[id].spec.preferredAgentId == "" || w.steps[id].spec.preferredAgentId in k.agents)
  }

  /** The run of a resolved plan can raise an exception only for want of an active capable agent. */
  lemma ResolvedRaisesOnlyForAgents(cfg: Config, k: State, wid: string)
    requires Valid(k) && cfg.hasRuntime && wid in k.workflows && Resolved(k, k.workflows[wid])
    ensures var r := RunWorkflow(cfg, k, wid);
            r.outcome.Raised? ==>
              && r.outcome.error.NoActiveAgent? && wid in r.state.workflows
              && Starved(r.state, r.state.workflows[wid], r.outcome.error.capability)
  {
    RunRaisesOnlyFor(cfg, k, wid);
  }
}
