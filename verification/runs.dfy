/** Whole runs of a workflow: the batch loop, its measure, and induction over its turns. */
module Runs {
  import opened Common
  import opened Types
  import opened Governor
  import opened Maestro

  // ---------- what one turn changes ----------

  function Assigned(cfg: Config, k: State, wid: string, sid: string): Result<string, KernelError>
    requires Valid(k) && wid in k.workflows && Known(k.workflows[wid], sid)
  {
    AssignAgent(cfg.policy, k, k.workflows[wid].steps[sid].spec)
  }

  /** The step record that a turn leaves behind when no exception is raised. */
  function Ran(cfg: Config, k: State, wid: string, sid: string, agentId: string): Step
    requires wid in k.workflows && Known(k.workflows[wid], sid)
  {
    StepAfter(cfg.policy, k.workflows[wid].steps[sid], agentId, cfg.results(|k.calls|))
  }

  ghost predicate SameSpecs(agents: map<string, Agent>, agents': map<string, Agent>) {
    agents'.Keys == agents.Keys && forall id :: id in agents ==> agents'[id].spec == agents[id].spec
  }

  lemma RunStepFrame(cfg: Config, k: State, wid: string, sid: string, agentId: string)
    requires wid in k.workflows && Known(k.workflows[wid], sid) && agentId in k.agents
    ensures var t := RunStep(cfg, k, wid, sid, agentId);
            && t.workflows == k.workflows[wid := WithStep(k.workflows[wid], sid, Ran(cfg, k, wid, sid, agentId))]
            && t.calls == k.calls + [StepCall(k.workflows[wid], sid, agentId)]
            && t.roster == k.roster
            && SameSpecs(k.agents, t.agents)
  {
  }

  /** `w'` is `w` with the step `sid` replaced and whatever Psi and state an observation gives it. */
  predicate OneStepChanged(w: Workflow, w': Workflow, sid: string, s: Step) {
    w' == w.(steps := w.steps[sid := s], state := w'.state, psi := w'.psi,
    previousPsi := w'.previousPsi, lastCoefficients := w'.lastCoefficients)
  }

  lemma ObserveFromStepsFrame(cfg: Config, k: State, wid: string)
    requires wid in k.workflows
    ensures var t := ObserveFromSteps(cfg, k, wid);
            && t.agents == k.agents && t.roster == k.roster && t.calls == k.calls && t.edges == k.edges
            && wid in t.workflows
            && var w, w' := k.workflows[wid], t.workflows[wid];
            && t.workflows == k.workflows[wid := w']
            && w' == w.(state := w'.state, psi := w'.psi, previousPsi := w'.previousPsi,
                     lastCoefficients := w'.lastCoefficients)
  {
  }

  /** One turn changes one step record and appends one call. */
  ghost predicate Advances(cfg: Config, k: State, wid: string, sid: string, agentId: string, t: State)
    requires wid in k.workflows && Known(k.workflows[wid], sid)
  {
    && agentId in k.agents && wid in t.workflows
    && t.workflows == k.workflows[wid := t.workflows[wid]]
    && OneStepChanged(k.workflows[wid], t.workflows[wid], sid, Ran(cfg, k, wid, sid, agentId))
    && t.calls == k.calls + [StepCall(k.workflows[wid], sid, agentId)]
    && t.roster == k.roster
    && SameSpecs(k.agents, t.agents)
  }

  lemma TurnOnEffect(cfg: Config, k: State, wid: string, sid: string, agentId: string)
    requires wid in k.workflows && Known(k.workflows[wid], sid) && agentId in k.agents
    ensures Advances(cfg, k, wid, sid, agentId, TurnOn(cfg, k, wid, sid, agentId))
  {
    var k1 := RunStep(cfg, k, wid, sid, agentId);
    RunStepFrame(cfg, k, wid, sid, agentId);
    HandoffFrame(cfg, k1, wid, sid);
    var k2 := ObserveStepHandoffs(cfg, k1, wid, sid);
    ObserveFromStepsFrame(cfg, k2, wid);
  }

  /** A raised exception changes nothing; otherwise the step runs on an eligible agent. */
  ghost predicate TurnSpec(cfg: Config, k: State, wid: string, sid: string, t: Progress)
    requires Valid(k) && wid in k.workflows && Known(k.workflows[wid], sid)
  {
    match Assigned(cfg, k, wid, sid)
    case Failure(e) => t == Progress(k, Raised(e))
    case Success(agentId) =>
      && Advances(cfg, k, wid, sid, agentId, t.state)
      && Eligible(k.agents[agentId], k.workflows[wid].steps[sid].spec.capability)
      && t.outcome == if Stops(t.state.workflows[wid].state) then Interrupted else Continue
  }

  lemma TurnEffect(cfg: Config, k: State, wid: string, sid: string)
    requires Valid(k) && wid in k.workflows && Known(k.workflows[wid], sid)
    ensures TurnSpec(cfg, k, wid, sid, Turn(cfg, k, wid, sid))
    ensures Kept(k, wid, Turn(cfg, k, wid, sid).state)
  {
    AssignedIsEligible(cfg.policy, k, k.workflows[wid].steps[sid].spec);
    var a := Assigned(cfg, k, wid, sid);
    if a.Success? {
      TurnOnEffect(cfg, k, wid, sid, a.value);
      AdvancesKeeps(cfg, k, wid, sid, a.value, TurnOn(cfg, k, wid, sid, a.value));
    }
  }

  /** A turn interrupts the run exactly if it leaves the workflow escalated or failed. */
  lemma InterruptsExactly(cfg: Config, k: State, wid: string, sid: string)
    requires Valid(k) && wid in k.workflows && Known(k.workflows[wid], sid)
    ensures var t := Turn(cfg, k, wid, sid);
            && wid in t.state.workflows
            && (t.outcome.Raised? <==> Assigned(cfg, k, wid, sid).Failure?)
            && (t.outcome.Interrupted? <==>
                && !t.outcome.Raised?
                && (t.state.workflows[wid].state.Escalated? || t.state.workflows[wid].state.Failed?))
            && (t.outcome.Continue? <==> !t.outcome.Raised? && !t.outcome.Interrupted?)
  {
    TurnEffect(cfg, k, wid, sid);
  }

  /** What no turn ever changes. */
  ghost predicate Kept(k: State, wid: string, t: State)
    requires wid in k.workflows
  {
    && Valid(t)
    && SameSpecs(k.agents, t.agents)
    && wid in t.workflows
    && SamePlan(k.workflows[wid], t.workflows[wid])
  }

  ghost predicate SamePlan(w: Workflow, w': Workflow) {
    && w'.plan == w.plan && w'.order == w.order && w'.steps.Keys == w.steps.Keys
    && forall id :: id in w.steps ==> w'.steps[id].spec == w.steps[id].spec
  }

  lemma AdvancesKeeps(cfg: Config, k: State, wid: string, sid: string, agentId: string, t: State)
    requires Valid(k) && wid in k.workflows && Known(k.workflows[wid], sid)
    requires Advances(cfg, k, wid, sid, agentId, t)
    ensures Kept(k, wid, t)
  {
  }

  // ---------- the loop ----------

  predicate AllKnown(w: Workflow, ids: seq<string>) {
    forall i :: 0 <= i < |ids| ==> Known(w, ids[i])
  }

  lemma KeptKnown(k: State, wid: string, t: State, ids: seq<string>)
    requires wid in k.workflows && Kept(k, wid, t) && AllKnown(k.workflows[wid], ids)
    ensures AllKnown(t.workflows[wid], ids)
  {
  }

  function RunBatch(cfg: Config, k: State, wid: string, ready: seq<string>): (r: Progress)
    requires Valid(k) && wid in k.workflows && AllKnown(k.workflows[wid], ready)
    decreases |ready|
  {
    if ready == [] then Progress(k, Continue)
    else
      var t := Turn(cfg, k, wid, ready[0]);
      TurnEffect(cfg, k, wid, ready[0]);
      KeptKnown(k, wid, t.state, ready[1..]);
      if t.outcome.Continue? then RunBatch(cfg, t.state, wid, ready[1..]) else t
  }

  /** The attempts a step can still make. */
  function StepBudget(p: Policy, s: Step): nat {
    if !s.state.Pending? then 0
    else if s.attempts + 1 < Cap(p, s.spec) then Cap(p, s.spec) - s.attempts
    else 1
  }

  function Budget(p: Policy, steps: map<string, Step>, order: seq<string>): nat
    requires forall id :: id in order ==> id in steps
  {
    if order == [] then 0 else StepBudget(p, steps[order[0]]) + Budget(p, steps, order[1..])
  }

  function WorkflowBudget(p: Policy, w: Workflow): nat
    requires ValidWorkflow(w)
  {
    Budget(p, w.steps, w.order)
  }

  /** Lowering the budget of one listed step lowers the total by at least as much. */
  lemma {:induction false} BudgetDrops(p: Policy, steps: map<string, Step>, order: seq<string>, sid: string, s: Step)
    requires forall id :: id in order ==> id in steps
    requires sid in steps && StepBudget(p, s) < StepBudget(p, steps[sid])
    ensures Budget(p, steps[sid := s], order) <= Budget(p, steps, order)
    ensures sid in order ==> Budget(p, steps[sid := s], order) < Budget(p, steps, order)
  {
    if order != [] {
      BudgetDrops(p, steps, order[1..], sid, s);
      if order[0] == sid {
      } else {
        assert order == [order[0]] + order[1..];
      }
    }
  }

  /** The ready steps are, in order, the pending ones whose dependencies all exist and are completed. */
  predicate Runnable(w: Workflow, sid: string) {
    && Known(w, sid)
    && w.steps[sid].state.Pending?
    && forall d :: d in w.steps[sid].spec.dependsOn ==> w.steps[d].state.Completed?
  }

  lemma {:induction false} DependenciesMetExactly(steps: map<string, Step>, deps: seq<string>)
    ensures var r := DependenciesMet(steps, deps);
            r == Success(true) <==> forall d :: d in deps ==> d in steps && steps[d].state.Completed?
  {
    if deps != [] {
      DependenciesMetExactly(steps, deps[1..]);
      assert deps == [deps[0]] + deps[1..];
      assert deps[0] in deps;
    }
  }

  ghost predicate ReadyAre(w: Workflow, order: seq<string>, ready: seq<string>) {
    (forall id :: id in ready <==> id in order && Runnable(w, id)) && Distinct(ready)
  }

  lemma ReadyNext(w: Workflow, first: string, rest: seq<string>, ready: seq<string>)
    requires first !in rest && ReadyAre(w, rest, ready)
    ensures ReadyAre(w, [first] + rest, if Runnable(w, first) then [first] + ready else ready)
  {
    assert first !in ready;
  }

  lemma DistinctTail(order: seq<string>)
    requires order != [] && Distinct(order)
    ensures Distinct(order[1..]) && order[0] !in order[1..] && order == [order[0]] + order[1..]
  {
    forall i | 0 <= i < |order[1..]| ensures order[1..][i] != order[0] {
      assert order[1..][i] == order[i + 1];
    }
  }

  lemma {:induction false} ReadyExactly(w: Workflow, order: seq<string>)
    requires (forall id :: id in order ==> id in w.steps) && Distinct(order)
    ensures var r := ReadySteps(w.steps, order); r.Success? ==> ReadyAre(w, order, r.value)
  {
    if order != [] {
      DistinctTail(order);
      ReadyExactly(w, order[1..]);
      DependenciesMetExactly(w.steps, w.steps[order[0]].spec.dependsOn);
      var r := ReadySteps(w.steps, order[1..]);
      if r.Success? {
        ReadyNext(w, order[0], order[1..], r.value);
      }
    }
  }

  // ---------- progress of a turn ----------

  /** Running one runnable step leaves every other runnable step runnable. */
  lemma OthersStayRunnable(w: Workflow, w': Workflow, sid: string, s: Step, id: string)
    requires OneStepChanged(w, w', sid, s)
    requires Runnable(w, sid) && Runnable(w, id) && id != sid
    ensures Runnable(w', id)
  {
  }

  lemma RunDropsBudget(p: Policy, w: Workflow, w': Workflow, sid: string, agentId: string, r: TaskResult)
    requires ValidWorkflow(w) && ValidWorkflow(w') && sid in w.steps && w.steps[sid].state.Pending?
    requires OneStepChanged(w, w', sid, StepAfter(p, w.steps[sid], agentId, r))
    ensures WorkflowBudget(p, w') < WorkflowBudget(p, w)
  {
    BudgetDrops(p, w.steps, w.order, sid, StepAfter(p, w.steps[sid], agentId, r));
  }

  /** A batch of steps that are ready together: distinct and each runnable. */
  ghost predicate ReadyTogether(w: Workflow, ids: seq<string>) {
    Distinct(ids) && forall i :: 0 <= i < |ids| ==> Runnable(w, ids[i])
  }

  ghost predicate BatchAdvanced(p: Policy, w: Workflow, w': Workflow, ready: seq<string>)
    requires ready != []
  {
    && ValidWorkflow(w) && ValidWorkflow(w')
    && ReadyTogether(w', ready[1..])
    && WorkflowBudget(p, w') < WorkflowBudget(p, w)
  }

  lemma RunAdvancesBatch(p: Policy, w: Workflow, w': Workflow, ready: seq<string>, agentId: string, r: TaskResult)
    requires ValidWorkflow(w) && ValidWorkflow(w') && ready != [] && ReadyTogether(w, ready)
    requires OneStepChanged(w, w', ready[0], StepAfter(p, w.steps[ready[0]], agentId, r))
    ensures BatchAdvanced(p, w, w', ready)
  {
    RunDropsBudget(p, w, w', ready[0], agentId, r);
    forall i | 0 <= i < |ready[1..]| ensures Runnable(w', ready[1..][i]) {
      OthersStayRunnable(w, w', ready[0], StepAfter(p, w.steps[ready[0]], agentId, r), ready[i + 1]);
    }
  }

  lemma TurnAdvancesBatch(cfg: Config, k: State, wid: string, ready: seq<string>)
    requires Valid(k) && wid in k.workflows && ready != [] && ReadyTogether(k.workflows[wid], ready)
    ensures var t := Turn(cfg, k, wid, ready[0]);
            && Kept(k, wid, t.state)
            && (t.outcome.Continue? ==>
                  BatchAdvanced(cfg.policy, k.workflows[wid], t.state.workflows[wid], ready))
  {
    TurnEffect(cfg, k, wid, ready[0]);
    var t := Turn(cfg, k, wid, ready[0]);
    var a := Assigned(cfg, k, wid, ready[0]);
    if a.Success? {
      RunAdvancesBatch(cfg.policy, k.workflows[wid], t.state.workflows[wid], ready, a.value, cfg.results(|k.calls|));
    }
  }

  lemma BatchProgress(cfg: Config, k: State, wid: string, ready: seq<string>)
    requires Valid(k) && wid in k.workflows && ReadyTogether(k.workflows[wid], ready)
    ensures var r := RunBatch(cfg, k, wid, ready);
            && Kept(k, wid, r.state) && !r.outcome.Quiescent?
            && (ready != [] && r.outcome.Continue? ==>
                  WorkflowBudget(cfg.policy, r.state.workflows[wid]) < WorkflowBudget(cfg.policy, k.workflows[wid]))
    decreases |ready|
  {
    if ready != [] {
      TurnAdvancesBatch(cfg, k, wid, ready);
      TurnEffect(cfg, k, wid, ready[0]);
      var t := Turn(cfg, k, wid, ready[0]);
      if t.outcome.Continue? {
        BatchProgress(cfg, t.state, wid, ready[1..]);
      }
    }
  }

  /** The `while True` loop up to its break, its return or an exception. */
  function RunSteps(cfg: Config, k: State, wid: string): Progress
    requires Valid(k) && wid in k.workflows
    decreases WorkflowBudget(cfg.policy, k.workflows[wid])
  {
    var w := k.workflows[wid];
    match ReadySteps(w.steps, w.order)
    case Failure(e) => Progress(k, Raised(e))
    case Success(ready) =>
      if ready == [] then Progress(k, Quiescent)
      else
        ReadyExactly(w, w.order);
        BatchProgress(cfg, k, wid, ready);
        var r := RunBatch(cfg, k, wid, ready);
        if r.outcome.Continue? then RunSteps(cfg, r.state, wid) else r
  }

  function Started(k: State, wid: string): State
    requires wid in k.workflows
  {
    k.(workflows := k.workflows[wid := k.workflows[wid].(state := WorkflowState.Running)],
    events := k.events + [Event(Some(wid), Delegate, wid)])
  }

  function RunWorkflow(cfg: Config, k: State, wid: string): Progress
    requires Valid(k)
  {
    if !cfg.hasRuntime then Progress(k, Raised(NoRuntime))
    else if wid !in k.workflows then Progress(k, Raised(UnknownWorkflow(wid)))
    else
      StartedValid(k, wid);
      var r := RunSteps(cfg, Started(k, wid), wid);
      RunInduction(cfg, Started(k, wid), wid, s => true);
      if r.outcome.Quiescent? then Progress(ObserveFromSteps(cfg, r.state, wid), Quiescent) else r
  }

  lemma StartedValid(k: State, wid: string)
    requires Valid(k) && wid in k.workflows
    ensures Kept(k, wid, Started(k, wid))
  {
  }

  // ---------- induction over the turns of a run ----------

  /** The situation in which the loop takes a turn. */
  ghost predicate AtTurn(k: State, wid: string, sid: string) {
    Valid(k) && wid in k.workflows && !Stops(k.workflows[wid].state) && Runnable(k.workflows[wid], sid)
  }

  ghost predicate NoneReady(w: Workflow) {
    ValidWorkflow(w) && ReadySteps(w.steps, w.order) == Success([])
  }

  ghost predicate Inductive(cfg: Config, wid: string, inv: State -> bool) {
    forall k: State, sid: string ::
      AtTurn(k, wid, sid) && inv(k) ==> inv(Turn(cfg, k, wid, sid).state)
  }

  lemma {:induction false} BatchInduction(cfg: Config, k: State, wid: string, ready: seq<string>, inv: State -> bool)
    requires Valid(k) && wid in k.workflows && ReadyTogether(k.workflows[wid], ready)
    requires Inductive(cfg, wid, inv) && inv(k) && !Stops(k.workflows[wid].state)
    ensures var r := RunBatch(cfg, k, wid, ready);
            && inv(r.state) && wid in r.state.workflows
            && (r.outcome.Interrupted? <==> Stops(r.state.workflows[wid].state))
    decreases |ready|
  {
    if ready != [] {
      assert AtTurn(k, wid, ready[0]);
      TurnAdvancesBatch(cfg, k, wid, ready);
      TurnEffect(cfg, k, wid, ready[0]);
      var t := Turn(cfg, k, wid, ready[0]);
      assert inv(t.state);
      if t.outcome.Continue? {
        BatchInduction(cfg, t.state, wid, ready[1..], inv);
      }
    }
  }

  /** How the loop is left: with the invariant, the plan as it was, and for the reason its outcome says. */
  ghost predicate Left(k: State, wid: string, r: Progress, inv: State -> bool)
    requires wid in k.workflows
  {
    && inv(r.state) && Kept(k, wid, r.state)
    && (r.outcome.Interrupted? <==> Stops(r.state.workflows[wid].state))
    && (r.outcome.Quiescent? ==> NoneReady(r.state.workflows[wid]))
    && !r.outcome.Continue?
  }

  lemma LeftLater(k: State, wid: string, s: State, r: Progress, inv: State -> bool)
    requires wid in k.workflows && Kept(k, wid, s) && Left(s, wid, r, inv)
    ensures Left(k, wid, r, inv)
  {
  }

  /** One batch of the loop, and what is left to do after it. */
  lemma {:induction false} RoundInduction(cfg: Config, k: State, wid: string, ready: seq<string>, inv: State -> bool)
    requires Valid(k) && wid in k.workflows && !Stops(k.workflows[wid].state)
    requires Inductive(cfg, wid, inv) && inv(k)
    requires ready != [] && ReadyTogether(k.workflows[wid], ready)
    ensures var r := RunBatch(cfg, k, wid, ready);
            && inv(r.state) && Kept(k, wid, r.state) && !r.outcome.Quiescent?
            && (r.outcome.Interrupted? <==> Stops(r.state.workflows[wid].state))
            && (r.outcome.Continue? ==>
                  WorkflowBudget(cfg.policy, r.state.workflows[wid]) < WorkflowBudget(cfg.policy, k.workflows[wid]))
  {
    BatchProgress(cfg, k, wid, ready);
    BatchInduction(cfg, k, wid, ready, inv);
  }

  /** An invariant of the turns holds wherever the loop is left, and the loop is left as its outcome says. */
  lemma {:induction false} RunInduction(cfg: Config, k: State, wid: string, inv: State -> bool)
    requires Valid(k) && wid in k.workflows && !Stops(k.workflows[wid].state)
    requires Inductive(cfg, wid, inv) && inv(k)
    ensures Left(k, wid, RunSteps(cfg, k, wid), inv)
    decreases WorkflowBudget(cfg.policy, k.workflows[wid])
  {
    var ready := ReadySteps(k.workflows[wid].steps, k.workflows[wid].order);
    if ready.Success? && ready.value != [] {
      ReadyExactly(k.workflows[wid], k.workflows[wid].order);
      RoundInduction(cfg, k, wid, ready.value, inv);
      var r := RunBatch(cfg, k, wid, ready.value);
      if r.outcome.Continue? {
        RunInduction(cfg, r.state, wid, inv);
        LeftLater(k, wid, r.state, RunSteps(cfg, r.state, wid), inv);
      }
    }
  }

  /** The last observation leaves steps, calls, agents and edges as the loop left them. */
  ghost predicate Closes(s: State, t: State, wid: string) {
    && wid in s.workflows && wid in t.workflows
    && t.workflows[wid].steps == s.workflows[wid].steps
    && SamePlan(s.workflows[wid], t.workflows[wid])
    && t.calls == s.calls && t.agents == s.agents && t.roster == s.roster && t.edges == s.edges
  }

  lemma ObservationCloses(cfg: Config, s: State, wid: string)
    requires wid in s.workflows
    ensures Closes(s, ObserveFromSteps(cfg, s, wid), wid)
  {
    ObserveFromStepsFrame(cfg, s, wid);
  }

  lemma {:induction false} RunCloses(cfg: Config, k: State, wid: string)
    requires Valid(k) && wid in k.workflows
    ensures var r := RunWorkflow(cfg, k, wid);
            if cfg.hasRuntime then
              && r.outcome == RunSteps(cfg, Started(k, wid), wid).outcome
              && Closes(RunSteps(cfg, Started(k, wid), wid).state, r.state, wid)
              && !r.outcome.Continue?
              && (r.outcome.Interrupted? ==> Stops(r.state.workflows[wid].state))
            else
              r == Progress(k, Raised(NoRuntime))
  {
    if cfg.hasRuntime {
      StartedValid(k, wid);
      var s := RunSteps(cfg, Started(k, wid), wid);
      RunInduction(cfg, Started(k, wid), wid, x => true);
      ObservationCloses(cfg, s.state, wid);
    }
  }

  lemma ObservationValid(cfg: Config, s: State, wid: string)
    requires Valid(s) && wid in s.workflows
    ensures Valid(ObserveFromSteps(cfg, s, wid))
  {
    ObserveFromStepsFrame(cfg, s, wid);
  }

  lemma {:induction false} LoopValid(cfg: Config, k: State, wid: string)
    requires Valid(k) && wid in k.workflows
    ensures var s := RunSteps(cfg, Started(k, wid), wid).state; Valid(s) && wid in s.workflows
  {
    StartedValid(k, wid);
    RunInduction(cfg, Started(k, wid), wid, x => true);
  }

  lemma FinalValid(cfg: Config, r: Progress, final: Progress, wid: string)
    requires Valid(r.state) && wid in r.state.workflows
    requires final == if r.outcome.Quiescent? then Progress(ObserveFromSteps(cfg, r.state, wid), Quiescent) else r
    ensures Valid(final.state)
  {
    ObservationValid(cfg, r.state, wid);
  }

  lemma {:induction false} RunValid(cfg: Config, k: State, wid: string)
    requires Valid(k)
    ensures Valid(RunWorkflow(cfg, k, wid).state)
  {
    if cfg.hasRuntime && wid in k.workflows {
      LoopValid(cfg, k, wid);
      FinalValid(cfg, RunSteps(cfg, Started(k, wid), wid), RunWorkflow(cfg, k, wid), wid);
    }
  }
}
