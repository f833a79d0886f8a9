/** What a run achieves when each of its own runtime calls succeeds. */
module Completion {
  import opened Types
  import opened Maestro
  import opened Runs
  import opened Dependencies
  import opened Scheduling
  import opened Operations
  import opened Lifetimes
  import opened Escalation
  import opened Exceptions
  import Verdicts

  /** Every call that `t` has beyond those of `k` succeeded. */
  ghost predicate CallsSucceed(cfg: Config, k: State, t: State) {
    forall i: nat :: |k.calls| <= i < |t.calls| ==> cfg.results(i).ok
  }

  /** A step is as it was, or it was pending and is now completed. */
  ghost predicate OnlyCompletes(before: map<string, Step>, after: map<string, Step>) {
    && after.Keys == before.Keys
    && forall id :: id in before ==>
                      || after[id] == before[id]
                      || (before[id].state.Pending? && after[id].state.Completed?)
  }

  /** The invariant of a run that started in `k`: as long as its calls succeed, it only completes steps. */
  ghost predicate Flawless(cfg: Config, k: State, s: State, wid: string) {
    && wid in k.workflows && wid in s.workflows && |k.calls| <= |s.calls|
    && (CallsSucceed(cfg, k, s) ==> OnlyCompletes(k.workflows[wid].steps, s.workflows[wid].steps))
  }

  lemma FlawlessStep(cfg: Config, k: State, s: State, wid: string, sid: string, agentId: string, t: State)
    requires Flawless(cfg, k, s, wid) && AtTurn(s, wid, sid) && Advances(cfg, s, wid, sid, agentId, t)
    ensures Flawless(cfg, k, t, wid)
  {
    if CallsSucceed(cfg, k, t) {
      assert CallsSucceed(cfg, k, s);
      assert cfg.results(|s.calls|).ok;
    }
  }

  lemma LoopFlawless(cfg: Config, k: State, wid: string)
    requires Valid(k) && wid in k.workflows
    ensures Flawless(cfg, k, RunSteps(cfg, Started(k, wid), wid).state, wid)
  {
    StartedValid(k, wid);
    var inv := (s: State) => Flawless(cfg, k, s, wid);
    forall s: State, sid: string | AtTurn(s, wid, sid) && inv(s)
      ensures inv(Turn(cfg, s, wid, sid).state)
    {
      TurnEffect(cfg, s, wid, sid);
      var a := Assigned(cfg, s, wid, sid);
      if a.Success? {
        FlawlessStep(cfg, k, s, wid, sid, a.value, Turn(cfg, s, wid, sid).state);
      }
    }
    RunInduction(cfg, Started(k, wid), wid, inv);
  }

  lemma FlawlessCloses(cfg: Config, k: State, s: State, t: State, wid: string)
    requires Flawless(cfg, k, s, wid) && Closes(s, t, wid)
    ensures Flawless(cfg, k, t, wid)
  {
  }

  lemma RunFlawless(cfg: Config, k: State, wid: string)
    requires Valid(k) && wid in k.workflows
    ensures Flawless(cfg, k, RunWorkflow(cfg, k, wid).state, wid)
  {
    RunCloses(cfg, k, wid);
    if cfg.hasRuntime {
      StartedValid(k, wid);
      LoopFlawless(cfg, k, wid);
      FlawlessCloses(cfg, k, RunSteps(cfg, Started(k, wid), wid).state, RunWorkflow(cfg, k, wid).state, wid);
    }
  }

  // ---------- which steps can be completed ----------

  /** A completed step has only completed dependencies: one of its calls was fed by them. */
  lemma CompletedDependencies(cfg: Config, k: State, wid: string, id: string)
    requires Lives(cfg, k, wid) && id in k.workflows[wid].steps && k.workflows[wid].steps[id].state.Completed?
    ensures !Waits(k.workflows[wid].steps, id)
  {
    if CallsOf(k.calls, wid, id) > 0 {
      var i := SomeCall(k.calls, wid, id);
      FedNeverWaits(cfg, k, wid, i, id);
    }
  }

  lemma {:induction false} CompletedWalk(cfg: Config, k: State, wid: string, p: seq<string>)
    requires Lives(cfg, k, wid) && Walk(k.workflows[wid].steps, p) && k.workflows[wid].steps[p[0]].state.Completed?
    ensures k.workflows[wid].steps[p[|p| - 1]].state.Completed?
  {
    if |p| > 1 {
      var q := p[..|p| - 1];
      assert Walk(k.workflows[wid].steps, q);
      CompletedWalk(cfg, k, wid, q);
      CompletedDependencies(cfg, k, wid, q[|q| - 1]);
      assert p[|p| - 1] in k.workflows[wid].steps[q[|q| - 1]].spec.dependsOn;
    }
  }

  /** No completed step leads to a failed one, or lies on or behind a cycle. */
  lemma CompletedIsFree(cfg: Config, k: State, wid: string, id: string)
    requires Lives(cfg, k, wid) && id in k.workflows[wid].steps && k.workflows[wid].steps[id].state.Completed?
    ensures !DependsOnFailed(k.workflows[wid].steps, id) && !OnOrBehindCycle(k.workflows[wid].steps, id)
  {
    var steps := k.workflows[wid].steps;
    if DependsOnFailed(steps, id) {
      var p :| Walk(steps, p) && |p| > 1 && p[0] == id && steps[p[|p| - 1]].state.Failed?;
      CompletedWalk(cfg, k, wid, p);
    }
    if OnOrBehindCycle(steps, id) && CallsOf(k.calls, wid, id) > 0 {
      var i := SomeCall(k.calls, wid, id);
      CycleNeverCalled(cfg, k, wid, id, i);
    }
  }

  /** The step had not failed, leads to no failed step, and lies neither on nor behind a cycle. */
  ghost predicate Completable(steps: map<string, Step>, id: string)
    requires id in steps
  {
    !steps[id].state.Failed? && !DependsOnFailed(steps, id) && !OnOrBehindCycle(steps, id)
  }

  ghost predicate SameFailures(before: map<string, Step>, after: map<string, Step>) {
    && after.Keys == before.Keys
    && forall id :: id in before ==>
                      after[id].spec == before[id].spec && (after[id].state.Failed? <==> before[id].state.Failed?)
  }

  lemma FailuresSpread(before: map<string, Step>, after: map<string, Step>, id: string)
    requires SameFailures(before, after) && DependsOnFailed(before, id)
    ensures DependsOnFailed(after, id)
  {
    var p :| Walk(before, p) && |p| > 1 && p[0] == id && before[p[|p| - 1]].state.Failed?;
    assert Walk(after, p);
  }

  lemma SameCompletable(before: map<string, Step>, after: map<string, Step>, id: string)
    requires SameFailures(before, after) && id in before
    ensures Completable(before, id) <==> Completable(after, id)
  {
    if DependsOnFailed(before, id) {
      FailuresSpread(before, after, id);
    }
    if DependsOnFailed(after, id) {
      FailuresSpread(after, before, id);
    }
    if OnOrBehindCycle(before, id) {
      CyclesOfSpecs(before, after, id);
    }
    if OnOrBehindCycle(after, id) {
      CyclesOfSpecs(after, before, id);
    }
  }

  lemma SettledCompletes(cfg: Config, k: State, wid: string, id: string)
    requires Lives(cfg, k, wid) && id in k.workflows[wid].steps && Settled(cfg.policy, k.workflows[wid].steps)
    ensures k.workflows[wid].steps[id].state.Completed? <==> Completable(k.workflows[wid].steps, id)
  {
    assert SettledStep(cfg.policy, k.workflows[wid].steps, id);
    if k.workflows[wid].steps[id].state.Completed? {
      CompletedIsFree(cfg, k, wid, id);
    }
  }

  lemma OnlyCompletesFails(w: Workflow, w': Workflow)
    requires OnlyCompletes(w.steps, w'.steps) && SamePlan(w, w')
    ensures SameFailures(w.steps, w'.steps)
  {
  }

  ghost predicate CompletesExactly(before: map<string, Step>, after: map<string, Step>) {
    && after.Keys == before.Keys
    && forall id :: id in before ==> (after[id].state.Completed? <==> Completable(before, id))
  }

  /**
    When the loop of any run breaks and its own calls all succeeded, the completed steps are exactly those that had not
    failed before the run, lead to no failed step, and lie neither on nor behind a cycle, whatever the structural
    reports say and whatever else ever failed.
   */
  lemma FlawlessRunCompletesExactly(cfg: Config, k: State, wid: string)
    requires Reachable(cfg, k) && wid in k.workflows
    ensures var r := RunWorkflow(cfg, k, wid);
            r.outcome.Quiescent? && CallsSucceed(cfg, k, r.state) ==>
              wid in r.state.workflows && CompletesExactly(k.workflows[wid].steps, r.state.workflows[wid].steps)
  {
    ReachableLives(cfg, k, wid);
    RunLives(cfg, k, wid);
    RunFlawless(cfg, k, wid);
    var r := RunWorkflow(cfg, k, wid);
    if r.outcome.Quiescent? && CallsSucceed(cfg, k, r.state) {
      var w, w' := k.workflows[wid], r.state.workflows[wid];
      OnlyCompletesFails(w, w');
      forall id | id in w.steps ensures w'.steps[id].state.Completed? <==> Completable(w.steps, id) {
        SettledCompletes(cfg, r.state, wid, id);
        SameCompletable(w.steps, w'.steps, id);
      }
    }
  }

  // ---------- the verdict ----------

  ghost predicate NoneFailed(steps: map<string, Step>) {
    forall id :: id in steps ==> !steps[id].state.Failed?
  }

  lemma AllCompletable(before: map<string, Step>, after: map<string, Step>)
    requires CompletesExactly(before, after)
    ensures AllCompleted(after) <==> Acyclic(before) && NoneFailed(before)
  {
    if Acyclic(before) && NoneFailed(before) {
      forall id | id in after ensures after[id].state.Completed? {
        assert !DependsOnFailed(before, id);
      }
    }
    if AllCompleted(after) {
      forall id | id in before ensures Completable(before, id) {
        assert after[id].state.Completed?;
      }
    }
  }

  /** A workflow stopped in mid-batch is not completed; without failures only the policy can have stopped it. */
  lemma StoppedVerdict(p: Policy, w: Workflow)
    requires Observed(p, w) && Stops(w.state)
    ensures !w.state.Completed? && (NoneFailed(w.steps) ==> p.quarantinePolicyRisk <= 0.0425)
  {
    Verdicts.StateCounts(w.steps, StepState.Failed);
  }

  /**
    A workflow whose run raises no exception and makes only successful calls ends completed if and only if it has
    steps, its plan is acyclic, none of its steps had failed before, and the policy tolerates the cost of a flawless
    run.
   */
  lemma FlawlessRunVerdict(cfg: Config, k: State, wid: string)
    requires Reachable(cfg, k) && wid in k.workflows
    ensures var r := RunWorkflow(cfg, k, wid);
            !r.outcome.Raised? && CallsSucceed(cfg, k, r.state) ==>
              && wid in r.state.workflows
              && (r.state.workflows[wid].state.Completed? <==>
                  && cfg.policy.quarantinePolicyRisk > 0.0425 && k.workflows[wid].steps != map[]
                  && Acyclic(k.workflows[wid].steps) && NoneFailed(k.workflows[wid].steps))
  {
    ReachableLives(cfg, k, wid);
    RunLives(cfg, k, wid);
    RunFlawless(cfg, k, wid);
    RunCloses(cfg, k, wid);
    RunObserved(cfg, k, wid);
    var r := RunWorkflow(cfg, k, wid);
    if !r.outcome.Raised? && CallsSucceed(cfg, k, r.state) {
      var w, w' := k.workflows[wid], r.state.workflows[wid];
      assert w'.steps.Keys == w.steps.Keys;
      OnlyCompletesFails(w, w');
      if r.outcome.Quiescent? {
        FlawlessRunCompletesExactly(cfg, k, wid);
        AllCompletable(w.steps, w'.steps);
      } else {
        StoppedVerdict(cfg.policy, w');
      }
    }
  }

  /** What a caller can check of a workflow before its run: a resolved acyclic plan with no failed step. */
  ghost predicate Sound(k: State, w: Workflow) {
    Resolved(k, w) && Acyclic(w.steps) && NoneFailed(w.steps)
  }

  /**
    A sound workflow whose run makes only successful calls ends completed exactly when it has steps and the policy
    tolerates a flawless run, unless some step that could run finds no active capable agent.
   */
  lemma SoundRunCompletes(cfg: Config, k: State, wid: string)
    requires Reachable(cfg, k) && cfg.hasRuntime && wid in k.workflows && Sound(k, k.workflows[wid])
    ensures var r := RunWorkflow(cfg, k, wid);
            CallsSucceed(cfg, k, r.state) ==>
              && wid in r.state.workflows
              && if r.outcome.Raised? then
                   r.outcome.error.NoActiveAgent?
                   && Starved(r.state, r.state.workflows[wid], r.outcome.error.capability)
                 else
                   r.state.workflows[wid].state.Completed? <==>
                   k.workflows[wid].steps != map[] && cfg.policy.quarantinePolicyRisk > 0.0425
  {
    ReachableLives(cfg, k, wid);
    ResolvedRaisesOnlyForAgents(cfg, k, wid);
    FlawlessRunVerdict(cfg, k, wid);
  }
}
