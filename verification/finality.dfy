/** Completion is final: what the records of a workflow were when its calls were made, and the order of completions. */
module Finality {
  import opened Common
  import opened Types
  import opened Maestro
  import opened Runs
  import opened Scheduling
  import opened Operations
  import opened Freshness
  import opened Lifetimes

  // ---------- a completed record never changes ----------

  /** Every completed step of `wid` in `s` has the same record in `t`. */
  ghost predicate KeepsCompleted(s: State, t: State, wid: string) {
    && wid in s.workflows && wid in t.workflows
    && var w, w' := s.workflows[wid], t.workflows[wid];
    && w'.steps.Keys == w.steps.Keys
    && (forall id :: id in w.steps ==> w'.steps[id].spec == w.steps[id].spec)
    && forall id :: id in w.steps && w.steps[id].state.Completed? ==> w'.steps[id] == w.steps[id]
  }

  lemma KeepsThrough(a: State, b: State, c: State, wid: string)
    requires KeepsCompleted(a, b, wid) && KeepsCompleted(b, c, wid)
    ensures KeepsCompleted(a, c, wid)
  {
  }

  lemma BypassedKeeps(k: State, t: State, wid: string)
    requires Bypasses(k, t, wid)
    ensures KeepsCompleted(k, t, wid)
  {
  }

  lemma AdvanceKeeps(cfg: Config, k: State, wid: string, sid: string, agentId: string, t: State)
    requires AtTurn(k, wid, sid) && Advances(cfg, k, wid, sid, agentId, t)
    ensures KeepsCompleted(k, t, wid)
  {
  }

  lemma TurnKeeps(cfg: Config, k: State, wid: string, sid: string)
    requires AtTurn(k, wid, sid)
    ensures KeepsCompleted(k, Turn(cfg, k, wid, sid).state, wid)
  {
    TurnEffect(cfg, k, wid, sid);
    var a := Assigned(cfg, k, wid, sid);
    if a.Success? {
      AdvanceKeeps(cfg, k, wid, sid, a.value, Turn(cfg, k, wid, sid).state);
    }
  }

  lemma RunKeepsCompleted(cfg: Config, k: State, wid: string)
    requires Valid(k) && wid in k.workflows
    ensures KeepsCompleted(k, RunWorkflow(cfg, k, wid).state, wid)
  {
    RunCloses(cfg, k, wid);
    if cfg.hasRuntime {
      StartedValid(k, wid);
      var inv := (s: State) => KeepsCompleted(k, s, wid);
      forall s: State, sid: string | AtTurn(s, wid, sid) && inv(s)
        ensures inv(Turn(cfg, s, wid, sid).state)
      {
        TurnKeeps(cfg, s, wid, sid);
        KeepsThrough(k, s, Turn(cfg, s, wid, sid).state, wid);
      }
      RunInduction(cfg, Started(k, wid), wid, inv);
      var s := RunSteps(cfg, Started(k, wid), wid).state;
      ClosingBypasses(s, RunWorkflow(cfg, k, wid).state, wid);
      BypassedKeeps(s, RunWorkflow(cfg, k, wid).state, wid);
      KeepsThrough(k, s, RunWorkflow(cfg, k, wid).state, wid);
    }
  }

  /** No operation changes the record of a completed step, nor adds, drops or respecifies a step. */
  lemma CompletionIsAbsorbing(cfg: Config, k: State, op: Op, wid: string)
    requires Valid(k) && wid in k.workflows
    ensures KeepsCompleted(k, Apply(cfg, k, op), wid)
  {
    if op == RunPlan(wid) {
      RunKeepsCompleted(cfg, k, wid);
    } else {
      OperationBypasses(cfg, k, op, wid);
      BypassedKeeps(k, Apply(cfg, k, op), wid);
    }
  }

  /** So once a step is completed, its record is the same after any further operations. */
  lemma {:induction false} CompletedForever(cfg: Config, ops: seq<Op>, more: seq<Op>, wid: string)
    requires wid in Reached(cfg, ops).workflows
    ensures KeepsCompleted(Reached(cfg, ops), Reached(cfg, ops + more), wid)
    decreases |more|
  {
    if more == [] {
      assert ops + more == ops;
    } else {
      var front, op := more[..|more| - 1], more[|more| - 1];
      CompletedForever(cfg, ops, front, wid);
      assert ops + more == (ops + front) + [op];
      ReachedNext(cfg, ops + front, op);
      CompletionIsAbsorbing(cfg, Reached(cfg, ops + front), op, wid);
      KeepsThrough(Reached(cfg, ops), Reached(cfg, ops + front), Reached(cfg, ops + more), wid);
    }
  }

  // ---------- success is the last call of a step ----------

  ghost predicate SuccessShows(cfg: Config, k: State, wid: string) {
    wid in k.workflows &&
    forall i: nat :: i < |k.calls| && IsCallFor(k.calls[i], wid) && cfg.results(i).ok ==>
                       && k.calls[i].task.stepId in k.workflows[wid].steps
                       && k.workflows[wid].steps[k.calls[i].task.stepId].state.Completed?
  }

  ghost predicate SuccessIsLast(cfg: Config, calls: seq<Call>, wid: string) {
    forall i: nat, j: nat :: i < j < |calls| && IsCallFor(calls[i], wid) && cfg.results(i).ok ==>
                               !IsCallOf(calls[j], wid, calls[i].task.stepId)
  }

  /** A run of `wid` from `k` passes through `s`: every invariant of its turns that holds at first holds in `s`. */
  ghost predicate Visits(cfg: Config, k: State, wid: string, s: State) {
    && wid in k.workflows
    && forall inv: State -> bool :: Inductive(cfg, wid, inv) && inv(Started(k, wid)) ==> inv(s)
  }

  /** In `s` the step of the i-th call was about to run on its agent, and `k` keeps what was completed then. */
  ghost predicate MadeIn(cfg: Config, k: State, wid: string, i: nat, s: State)
    requires i < |k.calls| && IsCallFor(k.calls[i], wid)
  {
    var sid := k.calls[i].task.stepId;
    && s.calls == k.calls[..i] && AtTurn(s, wid, sid)
    && Assigned(cfg, s, wid, sid) == Success(k.calls[i].agentId)
    && k.calls[i] == StepCall(s.workflows[wid], sid, k.calls[i].agentId)
    && KeepsCompleted(s, k, wid)
  }

  /** The i-th call was made in a state that some run of the workflow, from a reachable state, passed through. */
  ghost predicate HasMoment(cfg: Config, k: State, wid: string, i: nat)
    requires i < |k.calls| && IsCallFor(k.calls[i], wid)
  {
    exists k0, s :: Reachable(cfg, k0) && Visits(cfg, k0, wid, s) && MadeIn(cfg, k, wid, i, s)
  }

  ghost predicate AllHaveMoments(cfg: Config, k: State, wid: string) {
    forall i: nat :: i < |k.calls| && IsCallFor(k.calls[i], wid) ==> HasMoment(cfg, k, wid, i)
  }

  /** What the calls for a workflow tell about the states they were made in. */
  ghost predicate Chronicled(cfg: Config, k: State, wid: string) {
    SuccessShows(cfg, k, wid) && SuccessIsLast(cfg, k.calls, wid) && AllHaveMoments(cfg, k, wid)
  }

  lemma MadePersists(cfg: Config, k: State, wid: string, t: State, i: nat, s: State)
    requires i < |k.calls| && k.calls <= t.calls && IsCallFor(k.calls[i], wid)
    requires MadeIn(cfg, k, wid, i, s) && KeepsCompleted(k, t, wid)
    ensures t.calls[i] == k.calls[i] && MadeIn(cfg, t, wid, i, s)
  {
    KeepsThrough(s, k, t, wid);
    assert t.calls[i] == k.calls[i] && t.calls[..i] == k.calls[..i];
  }

  lemma MomentPersists(cfg: Config, k: State, wid: string, t: State, i: nat)
    requires i < |k.calls| && k.calls <= t.calls && IsCallFor(k.calls[i], wid)
    requires HasMoment(cfg, k, wid, i) && KeepsCompleted(k, t, wid)
    ensures HasMoment(cfg, t, wid, i)
  {
    var k0, s :| Reachable(cfg, k0) && Visits(cfg, k0, wid, s) && MadeIn(cfg, k, wid, i, s);
    MadePersists(cfg, k, wid, t, i, s);
  }

  lemma BypassedSuccess(cfg: Config, k: State, t: State, wid: string)
    requires Bypasses(k, t, wid) && SuccessShows(cfg, k, wid) && SuccessIsLast(cfg, k.calls, wid)
    ensures SuccessShows(cfg, t, wid) && SuccessIsLast(cfg, t.calls, wid)
  {
    forall i: nat | i < |t.calls| && IsCallFor(t.calls[i], wid) ensures i < |k.calls| && k.calls[i] == t.calls[i] {
    }
  }

  lemma BypassedChronicled(cfg: Config, k: State, t: State, wid: string)
    requires Bypasses(k, t, wid) && Chronicled(cfg, k, wid)
    ensures Chronicled(cfg, t, wid)
  {
    BypassedSuccess(cfg, k, t, wid);
    BypassedKeeps(k, t, wid);
    forall i: nat | i < |t.calls| && IsCallFor(t.calls[i], wid) ensures HasMoment(cfg, t, wid, i) {
      assert t.calls[i] == k.calls[i];
      MomentPersists(cfg, k, wid, t, i);
    }
  }

  lemma SuccessStep(cfg: Config, k: State, wid: string, sid: string, agentId: string, t: State)
    requires AtTurn(k, wid, sid) && Advances(cfg, k, wid, sid, agentId, t)
    requires SuccessShows(cfg, k, wid) && SuccessIsLast(cfg, k.calls, wid)
    ensures SuccessShows(cfg, t, wid) && SuccessIsLast(cfg, t.calls, wid)
  {
    assert t.calls[|k.calls|] == StepCall(k.workflows[wid], sid, agentId);
    assert k.workflows[wid].steps[sid].state.Pending?;
    forall i: nat | i < |k.calls| ensures t.calls[i] == k.calls[i] {
    }
  }

  lemma MomentsStep(cfg: Config, k0: State, k: State, wid: string, sid: string, agentId: string, t: State)
    requires Reachable(cfg, k0) && Visits(cfg, k0, wid, k)
    requires AtTurn(k, wid, sid) && Advances(cfg, k, wid, sid, agentId, t)
    requires Assigned(cfg, k, wid, sid) == Success(agentId)
    requires AllHaveMoments(cfg, k, wid)
    ensures AllHaveMoments(cfg, t, wid)
  {
    AdvanceKeeps(cfg, k, wid, sid, agentId, t);
    forall i: nat | i < |t.calls| && IsCallFor(t.calls[i], wid) ensures HasMoment(cfg, t, wid, i) {
      if i < |k.calls| {
        assert t.calls[i] == k.calls[i];
        MomentPersists(cfg, k, wid, t, i);
      } else {
        assert t.calls[i] == StepCall(k.workflows[wid], sid, agentId) && t.calls[..i] == k.calls;
        assert MadeIn(cfg, t, wid, i, k);
      }
    }
  }

  lemma StartVisits(cfg: Config, k: State, wid: string)
    requires wid in k.workflows
    ensures Visits(cfg, k, wid, Started(k, wid))
  {
  }

  lemma TurnVisits(cfg: Config, k: State, wid: string, s: State, sid: string)
    requires Visits(cfg, k, wid, s) && AtTurn(s, wid, sid)
    ensures Visits(cfg, k, wid, Turn(cfg, s, wid, sid).state)
  {
    forall inv: State -> bool | Inductive(cfg, wid, inv) && inv(Started(k, wid))
      ensures inv(Turn(cfg, s, wid, sid).state)
    {
      assert inv(s);
    }
  }

  lemma TurnChronicled(cfg: Config, k0: State, s: State, wid: string, sid: string)
    requires Reachable(cfg, k0) && Visits(cfg, k0, wid, s) && AtTurn(s, wid, sid) && Chronicled(cfg, s, wid)
    ensures Chronicled(cfg, Turn(cfg, s, wid, sid).state, wid)
  {
    TurnEffect(cfg, s, wid, sid);
    var a := Assigned(cfg, s, wid, sid);
    if a.Success? {
      var t := Turn(cfg, s, wid, sid).state;
      SuccessStep(cfg, s, wid, sid, a.value, t);
      MomentsStep(cfg, k0, s, wid, sid, a.value, t);
    }
  }

  lemma LoopChronicled(cfg: Config, k: State, wid: string)
    requires Reachable(cfg, k) && Valid(k) && wid in k.workflows && Chronicled(cfg, k, wid)
    ensures Chronicled(cfg, RunSteps(cfg, Started(k, wid), wid).state, wid)
  {
    StartedValid(k, wid);
    StartBypasses(k, wid, wid);
    BypassedChronicled(cfg, k, Started(k, wid), wid);
    StartVisits(cfg, k, wid);
    var inv := (s: State) => Visits(cfg, k, wid, s) && Chronicled(cfg, s, wid);
    forall s: State, sid: string | AtTurn(s, wid, sid) && inv(s)
      ensures inv(Turn(cfg, s, wid, sid).state)
    {
      TurnVisits(cfg, k, wid, s, sid);
      TurnChronicled(cfg, k, s, wid, sid);
    }
    RunInduction(cfg, Started(k, wid), wid, inv);
  }

  lemma RunChronicled(cfg: Config, k: State, wid: string)
    requires Reachable(cfg, k) && Valid(k) && wid in k.workflows && Chronicled(cfg, k, wid)
    ensures Chronicled(cfg, RunWorkflow(cfg, k, wid).state, wid)
  {
    RunCloses(cfg, k, wid);
    if cfg.hasRuntime {
      StartedValid(k, wid);
      LoopChronicled(cfg, k, wid);
      var s := RunSteps(cfg, Started(k, wid), wid).state;
      ClosingBypasses(s, RunWorkflow(cfg, k, wid).state, wid);
      BypassedChronicled(cfg, s, RunWorkflow(cfg, k, wid).state, wid);
    }
  }

  lemma FreshChronicled(cfg: Config, k: State, wid: string)
    requires Fresh(k, wid)
    ensures Chronicled(cfg, k, wid)
  {
  }

  lemma ApplyChronicled(cfg: Config, k: State, op: Op, wid: string)
    requires Reachable(cfg, k) && Valid(k) && Mentions(k) && wid in Apply(cfg, k, op).workflows
    requires wid in k.workflows ==> Chronicled(cfg, k, wid)
    ensures Chronicled(cfg, Apply(cfg, k, op), wid)
  {
    if wid !in k.workflows {
      AddsAtMostThePlan(cfg, k, op, wid);
      CreatedIsFresh(k, op.plan);
      FreshChronicled(cfg, CreateWorkflow(k, op.plan), wid);
    } else if op == RunPlan(wid) {
      RunChronicled(cfg, k, wid);
    } else {
      OperationBypasses(cfg, k, op, wid);
      BypassedChronicled(cfg, k, Apply(cfg, k, op), wid);
    }
  }

  lemma {:induction false} ReachedChronicled(cfg: Config, ops: seq<Op>, wid: string)
    requires wid in Reached(cfg, ops).workflows
    ensures Chronicled(cfg, Reached(cfg, ops), wid)
    decreases |ops|
  {
    var front, op := ops[..|ops| - 1], ops[|ops| - 1];
    var k := Reached(cfg, front);
    LogsMentionKnownWorkflows(cfg, front);
    if wid in k.workflows {
      ReachedChronicled(cfg, front, wid);
    }
    ApplyChronicled(cfg, k, op, wid);
  }

  lemma ReachableChronicled(cfg: Config, k: State, wid: string)
    requires Reachable(cfg, k) && wid in k.workflows
    ensures Chronicled(cfg, k, wid)
  {
    var ops :| Reached(cfg, ops) == k;
    ReachedChronicled(cfg, ops, wid);
  }

  // ---------- main results ----------

  /**
    Every call for a step was made in a state of a run in which all dependencies of the step were completed, with the
    records that they still have; it handed out the outputs they had, to an agent that was active and capable.
   */
  lemma EveryCallHasItsMoment(cfg: Config, k: State, wid: string, i: nat) returns (k0: State, s: State)
    requires Reachable(cfg, k) && wid in k.workflows && i < |k.calls| && IsCallFor(k.calls[i], wid)
    ensures Reachable(cfg, k0) && Visits(cfg, k0, wid, s) && s.calls == k.calls[..i]
    ensures wid in s.workflows && k.calls[i].agentId in s.agents
    ensures var w, w', task := s.workflows[wid], k.workflows[wid], k.calls[i].task;
            && Runnable(w, task.stepId)
            && var agent, step := s.agents[k.calls[i].agentId], w.steps[task.stepId];
            && agent.state.Active? && step.spec.capability in agent.spec.capabilities
            && step.state.Pending? && task.attempt == step.attempts + 1 && task.capability == step.spec.capability
            && task.priority == w.plan.priority
            && (forall d :: d in task.dependencies <==> d in step.spec.dependsOn)
            && forall d :: d in step.spec.dependsOn ==>
                             && d in w'.steps && w.steps[d].state.Completed? && w'.steps[d] == w.steps[d]
                             && task.dependencies[d] == w'.steps[d].output
  {
    ReachableChronicled(cfg, k, wid);
    assert HasMoment(cfg, k, wid, i);
    k0, s :| Reachable(cfg, k0) && Visits(cfg, k0, wid, s) && MadeIn(cfg, k, wid, i, s);
    AssignedIsEligible(cfg.policy, s, s.workflows[wid].steps[k.calls[i].task.stepId].spec);
  }

  /** A step is completed exactly if a call of it succeeded, and that call is the last one of the step. */
  lemma SuccessEndsAStep(cfg: Config, k: State, wid: string, id: string)
    requires Reachable(cfg, k) && wid in k.workflows && id in k.workflows[wid].steps
    ensures k.workflows[wid].steps[id].state.Completed? <==> SucceededBefore(cfg, k.calls, wid, id, |k.calls|)
    ensures forall i, j :: 0 <= i < j < |k.calls| && IsCallOf(k.calls[i], wid, id) && cfg.results(i).ok ==>
                             !IsCallOf(k.calls[j], wid, id)
  {
    ReachableChronicled(cfg, k, wid);
    ReachableLives(cfg, k, wid);
    if k.workflows[wid].steps[id].state.Completed? {
      assert AttemptsFit(cfg.policy, k.workflows[wid].steps[id]);
      var j: nat :| ProducedBy(cfg, k, wid, id, j);
    }
  }

  /** The steps in the order of the calls that completed them. */
  function Completions(cfg: Config, calls: seq<Call>, wid: string): seq<string> {
    if calls == [] then []
    else
      var front, last := Completions(cfg, calls[..|calls| - 1], wid), calls[|calls| - 1];
      if IsCallFor(last, wid) && cfg.results(|calls| - 1).ok then front + [last.task.stepId] else front
  }

  /** Each step comes after all those it depends on. */
  ghost predicate Topological(order: seq<string>, steps: map<string, Step>) {
    forall p :: 0 <= p < |order| ==>
                  && order[p] in steps
                  && forall d :: d in steps[order[p]].spec.dependsOn ==> d in order[..p]
  }

  ghost predicate CompletionsSoFar(cfg: Config, k: State, wid: string, n: nat, c: seq<string>) {
    && wid in k.workflows
    && (forall id :: id in c <==> SucceededBefore(cfg, k.calls, wid, id, n))
    && Distinct(c) && Topological(c, k.workflows[wid].steps)
  }

  lemma AppendTopological(c: seq<string>, id: string, steps: map<string, Step>)
    requires Distinct(c) && id !in c && Topological(c, steps)
    requires id in steps && forall d :: d in steps[id].spec.dependsOn ==> d in c
    ensures Distinct(c + [id]) && Topological(c + [id], steps)
  {
    var c' := c + [id];
    forall p | 0 <= p < |c'|
      ensures c'[p] in steps && forall d :: d in steps[c'[p]].spec.dependsOn ==> d in c'[..p]
    {
      if p < |c| {
        assert c'[..p] == c[..p];
      } else {
        assert c'[..p] == c;
      }
    }
  }

  lemma NextSucceeded(cfg: Config, calls: seq<Call>, wid: string, id: string, n: nat)
    requires n < |calls|
    ensures SucceededBefore(cfg, calls, wid, id, n + 1)
       <==> SucceededBefore(cfg, calls, wid, id, n) || (IsCallOf(calls[n], wid, id) && cfg.results(n).ok)
  {
    if SucceededBefore(cfg, calls, wid, id, n + 1) {
      var j :| 0 <= j < n + 1 && j < |calls| && IsCallOf(calls[j], wid, id) && cfg.results(j).ok;
      assert j < n || j == n;
    }
  }

  lemma NextCompletion(cfg: Config, k: State, wid: string, n: nat, c: seq<string>)
    requires AllFed(cfg, k, wid) && SuccessIsLast(cfg, k.calls, wid)
    requires n < |k.calls| && CompletionsSoFar(cfg, k, wid, n, c)
    ensures CompletionsSoFar(
              cfg, k, wid, n + 1,
              if IsCallFor(k.calls[n], wid) && cfg.results(n).ok then c + [k.calls[n].task.stepId] else c)
  {
    forall id
      ensures SucceededBefore(cfg, k.calls, wid, id, n + 1)
         <==> SucceededBefore(cfg, k.calls, wid, id, n) || (IsCallOf(k.calls[n], wid, id) && cfg.results(n).ok)
    {
      NextSucceeded(cfg, k.calls, wid, id, n);
    }
    if IsCallFor(k.calls[n], wid) && cfg.results(n).ok {
      var id := k.calls[n].task.stepId;
      assert Fed(cfg, k, wid, n);
      assert id !in c;
      AppendTopological(c, id, k.workflows[wid].steps);
    }
  }

  lemma {:induction false} CompletionsUpTo(cfg: Config, k: State, wid: string, n: nat)
    requires AllFed(cfg, k, wid) && SuccessIsLast(cfg, k.calls, wid) && n <= |k.calls|
    ensures CompletionsSoFar(cfg, k, wid, n, Completions(cfg, k.calls[..n], wid))
  {
    if n > 0 {
      CompletionsUpTo(cfg, k, wid, n - 1);
      assert k.calls[..n][..n - 1] == k.calls[..n - 1];
      NextCompletion(cfg, k, wid, n - 1, Completions(cfg, k.calls[..n - 1], wid));
    }
  }

  /** The completions list exactly the completed steps, each once and each after all its dependencies. */
  lemma CompletionsAreTopological(cfg: Config, k: State, wid: string)
    requires Reachable(cfg, k) && wid in k.workflows
    ensures var order, steps := Completions(cfg, k.calls, wid), k.workflows[wid].steps;
            && Lists(order, set id | id in steps && steps[id].state.Completed?)
            && Topological(order, steps)
  {
    ReachableChronicled(cfg, k, wid);
    ReachableLives(cfg, k, wid);
    assert k.calls[..|k.calls|] == k.calls;
    CompletionsUpTo(cfg, k, wid, |k.calls|);
    var order, steps := Completions(cfg, k.calls, wid), k.workflows[wid].steps;
    forall id ensures id in order <==> id in steps && steps[id].state.Completed? {
      if id in steps {
        SuccessEndsAStep(cfg, k, wid, id);
      }
      if id in order {
        var p :| 0 <= p < |order| && order[p] == id;
        assert order[p] in steps;
      }
    }
  }
}
