/** Retries, dependency order and quiescence of a workflow run. */
module Scheduling {
  import opened Common
  import opened Types
  import opened Governor
  import opened Maestro
  import opened Runs
  import opened Dependencies

  predicate IsCallFor(c: Call, wid: string) {
    c.task.StepTask? && c.task.workflowId == wid
  }

  predicate IsCallOf(c: Call, wid: string, sid: string) {
    IsCallFor(c, wid) && c.task.stepId == sid
  }

  function CallsOf(calls: seq<Call>, wid: string, sid: string): nat {
    if calls == [] then 0
    else CallsOf(calls[..|calls| - 1], wid, sid) + if IsCallOf(calls[|calls| - 1], wid, sid) then 1 else 0
  }

  /** The attempts a step is allowed: at least one, whatever the retry limits say. */
  function Bound(p: Policy, spec: StepSpec): nat {
    if Cap(p, spec) < 1 then 1 else Cap(p, spec)
  }

  /** A workflow that no run has touched. */
  ghost predicate Fresh(k: State, wid: string) {
    && Valid(k) && wid in k.workflows
    && (forall id :: id in k.workflows[wid].steps ==>
                       k.workflows[wid].steps[id] == NewStep(k.workflows[wid].steps[id].spec))
    && forall i :: 0 <= i < |k.calls| ==> !IsCallFor(k.calls[i], wid)
  }

  // ---------- attempts ----------

  ghost predicate AttemptsFit(p: Policy, s: Step) {
    && s.attempts <= Bound(p, s.spec)
    && (|| (s.state.Pending? && s.attempts < Bound(p, s.spec))
        || (s.state.Failed? && s.attempts == Bound(p, s.spec))
        || (s.state.Completed? && s.attempts >= 1))
  }

  ghost predicate Attempted(cfg: Config, k: State, wid: string) {
    wid in k.workflows &&
    forall id :: id in k.workflows[wid].steps ==>
                   && AttemptsFit(cfg.policy, k.workflows[wid].steps[id])
                   && k.workflows[wid].steps[id].attempts == CallsOf(k.calls, wid, id)
  }

  lemma AttemptedStep(cfg: Config, k: State, wid: string, sid: string, agentId: string, t: State)
    requires AtTurn(k, wid, sid) && Attempted(cfg, k, wid) && Advances(cfg, k, wid, sid, agentId, t)
    ensures Attempted(cfg, t, wid)
  {
    var w' := t.workflows[wid];
    assert t.calls[..|t.calls| - 1] == k.calls;
    assert t.calls[|t.calls| - 1] == StepCall(k.workflows[wid], sid, agentId);
  }

  // ---------- what the calls saw ----------

  /** The `j`-th call is one of this step, and the record holds what that call returned. */
  ghost predicate ProducedBy(cfg: Config, k: State, wid: string, id: string, j: nat) {
    && j < |k.calls| && IsCallOf(k.calls[j], wid, id)
    && wid in k.workflows && id in k.workflows[wid].steps
    && k.workflows[wid].steps[id].output == cfg.results(j).output
    && k.workflows[wid].steps[id].state.Completed? == cfg.results(j).ok
  }

  ghost predicate AllProduced(cfg: Config, k: State, wid: string) {
    wid in k.workflows &&
    forall id :: id in k.workflows[wid].steps && k.workflows[wid].steps[id].attempts > 0 ==>
                   exists j: nat :: ProducedBy(cfg, k, wid, id, j)
  }

  lemma ProducedPersists(cfg: Config, k: State, wid: string, t: State, id: string)
    requires exists j: nat :: ProducedBy(cfg, k, wid, id, j)
    requires k.calls <= t.calls && wid in t.workflows && id in t.workflows[wid].steps
    requires t.workflows[wid].steps[id] == k.workflows[wid].steps[id]
    ensures exists j: nat :: ProducedBy(cfg, t, wid, id, j)
  {
    var j: nat :| ProducedBy(cfg, k, wid, id, j);
    assert t.calls[j] == k.calls[j];
    assert ProducedBy(cfg, t, wid, id, j);
  }

  lemma AllProducedStep(cfg: Config, k: State, wid: string, sid: string, agentId: string, t: State)
    requires AtTurn(k, wid, sid) && AllProduced(cfg, k, wid) && Advances(cfg, k, wid, sid, agentId, t)
    ensures AllProduced(cfg, t, wid)
  {
    var w, w' := k.workflows[wid], t.workflows[wid];
    forall id | id in w'.steps && w'.steps[id].attempts > 0
      ensures exists j: nat :: ProducedBy(cfg, t, wid, id, j)
    {
      if id == sid {
        assert ProducedBy(cfg, t, wid, id, |k.calls|);
      } else {
        ProducedPersists(cfg, k, wid, t, id);
      }
    }
  }

  ghost predicate SucceededBefore(cfg: Config, calls: seq<Call>, wid: string, id: string, i: nat) {
    exists j :: 0 <= j < i && j < |calls| && IsCallOf(calls[j], wid, id) && cfg.results(j).ok
  }

  /**
    The call was handed the final outputs of all the step's dependencies, all of which are completed
    and each of which had succeeded in an earlier call.
   */
  ghost predicate Fed(cfg: Config, k: State, wid: string, i: nat)
    requires i < |k.calls| && wid in k.workflows
  {
    var w, task := k.workflows[wid], k.calls[i].task;
    task.StepTask? && task.workflowId == wid ==>
      && Known(w, task.stepId)
      && task.dependencies == DependencyOutputs(w, task.stepId)
      && forall d :: d in w.steps[task.stepId].spec.dependsOn ==>
                       w.steps[d].state.Completed? && SucceededBefore(cfg, k.calls, wid, d, i)
  }

  ghost predicate AllFed(cfg: Config, k: State, wid: string) {
    wid in k.workflows && forall i: nat :: i < |k.calls| ==> Fed(cfg, k, wid, i)
  }

  lemma SucceededPersists(cfg: Config, calls: seq<Call>, calls': seq<Call>, wid: string, id: string, i: nat)
    requires calls <= calls' && SucceededBefore(cfg, calls, wid, id, i)
    ensures SucceededBefore(cfg, calls', wid, id, i)
  {
    var j :| 0 <= j < i && j < |calls| && IsCallOf(calls[j], wid, id) && cfg.results(j).ok;
    assert calls'[j] == calls[j];
  }

  /** Running a pending step changes no output that a step with completed dependencies reads. */
  lemma SameOutputs(w: Workflow, w': Workflow, sid: string, s: Step, id: string)
    requires sid in w.steps && w.steps[sid].state.Pending? && s.spec == w.steps[sid].spec
    requires OneStepChanged(w, w', sid, s)
    requires Known(w, id) && forall d :: d in w.steps[id].spec.dependsOn ==> w.steps[d].state.Completed?
    ensures Known(w', id) && DependencyOutputs(w', id) == DependencyOutputs(w, id)
    ensures forall d :: d in w.steps[id].spec.dependsOn ==> d in w'.steps && w'.steps[d].state.Completed?
  {
  }

  lemma OldCallStaysFed(cfg: Config, k: State, wid: string, sid: string, agentId: string, t: State, i: nat)
    requires AtTurn(k, wid, sid) && Advances(cfg, k, wid, sid, agentId, t)
    requires i < |k.calls| && Fed(cfg, k, wid, i)
    ensures Fed(cfg, t, wid, i)
  {
    var w, w', task := k.workflows[wid], t.workflows[wid], k.calls[i].task;
    assert t.calls[i] == k.calls[i];
    if task.StepTask? && task.workflowId == wid {
      SameOutputs(w, w', sid, Ran(cfg, k, wid, sid, agentId), task.stepId);
      forall d | d in w.steps[task.stepId].spec.dependsOn
        ensures w'.steps[d].state.Completed? && SucceededBefore(cfg, t.calls, wid, d, i)
      {
        SucceededPersists(cfg, k.calls, t.calls, wid, d, i);
      }
    }
  }

  lemma NewCallIsFed(cfg: Config, k: State, wid: string, sid: string, agentId: string, t: State)
    requires AtTurn(k, wid, sid) && Advances(cfg, k, wid, sid, agentId, t)
    requires Attempted(cfg, k, wid) && AllProduced(cfg, k, wid)
    ensures Fed(cfg, t, wid, |k.calls|)
  {
    var w, w', i := k.workflows[wid], t.workflows[wid], |k.calls|;
    assert t.calls[i] == StepCall(w, sid, agentId);
    SameOutputs(w, w', sid, Ran(cfg, k, wid, sid, agentId), sid);
    forall d | d in w.steps[sid].spec.dependsOn
      ensures w'.steps[d].state.Completed? && SucceededBefore(cfg, t.calls, wid, d, i)
    {
      var j: nat :| ProducedBy(cfg, k, wid, d, j);
      assert t.calls[j] == k.calls[j];
    }
  }

  lemma AllFedStep(cfg: Config, k: State, wid: string, sid: string, agentId: string, t: State)
    requires AtTurn(k, wid, sid) && Advances(cfg, k, wid, sid, agentId, t)
    requires Attempted(cfg, k, wid) && AllProduced(cfg, k, wid) && AllFed(cfg, k, wid)
    ensures AllFed(cfg, t, wid)
  {
    forall i: nat | i < |t.calls| ensures Fed(cfg, t, wid, i) {
      if i < |k.calls| {
        OldCallStaysFed(cfg, k, wid, sid, agentId, t, i);
      } else {
        NewCallIsFed(cfg, k, wid, sid, agentId, t);
      }
    }
  }

  // ---------- the invariant of a workflow's life ----------

  /** What the records of a workflow and the history of calls tell about one another. */
  ghost predicate Lives(cfg: Config, k: State, wid: string) {
    Attempted(cfg, k, wid) && AllProduced(cfg, k, wid) && AllFed(cfg, k, wid)
  }

  /** No run spends more calls than the attempts its workflow had left when it started. */
  ghost predicate WithinBudget(cfg: Config, k: State, wid: string, total: nat) {
    Valid(k) && wid in k.workflows && |k.calls| + WorkflowBudget(cfg.policy, k.workflows[wid]) <= total
  }

  ghost predicate Scheduled(cfg: Config, k: State, wid: string, total: nat) {
    Lives(cfg, k, wid) && WithinBudget(cfg, k, wid, total)
  }

  lemma ScheduledStep(cfg: Config, k: State, wid: string, sid: string, agentId: string, t: State, total: nat)
    requires AtTurn(k, wid, sid) && Advances(cfg, k, wid, sid, agentId, t) && Scheduled(cfg, k, wid, total)
    ensures Scheduled(cfg, t, wid, total)
  {
    AttemptedStep(cfg, k, wid, sid, agentId, t);
    AllProducedStep(cfg, k, wid, sid, agentId, t);
    AllFedStep(cfg, k, wid, sid, agentId, t);
    AdvancesKeeps(cfg, k, wid, sid, agentId, t);
    RunDropsBudget(cfg.policy, k.workflows[wid], t.workflows[wid], sid, agentId, cfg.results(|k.calls|));
  }

  lemma FreshCallsOf(calls: seq<Call>, wid: string, sid: string)
    requires forall i :: 0 <= i < |calls| ==> !IsCallFor(calls[i], wid)
    ensures CallsOf(calls, wid, sid) == 0
  {
    if calls != [] {
      FreshCallsOf(calls[..|calls| - 1], wid, sid);
    }
  }

  lemma FreshLives(cfg: Config, k: State, wid: string)
    requires Fresh(k, wid)
    ensures Lives(cfg, k, wid)
  {
    forall id ensures CallsOf(k.calls, wid, id) == 0 {
      FreshCallsOf(k.calls, wid, id);
    }
  }

  // ---------- what passes a workflow by ----------

  ghost predicate SameRecords(w: Workflow, w': Workflow) {
    w'.plan == w.plan && w'.order == w.order && w'.steps == w.steps
  }

  /** `t` continues `k` without a change to the steps of `wid` and without a call for it. */
  ghost predicate Bypasses(k: State, t: State, wid: string) {
    && wid in k.workflows && wid in t.workflows && SameRecords(k.workflows[wid], t.workflows[wid])
    && k.calls <= t.calls
    && forall i :: |k.calls| <= i < |t.calls| ==> !IsCallFor(t.calls[i], wid)
  }

  lemma BypassesThrough(k: State, s: State, t: State, wid: string)
    requires Bypasses(k, s, wid) && Bypasses(s, t, wid)
    ensures Bypasses(k, t, wid)
  {
    forall i | |k.calls| <= i < |t.calls| ensures !IsCallFor(t.calls[i], wid) {
      if i < |s.calls| {
        assert t.calls[i] == s.calls[i];
      }
    }
  }

  lemma {:induction false} BypassedCalls(calls: seq<Call>, calls': seq<Call>, wid: string, sid: string)
    requires calls <= calls' && forall i :: |calls| <= i < |calls'| ==> !IsCallFor(calls'[i], wid)
    ensures CallsOf(calls', wid, sid) == CallsOf(calls, wid, sid)
  {
    if |calls| < |calls'| {
      BypassedCalls(calls, calls'[..|calls'| - 1], wid, sid);
    } else {
      assert calls == calls';
    }
  }

  lemma BypassedFed(cfg: Config, k: State, t: State, wid: string, i: nat)
    requires Bypasses(k, t, wid) && AllFed(cfg, k, wid) && i < |t.calls|
    ensures Fed(cfg, t, wid, i)
  {
    if i < |k.calls| {
      assert t.calls[i] == k.calls[i] && Fed(cfg, k, wid, i);
      var w, task := k.workflows[wid], k.calls[i].task;
      if IsCallFor(k.calls[i], wid) {
        assert DependencyOutputs(t.workflows[wid], task.stepId) == DependencyOutputs(w, task.stepId);
        forall d | d in w.steps[task.stepId].spec.dependsOn ensures SucceededBefore(cfg, t.calls, wid, d, i) {
          SucceededPersists(cfg, k.calls, t.calls, wid, d, i);
        }
      }
    }
  }

  lemma BypassedLives(cfg: Config, k: State, t: State, wid: string)
    requires Bypasses(k, t, wid) && Lives(cfg, k, wid)
    ensures Lives(cfg, t, wid)
  {
    forall id ensures CallsOf(t.calls, wid, id) == CallsOf(k.calls, wid, id) {
      BypassedCalls(k.calls, t.calls, wid, id);
    }
    forall id | id in t.workflows[wid].steps && t.workflows[wid].steps[id].attempts > 0
      ensures exists j: nat :: ProducedBy(cfg, t, wid, id, j)
    {
      ProducedPersists(cfg, k, wid, t, id);
    }
    forall i: nat | i < |t.calls| ensures Fed(cfg, t, wid, i) {
      BypassedFed(cfg, k, t, wid, i);
    }
  }

  // ---------- quiescence ----------

  lemma {:induction false} UnmetDependency(steps: map<string, Step>, deps: seq<string>)
    requires DependenciesMet(steps, deps) == Success(false)
    ensures exists d :: d in deps && d in steps && !steps[d].state.Completed?
  {
    if deps[0] in steps && !steps[deps[0]].state.Completed? {
      assert deps[0] in deps;
    } else {
      UnmetDependency(steps, deps[1..]);
    }
  }

  ghost predicate Waits(steps: map<string, Step>, id: string)
    requires id in steps
  {
    exists d :: d in steps[id].spec.dependsOn && d in steps && !steps[d].state.Completed?
  }

  /** Nothing is ready only when every pending step has an existing dependency that is not completed. */
  lemma {:induction false} NothingReady(steps: map<string, Step>, order: seq<string>)
    requires forall id :: id in order ==> id in steps
    requires ReadySteps(steps, order) == Success([])
    ensures forall id :: id in order && steps[id].state.Pending? ==> Waits(steps, id)
  {
    if order != [] {
      NothingReady(steps, order[1..]);
      assert order == [order[0]] + order[1..];
      if steps[order[0]].state.Pending? {
        UnmetDependency(steps, steps[order[0]].spec.dependsOn);
      }
    }
  }

  lemma FedNeverWaits(cfg: Config, k: State, wid: string, i: nat, id: string)
    requires wid in k.workflows && id in k.workflows[wid].steps
    requires i < |k.calls| && IsCallOf(k.calls[i], wid, id) && Fed(cfg, k, wid, i)
    ensures !Waits(k.workflows[wid].steps, id)
  {
  }

  /** A pending step that waits was never attempted: its calls were fed by completed dependencies. */
  lemma WaitingNeverRan(cfg: Config, k: State, wid: string, id: string)
    requires Attempted(cfg, k, wid) && AllFed(cfg, k, wid)
    requires id in k.workflows[wid].steps && Waits(k.workflows[wid].steps, id)
    ensures k.workflows[wid].steps[id].attempts == 0
  {
    if CallsOf(k.calls, wid, id) > 0 {
      var i := SomeCall(k.calls, wid, id);
      FedNeverWaits(cfg, k, wid, i, id);
    }
  }

  lemma {:induction false} SomeCall(calls: seq<Call>, wid: string, id: string) returns (i: nat)
    requires CallsOf(calls, wid, id) > 0
    ensures i < |calls| && IsCallOf(calls[i], wid, id)
  {
    if IsCallOf(calls[|calls| - 1], wid, id) {
      i := |calls| - 1;
    } else {
      i := SomeCall(calls[..|calls| - 1], wid, id);
    }
  }

  /** The pending steps that lead to no failed step wait for one another. */
  lemma PendingBlock(steps: map<string, Step>, id: string)
    requires forall x :: x in steps ==> steps[x].state.Pending? || steps[x].state.Failed? || steps[x].state.Completed?
    requires forall x :: x in steps && steps[x].state.Pending? ==> Waits(steps, x)
    requires id in steps && steps[id].state.Pending? && !DependsOnFailed(steps, id)
    ensures OnOrBehindCycle(steps, id)
  {
    var b := set x | x in steps && steps[x].state.Pending? && !DependsOnFailed(steps, x);
    forall x | x in b ensures DependsInto(steps, x, b) {
      var d :| d in steps[x].spec.dependsOn && d in steps && !steps[d].state.Completed?;
      if steps[d].state.Failed? || DependsOnFailed(steps, d) {
        DependsOnFailedStep(steps, x, d);
      }
    }
    BlockedCycles(steps, b, id);
  }

  /** How a step can stand when a run has nothing left to do. */
  ghost predicate SettledStep(p: Policy, steps: map<string, Step>, id: string)
    requires id in steps
  {
    var s := steps[id];
    || s.state.Completed?
    || (s.state.Failed? && s.attempts == Bound(p, s.spec))
    || (s.state.Pending? && s.attempts == 0 && (DependsOnFailed(steps, id) || OnOrBehindCycle(steps, id)))
  }

  ghost predicate Settled(p: Policy, steps: map<string, Step>) {
    forall id :: id in steps ==> SettledStep(p, steps, id)
  }

  lemma NothingReadySettles(cfg: Config, k: State, wid: string)
    requires Lives(cfg, k, wid)
    ensures NoneReady(k.workflows[wid]) ==> Settled(cfg.policy, k.workflows[wid].steps)
  {
    var w := k.workflows[wid];
    if !NoneReady(w) { return; }
    NothingReady(w.steps, w.order);
    forall id | id in w.steps ensures SettledStep(cfg.policy, w.steps, id) {
      if w.steps[id].state.Pending? {
        WaitingNeverRan(cfg, k, wid, id);
        if !DependsOnFailed(w.steps, id) {
          PendingBlock(w.steps, id);
        }
      }
    }
  }

  // ---------- whole runs ----------

  /** The loop keeps the records and the calls in step, however it is left, and settles the steps when it breaks. */
  lemma LoopLives(cfg: Config, k: State, wid: string)
    requires Valid(k) && Lives(cfg, k, wid)
    ensures var r := RunSteps(cfg, Started(k, wid), wid);
            && Kept(k, wid, r.state)
            && Scheduled(cfg, r.state, wid, |k.calls| + WorkflowBudget(cfg.policy, k.workflows[wid]))
            && (r.outcome.Quiescent? ==> Settled(cfg.policy, r.state.workflows[wid].steps))
  {
    var total := |k.calls| + WorkflowBudget(cfg.policy, k.workflows[wid]);
    StartedValid(k, wid);
    BypassedLives(cfg, k, Started(k, wid), wid);
    var inv := (s: State) => Scheduled(cfg, s, wid, total);
    forall s: State, sid: string | AtTurn(s, wid, sid) && inv(s)
      ensures inv(Turn(cfg, s, wid, sid).state)
    {
      TurnEffect(cfg, s, wid, sid);
      var a := Assigned(cfg, s, wid, sid);
      if a.Success? {
        ScheduledStep(cfg, s, wid, sid, a.value, Turn(cfg, s, wid, sid).state, total);
      }
    }
    RunInduction(cfg, Started(k, wid), wid, inv);
    NothingReadySettles(cfg, RunSteps(cfg, Started(k, wid), wid).state, wid);
  }

  lemma ClosingBypasses(s: State, t: State, wid: string)
    requires Closes(s, t, wid)
    ensures Bypasses(s, t, wid)
  {
  }

  /** What a whole run does to the workflow it runs. */
  ghost predicate RunKeeps(cfg: Config, k: State, wid: string, r: Progress)
    requires Valid(k) && wid in k.workflows
  {
    && wid in r.state.workflows && SamePlan(k.workflows[wid], r.state.workflows[wid])
    && Lives(cfg, r.state, wid)
    && |r.state.calls| <= |k.calls| + WorkflowBudget(cfg.policy, k.workflows[wid])
    && (r.outcome.Quiescent? ==> Settled(cfg.policy, r.state.workflows[wid].steps))
  }

  lemma RunKeepsClosed(cfg: Config, k: State, wid: string, s: Progress, r: Progress)
    requires Valid(k) && wid in k.workflows && Kept(k, wid, s.state)
    requires Scheduled(cfg, s.state, wid, |k.calls| + WorkflowBudget(cfg.policy, k.workflows[wid]))
    requires s.outcome.Quiescent? ==> Settled(cfg.policy, s.state.workflows[wid].steps)
    requires r.outcome == s.outcome && Closes(s.state, r.state, wid)
    ensures RunKeeps(cfg, k, wid, r)
  {
    ClosingBypasses(s.state, r.state, wid);
    BypassedLives(cfg, s.state, r.state, wid);
  }

  /** Any run of a workflow keeps its records and the calls in step and spends no more calls than it had left. */
  lemma RunLives(cfg: Config, k: State, wid: string)
    requires Valid(k) && Lives(cfg, k, wid)
    ensures RunKeeps(cfg, k, wid, RunWorkflow(cfg, k, wid))
  {
    RunCloses(cfg, k, wid);
    if cfg.hasRuntime {
      StartedValid(k, wid);
      LoopLives(cfg, k, wid);
      RunKeepsClosed(cfg, k, wid, RunSteps(cfg, Started(k, wid), wid), RunWorkflow(cfg, k, wid));
    }
  }

  /** By descent on call numbers: a member of a blocked set would need an earlier call of another member. */
  lemma {:induction false} BlockedNeverCalled(cfg: Config, k: State, wid: string, b: set<string>, i: nat)
    requires AllFed(cfg, k, wid) && Blocked(k.workflows[wid].steps, b) && i < |k.calls|
    ensures forall id :: id in b ==> !IsCallOf(k.calls[i], wid, id)
    decreases i
  {
    forall id | id in b && IsCallOf(k.calls[i], wid, id) ensures false {
      assert Fed(cfg, k, wid, i);
      assert DependsInto(k.workflows[wid].steps, id, b);
      var d :| d in k.workflows[wid].steps[id].spec.dependsOn && d in b;
      assert SucceededBefore(cfg, k.calls, wid, d, i);
      var j :| 0 <= j < i && IsCallOf(k.calls[j], wid, d);
      BlockedNeverCalled(cfg, k, wid, b, j);
    }
  }

  /** No call was ever made for a step on or behind a dependency cycle. */
  lemma CycleNeverCalled(cfg: Config, k: State, wid: string, id: string, i: nat)
    requires AllFed(cfg, k, wid) && OnOrBehindCycle(k.workflows[wid].steps, id) && i < |k.calls|
    ensures !IsCallOf(k.calls[i], wid, id)
  {
    var b := CycleBlocks(k.workflows[wid].steps, id);
    BlockedNeverCalled(cfg, k, wid, b, i);
  }

  // ---------- the calls of a whole life ----------

  function CallsFor(calls: seq<Call>, wid: string): nat {
    if calls == [] then 0
    else CallsFor(calls[..|calls| - 1], wid) + if IsCallFor(calls[|calls| - 1], wid) then 1 else 0
  }

  function BoundSum(p: Policy, steps: map<string, Step>, order: seq<string>): nat
    requires forall id :: id in order ==> id in steps
  {
    if order == [] then 0 else Bound(p, steps[order[0]].spec) + BoundSum(p, steps, order[1..])
  }

  function CallSum(calls: seq<Call>, wid: string, order: seq<string>): nat {
    if order == [] then 0 else CallsOf(calls, wid, order[0]) + CallSum(calls, wid, order[1..])
  }

  /** One more call adds one to the sum exactly if it is for a listed step. */
  lemma {:induction false} CallSumNext(calls: seq<Call>, c: Call, wid: string, order: seq<string>)
    requires Distinct(order)
    ensures CallSum(calls + [c], wid, order)
         == CallSum(calls, wid, order) + if IsCallFor(c, wid) && c.task.stepId in order then 1 else 0
  {
    if order != [] {
      DistinctTail(order);
      CallSumNext(calls, c, wid, order[1..]);
      assert (calls + [c])[..|calls|] == calls;
    }
  }

  lemma {:induction false} EmptyCallSum(wid: string, order: seq<string>)
    ensures CallSum([], wid, order) == 0
  {
    if order != [] {
      EmptyCallSum(wid, order[1..]);
    }
  }

  /** When every call for the workflow is for a listed step, the calls for it are those of its steps. */
  lemma {:induction false} CallsForIsSum(calls: seq<Call>, wid: string, order: seq<string>)
    requires Distinct(order)
    requires forall i :: 0 <= i < |calls| && IsCallFor(calls[i], wid) ==> calls[i].task.stepId in order
    ensures CallsFor(calls, wid) == CallSum(calls, wid, order)
  {
    if calls == [] {
      EmptyCallSum(wid, order);
    } else {
      var front, last := calls[..|calls| - 1], calls[|calls| - 1];
      assert calls == front + [last];
      CallsForIsSum(front, wid, order);
      CallSumNext(front, last, wid, order);
    }
  }

  lemma {:induction false} CallSumIsBounded(cfg: Config, k: State, wid: string, order: seq<string>)
    requires Attempted(cfg, k, wid) && forall id :: id in order ==> id in k.workflows[wid].steps
    ensures CallSum(k.calls, wid, order) <= BoundSum(cfg.policy, k.workflows[wid].steps, order)
  {
    if order != [] {
      assert order[0] in order;
      CallSumIsBounded(cfg, k, wid, order[1..]);
    }
  }

  /** In its whole life a workflow makes at most as many calls as all the bounds of its steps together. */
  lemma LifeIsBounded(cfg: Config, k: State, wid: string)
    requires Valid(k) && Lives(cfg, k, wid)
    ensures CallsFor(k.calls, wid) <= BoundSum(cfg.policy, k.workflows[wid].steps, k.workflows[wid].order)
  {
    var w := k.workflows[wid];
    forall i | 0 <= i < |k.calls| && IsCallFor(k.calls[i], wid) ensures k.calls[i].task.stepId in w.order {
      assert Fed(cfg, k, wid, i);
    }
    CallsForIsSum(k.calls, wid, w.order);
    CallSumIsBounded(cfg, k, wid, w.order);
  }
}
