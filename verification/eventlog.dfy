/** The event log tells how often each step was delegated, retried and given up. */
module EventLog {
  import opened Common
  import opened Types
  import opened Maestro
  import opened Runs
  import opened Operations
  import opened Lifetimes

  function EventCount(events: seq<Event>, wid: string, action: MaestroAction, subject: string): nat {
    if events == [] then 0
    else
      EventCount(events[..|events| - 1], wid, action, subject)
      + if events[|events| - 1] == Event(Some(wid), action, subject) then 1 else 0
  }

  lemma CountOne(events: seq<Event>, e: Event, wid: string, action: MaestroAction, subject: string)
    ensures EventCount(events + [e], wid, action, subject)
         == EventCount(events, wid, action, subject) + if e == Event(Some(wid), action, subject) then 1 else 0
  {
    assert (events + [e])[..|events|] == events;
  }

  /** How many observations of the workflow decided on this action; each of them emits one event. */
  function DecisionCount(decisions: seq<Decision>, wid: string, action: MaestroAction): nat {
    if decisions == [] then 0
    else
      var last := decisions[|decisions| - 1];
      DecisionCount(decisions[..|decisions| - 1], wid, action)
      + if last.WorkflowDecision? && last.id == wid && last.action == action then 1 else 0
  }

  lemma DecideOne(decisions: seq<Decision>, d: Decision, wid: string, action: MaestroAction)
    ensures DecisionCount(decisions + [d], wid, action)
         == DecisionCount(decisions, wid, action)
            + if d.WorkflowDecision? && d.id == wid && d.action == action then 1 else 0
  {
    assert (decisions + [d])[..|decisions|] == decisions;
  }

  // ---------- events that no observation of the workflow emits ----------

  /** The events about the subject, less those of the workflow's own decisions, which bear the workflow's id. */
  function Remaining(k: State, wid: string, subject: string, action: MaestroAction): int {
    EventCount(k.events, wid, action, subject) - if subject == wid then DecisionCount(k.decisions, wid, action) else 0
  }

  /** What happens from `k` to `t` is of no account for `wid`, except decisions on it as a whole. */
  ghost predicate Ignores(k: State, t: State, wid: string) {
    forall subject, action :: Remaining(t, wid, subject, action) == Remaining(k, wid, subject, action)
  }

  lemma IgnoresThrough(a: State, b: State, c: State, wid: string)
    requires Ignores(a, b, wid) && Ignores(b, c, wid)
    ensures Ignores(a, c, wid)
  {
  }

  lemma SameLogsIgnored(k: State, t: State, wid: string)
    requires t.events == k.events && t.decisions == k.decisions
    ensures Ignores(k, t, wid)
  {
  }

  /** An event that does not name the workflow. */
  lemma ForeignEventIgnored(k: State, t: State, e: Event, wid: string)
    requires t.events == k.events + [e] && t.decisions == k.decisions && e.workflowId != Some(wid)
    ensures Ignores(k, t, wid)
  {
    forall subject, action ensures Remaining(t, wid, subject, action) == Remaining(k, wid, subject, action) {
      CountOne(k.events, e, wid, action, subject);
    }
  }

  /** A decision on an agent or an edge. */
  lemma ForeignDecisionIgnored(k: State, t: State, d: Decision, wid: string)
    requires t.events == k.events && t.decisions == k.decisions + [d] && !d.WorkflowDecision?
    ensures Ignores(k, t, wid)
  {
    forall subject, action ensures Remaining(t, wid, subject, action) == Remaining(k, wid, subject, action) {
      DecideOne(k.decisions, d, wid, action);
    }
  }

  lemma ObserveAgentIgnored(cfg: Config, k: State, agentId: string, m: AgentTelemetry, wid: string)
    requires agentId in k.agents
    ensures Ignores(k, ObserveAgent(cfg, k, agentId, m), wid)
  {
    ForeignDecisionIgnored(
      k, ObserveAgent(cfg, k, agentId, m), AgentVerdict(cfg, k.agents[agentId], m, |k.decisions|), wid);
  }

  lemma HandoffIgnored(cfg: Config, k: State, source: string, target: string, h: HandoffTelemetry, wid: string)
    ensures Ignores(k, ObserveHandoff(cfg, k, source, target, h), wid)
  {
    var t := ObserveHandoff(cfg, k, source, target, h);
    var d := EdgeVerdict(cfg, EdgeId(source, target), EdgeBefore(k.edges, source, target), h, |k.decisions|);
    var s := k.(decisions := t.decisions);
    ForeignDecisionIgnored(k, s, d, wid);
    if EdgeEvents(d) == [] {
      SameLogsIgnored(s, t, wid);
    } else {
      ForeignEventIgnored(s, t, EdgeEvents(d)[0], wid);
    }
    IgnoresThrough(k, s, t, wid);
  }

  lemma {:induction false} HandoffsIgnored(
    cfg: Config, k: State, w: Workflow, deps: seq<string>, target: string, ok: bool, wid: string)
    requires forall d :: d in deps ==> d in w.steps
    ensures Ignores(k, ObserveDependencies(cfg, k, w, deps, target, ok), wid)
    decreases |deps|
  {
    if deps != [] {
      var source, h := w.steps[deps[0]].assignee, StepHandoffTelemetry(ok, w.plan.priority);
      var k1 := if source == "" then k else ObserveHandoff(cfg, k, source, target, h);
      HandoffIgnored(cfg, k, source, target, h, wid);
      HandoffsIgnored(cfg, k1, w, deps[1..], target, ok, wid);
      IgnoresThrough(k, k1, ObserveDependencies(cfg, k, w, deps, target, ok), wid);
    }
  }

  /** A decision on a workflow and its event cancel out. */
  lemma DecisionWithEventIgnored(k: State, t: State, d: Decision, wid: string)
    requires d.WorkflowDecision? && t.decisions == k.decisions + [d]
    requires t.events == k.events + [Event(Some(d.id), d.action, d.id)]
    ensures Ignores(k, t, wid)
  {
    forall subject, action ensures Remaining(t, wid, subject, action) == Remaining(k, wid, subject, action) {
      CountOne(k.events, Event(Some(d.id), d.action, d.id), wid, action, subject);
      DecideOne(k.decisions, d, wid, action);
    }
  }

  lemma WorkflowIgnored(cfg: Config, k: State, other: string, m: WorkflowTelemetry, wid: string)
    requires other in k.workflows && k.workflows[other].plan.id == other
    ensures Ignores(k, ObserveWorkflow(cfg, k, other, m), wid)
  {
    var d := WorkflowVerdict(cfg, k.workflows[other], m, |k.decisions|);
    DecisionWithEventIgnored(k, ObserveWorkflow(cfg, k, other, m), d, wid);
  }

  // ---------- one turn ----------

  /** After its execution, a turn adds no event about a step. */
  lemma TurnIgnored(cfg: Config, k: State, other: string, sid: string, agentId: string, wid: string)
    requires other in k.workflows && Known(k.workflows[other], sid) && agentId in k.agents
    requires k.workflows[other].plan.id == other
    ensures Ignores(RunStep(cfg, k, other, sid, agentId), TurnOn(cfg, k, other, sid, agentId), wid)
  {
    var k1 := RunStep(cfg, k, other, sid, agentId);
    RunStepFrame(cfg, k, other, sid, agentId);
    HandoffFrame(cfg, k1, other, sid);
    var w1 := k1.workflows[other];
    var s1 := w1.steps[sid];
    var k2 := ObserveStepHandoffs(cfg, k1, other, sid);
    HandoffsIgnored(cfg, k1, w1, s1.spec.dependsOn, s1.assignee, s1.state.Completed?, wid);
    WorkflowIgnored(cfg, k2, other, StepTelemetry(k2.workflows[other].steps, k2.workflows[other].plan.priority), wid);
    IgnoresThrough(k1, k2, TurnOn(cfg, k, other, sid, agentId), wid);
  }

  /** Events about a step beside those of its own execution. */
  type Extra = (string, MaestroAction) -> nat

  /** How many events of this kind the executions of a step emit. */
  function OwnEvents(s: Step, action: MaestroAction): nat {
    match action
    case Delegate => s.attempts
    case Retry => if s.state.Pending? || s.attempts == 0 then s.attempts else s.attempts - 1
    case Reroute => if s.state.Failed? then 1 else 0
    case _ => 0
  }

  ghost predicate Faithful(k: State, wid: string, extra: Extra) {
    && wid in k.workflows
    && forall id, action :: id in k.workflows[wid].steps ==>
                              Remaining(k, wid, id, action)
                              == OwnEvents(k.workflows[wid].steps[id], action) + extra(id, action)
  }

  /** How many events of this kind an execution that leaves the record `s` emits. */
  function OwnNext(s: Step, action: MaestroAction): nat {
    match action
    case Delegate => 1
    case Retry => if s.state.Pending? then 1 else 0
    case Reroute => if s.state.Failed? then 1 else 0
    case _ => 0
  }

  lemma ExecutionEvents(events: seq<Event>, wid: string, sid: string, s: Step, id: string, action: MaestroAction)
    ensures EventCount(events + [Event(Some(wid), Delegate, sid)] + ClosingEvents(wid, sid, s), wid, action, id)
         == EventCount(events, wid, action, id) + if id == sid then OwnNext(s, action) else 0
  {
    var started, closing := Event(Some(wid), Delegate, sid), ClosingEvents(wid, sid, s);
    CountOne(events, started, wid, action, id);
    if closing != [] {
      CountOne(events + [started], closing[0], wid, action, id);
      assert events + [started] + closing == events + [started] + [closing[0]];
    } else {
      assert events + [started] + closing == events + [started];
    }
  }

  /** What an execution of `sid` adds to the events about a step. */
  lemma RunStepRemaining(
    cfg: Config, k: State, wid: string, sid: string, agentId: string, id: string, action: MaestroAction)
    requires wid in k.workflows && Known(k.workflows[wid], sid) && agentId in k.agents
    ensures Remaining(RunStep(cfg, k, wid, sid, agentId), wid, id, action)
         == Remaining(k, wid, id, action) + if id == sid then OwnNext(Ran(cfg, k, wid, sid, agentId), action) else 0
  {
    var s, t := Ran(cfg, k, wid, sid, agentId), RunStep(cfg, k, wid, sid, agentId);
    var streak, priority := k.agents[agentId].failureStreak, k.workflows[wid].plan.priority;
    var m := ExecutionTelemetry(cfg, |k.calls|, streak, priority);
    var k1 := k.(events := t.events);
    ExecutionEvents(k.events, wid, sid, s, id, action);
    ForeignDecisionIgnored(k1, t, AgentVerdict(cfg, k.agents[agentId], m, |k.decisions|), wid);
    assert Remaining(t, wid, id, action) == Remaining(k1, wid, id, action);
  }

  /** The record counts the execution that it went through. */
  lemma OwnEventsNext(p: Policy, s: Step, agentId: string, r: TaskResult, action: MaestroAction)
    requires s.state.Pending?
    ensures OwnEvents(StepAfter(p, s, agentId, r), action)
         == OwnEvents(s, action) + OwnNext(StepAfter(p, s, agentId, r), action)
  {
  }

  lemma TurnFaithful(cfg: Config, k: State, wid: string, sid: string, agentId: string, extra: Extra)
    requires AtTurn(k, wid, sid) && agentId in k.agents && Faithful(k, wid, extra)
    ensures Faithful(TurnOn(cfg, k, wid, sid, agentId), wid, extra)
  {
    TurnOnEffect(cfg, k, wid, sid, agentId);
    TurnIgnored(cfg, k, wid, sid, agentId, wid);
    var t := TurnOn(cfg, k, wid, sid, agentId);
    forall id, action | id in t.workflows[wid].steps
      ensures Remaining(t, wid, id, action) == OwnEvents(t.workflows[wid].steps[id], action) + extra(id, action)
    {
      TurnRemaining(cfg, k, wid, sid, agentId, id, action, t.workflows[wid]);
      assert Remaining(t, wid, id, action) == Remaining(RunStep(cfg, k, wid, sid, agentId), wid, id, action);
    }
  }

  lemma TurnRemaining(
    cfg: Config, k: State, wid: string, sid: string, agentId: string, id: string, action: MaestroAction, w: Workflow)
    requires AtTurn(k, wid, sid) && agentId in k.agents && id in k.workflows[wid].steps
    requires OneStepChanged(k.workflows[wid], w, sid, Ran(cfg, k, wid, sid, agentId))
    ensures id in w.steps
    ensures Remaining(RunStep(cfg, k, wid, sid, agentId), wid, id, action) - OwnEvents(w.steps[id], action)
         == Remaining(k, wid, id, action) - OwnEvents(k.workflows[wid].steps[id], action)
  {
    RunStepRemaining(cfg, k, wid, sid, agentId, id, action);
    OwnEventsNext(cfg.policy, k.workflows[wid].steps[sid], agentId, cfg.results(|k.calls|), action);
  }

  lemma IgnoredFaithful(k: State, t: State, wid: string, extra: Extra)
    requires Faithful(k, wid, extra) && Ignores(k, t, wid)
    requires wid in t.workflows && t.workflows[wid].steps == k.workflows[wid].steps
    ensures Faithful(t, wid, extra)
  {
  }

  // ---------- one run ----------

  lemma LoopLogged(cfg: Config, k: State, wid: string, extra: Extra)
    requires Valid(k) && wid in k.workflows && Faithful(Started(k, wid), wid, extra)
    ensures Faithful(RunSteps(cfg, Started(k, wid), wid).state, wid, extra)
  {
    StartedValid(k, wid);
    var inv := (s: State) => Faithful(s, wid, extra);
    forall s: State, sid: string | AtTurn(s, wid, sid) && inv(s)
      ensures inv(Turn(cfg, s, wid, sid).state)
    {
      TurnEffect(cfg, s, wid, sid);
      var a := Assigned(cfg, s, wid, sid);
      if a.Success? {
        TurnFaithful(cfg, s, wid, sid, a.value, extra);
      }
    }
    RunInduction(cfg, Started(k, wid), wid, inv);
  }

  /** The start of a run is one more DELEGATE event about the workflow's own id. */
  lemma StartFaithful(cfg: Config, k: State, wid: string, a: Extra, b: Extra)
    requires Faithful(k, wid, a)
    requires forall id, action :: b(id, action) == a(id, action) + if id == wid && action == Delegate then 1 else 0
    ensures Faithful(Started(k, wid), wid, b)
  {
    var t := Started(k, wid);
    forall id, action | id in t.workflows[wid].steps
      ensures Remaining(t, wid, id, action) == OwnEvents(t.workflows[wid].steps[id], action) + b(id, action)
    {
      CountOne(k.events, Event(Some(wid), Delegate, wid), wid, action, id);
    }
  }

  lemma RunLogged(cfg: Config, k: State, wid: string, a: Extra, b: Extra)
    requires Valid(k) && Faithful(k, wid, a) && cfg.hasRuntime
    requires forall id, action :: b(id, action) == a(id, action) + if id == wid && action == Delegate then 1 else 0
    ensures Faithful(RunWorkflow(cfg, k, wid).state, wid, b)
  {
    StartedValid(k, wid);
    StartFaithful(cfg, k, wid, a, b);
    LoopLogged(cfg, k, wid, b);
    LoopValid(cfg, k, wid);
    var s := RunSteps(cfg, Started(k, wid), wid);
    if s.outcome.Quiescent? {
      var w := s.state.workflows[wid];
      ObserveFromStepsFrame(cfg, s.state, wid);
      WorkflowIgnored(cfg, s.state, wid, StepTelemetry(w.steps, w.plan.priority), wid);
      IgnoredFaithful(s.state, ObserveFromSteps(cfg, s.state, wid), wid, b);
    }
  }

  // ---------- one operation ----------

  lemma OtherStepIgnored(cfg: Config, k: State, other: string, sid: string, agentId: string, wid: string)
    requires other in k.workflows && Known(k.workflows[other], sid) && agentId in k.agents && wid != other
    ensures Ignores(k, RunStep(cfg, k, other, sid, agentId), wid)
  {
    var t := RunStep(cfg, k, other, sid, agentId);
    var closing := ClosingEvents(other, sid, Ran(cfg, k, other, sid, agentId));
    var streak, priority := k.agents[agentId].failureStreak, k.workflows[other].plan.priority;
    var m := ExecutionTelemetry(cfg, |k.calls|, streak, priority);
    var k1 := k.(events := k.events + [Event(Some(other), Delegate, sid)]);
    var k2 := k1.(events := k1.events + closing);
    ForeignEventIgnored(k, k1, Event(Some(other), Delegate, sid), wid);
    if closing == [] {
      SameLogsIgnored(k1, k2, wid);
    } else {
      ForeignEventIgnored(k1, k2, closing[0], wid);
    }
    ForeignDecisionIgnored(k2, t, AgentVerdict(cfg, k.agents[agentId], m, |k.decisions|), wid);
  }

  lemma OtherTurnIgnored(cfg: Config, k: State, other: string, sid: string, wid: string)
    requires AtTurn(k, other, sid) && wid != other
    ensures Ignores(k, Turn(cfg, k, other, sid).state, wid)
  {
    TurnEffect(cfg, k, other, sid);
    var a := Assigned(cfg, k, other, sid);
    if a.Success? {
      OtherStepIgnored(cfg, k, other, sid, a.value, wid);
      TurnIgnored(cfg, k, other, sid, a.value, wid);
    } else {
      SameLogsIgnored(k, Turn(cfg, k, other, sid).state, wid);
    }
  }

  lemma OtherLoopIgnored(cfg: Config, k: State, other: string, wid: string)
    requires Valid(k) && wid != other && other in k.workflows
    ensures Ignores(k, RunSteps(cfg, Started(k, other), other).state, wid)
  {
    StartedValid(k, other);
    ForeignEventIgnored(k, Started(k, other), Event(Some(other), Delegate, other), wid);
    var inv := (s: State) => Ignores(k, s, wid);
    forall s: State, sid: string | AtTurn(s, other, sid) && inv(s)
      ensures inv(Turn(cfg, s, other, sid).state)
    {
      OtherTurnIgnored(cfg, s, other, sid, wid);
      IgnoresThrough(k, s, Turn(cfg, s, other, sid).state, wid);
    }
    RunInduction(cfg, Started(k, other), other, inv);
  }

  lemma OtherRunIgnored(cfg: Config, k: State, other: string, wid: string)
    requires Valid(k) && wid != other
    ensures Ignores(k, RunWorkflow(cfg, k, other).state, wid)
  {
    if cfg.hasRuntime && other in k.workflows {
      StartedValid(k, other);
      OtherLoopIgnored(cfg, k, other, wid);
      LoopValid(cfg, k, other);
      var s := RunSteps(cfg, Started(k, other), other).state;
      var w := s.workflows[other];
      WorkflowIgnored(cfg, s, other, StepTelemetry(w.steps, w.plan.priority), wid);
      IgnoresThrough(k, s, ObserveFromSteps(cfg, s, other), wid);
    } else {
      SameLogsIgnored(k, RunWorkflow(cfg, k, other).state, wid);
    }
  }

  lemma TaskIgnored(cfg: Config, k: State, op: Op, wid: string)
    requires Valid(k) && op.DoTask?
    ensures Ignores(k, Apply(cfg, k, op), wid)
  {
    TaskAgentIsEligible(cfg, k, op.capability);
    var r := TaskAgent(cfg, k, op.capability);
    if r.Success? {
      var k1 := k.(calls := k.calls + [Call(r.value, DirectTask(op.taskId, op.capability, op.priority))]);
      SameLogsIgnored(k, k1, wid);
      var m := DirectTelemetry(cfg, |k.calls|, k.agents[r.value].failureStreak, op.priority);
      ObserveAgentIgnored(cfg, k1, r.value, m, wid);
      IgnoresThrough(k, k1, ObserveAgent(cfg, k1, r.value, m), wid);
    } else {
      SameLogsIgnored(k, k, wid);
    }
  }

  /** Only its own runs and interventions on it log anything about the steps of a workflow. */
  lemma OperationIgnored(cfg: Config, k: State, op: Op, wid: string)
    requires Valid(k) && !(op.RunPlan? && op.wid == wid) && !(op.Intervention? && op.wid == wid)
    ensures Ignores(k, Apply(cfg, k, op), wid)
  {
    SameLogsIgnored(k, k, wid);
    match op
    case AddAgent(spec, initial) => SameLogsIgnored(k, Apply(cfg, k, op), wid);
    case AgentMetrics(id, m) => if id in k.agents { ObserveAgentIgnored(cfg, k, id, m, wid); }
    case DoTask(taskId, capability, priority) => TaskIgnored(cfg, k, op, wid);
    case HandoffMetrics(source, target, h) => HandoffIgnored(cfg, k, source, target, h, wid);
    case NewPlan(plan) =>
      if plan.id !in k.workflows {
        ForeignEventIgnored(k, CreateWorkflow(k, plan), Event(None, MaestroAction.Observe, plan.id), wid);
      }
    case PlanMetrics(other, t) => if other in k.workflows { WorkflowIgnored(cfg, k, other, t, wid); }
    case RunPlan(other) => OtherRunIgnored(cfg, k, other, wid);
    case Intervention(other, action, subject) =>
      if other in k.workflows {
        ForeignEventIgnored(k, Intervene(k, other, action, subject), Event(Some(other), action, subject), wid);
      }
  }

  /** How many runs of the workflow were started. */
  function Starts(cfg: Config, ops: seq<Op>, wid: string): nat {
    if ops == [] then 0
    else
      var front := ops[..|ops| - 1];
      Starts(cfg, front, wid)
      + if ops[|ops| - 1] == RunPlan(wid) && cfg.hasRuntime && wid in Reached(cfg, front).workflows then 1 else 0
  }

  /** How many interventions on the existing workflow name this subject with this action. */
  function Claims(cfg: Config, ops: seq<Op>, wid: string, subject: string, action: MaestroAction): nat {
    if ops == [] then 0
    else
      var front := ops[..|ops| - 1];
      Claims(cfg, front, wid, subject, action)
      + if ops[|ops| - 1] == Intervention(wid, action, subject) && wid in Reached(cfg, front).workflows then 1 else 0
  }

  /** The events about a subject that neither its executions nor decisions on the workflow emit. */
  function Announcements(cfg: Config, ops: seq<Op>, wid: string, subject: string, action: MaestroAction): nat {
    Claims(cfg, ops, wid, subject, action)
    + if subject == wid && action == Delegate then Starts(cfg, ops, wid) else 0
  }

  function Announced(cfg: Config, ops: seq<Op>, wid: string): Extra {
    (subject: string, action: MaestroAction) => Announcements(cfg, ops, wid, subject, action)
  }

  lemma SameExtra(k: State, wid: string, a: Extra, b: Extra)
    requires Faithful(k, wid, a) && forall id, action :: a(id, action) == b(id, action)
    ensures Faithful(k, wid, b)
  {
  }

  lemma InterventionFaithful(k: State, wid: string, action: MaestroAction, subject: string, a: Extra, b: Extra)
    requires Faithful(k, wid, a)
    requires forall id, x :: b(id, x) == a(id, x) + if id == subject && x == action then 1 else 0
    ensures Faithful(Intervene(k, wid, action, subject), wid, b)
  {
    var t := Intervene(k, wid, action, subject);
    forall id, x | id in t.workflows[wid].steps
      ensures Remaining(t, wid, id, x) == OwnEvents(t.workflows[wid].steps[id], x) + b(id, x)
    {
      CountOne(k.events, Event(Some(wid), action, subject), wid, x, id);
    }
  }

  // ---------- every reachable state ----------

  lemma StaysKnown(cfg: Config, k: State, op: Op, wid: string)
    requires Valid(k)
    ensures wid in k.workflows ==> wid in Apply(cfg, k, op).workflows
  {
    if wid in k.workflows {
      if op == RunPlan(wid) {
        RunAddsNoWorkflow(cfg, k, wid);
      } else {
        OperationBypasses(cfg, k, op, wid);
      }
    }
  }

  /** Before a workflow exists nothing is logged about it. */
  lemma {:induction false} NothingBefore(cfg: Config, ops: seq<Op>, wid: string, subject: string, action: MaestroAction)
    requires wid !in Reached(cfg, ops).workflows
    ensures Remaining(Reached(cfg, ops), wid, subject, action) == 0
    ensures Claims(cfg, ops, wid, subject, action) == 0 && Starts(cfg, ops, wid) == 0
    decreases |ops|
  {
    if ops != [] {
      var front, op := ops[..|ops| - 1], ops[|ops| - 1];
      StaysKnown(cfg, Reached(cfg, front), op, wid);
      NothingBefore(cfg, front, wid, subject, action);
      UnknownIgnored(cfg, Reached(cfg, front), op, wid);
    }
  }

  lemma UnknownIgnored(cfg: Config, k: State, op: Op, wid: string)
    requires Valid(k) && wid !in k.workflows
    ensures Ignores(k, Apply(cfg, k, op), wid)
  {
    if (op.RunPlan? || op.Intervention?) && op.wid == wid {
      SameLogsIgnored(k, Apply(cfg, k, op), wid);
    } else {
      OperationIgnored(cfg, k, op, wid);
    }
  }

  lemma CreatedFaithful(k: State, plan: Plan, extra: Extra)
    requires plan.id !in k.workflows
    requires forall id, action :: Remaining(k, plan.id, id, action) == extra(id, action) == 0
    ensures Faithful(CreateWorkflow(k, plan), plan.id, extra)
  {
    var t := CreateWorkflow(k, plan);
    NewWorkflowListed(plan);
    ForeignEventIgnored(k, t, Event(None, MaestroAction.Observe, plan.id), plan.id);
  }

  lemma CreationReached(cfg: Config, front: seq<Op>, op: Op, wid: string)
    requires wid !in Reached(cfg, front).workflows && wid in Apply(cfg, Reached(cfg, front), op).workflows
    ensures Faithful(Apply(cfg, Reached(cfg, front), op), wid, Announced(cfg, front, wid))
  {
    var k := Reached(cfg, front);
    AddsAtMostThePlan(cfg, k, op, wid);
    forall id, action ensures Remaining(k, wid, id, action) == Announced(cfg, front, wid)(id, action) == 0 {
      NothingBefore(cfg, front, wid, id, action);
    }
    CreatedFaithful(k, op.plan, Announced(cfg, front, wid));
  }

  ghost predicate StartsRun(cfg: Config, k: State, op: Op, wid: string) {
    op == RunPlan(wid) && cfg.hasRuntime && wid in k.workflows
  }

  /** One more operation adds a claim or a start exactly if it is an intervention on the workflow or a run of it. */
  lemma AnnouncedNext(cfg: Config, front: seq<Op>, op: Op, wid: string, id: string, action: MaestroAction)
    ensures Announcements(cfg, front + [op], wid, id, action)
         == Announcements(cfg, front, wid, id, action)
            + (if op == Intervention(wid, action, id) && wid in Reached(cfg, front).workflows then 1 else 0)
            + (if StartsRun(cfg, Reached(cfg, front), op, wid) && id == wid && action == Delegate then 1 else 0)
  {
    assert (front + [op])[..|front|] == front;
  }

  lemma OperationFaithful(cfg: Config, k: State, op: Op, wid: string, a: Extra, b: Extra)
    requires Valid(k) && Faithful(k, wid, a)
    requires forall id, action ::
               b(id, action)
               == a(id, action)
               + (if op == Intervention(wid, action, id) then 1 else 0)
               + (if StartsRun(cfg, k, op, wid) && id == wid && action == Delegate then 1 else 0)
    ensures Faithful(Apply(cfg, k, op), wid, b)
  {
    if op.Intervention? && op.wid == wid {
      InterventionFaithful(k, wid, op.action, op.subject, a, b);
    } else if StartsRun(cfg, k, op, wid) {
      RunLogged(cfg, k, wid, a, b);
    } else {
      SameExtra(k, wid, a, b);
      if op == RunPlan(wid) {
        SameLogsIgnored(k, Apply(cfg, k, op), wid);
      } else {
        OperationBypasses(cfg, k, op, wid);
        OperationIgnored(cfg, k, op, wid);
      }
      IgnoredFaithful(k, Apply(cfg, k, op), wid, b);
    }
  }

  lemma NextFaithful(cfg: Config, front: seq<Op>, op: Op, wid: string)
    requires var k := Reached(cfg, front); wid in k.workflows ==> Faithful(k, wid, Announced(cfg, front, wid))
    requires wid in Apply(cfg, Reached(cfg, front), op).workflows
    ensures Faithful(Apply(cfg, Reached(cfg, front), op), wid, Announced(cfg, front + [op], wid))
  {
    var k, a, b := Reached(cfg, front), Announced(cfg, front, wid), Announced(cfg, front + [op], wid);
    forall id, action
      ensures b(id, action)
           == a(id, action)
              + (if op == Intervention(wid, action, id) && wid in k.workflows then 1 else 0)
              + (if StartsRun(cfg, k, op, wid) && id == wid && action == Delegate then 1 else 0)
    {
      AnnouncedNext(cfg, front, op, wid, id, action);
    }
    if wid in k.workflows {
      OperationFaithful(cfg, k, op, wid, a, b);
    } else {
      CreationReached(cfg, front, op, wid);
      SameExtra(Apply(cfg, k, op), wid, a, b);
    }
  }

  lemma {:induction false} ReachedFaithful(cfg: Config, ops: seq<Op>, wid: string)
    ensures wid in Reached(cfg, ops).workflows ==> Faithful(Reached(cfg, ops), wid, Announced(cfg, ops, wid))
    decreases |ops|
  {
    if ops != [] && wid in Reached(cfg, ops).workflows {
      var front, op := ops[..|ops| - 1], ops[|ops| - 1];
      assert ops == front + [op];
      ReachedFaithful(cfg, front, wid);
      NextFaithful(cfg, front, op, wid);
    }
  }

  // ---------- main results ----------

  /** The log holds the events of the step's own executions and these others, of each action. */
  ghost predicate Told(events: seq<Event>, wid: string, id: string, s: Step, extra: Extra) {
    forall action :: EventCount(events, wid, action, id) == OwnEvents(s, action) + extra(id, action)
  }

  /**
    How many events about a subject its executions do not emit: interventions that name it, and for the workflow's own
    id the starts of its runs and the decisions on it.
   */
  function BesideCount(cfg: Config, ops: seq<Op>, wid: string, subject: string, action: MaestroAction): nat {
    Announcements(cfg, ops, wid, subject, action)
    + if subject == wid then DecisionCount(Reached(cfg, ops).decisions, wid, action) else 0
  }

  function Beside(cfg: Config, ops: seq<Op>, wid: string): Extra {
    (subject: string, action: MaestroAction) => BesideCount(cfg, ops, wid, subject, action)
  }

  /**
    In every reachable state the DELEGATE events of a step number its attempts, its RETRY events its attempts, less one
    once it is terminal, and it has one REROUTE event if failed and no event else; beside these the log holds only
    interventions that name the step and, if the step has the id of its workflow, the starts of runs and decisions.
   */
  lemma LogIsFaithful(cfg: Config, ops: seq<Op>, wid: string, id: string)
    requires wid in Reached(cfg, ops).workflows && id in Reached(cfg, ops).workflows[wid].steps
    ensures var k := Reached(cfg, ops);
            Told(k.events, wid, id, k.workflows[wid].steps[id], Beside(cfg, ops, wid))
  {
    ReachedFaithful(cfg, ops, wid);
    var k := Reached(cfg, ops);
    forall action
      ensures EventCount(k.events, wid, action, id)
           == OwnEvents(k.workflows[wid].steps[id], action) + Beside(cfg, ops, wid)(id, action)
    {
      assert Remaining(k, wid, id, action)
          == OwnEvents(k.workflows[wid].steps[id], action) + Announced(cfg, ops, wid)(id, action);
    }
  }

  function NoExtra(): Extra {
    (subject: string, action: MaestroAction) => 0
  }

  lemma ToldAlone(events: seq<Event>, wid: string, id: string, s: Step, extra: Extra)
    requires Told(events, wid, id, s, extra)
    ensures Told(events, wid, id, s, NoExtra()) <==> forall action :: extra(id, action) == 0
  {
  }

  /** No intervention named the step, and if it has the workflow's id no run was started and nothing decided. */
  ghost predicate NothingElseLogged(cfg: Config, ops: seq<Op>, wid: string, id: string) {
    && (forall action :: Claims(cfg, ops, wid, id, action) == 0)
    && (id == wid ==>
          && Starts(cfg, ops, wid) == 0
          && forall action :: DecisionCount(Reached(cfg, ops).decisions, wid, action) == 0)
  }

  lemma BesideNothing(cfg: Config, ops: seq<Op>, wid: string, id: string)
    ensures (forall action :: Beside(cfg, ops, wid)(id, action) == 0) <==> NothingElseLogged(cfg, ops, wid, id)
  {
    if forall action :: Beside(cfg, ops, wid)(id, action) == 0 {
      forall action
        ensures Claims(cfg, ops, wid, id, action) == 0
        ensures id == wid ==> DecisionCount(Reached(cfg, ops).decisions, wid, action) == 0
      {
        assert Beside(cfg, ops, wid)(id, action) == BesideCount(cfg, ops, wid, id, action) == 0;
      }
      assert Beside(cfg, ops, wid)(id, Delegate) == BesideCount(cfg, ops, wid, id, Delegate) == 0;
    }
  }

  /** So the log tells of executions alone exactly when nothing else was logged under the id of the step. */
  lemma LogTellsExecutionsAlone(cfg: Config, ops: seq<Op>, wid: string, id: string)
    requires wid in Reached(cfg, ops).workflows && id in Reached(cfg, ops).workflows[wid].steps
    ensures var k := Reached(cfg, ops);
            Told(k.events, wid, id, k.workflows[wid].steps[id], NoExtra()) <==> NothingElseLogged(cfg, ops, wid, id)
  {
    var k := Reached(cfg, ops);
    LogIsFaithful(cfg, ops, wid, id);
    ToldAlone(k.events, wid, id, k.workflows[wid].steps[id], Beside(cfg, ops, wid));
    BesideNothing(cfg, ops, wid, id);
  }

  /** A plan whose one step has the plan's own id. */
  function Namesake(id: string): Plan {
    Plan(id, [StepSpec(id, "", [], "", 0)], 0.0)
  }

  lemma NamesakeCreated(id: string)
    ensures Valid(CreateWorkflow(EMPTY, Namesake(id)))
    ensures var w := NewWorkflow(Namesake(id));
            w.steps == map[id := NewStep(Namesake(id).steps[0])] && w.order == [id]
  {
    var specs := Namesake(id).steps;
    CreateWorkflowValid(EMPTY, Namesake(id));
    var steps: map<string, Step> := map[id := NewStep(specs[0])];
    assert specs[1..] == [] && map[][id := NewStep(specs[0])] == steps;
    assert BuildSteps([], steps, [id]) == (steps, [id]);
    assert BuildSteps(specs, map[], []) == BuildSteps(specs[1..], steps, [] + [id]);
  }

  lemma NamesakeRaises(cfg: Config, id: string, s: State)
    requires Valid(s) && id in s.workflows && s.roster == []
    requires s.workflows[id].steps == map[id := NewStep(Namesake(id).steps[0])] && s.workflows[id].order == [id]
    ensures RunSteps(cfg, s, id) == Progress(s, Raised(NoActiveAgent("")))
  {
    var steps := s.workflows[id].steps;
    assert DependenciesMet(steps, []) == Success(true);
    var order, none: seq<string> := [id], [];
    assert order[1..] == none && order + none == order && ReadySteps(steps, none) == Success(none);
    assert ReadySteps(steps, order) == Success(order);
    assert AssignAgent(cfg.policy, s, steps[id].spec) == Failure(NoActiveAgent(""));
  }

  lemma NamesakeStarts(cfg: Config, id: string)
    requires cfg.hasRuntime
    ensures var k := CreateWorkflow(EMPTY, Namesake(id));
            Valid(k) && RunWorkflow(cfg, k, id).state == Started(k, id)
  {
    NamesakeCreated(id);
    StartedValid(CreateWorkflow(EMPTY, Namesake(id)), id);
    NamesakeRaises(cfg, id, Started(CreateWorkflow(EMPTY, Namesake(id)), id));
  }

  lemma ReachedByTwo(cfg: Config, a: Op, b: Op)
    ensures Valid(Apply(cfg, EMPTY, a)) && Reached(cfg, [a, b]) == Apply(cfg, Apply(cfg, EMPTY, a), b)
  {
    ApplyValid(cfg, EMPTY, a);
    ReachedNext(cfg, [], a);
    ReachedNext(cfg, [a], b);
    assert [] + [a] == [a] && [a] + [b] == [a, b];
  }

  lemma NamesakeReached(cfg: Config, id: string)
    requires cfg.hasRuntime
    ensures Reached(cfg, [NewPlan(Namesake(id)), RunPlan(id)]) == Started(CreateWorkflow(EMPTY, Namesake(id)), id)
  {
    NamesakeStarts(cfg, id);
    ReachedByTwo(cfg, NewPlan(Namesake(id)), RunPlan(id));
  }

  lemma FirstStartCounted(plan: Plan)
    ensures EventCount(Started(CreateWorkflow(EMPTY, plan), plan.id).events, plan.id, Delegate, plan.id) == 1
  {
    var created, started := Event(None, MaestroAction.Observe, plan.id), Event(Some(plan.id), Delegate, plan.id);
    CountOne([], created, plan.id, Delegate, plan.id);
    CountOne([created], started, plan.id, Delegate, plan.id);
    assert CreateWorkflow(EMPTY, plan).events == [created] && [] + [created] == [created];
  }

  lemma StartKeepsSteps(k: State, wid: string)
    requires wid in k.workflows
    ensures wid in Started(k, wid).workflows && Started(k, wid).workflows[wid].steps == k.workflows[wid].steps
  {
  }

  /** The start of a run is logged like an attempt of a step with the workflow's id: here there is none yet. */
  lemma NamesakeIsDelegated(cfg: Config, id: string)
    requires cfg.hasRuntime
    ensures var k := Reached(cfg, [NewPlan(Namesake(id)), RunPlan(id)]);
            && id in k.workflows && id in k.workflows[id].steps
            && k.workflows[id].steps[id].attempts == 0 && EventCount(k.events, id, Delegate, id) == 1
  {
    NamesakeReached(cfg, id);
    NamesakeCreated(id);
    StartKeepsSteps(CreateWorkflow(EMPTY, Namesake(id)), id);
    FirstStartCounted(Namesake(id));
  }
}
