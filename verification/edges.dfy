/** When the ids of handoff edges tell the pairs of agents apart. */
module Edges {
  import opened Common
  import opened Types
  import opened Maestro
  import opened Runs
  import opened Operations

  /** The pairs share an id by an arrow that an agent id contains. */
  ghost predicate Bridges(a: string, b: string, c: string, d: string) {
    exists x :: c == EdgeId(a, x) && b == EdgeId(x, d)
  }

  lemma IdAround(a: string, x: string, d: string)
    ensures EdgeId(a, EdgeId(x, d)) == EdgeId(EdgeId(a, x), d)
  {
    assert a + "->" + (x + "->" + d) == (a + "->" + x) + "->" + d;
  }

  lemma BridgeFound(a: string, b: string, c: string, d: string)
    requires EdgeId(a, b) == EdgeId(c, d) && |a| < |c|
    ensures Bridges(a, b, c, d)
  {
    var id := EdgeId(a, b);
    assert id[|a|] == '-' && id[|a| + 1] == '>' && id[|c|] == '-' && id[|c| + 1] == '>';
    assert |a| + 2 <= |c|;
    var x := c[|a| + 2..];
    assert a == id[..|a|] && c == id[..|c|] && b == id[|a| + 2..] && d == id[|c| + 2..];
    assert c == a + id[|a|..|a| + 2] + x && id[|a|..|a| + 2] == "->";
    assert b == x + id[|c|..|c| + 2] + d && id[|c|..|c| + 2] == "->";
    assert c == EdgeId(a, x) && b == EdgeId(x, d);
  }

  /** Two pairs share an edge id exactly if they are the same pair or one arrow of the id is taken for another. */
  lemma CollideExactly(a: string, b: string, c: string, d: string)
    ensures EdgeId(a, b) == EdgeId(c, d) <==> (a == c && b == d) || Bridges(a, b, c, d) || Bridges(c, d, a, b)
  {
    if Bridges(a, b, c, d) {
      var x :| c == EdgeId(a, x) && b == EdgeId(x, d);
      IdAround(a, x, d);
    }
    if Bridges(c, d, a, b) {
      var x :| a == EdgeId(c, x) && d == EdgeId(x, b);
      IdAround(c, x, b);
    }
    if EdgeId(a, b) == EdgeId(c, d) {
      if |a| < |c| {
        BridgeFound(a, b, c, d);
      } else if |c| < |a| {
        BridgeFound(c, d, a, b);
      } else {
        assert a == EdgeId(a, b)[..|a|] && c == EdgeId(c, d)[..|c|];
        assert b == EdgeId(a, b)[|a| + 2..] && d == EdgeId(c, d)[|c| + 2..];
      }
    }
  }

  /** Distinct pairs of these agents have distinct edges. */
  ghost predicate ToldApart(ids: set<string>) {
    forall a, b, c, d :: a in ids && b in ids && c in ids && d in ids && EdgeId(a, b) == EdgeId(c, d) ==>
                           a == c && b == d
  }

  ghost predicate Bridgeless(ids: set<string>) {
    forall a, b, c, d :: a in ids && b in ids && c in ids && d in ids ==> !Bridges(a, b, c, d)
  }

  predicate HasArrow(id: string) {
    exists i :: 0 <= i < |id| - 1 && id[i] == '-' && id[i + 1] == '>'
  }

  lemma BridgeIsLonger(a: string, b: string, c: string, d: string)
    requires Bridges(a, b, c, d)
    ensures |a| < |c| && HasArrow(c)
  {
    var x :| c == EdgeId(a, x) && b == EdgeId(x, d);
    assert c[|a|] == '-' && c[|a| + 1] == '>';
  }

  /** So edges tell the pairs of a set of agents apart exactly if no agent bridges two others of it. */
  lemma ToldApartExactly(ids: set<string>)
    ensures ToldApart(ids) <==> Bridgeless(ids)
  {
    forall a, b, c, d
      ensures EdgeId(a, b) == EdgeId(c, d) <==> (a == c && b == d) || Bridges(a, b, c, d) || Bridges(c, d, a, b)
    {
      CollideExactly(a, b, c, d);
    }
    if ToldApart(ids) {
      forall a, b, c, d | a in ids && b in ids && c in ids && d in ids ensures !Bridges(a, b, c, d) {
        if Bridges(a, b, c, d) {
          BridgeIsLonger(a, b, c, d);
        }
      }
    }
  }

  /** Ids without an arrow never collide. */
  lemma ArrowlessAreToldApart(ids: set<string>)
    requires forall id :: id in ids ==> !HasArrow(id)
    ensures ToldApart(ids)
  {
    forall a, b, c, d | a in ids && b in ids && c in ids && d in ids ensures !Bridges(a, b, c, d) {
      if Bridges(a, b, c, d) {
        BridgeIsLonger(a, b, c, d);
      }
    }
    ToldApartExactly(ids);
  }

  // ---------- the edges of every reachable state ----------

  /** Every edge stands under the id of its own pair. */
  ghost predicate EdgesNamed(k: State) {
    forall id :: id in k.edges ==> EdgeId(k.edges[id].source, k.edges[id].target) == id
  }

  lemma HandoffNamed(cfg: Config, k: State, source: string, target: string, h: HandoffTelemetry)
    requires EdgesNamed(k)
    ensures EdgesNamed(ObserveHandoff(cfg, k, source, target, h))
  {
    var e := EdgeBefore(k.edges, source, target);
    assert EdgeId(e.source, e.target) == EdgeId(source, target);
  }

  lemma {:induction false} HandoffsNamed(
    cfg: Config, k: State, w: Workflow, deps: seq<string>, target: string, ok: bool)
    requires EdgesNamed(k) && forall d :: d in deps ==> d in w.steps
    ensures EdgesNamed(ObserveDependencies(cfg, k, w, deps, target, ok))
    decreases |deps|
  {
    if deps != [] {
      var source, h := w.steps[deps[0]].assignee, StepHandoffTelemetry(ok, w.plan.priority);
      var k1 := if source == "" then k else ObserveHandoff(cfg, k, source, target, h);
      HandoffNamed(cfg, k, source, target, h);
      HandoffsNamed(cfg, k1, w, deps[1..], target, ok);
    }
  }

  lemma TurnNamed(cfg: Config, k: State, wid: string, sid: string)
    requires AtTurn(k, wid, sid) && EdgesNamed(k)
    ensures EdgesNamed(Turn(cfg, k, wid, sid).state)
  {
    TurnEffect(cfg, k, wid, sid);
    var a := Assigned(cfg, k, wid, sid);
    if a.Success? {
      TurnOnNamed(cfg, k, wid, sid, a.value);
    }
  }

  lemma TurnOnNamed(cfg: Config, k: State, wid: string, sid: string, agentId: string)
    requires wid in k.workflows && Known(k.workflows[wid], sid) && agentId in k.agents && EdgesNamed(k)
    ensures EdgesNamed(TurnOn(cfg, k, wid, sid, agentId))
  {
    var k1 := RunStep(cfg, k, wid, sid, agentId);
    assert k1.edges == k.edges;
    RunStepFrame(cfg, k, wid, sid, agentId);
    HandoffFrame(cfg, k1, wid, sid);
    var w, s := k1.workflows[wid], k1.workflows[wid].steps[sid];
    HandoffsNamed(cfg, k1, w, s.spec.dependsOn, s.assignee, s.state.Completed?);
    ObserveFromStepsFrame(cfg, ObserveStepHandoffs(cfg, k1, wid, sid), wid);
  }

  lemma RunNamed(cfg: Config, k: State, wid: string)
    requires Valid(k) && EdgesNamed(k)
    ensures EdgesNamed(RunWorkflow(cfg, k, wid).state)
  {
    if cfg.hasRuntime && wid in k.workflows {
      StartedValid(k, wid);
      RunCloses(cfg, k, wid);
      var inv := (s: State) => EdgesNamed(s);
      forall s: State, sid: string | AtTurn(s, wid, sid) && inv(s)
        ensures inv(Turn(cfg, s, wid, sid).state)
      {
        TurnNamed(cfg, s, wid, sid);
      }
      RunInduction(cfg, Started(k, wid), wid, inv);
    }
  }

  lemma ApplyNamed(cfg: Config, k: State, op: Op)
    requires Valid(k) && EdgesNamed(k)
    ensures EdgesNamed(Apply(cfg, k, op))
  {
    match op
    case AddAgent(spec, initial) =>
    case AgentMetrics(id, m) =>
    case DoTask(taskId, capability, priority) => TaskAgentIsEligible(cfg, k, capability);
    case HandoffMetrics(source, target, h) => HandoffNamed(cfg, k, source, target, h);
    case NewPlan(plan) =>
    case PlanMetrics(wid, m) =>
    case RunPlan(wid) => RunNamed(cfg, k, wid);
    case Intervention(wid, action, subject) =>
  }

  lemma {:induction false} ReachedNamed(cfg: Config, ops: seq<Op>)
    ensures EdgesNamed(Reached(cfg, ops))
    decreases |ops|
  {
    if ops != [] {
      ReachedNamed(cfg, ops[..|ops| - 1]);
      ApplyNamed(cfg, Reached(cfg, ops[..|ops| - 1]), ops[|ops| - 1]);
    }
  }

  /** The first handoff between two agents starts an active edge with no Psi; a later one goes on with the edge. */
  lemma HandoffContinues(cfg: Config, k: State, source: string, target: string, h: HandoffTelemetry)
    ensures var t, id := ObserveHandoff(cfg, k, source, target, h), EdgeId(source, target);
            && id in t.edges && t.edges == k.edges[id := t.edges[id]]
            && |t.decisions| == |k.decisions| + 1 && t.decisions[|k.decisions|].EdgeDecision?
            && var e, d := t.edges[id], t.decisions[|k.decisions|];
            && e.state == d.newState && e.psi == d.psi && e.lastCoefficients == Some(d.coefficients)
            && (id !in k.edges ==>
                  && e.source == source && e.target == target
                  && d.previousState.Active? && e.previousPsi == 0.0 && e.observations == 1)
            && (id in k.edges ==>
                  && e.source == k.edges[id].source && e.target == k.edges[id].target
                  && d.previousState == k.edges[id].state && e.previousPsi == k.edges[id].psi
                  && e.observations == k.edges[id].observations + 1)
  {
  }

  /** The edge that a pair is given in a reachable state is its own, among agents whose pairs are told apart. */
  lemma EdgeIsOfItsPair(cfg: Config, k: State, ids: set<string>, source: string, target: string)
    requires Reachable(cfg, k) && ToldApart(ids) && source in ids && target in ids
    requires EdgeId(source, target) in k.edges
    requires k.edges[EdgeId(source, target)].source in ids && k.edges[EdgeId(source, target)].target in ids
    ensures var e := k.edges[EdgeId(source, target)]; e.source == source && e.target == target
  {
    var ops :| Reached(cfg, ops) == k;
    ReachedNamed(cfg, ops);
  }
}
