/** What a workflow takes from the steps of its plan. */
module Plans {
  import opened Types
  import opened Maestro
  import opened Operations

  /** No later entry has the id of the i-th one. */
  predicate IsLast(specs: seq<StepSpec>, i: nat)
    requires i < |specs|
  {
    forall j :: i < j < |specs| ==> specs[j].id != specs[i].id
  }

  /** No earlier entry has the id of the i-th one. */
  predicate IsFirst(specs: seq<StepSpec>, i: nat)
    requires i < |specs|
  {
    forall j :: 0 <= j < i ==> specs[j].id != specs[i].id
  }

  ghost predicate Mentioned(specs: seq<StepSpec>, id: string) {
    exists i :: 0 <= i < |specs| && specs[i].id == id
  }

  lemma MentionedTail(specs: seq<StepSpec>, id: string)
    requires specs != []
    ensures Mentioned(specs, id) <==> specs[0].id == id || Mentioned(specs[1..], id)
  {
    if i :| 0 <= i < |specs[1..]| && specs[1..][i].id == id {
      assert specs[i + 1].id == id;
    }
    if i :| 0 <= i < |specs| && specs[i].id == id {
      assert i > 0 ==> specs[1..][i - 1].id == id;
    }
  }

  lemma {:induction false} BuiltSteps(specs: seq<StepSpec>, steps: map<string, Step>, order: seq<string>)
    ensures var s := BuildSteps(specs, steps, order).0;
            && (forall id :: id in s <==> id in steps || Mentioned(specs, id))
            && (forall id :: id in steps && !Mentioned(specs, id) ==> s[id] == steps[id])
            && forall i :: 0 <= i < |specs| && IsLast(specs, i) ==>
                             specs[i].id in s && s[specs[i].id] == NewStep(specs[i])
    decreases |specs|
  {
    if specs != [] {
      var id := specs[0].id;
      var steps', order' := steps[id := NewStep(specs[0])], if id in steps then order else order + [id];
      BuiltSteps(specs[1..], steps', order');
      forall x ensures Mentioned(specs, x) <==> specs[0].id == x || Mentioned(specs[1..], x) {
        MentionedTail(specs, x);
      }
      var s := BuildSteps(specs, steps, order).0;
      forall i | 0 <= i < |specs| && IsLast(specs, i) ensures specs[i].id in s && s[specs[i].id] == NewStep(specs[i]) {
        if i > 0 {
          assert specs[1..][i - 1] == specs[i] && IsLast(specs[1..], i - 1);
        } else {
          assert forall k :: 0 <= k < |specs[1..]| ==> specs[1..][k] == specs[k + 1];
          assert !Mentioned(specs[1..], id);
        }
      }
    }
  }

  /** In the order, the one id comes before the other. */
  ghost predicate Before(order: seq<string>, a: string, b: string) {
    exists p, q :: 0 <= p < q < |order| && order[p] == a && order[q] == b
  }

  /** Ids that are new to the steps come in the order in which they first occur. */
  ghost predicate OrderedAs(specs: seq<StepSpec>, steps: map<string, Step>, o: seq<string>) {
    forall i, j :: 0 <= i < j < |specs| && NewAt(specs, steps, i) && NewAt(specs, steps, j) ==>
                     Before(o, specs[i].id, specs[j].id)
  }

  ghost predicate NewAt(specs: seq<StepSpec>, steps: map<string, Step>, i: nat)
    requires i < |specs|
  {
    IsFirst(specs, i) && specs[i].id !in steps
  }

  lemma NewInTail(specs: seq<StepSpec>, steps: map<string, Step>, i: nat)
    requires 0 < i < |specs| && NewAt(specs, steps, i)
    ensures NewAt(specs[1..], steps[specs[0].id := NewStep(specs[0])], i - 1) && specs[1..][i - 1] == specs[i]
  {
    assert forall k :: 0 <= k < |specs[1..]| ==> specs[1..][k] == specs[k + 1];
  }

  lemma OrderedCons(specs: seq<StepSpec>, steps: map<string, Step>, o: seq<string>)
    requires specs != [] && OrderedAs(specs[1..], steps[specs[0].id := NewStep(specs[0])], o)
    requires forall j :: 0 < j < |specs| && NewAt(specs, steps, 0) && NewAt(specs, steps, j) ==>
                           Before(o, specs[0].id, specs[j].id)
    ensures OrderedAs(specs, steps, o)
  {
    forall i, j | 0 <= i < j < |specs| && NewAt(specs, steps, i) && NewAt(specs, steps, j)
      ensures Before(o, specs[i].id, specs[j].id)
    {
      if i > 0 {
        NewInTail(specs, steps, i);
        NewInTail(specs, steps, j);
      }
    }
  }

  lemma {:induction false} BuiltOrder(specs: seq<StepSpec>, steps: map<string, Step>, order: seq<string>)
    requires StepsListed(steps, order)
    ensures var (s, o) := BuildSteps(specs, steps, order); StepsListed(s, o) && order <= o && OrderedAs(specs, steps, o)
    decreases |specs|
  {
    BuildStepsListed(specs, steps, order);
    if specs != [] {
      var id := specs[0].id;
      var steps', order' := steps[id := NewStep(specs[0])], if id in steps then order else order + [id];
      assert steps'.Keys == steps.Keys + {id};
      BuiltOrder(specs[1..], steps', order');
      BuiltSteps(specs, steps, order);
      var o := BuildSteps(specs, steps, order).1;
      forall j | 0 < j < |specs| && NewAt(specs, steps, 0) && NewAt(specs, steps, j)
        ensures Before(o, id, specs[j].id)
      {
        assert Mentioned(specs, specs[j].id);
        NewComesLater(order', o, |order|, id, specs[j].id);
      }
      OrderedCons(specs, steps, o);
    }
  }

  lemma NewComesLater(order: seq<string>, o: seq<string>, p: nat, a: string, b: string)
    requires order <= o && p == |order| - 1 && order[p] == a && b in o && b !in order
    ensures Before(o, a, b)
  {
    var q :| 0 <= q < |o| && o[q] == b;
    assert forall i :: 0 <= i < |order| ==> o[i] == order[i] && order[i] in order;
  }

  /**
    A new workflow has a pending step for each id of its plan and no other; a repeated id stands where it first occurs
    and means what it last says.
   */
  lemma WorkflowFollowsPlan(plan: Plan)
    ensures var w, specs := NewWorkflow(plan), plan.steps;
            && w.plan == plan && w.state == Draft && w.psi == 0.0
            && (forall id :: id in w.steps <==> Mentioned(specs, id))
            && (forall i :: 0 <= i < |specs| && IsLast(specs, i) ==>
                              specs[i].id in w.steps && w.steps[specs[i].id] == NewStep(specs[i]))
            && Lists(w.order, w.steps.Keys)
            && forall i, j :: 0 <= i < j < |specs| && IsFirst(specs, i) && IsFirst(specs, j) ==>
                                Before(w.order, specs[i].id, specs[j].id)
  {
    BuiltSteps(plan.steps, map[], []);
    BuiltOrder(plan.steps, map[], []);
    var order := NewWorkflow(plan).order;
    forall i, j | 0 <= i < j < |plan.steps| && IsFirst(plan.steps, i) && IsFirst(plan.steps, j)
      ensures Before(order, plan.steps[i].id, plan.steps[j].id)
    {
      assert NewAt(plan.steps, map[], i) && NewAt(plan.steps, map[], j);
    }
  }

  /** A step starts pending, assigned to nobody, with no attempt, output or error. */
  lemma NewStepIsPending(spec: StepSpec)
    ensures var s := NewStep(spec);
            && s.spec == spec && s.state.Pending? && s.attempts == 0
            && s.assignee == "" && s.output == "" && s.error == ""
  {
  }
}
