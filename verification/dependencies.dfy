/** Walks along step dependencies, and the steps that lie on or behind a cycle. */
module Dependencies {
  import opened Types
  import opened Maestro

  /** Each step of the walk depends on the next one. */
  ghost predicate Walk(steps: map<string, Step>, p: seq<string>) {
    && p != []
    && (forall i :: 0 <= i < |p| ==> p[i] in steps)
    && forall i :: 0 < i < |p| ==> p[i] in steps[p[i - 1]].spec.dependsOn
  }

  ghost predicate OnOrBehindCycle(steps: map<string, Step>, id: string) {
    exists p :: Walk(steps, p) && p[0] == id && !Distinct(p)
  }

  ghost predicate Acyclic(steps: map<string, Step>) {
    forall id :: id in steps ==> !OnOrBehindCycle(steps, id)
  }

  ghost predicate DependsOnFailed(steps: map<string, Step>, id: string) {
    exists p :: Walk(steps, p) && |p| > 1 && p[0] == id && steps[p[|p| - 1]].state.Failed?
  }

  ghost predicate DependsInto(steps: map<string, Step>, id: string, b: set<string>) {
    id in steps && exists d :: d in steps[id].spec.dependsOn && d in b
  }

  /** Every member waits for another member. */
  ghost predicate Blocked(steps: map<string, Step>, b: set<string>) {
    forall id :: id in b ==> DependsInto(steps, id, b)
  }

  /** The steps from the start of a walk to its first repetition wait for one another. */
  lemma CycleBlocks(steps: map<string, Step>, id: string) returns (b: set<string>)
    requires OnOrBehindCycle(steps, id)
    ensures id in b && Blocked(steps, b)
  {
    var p :| Walk(steps, p) && p[0] == id && !Distinct(p);
    var i, j :| 0 <= i < j < |p| && p[i] == p[j];
    b := set m | 0 <= m < j :: p[m];
    assert p[0] in b;
    forall x | x in b ensures DependsInto(steps, x, b) {
      var m :| 0 <= m < j && x == p[m];
      var d := p[m + 1];
      assert d in steps[p[m]].spec.dependsOn;
      assert d == if m + 1 == j then p[i] else p[m + 1];
      assert d in b;
    }
  }

  lemma {:induction false} LongWalk(steps: map<string, Step>, b: set<string>, id: string, n: nat)
    returns (p: seq<string>)
    requires Blocked(steps, b) && id in b
    ensures Walk(steps, p) && |p| == n + 1 && p[0] == id && forall i :: 0 <= i <= n ==> p[i] in b
    decreases n
  {
    assert DependsInto(steps, id, b);
    if n == 0 {
      p := [id];
    } else {
      var d :| d in steps[id].spec.dependsOn && d in b;
      var rest := LongWalk(steps, b, d, n - 1);
      p := [id] + rest;
    }
  }

  lemma {:induction false} DistinctFits(p: seq<string>, b: set<string>)
    requires Distinct(p) && forall i :: 0 <= i < |p| ==> p[i] in b
    ensures |p| <= |b|
  {
    if p != [] {
      var last := p[|p| - 1];
      assert last in b;
      DistinctFits(p[..|p| - 1], b - {last});
    }
  }

  /** Conversely a step that waits inside such a set is on or behind a cycle: a long enough walk repeats. */
  lemma BlockedCycles(steps: map<string, Step>, b: set<string>, id: string)
    requires Blocked(steps, b) && id in b
    ensures OnOrBehindCycle(steps, id)
  {
    var p := LongWalk(steps, b, id, |b|);
    if Distinct(p) {
      DistinctFits(p, b);
      assert false;
    }
  }

  /** The walks depend on the steps' specifications alone. */
  lemma CyclesOfSpecs(steps: map<string, Step>, steps': map<string, Step>, id: string)
    requires steps.Keys == steps'.Keys && forall x :: x in steps ==> steps'[x].spec == steps[x].spec
    requires OnOrBehindCycle(steps, id)
    ensures OnOrBehindCycle(steps', id)
  {
    var p :| Walk(steps, p) && p[0] == id && !Distinct(p);
    assert Walk(steps', p);
  }

  lemma DependsOnFailedStep(steps: map<string, Step>, id: string, d: string)
    requires id in steps && d in steps && d in steps[id].spec.dependsOn
    requires steps[d].state.Failed? || DependsOnFailed(steps, d)
    ensures DependsOnFailed(steps, id)
  {
    if steps[d].state.Failed? {
      var p := [id, d];
      assert Walk(steps, p);
    } else {
      var q :| Walk(steps, q) && |q| > 1 && q[0] == d && steps[q[|q| - 1]].state.Failed?;
      var p := [id] + q;
      assert Walk(steps, p);
    }
  }
}
