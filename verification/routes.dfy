/** The depth-first enumeration of API routes through nested, possibly cyclic route containers. */
module Routes {
  import opened Common

  type Id = nat

  /**
    A route object: an APIRoute, an object whose `original_route` is an APIRoute, an object with
    `effective_candidates`, an object with a `routes` sequence, or any mixture of these.
   */
  datatype Node = Node(isApi: bool, isEffective: bool, candidates: Option<seq<Id>>, routes: Option<seq<Id>>)

  type Graph = map<Id, Node>

  predicate Closed(g: Graph) {
    forall id :: id in g ==>
                   && (g[id].candidates.Some? ==> forall x :: x in g[id].candidates.value ==> x in g)
                   && (g[id].routes.Some? ==> forall x :: x in g[id].routes.value ==> x in g)
  }

  predicate IsContainer(n: Node) {
    !n.isApi && (n.candidates.Some? || n.routes.Some?)
  }

  /** What the enumeration does with a listed object. */
  datatype Item = Leaf(id: Id) | Sub(id: Id) | Ignored

  /** Only a candidate list looks at `original_route`. */
  function ItemOf(g: Graph, id: Id, asCandidate: bool): Item
    requires id in g
  {
    if g[id].isApi || (asCandidate && g[id].isEffective) then Leaf(id)
    else if IsContainer(g[id]) then Sub(id)
    else Ignored
  }

  function ItemsOf(g: Graph, ids: seq<Id>, asCandidates: bool): (items: seq<Item>)
    requires forall x :: x in ids ==> x in g
    ensures |items| == |ids| && forall i :: 0 <= i < |ids| ==> items[i] == ItemOf(g, ids[i], asCandidates)
  {
    if ids == [] then [] else [ItemOf(g, ids[0], asCandidates)] + ItemsOf(g, ids[1..], asCandidates)
  }

  /** The list inside a container; `effective_candidates` wins over `routes`. */
  function Contents(g: Graph, id: Id): seq<Item>
    requires Closed(g) && id in g && IsContainer(g[id])
  {
    if g[id].candidates.Some? then ItemsOf(g, g[id].candidates.value, true) else ItemsOf(g, g[id].routes.value, false)
  }

  /** What is yielded, entered or passed over, by the kind of the object and of the list it stands in. */
  lemma ItemsAre(g: Graph, id: Id, asCandidate: bool)
    requires id in g
    ensures var n, item := g[id], ItemOf(g, id, asCandidate);
            && (item == Leaf(id) <==> n.isApi || (asCandidate && n.isEffective))
            && (item == Sub(id) <==>
                !n.isApi && !(asCandidate && n.isEffective) && (n.candidates != None || n.routes != None))
            && (item == Ignored <==>
                !n.isApi && !(asCandidate && n.isEffective) && n.candidates == None && n.routes == None)
  {
  }

  /** A container lists its effective candidates, as candidates, if it has such a list, and its routes otherwise. */
  lemma ContentsAre(g: Graph, id: Id, i: nat)
    requires Closed(g) && id in g && IsContainer(g[id])
    ensures var n, items := g[id], Contents(g, id);
            && (n.candidates != None ==>
                  && |items| == |n.candidates.value|
                  && (i < |items| ==> items[i] == ItemOf(g, n.candidates.value[i], true)))
            && (n.candidates == None ==>
                  && n.routes != None && |items| == |n.routes.value|
                  && (i < |items| ==> items[i] == ItemOf(g, n.routes.value[i], false)))
  {
  }

  function LeavesIn(items: seq<Item>): multiset<Id> {
    if items == [] then multiset{}
    else
      var last := items[|items| - 1];
      LeavesIn(items[..|items| - 1]) + if last.Leaf? then multiset{last.id} else multiset{}
  }

  ghost predicate Containers(g: Graph, ids: seq<Id>) {
    forall i :: 0 <= i < |ids| ==> ids[i] in g && IsContainer(g[ids[i]])
  }

  /** The leaves listed by each of the containers, a leaf counting once for each listing. */
  ghost function LeavesOfAll(g: Graph, visits: seq<Id>): multiset<Id>
    requires Closed(g) && Containers(g, visits)
  {
    if visits == [] then multiset{}
    else LeavesOfAll(g, visits[..|visits| - 1]) + LeavesIn(Contents(g, visits[|visits| - 1]))
  }

  // ---------- reachability ----------

  /** Each container of the path lists the next one; the first is listed by `items`. */
  ghost predicate Path(g: Graph, items: seq<Item>, p: seq<Id>) {
    && Closed(g) && p != [] && Containers(g, p)
    && Sub(p[0]) in items
    && forall i :: 0 < i < |p| ==> Sub(p[i]) in Contents(g, p[i - 1])
  }

  ghost predicate Reachable(g: Graph, items: seq<Item>, id: Id) {
    exists p :: Path(g, items, p) && p[|p| - 1] == id
  }

  lemma ReachableMore(g: Graph, items: seq<Item>, items': seq<Item>, id: Id)
    requires Reachable(g, items, id) && forall x :: x in items ==> x in items'
    ensures Reachable(g, items', id)
  {
    var p :| Path(g, items, p) && p[|p| - 1] == id;
    assert Path(g, items', p);
  }

  lemma PathThrough(g: Graph, items: seq<Item>, c: Id, p: seq<Id>)
    requires Closed(g) && c in g && IsContainer(g[c]) && Sub(c) in items && Path(g, Contents(g, c), p)
    ensures Path(g, items, [c] + p)
  {
    var q := [c] + p;
    forall i | 0 < i < |q| ensures Sub(q[i]) in Contents(g, q[i - 1]) {
      assert q[i] == p[i - 1];
      assert i > 1 ==> q[i - 1] == p[i - 2];
    }
  }

  lemma ReachableThrough(g: Graph, items: seq<Item>, c: Id, id: Id)
    requires Closed(g) && c in g && IsContainer(g[c]) && Sub(c) in items && Reachable(g, Contents(g, c), id)
    ensures Reachable(g, items, id)
  {
    var p :| Path(g, Contents(g, c), p) && p[|p| - 1] == id;
    PathThrough(g, items, c, p);
    assert ([c] + p)[|p|] == id;
  }

  // ---------- what an enumeration of a list does ----------

  ghost predicate Fresh(visits: seq<Id>, seen: set<Id>) {
    && (forall i, j :: 0 <= i < j < |visits| ==> visits[i] != visits[j])
    && forall i :: 0 <= i < |visits| ==> visits[i] !in seen
  }

  ghost predicate Listed(items: seq<Item>, seen: set<Id>) {
    forall i :: 0 <= i < |items| && items[i].Sub? ==> items[i].id in seen
  }

  /** Each visited container is new, and remembered. */
  ghost predicate Remembers(g: Graph, seen0: set<Id>, seen1: set<Id>, visits: seq<Id>) {
    Containers(g, visits) && Fresh(visits, seen0) && seen1 == seen0 + (set v | v in visits)
  }

  /** No listed container is missed, at top level or inside a visited one. */
  ghost predicate Complete(g: Graph, items: seq<Item>, seen: set<Id>, visits: seq<Id>)
    requires Closed(g) && Containers(g, visits)
  {
    Listed(items, seen) && forall i :: 0 <= i < |visits| ==> Listed(Contents(g, visits[i]), seen)
  }

  ghost predicate Sound(g: Graph, items: seq<Item>, visits: seq<Id>) {
    forall i :: 0 <= i < |visits| ==> Reachable(g, items, visits[i])
  }

  /**
    Enumerating `items` with `seen0` already visited visits `visits`, each once, and yields the leaves listed
    directly and by each visited container; no container is missed and none is visited without being reachable.
   */
  ghost predicate Explored(
    g: Graph, items: seq<Item>, seen0: set<Id>, seen1: set<Id>, yielded: seq<Id>, visits: seq<Id>)
  {
    && Closed(g)
    && Remembers(g, seen0, seen1, visits)
    && multiset(yielded) == LeavesIn(items) + LeavesOfAll(g, visits)
    && Complete(g, items, seen1, visits)
    && Sound(g, items, visits)
  }

  lemma {:induction false} LeavesInAppend(a: seq<Item>, b: seq<Item>)
    ensures LeavesIn(a + b) == LeavesIn(a) + LeavesIn(b)
  {
    if b == [] {
      assert a + b == a;
    } else {
      assert (a + b)[..|a + b| - 1] == a + b[..|b| - 1];
      LeavesInAppend(a, b[..|b| - 1]);
    }
  }

  lemma {:induction false} LeavesOfAllAppend(g: Graph, a: seq<Id>, b: seq<Id>)
    requires Closed(g) && Containers(g, a) && Containers(g, b)
    ensures LeavesOfAll(g, a + b) == LeavesOfAll(g, a) + LeavesOfAll(g, b)
  {
    if b == [] {
      assert a + b == a;
    } else {
      assert (a + b)[..|a + b| - 1] == a + b[..|b| - 1];
      LeavesOfAllAppend(g, a, b[..|b| - 1]);
    }
  }

  lemma ListedAppend(a: seq<Item>, b: seq<Item>, seen: set<Id>)
    requires Listed(a, seen) && Listed(b, seen)
    ensures Listed(a + b, seen)
  {
  }

  lemma RemembersBoth(g: Graph, s0: set<Id>, s1: set<Id>, s2: set<Id>, va: seq<Id>, vb: seq<Id>)
    requires Remembers(g, s0, s1, va) && Remembers(g, s1, s2, vb)
    ensures Remembers(g, s0, s2, va + vb) && s1 <= s2
  {
    assert s2 == s0 + (set v | v in va + vb);
  }

  lemma CompleteBoth(g: Graph, a: seq<Item>, b: seq<Item>, s1: set<Id>, s2: set<Id>, va: seq<Id>, vb: seq<Id>)
    requires Closed(g) && Containers(g, va) && Containers(g, vb) && s1 <= s2
    requires Complete(g, a, s1, va) && Complete(g, b, s2, vb)
    ensures Complete(g, a + b, s2, va + vb)
  {
    ListedAppend(a, b, s2);
    forall i | 0 <= i < |va + vb| ensures Listed(Contents(g, (va + vb)[i]), s2) {
      if i < |va| {
        assert Listed(Contents(g, va[i]), s1);
      } else {
        assert Listed(Contents(g, vb[i - |va|]), s2);
      }
    }
  }

  lemma SoundBoth(g: Graph, a: seq<Item>, b: seq<Item>, va: seq<Id>, vb: seq<Id>)
    requires Sound(g, a, va) && Sound(g, b, vb)
    ensures Sound(g, a + b, va + vb)
  {
    forall i | 0 <= i < |va + vb| ensures Reachable(g, a + b, (va + vb)[i]) {
      if i < |va| {
        ReachableMore(g, a, a + b, va[i]);
      } else {
        ReachableMore(g, b, a + b, vb[i - |va|]);
      }
    }
  }

  /** Enumerating one list after another enumerates their concatenation. */
  lemma ExploredBoth(
    g: Graph, a: seq<Item>, b: seq<Item>, s0: set<Id>, s1: set<Id>, s2: set<Id>,
    ya: seq<Id>, yb: seq<Id>, va: seq<Id>, vb: seq<Id>)
    requires Explored(g, a, s0, s1, ya, va) && Explored(g, b, s1, s2, yb, vb)
    ensures Explored(g, a + b, s0, s2, ya + yb, va + vb)
  {
    RemembersBoth(g, s0, s1, s2, va, vb);
    CompleteBoth(g, a, b, s1, s2, va, vb);
    SoundBoth(g, a, b, va, vb);
    LeavesInAppend(a, b);
    LeavesOfAllAppend(g, va, vb);
  }

  lemma RemembersInside(g: Graph, c: Id, s0: set<Id>, s1: set<Id>, v: seq<Id>)
    requires c in g && IsContainer(g[c]) && c !in s0 && Remembers(g, s0 + {c}, s1, v)
    ensures Remembers(g, s0, s1, [c] + v) && c in s1
  {
    assert s1 == s0 + (set x | x in [c] + v);
  }

  lemma SoundInside(g: Graph, c: Id, v: seq<Id>)
    requires Closed(g) && c in g && IsContainer(g[c]) && Sound(g, Contents(g, c), v)
    ensures Sound(g, [Sub(c)], [c] + v)
  {
    assert Path(g, [Sub(c)], [c]);
    forall i | 0 <= i < |[c] + v| ensures Reachable(g, [Sub(c)], ([c] + v)[i]) {
      if i > 0 {
        ReachableThrough(g, [Sub(c)], c, v[i - 1]);
      }
    }
  }

  lemma LeavesInside(g: Graph, c: Id, v: seq<Id>)
    requires Closed(g) && c in g && IsContainer(g[c]) && Containers(g, v)
    ensures LeavesIn([Sub(c)]) + LeavesOfAll(g, [c] + v) == LeavesIn(Contents(g, c)) + LeavesOfAll(g, v)
  {
    LeavesOfAllAppend(g, [c], v);
    assert [c][..0] == [] && [Sub(c)][..0] == [];
  }

  /** Entering a new container and enumerating its contents enumerates the container. */
  lemma ExploredInside(g: Graph, c: Id, s0: set<Id>, s1: set<Id>, y: seq<Id>, v: seq<Id>)
    requires Closed(g) && c in g && IsContainer(g[c]) && c !in s0
    requires Explored(g, Contents(g, c), s0 + {c}, s1, y, v)
    ensures Explored(g, [Sub(c)], s0, s1, y, [c] + v)
  {
    RemembersInside(g, c, s0, s1, v);
    SoundInside(g, c, v);
    LeavesInside(g, c, v);
  }

  lemma ExploredLeaf(g: Graph, id: Id, seen: set<Id>)
    requires Closed(g)
    ensures Explored(g, [Leaf(id)], seen, seen, [id], [])
  {
    assert [Leaf(id)][..0] == [];
  }

  lemma ExploredNothing(g: Graph, item: Item, seen: set<Id>)
    requires Closed(g) && (item.Ignored? || (item.Sub? && item.id in seen))
    ensures Explored(g, [item], seen, seen, [], [])
    ensures Explored(g, [], seen, seen, [], [])
  {
    assert [item][..0] == [];
  }

  // ---------- main results ----------

  lemma {:induction false} ClosedUnderReach(g: Graph, items: seq<Item>, seen: set<Id>, p: seq<Id>)
    requires Path(g, items, p) && Listed(items, seen)
    requires forall id :: id in seen ==> id in g && IsContainer(g[id]) && Listed(Contents(g, id), seen)
    ensures p[|p| - 1] in seen
  {
    if |p| == 1 {
      var i :| 0 <= i < |items| && items[i] == Sub(p[0]);
    } else {
      var q := p[..|p| - 1];
      assert Path(g, items, q);
      ClosedUnderReach(g, items, seen, q);
      var c := p[|p| - 2];
      var i :| 0 <= i < |Contents(g, c)| && Contents(g, c)[i] == Sub(p[|p| - 1]);
    }
  }

  /** From scratch, the containers visited are exactly the reachable ones. */
  lemma VisitsAreReachable(g: Graph, items: seq<Item>, seen: set<Id>, yielded: seq<Id>, visits: seq<Id>)
    requires Explored(g, items, {}, seen, yielded, visits)
    ensures forall id :: id in visits <==> Reachable(g, items, id)
  {
    forall id | Reachable(g, items, id) ensures id in visits {
      var p :| Path(g, items, p) && p[|p| - 1] == id;
      ClosedUnderReach(g, items, seen, p);
    }
  }

  /** What an enumeration of `ids` from scratch achieves. */
  ghost predicate Enumerates(g: Graph, ids: seq<Id>, yielded: seq<Id>, visits: seq<Id>)
    requires Closed(g) && forall x :: x in ids ==> x in g
  {
    && Containers(g, visits) && Fresh(visits, {})
    && (forall id :: id in visits <==> Reachable(g, ItemsOf(g, ids, false), id))
    && multiset(yielded) == LeavesIn(ItemsOf(g, ids, false)) + LeavesOfAll(g, visits)
  }

  lemma OneContainer(g: Graph, c: Id)
    requires Closed(g) && c in g && IsContainer(g[c])
    ensures LeavesOfAll(g, [c]) == LeavesIn(Contents(g, c))
  {
    assert [c][..0] == [];
  }

  lemma TakeOut(g: Graph, a: seq<Id>, c: Id, b: seq<Id>)
    requires Closed(g) && Containers(g, a) && c in g && IsContainer(g[c]) && Containers(g, b)
    ensures Containers(g, a + [c] + b)
    ensures LeavesOfAll(g, a + [c] + b) == LeavesOfAll(g, a + b) + LeavesIn(Contents(g, c))
  {
    LeavesOfAllAppend(g, a + [c], b);
    LeavesOfAllAppend(g, a, [c]);
    OneContainer(g, c);
    LeavesOfAllAppend(g, a, b);
  }

  lemma WithoutOne(a: seq<Id>, c: Id, b: seq<Id>)
    requires Fresh(a + [c] + b, {})
    ensures Fresh(a + b, {})
    ensures forall id :: id in a + b <==> id in a + [c] + b && id != c
  {
    var v := a + [c] + b;
    forall i | 0 <= i < |a + b| ensures (a + b)[i] == v[if i < |a| then i else i + 1] {
    }
    assert v[|a|] == c;
  }

  lemma HasMember(w: seq<Id>)
    requires w != []
    ensures exists id :: id in w
  {
    assert w[0] in w;
  }

  ghost predicate SameMembers(v: seq<Id>, w: seq<Id>) {
    forall id :: id in v <==> id in w
  }

  lemma SplitAround(w: seq<Id>, c: Id) returns (a: seq<Id>, b: seq<Id>)
    requires c in w
    ensures w == a + [c] + b
  {
    var j :| 0 <= j < |w| && w[j] == c;
    a, b := w[..j], w[j + 1..];
  }

  /** Taking the same container out of two lists with the same members leaves two such lists. */
  lemma SameWithoutOne(front: seq<Id>, c: Id, a: seq<Id>, b: seq<Id>)
    requires Fresh(front + [c], {}) && Fresh(a + [c] + b, {}) && SameMembers(front + [c], a + [c] + b)
    ensures Fresh(front, {}) && Fresh(a + b, {}) && SameMembers(front, a + b)
  {
    WithoutOne(a, c, b);
    assert front + [c] + [] == front + [c] && front + [] == front;
    WithoutOne(front, c, []);
  }

  lemma NoMembers(w: seq<Id>)
    requires SameMembers([], w)
    ensures w == []
  {
    if w != [] {
      HasMember(w);
      assert false;
    }
  }

  /** The leaves of a set of containers do not depend on the order in which they are visited. */
  lemma {:induction false} OrderIrrelevant(g: Graph, v: seq<Id>, w: seq<Id>)
    requires Closed(g) && Containers(g, v) && Containers(g, w) && Fresh(v, {}) && Fresh(w, {})
    requires SameMembers(v, w)
    ensures LeavesOfAll(g, v) == LeavesOfAll(g, w)
  {
    if v == [] {
      NoMembers(w);
    } else {
      var front, last := v[..|v| - 1], v[|v| - 1];
      assert v == front + [last];
      assert last in v;
      var a, b := SplitAround(w, last);
      SameWithoutOne(front, last, a, b);
      OrderIrrelevantStep(g, front, last, a, b);
      OrderIrrelevant(g, front, a + b);
    }
  }

  lemma OrderIrrelevantStep(g: Graph, front: seq<Id>, c: Id, a: seq<Id>, b: seq<Id>)
    requires Closed(g) && Containers(g, front + [c]) && Containers(g, a + [c] + b)
    ensures c in g && IsContainer(g[c]) && Containers(g, front) && Containers(g, a + b)
    ensures LeavesOfAll(g, front + [c]) == LeavesOfAll(g, front) + LeavesIn(Contents(g, c))
    ensures LeavesOfAll(g, a + [c] + b) == LeavesOfAll(g, a + b) + LeavesIn(Contents(g, c))
  {
    assert (front + [c])[|front|] == c && (front + [c])[..|front|] == front;
    assert forall i :: 0 <= i < |a| ==> (a + [c] + b)[i] == a[i];
    assert forall i :: 0 <= i < |b| ==> (a + [c] + b)[|a| + 1 + i] == b[i];
    TakeOut(g, a, c, b);
  }

  /** Two enumerations of the same collection yield every object equally often. */
  lemma EnumerationsAgree(g: Graph, ids: seq<Id>, y1: seq<Id>, v1: seq<Id>, y2: seq<Id>, v2: seq<Id>)
    requires Closed(g) && forall x :: x in ids ==> x in g
    requires Enumerates(g, ids, y1, v1) && Enumerates(g, ids, y2, v2)
    ensures multiset(y1) == multiset(y2)
  {
    OrderIrrelevant(g, v1, v2);
  }

  lemma Extends(a: seq<Id>, b: seq<Id>, c: seq<Id>)
    requires a <= b <= c
    ensures c[|a|..] == b[|a|..] + c[|b|..] && a <= c
  {
  }

  lemma ExploredNext(
    g: Graph, items: seq<Item>, i: nat, s0: set<Id>, s1: set<Id>, s2: set<Id>,
    y0: seq<Id>, y1: seq<Id>, y2: seq<Id>, v0: seq<Id>, v1: seq<Id>, v2: seq<Id>)
    requires i < |items| && y0 <= y1 <= y2 && v0 <= v1 <= v2
    requires Explored(g, items[..i], s0, s1, y1[|y0|..], v1[|v0|..])
    requires Explored(g, [items[i]], s1, s2, y2[|y1|..], v2[|v1|..])
    ensures Explored(g, items[..i + 1], s0, s2, y2[|y0|..], v2[|v0|..])
  {
    assert items[..i + 1] == items[..i] + [items[i]];
    Extends(y0, y1, y2);
    Extends(v0, v1, v2);
    ExploredBoth(g, items[..i], [items[i]], s0, s1, s2, y1[|y0|..], y2[|y1|..], v1[|v0|..], v2[|v1|..]);
  }

  lemma DropOne(v0: seq<Id>, c: Id, v1: seq<Id>)
    requires v0 + [c] <= v1
    ensures v1[|v0|..] == [c] + v1[|v0| + 1..] && v0 <= v1
  {
    assert v1[|v0|] == (v0 + [c])[|v0|];
  }

  lemma ExploredEntered(
    g: Graph, c: Id, s0: set<Id>, s1: set<Id>, y0: seq<Id>, y1: seq<Id>, v0: seq<Id>, v1: seq<Id>)
    requires Closed(g) && c in g && IsContainer(g[c]) && c !in s0 && y0 <= y1 && v0 + [c] <= v1
    requires Explored(g, Contents(g, c), s0 + {c}, s1, y1[|y0|..], v1[|v0| + 1..])
    ensures Explored(g, [Sub(c)], s0, s1, y1[|y0|..], v1[|v0|..])
  {
    DropOne(v0, c, v1);
    ExploredInside(g, c, s0, s1, y1[|y0|..], v1[|v0| + 1..]);
  }

  class Walker {
    const graph: Graph
    var seen: set<Id>
    var yielded: seq<Id>
    ghost var visits: seq<Id>

    constructor (graph: Graph)
      ensures this.graph == graph && seen == {} && yielded == [] && visits == []
    {
      this.graph, seen, yielded, visits := graph, {}, [], [];
    }

    /** What was enumerated since the given state. */
    ghost predicate Did(items: seq<Item>, seen0: set<Id>, yielded0: seq<Id>, visits0: seq<Id>)
      reads this
    {
      && yielded0 <= yielded && visits0 <= visits
      && Explored(graph, items, seen0, seen, yielded[|yielded0|..], visits[|visits0|..])
    }

    /** What was done for `items[..i]` and then for `items[i]` was done for `items[..i + 1]`. */
    lemma DidBoth(
      items: seq<Item>, i: nat, s0: set<Id>, y0: seq<Id>, v0: seq<Id>, s1: set<Id>, y1: seq<Id>, v1: seq<Id>)
      requires i < |items| && y0 <= y1 && v0 <= v1
      requires Explored(graph, items[..i], s0, s1, y1[|y0|..], v1[|v0|..])
      requires Did([items[i]], s1, y1, v1)
      ensures Did(items[..i + 1], s0, y0, v0)
    {
      ExploredNext(graph, items, i, s0, s1, seen, y0, y1, yielded, v0, v1, visits);
    }

    lemma DidNothing(items: seq<Item>)
      requires Closed(graph)
      ensures Did(items[..0], seen, yielded, visits)
    {
      ExploredNothing(graph, Ignored, seen);
      assert items[..0] == [] && yielded[|yielded|..] == [] && visits[|visits|..] == [];
    }

    method Yield(id: Id)
      requires Closed(graph)
      modifies this
      ensures Did([Leaf(id)], old(seen), old(yielded), old(visits)) && seen == old(seen)
    {
      ExploredLeaf(graph, id, seen);
      yielded := yielded + [id];
      assert yielded[|old(yielded)|..] == [id] && visits[|old(visits)|..] == [];
    }

    /** The enumeration of a route collection. */
    method Walk(ids: seq<Id>)
      requires Closed(graph) && forall x :: x in ids ==> x in graph
      modifies this
      ensures Did(ItemsOf(graph, ids, false), old(seen), old(yielded), old(visits)) && old(seen) <= seen
      decreases graph.Keys - seen, 3
    {
      ghost var s0, y0, v0 := seen, yielded, visits;
      ghost var items := ItemsOf(graph, ids, false);
      DidNothing(items);
      for i := 0 to |ids|
        invariant s0 <= seen
        invariant Did(items[..i], s0, y0, v0)
      {
        WalkNext(ids, i, items, s0, y0, v0);
      }
      assert items[..|ids|] == items;
    }

    method WalkNext(
      ids: seq<Id>, i: nat, ghost items: seq<Item>, ghost s0: set<Id>, ghost y0: seq<Id>, ghost v0: seq<Id>)
      requires Closed(graph) && (forall x :: x in ids ==> x in graph) && items == ItemsOf(graph, ids, false)
      requires i < |ids| && s0 <= seen && Did(items[..i], s0, y0, v0)
      modifies this
      ensures Did(items[..i + 1], s0, y0, v0) && old(seen) <= seen
      decreases graph.Keys - seen, 2
    {
      ghost var s1, y1, v1 := seen, yielded, visits;
      WalkOne(ids[i]);
      DidBoth(items, i, s0, y0, v0, s1, y1, v1);
    }

    /** One route of a collection: yield it, enter it once, or skip it. */
    method WalkOne(id: Id)
      requires Closed(graph) && id in graph
      modifies this
      ensures Did([ItemOf(graph, id, false)], old(seen), old(yielded), old(visits)) && old(seen) <= seen
      decreases graph.Keys - seen, 1
    {
      var route := graph[id];
      if route.isApi {
        Yield(id);
      } else if IsContainer(route) && id !in seen {
        Enter(id);
      } else {
        ExploredNothing(graph, ItemOf(graph, id, false), seen);
        assert yielded[|yielded|..] == [] && visits[|visits|..] == [];
      }
    }

    /** The container is marked before its contents are enumerated. */
    method Enter(id: Id)
      requires Closed(graph) && id in graph && IsContainer(graph[id]) && id !in seen
      modifies this
      ensures Did([Sub(id)], old(seen), old(yielded), old(visits)) && old(seen) <= seen
      decreases graph.Keys - seen, 0
    {
      ghost var s0, y0, v0 := seen, yielded, visits;
      seen, visits := seen + {id}, visits + [id];
      WalkContents(id);
      DropOne(v0, id, visits);
      ExploredEntered(graph, id, s0, seen, y0, yielded, v0, visits);
    }

    method WalkContents(id: Id)
      requires Closed(graph) && id in graph && IsContainer(graph[id])
      modifies this
      ensures Did(Contents(graph, id), old(seen), old(yielded), old(visits)) && old(seen) <= seen
      decreases graph.Keys - seen, 7
    {
      var route := graph[id];
      if route.candidates.Some? {
        WalkCandidates(route.candidates.value);
      } else {
        Walk(route.routes.value);
      }
    }

    method WalkCandidate(id: Id)
      requires Closed(graph) && id in graph
      modifies this
      ensures Did([ItemOf(graph, id, true)], old(seen), old(yielded), old(visits)) && old(seen) <= seen
      decreases graph.Keys - seen, 4
    {
      if graph[id].isEffective {
        Yield(id);
      } else {
        Walk([id]);
        assert ItemsOf(graph, [id], false) == [ItemOf(graph, id, true)];
      }
    }

    method WalkNextCandidate(
      ids: seq<Id>, i: nat, ghost items: seq<Item>, ghost s0: set<Id>, ghost y0: seq<Id>, ghost v0: seq<Id>)
      requires Closed(graph) && (forall x :: x in ids ==> x in graph) && items == ItemsOf(graph, ids, true)
      requires i < |ids| && s0 <= seen && Did(items[..i], s0, y0, v0)
      modifies this
      ensures Did(items[..i + 1], s0, y0, v0) && old(seen) <= seen
      decreases graph.Keys - seen, 5
    {
      ghost var s1, y1, v1 := seen, yielded, visits;
      WalkCandidate(ids[i]);
      DidBoth(items, i, s0, y0, v0, s1, y1, v1);
    }

    /** The candidates of an included router; those that wrap an APIRoute are yielded as they are. */
    method WalkCandidates(ids: seq<Id>)
      requires Closed(graph) && forall x :: x in ids ==> x in graph
      modifies this
      ensures Did(ItemsOf(graph, ids, true), old(seen), old(yielded), old(visits)) && old(seen) <= seen
      decreases graph.Keys - seen, 6
    {
      ghost var s0, y0, v0 := seen, yielded, visits;
      ghost var items := ItemsOf(graph, ids, true);
      DidNothing(items);
      for i := 0 to |ids|
        invariant s0 <= seen
        invariant Did(items[..i], s0, y0, v0)
      {
        WalkNextCandidate(ids, i, items, s0, y0, v0);
      }
      assert items[..|ids|] == items;
    }
  }

  /**
    Every reachable container is visited once, and each leaf is yielded as often as it is listed at top level and by
    the reachable containers.
   */
  method EffectiveApiRoutes(graph: Graph, ids: seq<Id>) returns (yielded: seq<Id>)
    requires Closed(graph) && forall x :: x in ids ==> x in graph
    ensures exists visits :: Enumerates(graph, ids, yielded, visits)
  {
    var walker := new Walker(graph);
    walker.Walk(ids);
    yielded := walker.yielded;
    ghost var visits := walker.visits;
    assert yielded[0..] == yielded && visits[0..] == visits;
    VisitsAreReachable(graph, ItemsOf(graph, ids, false), walker.seen, yielded, visits);
    assert Enumerates(graph, ids, yielded, visits);
  }
}
