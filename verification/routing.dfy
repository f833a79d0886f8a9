/** Which agent the router puts first. */
module Routing {
  import opened Common
  import opened Types
  import opened Maestro

  /** The agent at `m` is strictly preferred to all earlier ones and no later one is strictly preferred to it. */
  ghost predicate FirstBest(agents: map<string, Agent>, ids: seq<string>, m: nat)
    requires forall id :: id in ids ==> id in agents
  {
    && m < |ids|
    && (forall j :: 0 <= j < m ==> Outranks(agents[ids[m]], agents[ids[j]]))
    && forall j :: m < j < |ids| ==> !Outranks(agents[ids[j]], agents[ids[m]])
  }

  /** Putting one agent in front of a list moves its first best place, or takes it. */
  lemma FirstBestCons(agents: map<string, Agent>, ids: seq<string>, rest: seq<string>, m: nat)
    requires ids != [] && rest == ids[1..] && (forall id :: id in ids ==> id in agents)
    requires FirstBest(agents, rest, m)
    ensures FirstBest(agents, ids, if Outranks(agents[rest[m]], agents[ids[0]]) then m + 1 else 0)
  {
    forall j | 0 < j < |ids| ensures ids[j] == rest[j - 1] && (j - 1 != m ==> j - 1 < m || j - 1 > m) {
    }
  }

  lemma SortKeepsLength(agents: map<string, Agent>, ids: seq<string>)
    requires forall id :: id in ids ==> id in agents
    ensures |SortByRank(agents, ids)| == |ids|
  {
    assert |multiset(SortByRank(agents, ids))| == |multiset(ids)|;
  }

  lemma {:induction false} SortPutsFirstBest(agents: map<string, Agent>, ids: seq<string>) returns (m: nat)
    requires ids != [] && forall id :: id in ids ==> id in agents
    ensures |SortByRank(agents, ids)| == |ids|
    ensures FirstBest(agents, ids, m) && SortByRank(agents, ids)[0] == ids[m]
  {
    SortKeepsLength(agents, ids);
    m := 0;
    if |ids| > 1 {
      var rest := ids[1..];
      var m' := SortPutsFirstBest(agents, rest);
      FirstBestCons(agents, ids, rest, m');
      m := if Outranks(agents[rest[m']], agents[ids[0]]) then m' + 1 else 0;
    }
  }

  // ---------- the whole ranking, and the order of registration ----------

  /** `a` may stand before `b`: more Psi, or as much Psi and no longer failure streak. */
  predicate MayPrecede(a: Agent, b: Agent) {
    a.psi > b.psi || (a.psi == b.psi && a.failureStreak <= b.failureStreak)
  }

  ghost predicate Ranked(agents: map<string, Agent>, ids: seq<string>)
    requires forall id :: id in ids ==> id in agents
  {
    forall i, j :: 0 <= i < j < |ids| ==> MayPrecede(agents[ids[i]], agents[ids[j]])
  }

  lemma RankedCons(agents: map<string, Agent>, id: string, ids: seq<string>)
    requires id in agents && (forall x :: x in ids ==> x in agents) && Ranked(agents, ids)
    requires forall x :: x in ids ==> MayPrecede(agents[id], agents[x])
    ensures Ranked(agents, [id] + ids)
  {
    var r := [id] + ids;
    forall i, j | 0 <= i < j < |r| ensures MayPrecede(agents[r[i]], agents[r[j]]) {
      assert r[j] == ids[j - 1] && ids[j - 1] in ids;
    }
  }

  lemma {:induction false} InsertRanks(agents: map<string, Agent>, id: string, ids: seq<string>)
    requires id in agents && (forall x :: x in ids ==> x in agents) && Ranked(agents, ids)
    ensures Ranked(agents, Insert(agents, id, ids))
  {
    if ids == [] {
    } else if !Outranks(agents[ids[0]], agents[id]) {
      forall x | x in ids ensures MayPrecede(agents[id], agents[x]) {
        var i :| 0 <= i < |ids| && ids[i] == x;
        assert i > 0 ==> MayPrecede(agents[ids[0]], agents[x]);
      }
      RankedCons(agents, id, ids);
    } else {
      var rest := Insert(agents, id, ids[1..]);
      InsertRanks(agents, id, ids[1..]);
      forall x | x in rest ensures MayPrecede(agents[ids[0]], agents[x]) {
        assert x in multiset(ids[1..]) + multiset{id};
        if x in ids[1..] {
          var i :| 0 <= i < |ids[1..]| && ids[1..][i] == x;
          assert ids[i + 1] == x;
        }
      }
      RankedCons(agents, ids[0], rest);
    }
  }

  /** The sorted candidates stand in the order of falling Psi and, at equal Psi, of rising failure streaks. */
  lemma {:induction false} SortRanks(agents: map<string, Agent>, ids: seq<string>)
    requires forall id :: id in ids ==> id in agents
    ensures Ranked(agents, SortByRank(agents, ids))
  {
    if ids != [] {
      SortRanks(agents, ids[1..]);
      InsertRanks(agents, ids[0], SortByRank(agents, ids[1..]));
    }
  }

  /** The candidates keep the order of registration. */
  lemma {:induction false} EligibleInOrder(agents: map<string, Agent>, roster: seq<string>, capability: string, m: nat)
    returns (n: nat)
    requires forall id :: id in roster ==> id in agents
    requires m < |EligibleIds(agents, roster, capability)|
    ensures n < |roster| && roster[n] == EligibleIds(agents, roster, capability)[m]
    ensures EligibleIds(agents, roster[..n], capability) == EligibleIds(agents, roster, capability)[..m]
  {
    var here, rest := Eligible(agents[roster[0]], capability), roster[1..];
    if here && m == 0 {
      n := 0;
    } else {
      var k := EligibleInOrder(agents, rest, capability, if here then m - 1 else m);
      n := k + 1;
      assert roster[..n][0] == roster[0] && roster[..n][1..] == rest[..k];
    }
  }

  /** Active, and able to do the work. */
  predicate Fit(a: Agent, capability: string) {
    a.state == Active && capability in a.spec.capabilities
  }

  /** The n-th registered agent is fit, strictly ahead of all fit ones before it and behind none after it. */
  ghost predicate Leads(agents: map<string, Agent>, roster: seq<string>, capability: string, n: nat)
    requires forall id :: id in roster ==> id in agents
  {
    && n < |roster| && Fit(agents[roster[n]], capability)
    && (forall j :: 0 <= j < n && Fit(agents[roster[j]], capability) ==>
                      !MayPrecede(agents[roster[j]], agents[roster[n]]))
    && forall j :: n < j < |roster| && Fit(agents[roster[j]], capability) ==>
                     MayPrecede(agents[roster[n]], agents[roster[j]])
  }

  lemma FirstBestLeads(agents: map<string, Agent>, roster: seq<string>, capability: string, m: nat) returns (n: nat)
    requires (forall id :: id in roster ==> id in agents)
    requires (forall id :: id in EligibleIds(agents, roster, capability) ==> id in agents)
    requires FirstBest(agents, EligibleIds(agents, roster, capability), m)
    ensures Leads(agents, roster, capability, n) && roster[n] == EligibleIds(agents, roster, capability)[m]
  {
    var ids := EligibleIds(agents, roster, capability);
    n := EligibleInOrder(agents, roster, capability, m);
    EligibleIdsKnown(agents, roster, capability);
    EligibleIdsKnown(agents, roster[..n], capability);
    assert ids[m] in ids;
    forall j | 0 <= j < n && Fit(agents[roster[j]], capability)
      ensures !MayPrecede(agents[roster[j]], agents[roster[n]])
    {
      assert roster[..n][j] == roster[j] && roster[j] in EligibleIds(agents, roster[..n], capability);
      var i :| 0 <= i < m && ids[..m][i] == roster[j];
      assert ids[i] == roster[j];
    }
    forall j | n < j < |roster| && Fit(agents[roster[j]], capability)
      ensures MayPrecede(agents[roster[n]], agents[roster[j]])
    {
      assert roster[j] in ids;
      var i :| 0 <= i < |ids| && ids[i] == roster[j];
    }
  }

  /** A preferred agent that is registered, active and capable. */
  predicate Preferred(k: State, spec: StepSpec) {
    && spec.preferredAgentId != "" && spec.preferredAgentId in k.agents
    && Fit(k.agents[spec.preferredAgentId], spec.capability)
  }

  /**
    A usable preference decides. A preferred agent that is registered but inactive or incapable, like no preference,
    leaves the step to the first best of exactly the active capable agents, or to the first one registered when high
    Psi is not preferred. Without such an agent, or with a preference for an unknown one, there is an exception.
   */
  lemma AssignsFirstBest(p: Policy, k: State, spec: StepSpec) returns (m: nat)
    requires forall id :: id in k.roster ==> id in k.agents
    ensures var ids, r := EligibleIds(k.agents, k.roster, spec.capability), AssignAgent(p, k, spec);
            && (forall id :: id in ids <==> id in k.roster && Fit(k.agents[id], spec.capability))
            && if spec.preferredAgentId != "" && spec.preferredAgentId !in k.agents then
                 r == Failure(UnknownAgent(spec.preferredAgentId))
               else if Preferred(k, spec) then r == Success(spec.preferredAgentId)
               else if ids == [] then r == Failure(NoActiveAgent(spec.capability))
               else if p.preferHighPsiAgents then FirstBest(k.agents, ids, m) && r == Success(ids[m])
               else r == Success(ids[0])
  {
    EligibleIdsKnown(k.agents, k.roster, spec.capability);
    var ids := EligibleIds(k.agents, k.roster, spec.capability);
    m := 0;
    if ids != [] {
      m := SortPutsFirstBest(k.agents, ids);
    }
  }

  /**
    In terms of registration: without a usable preference the agent is the first fit one registered, or under the
    preference for high Psi the first of those with the highest Psi and, among them, the shortest failure streak.
   */
  lemma AssignsInOrder(p: Policy, k: State, spec: StepSpec) returns (n: nat)
    requires forall id :: id in k.roster ==> id in k.agents
    requires AssignAgent(p, k, spec).Success? && !Preferred(k, spec)
    ensures n < |k.roster| && AssignAgent(p, k, spec) == Success(k.roster[n])
    ensures if p.preferHighPsiAgents then Leads(k.agents, k.roster, spec.capability, n)
            else
              && Fit(k.agents[k.roster[n]], spec.capability)
              && forall j :: 0 <= j < n ==> !Fit(k.agents[k.roster[j]], spec.capability)
  {
    var m := AssignsFirstBest(p, k, spec);
    var ids := EligibleIds(k.agents, k.roster, spec.capability);
    if p.preferHighPsiAgents {
      n := FirstBestLeads(k.agents, k.roster, spec.capability, m);
    } else {
      n := EligibleInOrder(k.agents, k.roster, spec.capability, 0);
      EligibleIdsKnown(k.agents, k.roster[..n], spec.capability);
      assert ids[0] in ids;
      forall j | 0 <= j < n ensures !Fit(k.agents[k.roster[j]], spec.capability) {
        assert k.roster[..n][j] == k.roster[j];
      }
    }
  }
}
