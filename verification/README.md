# Verification of the Processual kernel and its companions

This project models the decision logic of the repository in Dafny 4.11 and proves what that logic keeps over every run.
`dafny verify dfyconfig.toml` checks all of it.

## What is modelled

**The workflow maestro.** `types.dfy`, `continuity.dfy` and `governor.dfy` hold the telemetry, the coefficient mappers,
the Psi increment and the three decision trees. `maestro.dfy` gives every kernel operation as a function on a snapshot
of the kernel, `runs.dfy` the scheduler loop with its termination measure and an induction principle over its turns,
`operations.dfy` the states reachable by any sequence of public operations, `plans.dfy` what a workflow takes from its
plan. `kernel.dfy` is the kernel in its own form: classes whose methods update the registry, the records, the logs and
Psi in place, each proved to do to the snapshot what the function says. The theorems stand in `dependencies.dfy`,
`scheduling.dfy`, `lifetimes.dfy`, `finality.dfy`, `exceptions.dfy`, `completion.dfy`, `escalation.dfy`, `agents.dfy`,
`executions.dfy`, `attempts.dfy`, `handoffs.dfy`, `edges.dfy`, `eventlog.dfy`, `freshness.dfy`, `psi.dfy`,
`weights.dfy`, `routing.dfy` and `verdicts.dfy`. Those about runs hold in every reachable state, so for a workflow that
is run again after an escalation, an exception or an intervention as well as for its first run; only
`Escalation.DefaultRunEscalation`, with its bound of 14 failures, is about first runs.

The structural report comes from a private engine and is an arbitrary function of the observation number, so every
theorem holds for every report. The agent runtime is an arbitrary sequence of results. `exp(-m)` is any function with
values in (0, 1] and at least 1 - m on the unit interval. Numbers are exact reals.

**The SQL CHECK normaliser and comparer.** `sqltokens.dfy` defines the lexemes of a text and their canonical form,
`sqltext.dfy` is the character loop with its quote and pending-space state, `sqlgaps.dfy` says which white space around
parentheses and commas matters, `sqlletters.dfy` which letters and which other white space, `sqlchecks.dfy` is the
comparison of two databases by multisets of normal forms, with the sorted listings of `sorting.dfy`. `text.dfy` has
trimming and lower case for ASCII.

**The route walker.** `routes.dfy` is the depth-first search with its shared visited set over an arbitrary finite graph
of route objects, `routeaudit.dfy` the audit of duplicate routes and operation ids.

**The structural analysis pipeline.** `evaluation.dfy` validates and evaluates scenario packs (`validation.dfy` says
what is refused, `averages.dfy` what the averages depend on), `sensitivity.dfy`, `surfaces.dfy` and `robustness.dfy`
compute snapshots over a Cartesian parameter grid and one-axis surfaces, `classifier.dfy` compares profiles and
classifies, `envelopes.dfy` says what a comparison reports, `regimes.dfy` has the canonical profiles and stress regimes
and the classifier report. `statistics.dfy` has sums, means and spans; `embedding.dfy` the inequalities between them.
The engine is any function of a transition and parameters that returns a report or fails.

**Two stores.** `redaction.dfy` is the recursive redaction of audit values, with `redactionlaws.dfy`,
`redactionnames.dfy` and `redactionpaths.dfy`. `sessions.dfy` is the store of supervisor session keys, with its laws
over runs in `sessionlaws.dfy` and over time in `sessiontimes.dfy`.

## Where a promise holds only under a condition

- A run that raises nothing and whose own calls all succeed leaves its workflow completed if and only if that has
  steps, `quarantine_policy_risk` exceeds 0.0425 (even a flawless run has that much cost), the dependencies are acyclic
  and no step had failed in an earlier run (`Completion.FlawlessRunVerdict`). With known dependencies and registered
  preferences it can raise only because a step that could run has no active capable agent
  (`Exceptions.ResolvedRaisesOnlyForAgents`).
- The event log tells of the executions of a step alone exactly when no intervention named the step and, if the step
  has the id of its workflow, no run was started and no decision made (`EventLog.LogTellsExecutionsAlone`); under that
  id starts and decisions are logged, too (`EventLog.NamesakeIsDelegated`). The exact counts are in
  `EventLog.LogIsFaithful`.
- Handoff edges tell pairs of agents apart exactly when no agent id is bridged by an arrow within others
  (`Edges.ToldApartExactly`): agents `a`, `b->c`, `a->b` and `c` have one edge `a->b->c` for two pairs.
- A successful attempt raises the Psi of an incoming handoff exactly when the priority is not too negative
  (`Handoffs.SuccessfulTurnRaisesHandoffs`); every non-negative priority is fine.
- Executions alone never quarantine an agent if and only if the risk limit exceeds 0.55
  (`Executions.QuarantineLimitExact`).
- One-axis surfaces are bounded by the Cartesian grid exactly when the base parameters lie on the other axes of every
  axis that varies (`Embedding.EmbeddingIsExact`). The default parameters do so for every canonical profile and for no
  stress regime, so a stress regime can report a surface span above its grid span.
- The docstring of the SQL normaliser promises to remove white space around parentheses. The code keeps a gap between a
  closing parenthesis and anything but white space, parentheses and commas, so `(a) b` and `(a)b` stay different;
  elsewhere outside quotes white space around parentheses and commas makes no difference
  (`SqlGaps.GapAfterMarkMatters`, `SqlGaps.GapBeforeMarkMatters`).
- A revoked record keeps its stamp under an operation if and only if that is not a permitted revocation by its id at
  another time; revocation for an identity always keeps it (`SessionLaws.KeepsStampExactly`,
  `SessionLaws.StampAfterRun`).

## Model

| member | source | states |
|---|---|---|
| `Continuity.DeltaSignAndBound` | processual_kernel/continuity.py:83-89 | the sign of a Psi increment is that of T*N - C, and no increment exceeds dt in size, whatever the coefficients |
| `Weights.ClampIsNearest` | processual_kernel/continuity.py:8-11 | the clamped value is the number of the unit interval nearest to the value |
| `Weights.AgentSynergyWeights` | processual_kernel/continuity.py:23-24 | cooperation, handoffs and successes move the synergy of an agent by 0.45, 0.35 and 0.20 of their change, and nothing else |
| `Weights.AgentNeedWeights` | processual_kernel/continuity.py:25-30 | demand, priority, queue and boost move the need by 0.45, 0.25, 0.20 and 0.10 of their change, and nothing else |
| `Weights.AgentCostWeights` | processual_kernel/continuity.py:31-36 | resources and overlap move the cost by 0.35 and 0.25 of their change, and nothing else |
| `Weights.AgentRiskWeights` | processual_kernel/continuity.py:31-42 | policy risk moves the cost by 0.20 and the mortality by 0.25 of its change |
| `Weights.AgentLatencyWeight` | processual_kernel/continuity.py:31-42 | latency counts for the cost up to 10 s and for the mortality up to 20 s, and no further |
| `Weights.AgentAgeWeight` | processual_kernel/continuity.py:37-42 | each of the first ten failures adds 0.04 to the mortality and a day of age 0.25, and no further |
| `Weights.HandoffAmbiguityWeights` | processual_kernel/continuity.py:50-62 | ambiguity takes 0.10 of its change from the synergy of a handoff and adds 0.25 to cost and mortality |
| `Weights.HandoffReworkWeights` | processual_kernel/continuity.py:57-62 | rework moves the cost by 0.35 and the mortality by 0.45 of its change, policy risk both by 0.20 |
| `Weights.WorkflowSynergyWeights` | processual_kernel/continuity.py:66-71 | coordination, alignment and confidence move the synergy of a workflow by 0.35, 0.35 and 0.30, and alignment takes 0.15 from the mortality |
| `Weights.WorkflowBlockingWeights` | processual_kernel/continuity.py:68-71 | rework and blocking move the cost by 0.25 and 0.20 and the mortality by 0.25 each |
| `Verdicts.AgentTransitions` | processual_kernel/governor.py:62-125 | exactly when an agent is active, archived, transitional or quarantined after a decision, for each state it can have had before, and exactly when the decision needs review |
| `Verdicts.EdgeVerdicts` | processual_kernel/governor.py:155-183 | exactly when an edge is quarantined, rerouted or confirmed, which states go with which action (a rerouted edge is archived or transitional under an exact condition), and that any other edge stays as it is |
| `Verdicts.HandoffAnnounces` | processual_kernel/kernel.py:231-236 | one event for each quarantine or reroute of an edge, under its id, and none otherwise |
| `Verdicts.WorkflowVerdicts` | processual_kernel/governor.py:216-257 | the five workflow verdicts exclude one another and cover every case, each with its exact condition on the steps, its action and its need for review |
| `Verdicts.InterventionStates` | processual_kernel/kernel.py:422-435 | which actions set which state, that no other action sets one, and that nothing else changes but the log |
| `Routing.SortPutsFirstBest` | processual_kernel/kernel.py:107-108 | the first of the sorted candidates is the first one that no other outranks (high Psi, then low streak) |
| `Routing.AssignsFirstBest` | processual_kernel/kernel.py:274-290 | a step goes to its preferred agent if that is active and capable, and otherwise to the first best of exactly the active capable agents (the first registered one where the policy does not prefer high Psi); it raises for an unknown preference and when no agent is left |
| `Routing.SortRanks` | processual_kernel/kernel.py:107-108 | the sorted candidates stand in the order of falling Psi and, at equal Psi, of rising failure streaks |
| `Routing.AssignsInOrder` | processual_kernel/kernel.py:101-109 | in terms of registration: the first fit agent registered, or the first of those with the highest Psi and among them the shortest streak |
| `Maestro.AssignedIsEligible` | processual_kernel/kernel.py:274-290 | an assigned agent is registered, active and capable |
| `Runs.ReadyExactly` | processual_kernel/kernel.py:264-272 | the ready list holds, once each, exactly the pending steps whose dependencies are all completed |
| `Runs.TurnEffect` | processual_kernel/kernel.py:303-308 | one pass of the inner loop either raises and changes nothing, or runs exactly one step of the workflow with exactly one runtime call and changes no other step |
| `Runs.InterruptsExactly` | processual_kernel/kernel.py:303-308 | a pass raises exactly for want of an agent, and interrupts the run exactly if it leaves the workflow escalated or failed |
| `Runs.BatchInduction` | processual_kernel/kernel.py:303-308 | an invariant of the single turns holds after a batch, which is interrupted exactly in an escalated or failed state |
| `Runs.RunInduction` | processual_kernel/kernel.py:299-311 | the loop ends; an invariant of the turns holds however it is left; it breaks only with nothing ready |
| `Runs.RunValid` | processual_kernel/kernel.py:292-311 | a run keeps the kernel well formed: known steps, listed orders, registered agents |
| `Runs.RunCloses` | processual_kernel/kernel.py:299-311 | the closing observation leaves steps, calls, agents and edges as the loop left them |
| `Lifetimes.ReachedLive` | processual_kernel/kernel.py:58-435 | in every reachable state, after any sequence of creations, runs and reruns, observations and interventions, each workflow's records and calls are in step: attempts counted, outputs recorded, dependencies fed |
| `Lifetimes.RunBypasses` | processual_kernel/kernel.py:292-311 | the run of one workflow changes no record of another and makes no call for it |
| `Lifetimes.AttemptsAreBounded` | processual_kernel/kernel.py:319-373 | over all the runs of a workflow each step is handed to the runtime as often as its attempts say, at most max(1, min(max_retries, max_step_attempts)) times, and the workflow at most the sum of these bounds, for every plan (cyclic ones included) and every result sequence |
| `Lifetimes.AttemptRecord` | processual_kernel/kernel.py:313-373 | what one attempt writes into the record of its step: agent, attempt, output and error, and completed, pending or failed exactly by the result and the two limits |
| `Lifetimes.RunIsBounded` | processual_kernel/kernel.py:299-373 | every run, first or later, makes at most the calls that the attempts of its steps leave |
| `Lifetimes.EveryCallIsFed` | processual_kernel/kernel.py:264-272 | although the ready list is computed before the batch, every runtime call of every run is handed the final outputs of dependencies that are completed and had succeeded in an earlier call |
| `Finality.CompletionIsAbsorbing` | processual_kernel/kernel.py:58-435 | no operation changes the record of a completed step in any way, from any well-formed state |
| `Finality.CompletedForever` | processual_kernel/kernel.py:58-435 | so a completed record is the same after every further sequence of operations |
| `Finality.EveryCallHasItsMoment` | processual_kernel/kernel.py:264-345 | every runtime call for a step was made in a state that a run passed through, with exactly the earlier calls behind it: the step was pending, its agent active and capable, all its dependencies completed with the records they still have; the call carries their outputs, the attempt, the capability and the priority of the plan |
| `Finality.SuccessEndsAStep` | processual_kernel/kernel.py:336-373 | in every reachable state a step is completed if and only if a call of it succeeded, and no call of a step follows a successful one |
| `Finality.CompletionsAreTopological` | processual_kernel/kernel.py:264-311 | in every reachable state the completing calls, in order, list exactly the completed steps, each once and each after all its dependencies |
| `Lifetimes.QuiescentSettles` | processual_kernel/kernel.py:299-311 | when the loop of any run breaks every step is completed, or failed with its attempts exhausted, or pending with no attempt and behind a failed step or a cycle |
| `Lifetimes.CycleNeverRuns` | processual_kernel/kernel.py:264-272 | no step on or behind a dependency cycle was ever handed to the runtime in any reachable state |
| `Scheduling.RunLives` | processual_kernel/kernel.py:299-373 | any run from a state where records and calls are in step keeps them so, spends no more calls than were left, and settles when its loop breaks |
| `Scheduling.BlockedNeverCalled` | processual_kernel/kernel.py:264-272 | by descent on call numbers, no member of a mutually waiting set is called |
| `Dependencies.CycleBlocks` | processual_kernel/kernel.py:270-270 | a step on or behind a cycle belongs to a finite set of steps that wait for one another |
| `Dependencies.BlockedCycles` | processual_kernel/kernel.py:270-270 | conversely a step of such a set is on or behind a cycle |
| `Completion.FlawlessRunCompletesExactly` | processual_kernel/kernel.py:299-311 | if every call that a run itself makes succeeds and its loop breaks, the steps completed afterwards are exactly those off all cycles that are neither failed from an earlier run nor behind such a step, whatever other calls did and whatever the structural reports |
| `Completion.FlawlessRunVerdict` | processual_kernel/kernel.py:292-311 | a run that raises nothing and whose own calls all succeed leaves its workflow completed if and only if that has steps, quarantine_policy_risk exceeds 0.0425, the plan is acyclic and no step had failed before |
| `Completion.SoundRunCompletes` | processual_kernel/kernel.py:274-311 | on a resolved acyclic plan with no failed step such a run either completes exactly as the risk limit says (and never without steps), or raises because a step that could run has no active capable agent |
| `Exceptions.RunRaisesOnlyFor` | processual_kernel/kernel.py:264-311 | from every well-formed state each exception of a run has its cause: no runtime, an absent workflow, a step that lists an absent dependency, a step that prefers an unregistered agent, or a runnable step with no active capable agent |
| `Exceptions.ResolvedRaisesOnlyForAgents` | processual_kernel/kernel.py:274-290 | when dependencies exist and preferred agents are registered, only the missing agent is left |
| `Escalation.RiskIsCost` | processual_kernel/continuity.py:65-72 | with f of n steps failed, the risk test of the governor at 0.85 is the integer inequality f(24n + 180) >= 323n; the mortality coefficient never decides |
| `Escalation.RiskThresholds` | processual_kernel/governor.py:223-227 | that inequality never holds below 6 failures and always from 14 on |
| `Escalation.TurnObserved` | processual_kernel/kernel.py:399-420 | after every turn a failed step implies an escalated or degraded workflow, and completion exactly when all steps are completed and the policy does not escalate |
| `Escalation.StepCoefficients` | processual_kernel/kernel.py:399-420 | the four coefficients of a workflow as functions of its completed, failed and running steps and its priority |
| `Escalation.ObservationMovesPsi` | processual_kernel/kernel.py:399-420 | an observation in a run moves the workflow's Psi by the increment of these coefficients |
| `Escalation.CompletedWorkflowGains` | processual_kernel/kernel.py:399-420 | a completed workflow of non-negative priority gains Psi with every observation |
| `Escalation.RunVerdict` | processual_kernel/kernel.py:292-311 | the same after every run of every reachable state that raises nothing, for every policy and report, an empty workflow never being completed; under the default policy escalation is exactly the inequality in the failed steps |
| `Escalation.DefaultRunEscalation` | processual_kernel/kernel.py:299-311 | under the default policy a fresh run holds at most 14 failed steps, is never escalated below 6, always at 14, and in between exactly by the inequality |
| `AgentSafety.ActiveMeansBelowLimit` | processual_kernel/governor.py:62-125 | an agent that the governor leaves active has a streak below the limit |
| `AgentSafety.CriticalVerdict` | processual_kernel/governor.py:62-125 | a critical agent is never moved into the archive, and each demotion of one is reviewed when the policy asks for it |
| `AgentSafety.AgentsStaySafe` | processual_kernel/kernel.py:73-133 | in every reachable state active agents are below the streak limit, no critical agent is archived, and every logged demotion of a critical agent required review |
| `AgentSafety.StreakLimitExact` | processual_kernel/governor.py:101-104 | every active agent of every reachable state is below the limit if and only if the limit is at least one |
| `Executions.ExecutionsAreLimited` | processual_kernel/kernel.py:346-360 | when telemetry comes only from executions, the recorded streak is the number of trailing failures; with a streak limit of at least one no agent is given more consecutive failing work than it across workflows and direct runs; above a risk limit of 0.55 none is quarantined |
| `Executions.ExecutionNeverQuarantines` | processual_kernel/continuity.py:31-42 | one execution does not quarantine an agent when the risk limit exceeds 0.55 |
| `Executions.ExpensiveExecutionQuarantines` | processual_kernel/continuity.py:31-42 | at 0.55 or below an expensive slow execution does quarantine it |
| `Executions.QuarantineLimitExact` | processual_kernel/kernel.py:346-360 | no reachable state of executions alone, whatever the results, has a quarantined agent if and only if the risk limit exceeds 0.55 |
| `PsiConservation.PsiIsConserved` | processual_kernel/kernel.py:78-84 | in every reachable state the Psi of each agent, edge and workflow is the sum of the increments of its decisions, each decision shows the running sum, and each increment has the sign of T*N - C |
| `PsiConservation.PsiIsBounded` | processual_kernel/continuity.py:83-89 | after k observations |Psi| <= k * dt |
| `Handoffs.FailedTurnDegradesHandoffs` | processual_kernel/kernel.py:378-397 | under the default policy a failed attempt lowers the Psi of every observed incoming edge by more than alpha, leaves none active and logs a reroute for each, for every report and every priority |
| `Handoffs.SuccessfulTurnRaisesHandoffs` | processual_kernel/kernel.py:378-397 | a successful attempt raises each such Psi if and only if 0.8525 * clamp(0.70 * priority + 0.15) > 0.0425 |
| `Handoffs.NonNegativePriorityPays` | processual_kernel/continuity.py:49-63 | every non-negative priority meets that condition |
| `Attempts.AttemptMovesPsi` | processual_kernel/kernel.py:346-360 | an attempt moves its agent's Psi by (T N - C) exp(-M) dt with T = 0.72 for a success and 0.1825 for a failure, N from the priority, C from cost and latency, M from failures and latency, and changes no other agent |
| `Attempts.AttemptIsWeighed` | processual_kernel/kernel.py:346-360 | so a success raises it if and only if 0.72 N > C and a failure if and only if 0.1825 N > C, and it falls exactly in the opposite case |
| `Attempts.TaskMovesPsi` | processual_kernel/kernel.py:111-133 | a direct task moves its agent's Psi in the same way with T = 0.68 for a success and 0.48 for a failure |
| `Edges.CollideExactly` | processual_kernel/kernel.py:207-207 | two pairs of agents share an edge id if and only if they are the same or an arrow within an agent id is taken for the separating one |
| `Edges.ToldApartExactly` | processual_kernel/kernel.py:207-210 | edges tell the pairs of a set of agents apart if and only if no agent id of it is bridged by others |
| `Edges.ArrowlessAreToldApart` | processual_kernel/kernel.py:207-210 | ids without an arrow are told apart |
| `Edges.EdgeIsOfItsPair` | processual_kernel/kernel.py:206-211 | in every reachable state the edge found for a pair is that pair's own, among agents whose pairs are told apart |
| `Edges.HandoffContinues` | processual_kernel/kernel.py:206-236 | the first handoff between two agents starts an active edge with no Psi, a later one goes on with the edge; the record shows its last decision |
| `EventLog.LogIsFaithful` | processual_kernel/kernel.py:313-373 | in every reachable state a step's DELEGATE events number its attempts, RETRY events its attempts less one once terminal, REROUTE events one if failed and none otherwise, and there is no event of another action; to each are added the interventions that named the step with that action and, for a step with the id of its workflow, the starts of runs and the decisions on the workflow |
| `EventLog.LogTellsExecutionsAlone` | processual_kernel/kernel.py:422-435 | so the log tells of a step's executions alone if and only if no intervention named it and, should it have the id of its workflow, no run was started and nothing decided |
| `EventLog.NamesakeIsDelegated` | processual_kernel/kernel.py:292-297 | a witness: a step with the id of its workflow shows one DELEGATE event after a run that attempted nothing |
| `EventLog.TurnFaithful` | processual_kernel/kernel.py:313-373 | each single turn keeps that correspondence |
| `Freshness.LogsMentionKnownWorkflows` | processual_kernel/kernel.py:191-204 | in every reachable state logs and calls mention only workflows that exist |
| `Freshness.CreationIsFresh` | processual_kernel/kernel.py:176-183 | so a workflow created in any reachable state starts fresh and unlogged |
| `Operations.ApplyValid` | processual_kernel/kernel.py:58-435 | every public operation keeps the kernel well formed |
| `Plans.WorkflowFollowsPlan` | processual_kernel/kernel.py:176-183 | a new workflow has a pending step for each id of its plan and no other; a repeated id stands where it first occurs and means what it last says |
| `Plans.NewStepIsPending` | processual_kernel/kernel.py:176-183 | a step starts pending, assigned to nobody, with no attempt, output or error |
| `Kernel.MaestroKernel.Create` | processual_kernel/continuity.py:78-81 | construction fails exactly when dt is not positive, else yields the empty kernel |
| `Kernel.MaestroKernel.RegisterAgent` | processual_kernel/kernel.py:58-65 | adds the record, or refuses a known id and changes nothing |
| `Kernel.MaestroKernel.Observe` | processual_kernel/kernel.py:73-99 | the new state is the specified observation of the old one; an unknown id changes nothing |
| `Kernel.MaestroKernel.ObserveHandoff` | processual_kernel/kernel.py:206-236 | creates or updates the edge and logs reroutes and quarantines, as specified |
| `Kernel.MaestroKernel.CreateWorkflow` | processual_kernel/kernel.py:176-183 | builds the step records in plan order, or refuses a known id and changes nothing |
| `Kernel.MaestroKernel.ObserveWorkflow` | processual_kernel/kernel.py:238-262 | the new state is the specified workflow observation; an unknown id changes nothing |
| `Kernel.MaestroKernel.Intervene` | processual_kernel/kernel.py:422-435 | the state set by each action, with its event |
| `Kernel.MaestroKernel.CountSteps` | processual_kernel/kernel.py:401-403 | the counting loop yields the size of the set of steps in a state |
| `Kernel.MaestroKernel.ReadySteps` | processual_kernel/kernel.py:264-272 | the loop yields the specified ready list, or the missing dependency |
| `Kernel.MaestroKernel.RouteCandidates` | processual_kernel/kernel.py:101-109 | the filter and the stable sort yield the specified candidates |
| `Kernel.MaestroKernel.AssignAgent` | processual_kernel/kernel.py:274-290 | preference, fallback and both errors as specified |
| `Kernel.MaestroKernel.AttemptStep` | processual_kernel/kernel.py:313-373 | the step's record, the runtime call, the stored result, the agent's observation, then the retry or the reroute, one after the other as in the source, amount to the specified attempt |
| `Kernel.MaestroKernel.ObserveStepHandoffs` | processual_kernel/kernel.py:378-397 | the loop over the dependencies observes the specified edges |
| `Kernel.MaestroKernel.ObserveWorkflowFromSteps` | processual_kernel/kernel.py:399-420 | the counting loops and the observation give the specified state |
| `Kernel.MaestroKernel.Turn` | processual_kernel/kernel.py:303-308 | one pass of the inner loop in place is the specified turn, with its outcome |
| `Kernel.MaestroKernel.RunBatch` | processual_kernel/kernel.py:303-308 | the inner loop in place is the specified batch |
| `Kernel.MaestroKernel.RunWorkflow` | processual_kernel/kernel.py:292-311 | the while loop in place terminates and is the specified run, with its outcome |
| `Kernel.MaestroKernel.RunTask` | processual_kernel/kernel.py:111-133 | a direct run in place is the specified one, with both errors |
| `SqlTokens.LexRender` | tools/check_check_constraint_names.py:48-107 | reading a rendered stream of canonical lexemes gives it back: nothing merges, splits or moves |
| `SqlTokens.TokensOfNormalized` | tools/check_check_constraint_names.py:48-107 | the canonical lexemes of a text can be read back from its normal form |
| `SqlTokens.NormalFormDecidesTokens` | tools/check_check_constraint_names.py:48-107 | two texts normalize alike exactly when their canonical lexemes agree: quoted tokens verbatim, others in lower case, gaps only where they separate something |
| `SqlTokens.NormalizationIsIdempotent` | tools/check_check_constraint_names.py:48-107 | normalizing twice changes nothing more |
| `SqlTokens.GapAfterParenthesisStays` | tools/check_check_constraint_names.py:93-103 | a witness: the text of a closing parenthesis and a letter, and the same with a space between, do not normalize alike |
| `SqlGaps.GapAfterMarkMatters` | tools/check_check_constraint_names.py:88-103 | for all texts around it, a space inserted after a parenthesis or comma makes no difference if and only if nothing but white space follows, or it stands outside quotes and, after a closing parenthesis, before white space, a parenthesis or a comma |
| `SqlGaps.GapBeforeMarkMatters` | tools/check_check_constraint_names.py:76-103 | a space inserted before a parenthesis or comma makes no difference if and only if it stands outside quotes |
| `SqlLetters.LetterMatters` | tools/check_check_constraint_names.py:88-107 | one ordinary character may stand for another if and only if they are the same or, outside quotes, the capital and the small form of one letter |
| `SqlLetters.NormalFormHasNoCapital` | tools/check_check_constraint_names.py:100-107 | no ASCII capital stands outside the quotes of a normal form |
| `SqlLetters.QuotelessHasNoCapital` | tools/check_check_constraint_names.py:57-107 | the normal form of a text without quotes has no capital at all |
| `SqlLetters.QuotedIsVerbatim` | tools/check_check_constraint_names.py:62-86 | a quoted text is its own normal form |
| `SqlLetters.SpaceMatters` | tools/check_check_constraint_names.py:88-91 | one kind of white space may stand for another if and only if it does so outside quotes or where it is trimmed |
| `SqlLetters.GapBetweenMatters` | tools/check_check_constraint_names.py:100-104 | white space between two ordinary characters always matters |
| `SqlText.NormalizeSqlText` | tools/check_check_constraint_names.py:57-107 | the character loop computes the normal form, and its loop that pops trailing spaces never pops one |
| `SqlChecks.CountersDecide` | tools/check_check_constraint_names.py:142-150 | two counters of normal forms agree exactly when every check occurs equally often on both sides |
| `SqlChecks.CompareReflectedChecks` | tools/check_check_constraint_names.py:122-168 | one mismatch per checked table whose sides differ, with sorted listings that name what is missing and what is unexpected, as often as it is, and nothing else; ok exactly when no checked table differs |
| `SqlChecks.ListingIsDetermined` | tools/check_check_constraint_names.py:150-152 | there is only one such listing |
| `Sorting.AtMostIsLexicographic` | tools/check_check_constraint_names.py:150-152 | listings are in dictionary order over code points |
| `Routes.EffectiveApiRoutes` | tools/openapi_integrity.py:17-61 | enumeration ends on every finite, possibly cyclic graph, visits each reachable container once and no other, and yields exactly the leaves listed at top level and by the reachable containers, with multiplicity |
| `Routes.VisitsAreReachable` | tools/openapi_integrity.py:30-61 | from an empty visited set the containers entered are exactly the reachable ones |
| `Routes.EnumerationsAgree` | tools/openapi_integrity.py:17-61 | the multiset yielded is determined by the graph, not by the order of the search |
| `Routes.Walker.Walk` | tools/openapi_integrity.py:33-61 | what a recursive call adds to the shared visited set, to the output and to the visits, from any intermediate state |
| `Routes.ItemsAre` | tools/openapi_integrity.py:33-61 | exactly which listed objects are yielded, entered and passed over |
| `Routes.ContentsAre` | tools/openapi_integrity.py:38-61 | a container lists its effective candidates if it has any such list, and its routes otherwise |
| `RouteAudit.AuditRoutes` | tools/openapi_integrity.py:64-104 | the report counts the served pairs and the declared operation ids and passes if and only if no method and path other than HEAD and OPTIONS is served twice and no operation id is declared twice; it lists in key order the ids declared twice with their counts and the labels of the pairs served twice, where pairs with one label share an entry and the one that first occurs last gives the count |
| `RouteAudit.LastLabelWins` | tools/openapi_integrity.py:73-77 | of the repeated pairs with one label the one that first occurs last gives the count |
| `RouteAudit.DeclaresExactly` | tools/openapi_integrity.py:79-88 | an id is declared exactly by an operation that has one under one of the seven methods, in any letter case |
| `RouteAudit.OrderIsDetermined` | tools/openapi_integrity.py:65-71 | the order of the pairs, by route and sorted method, and with it the listing, is determined by the routes |
| `RouteAudit.RoutesNamedExactly` | tools/openapi_integrity.py:73-76 | where no method holds a space the listed routes are exactly the pairs served twice, each with its own count |
| `Robustness.ProductHolds` | cgtlib/robustness.py:27-27 | a row is in the Cartesian product exactly when it picks one value of each factor, and the size is the product of the sizes |
| `Robustness.CrossOrder` | cgtlib/robustness.py:27-27 | rows come in product order, the last factor varying fastest |
| `Robustness.GridIsTheProduct` | cgtlib/robustness.py:22-33 | the parameter grid holds exactly the parameters with a listed value on each listed axis and the base value elsewhere |
| `Robustness.SummarizeRobustnessReport` | cgtlib/robustness.py:55-77 | the loop over the surfaces computes the specified summary, or the first error |
| `Robustness.SummaryEntries` | cgtlib/robustness.py:55-77 | what the joint summary holds under each name, for every metric; the sensitivity part overrides the grid size |
| `Sensitivity.EvaluateParameterSensitivity` | cgtlib/sensitivity.py:25-46 | the loop over the grid computes the specified report, or the first error |
| `Sensitivity.ComputeMetricSpans` | cgtlib/sensitivity.py:49-59 | the loop fills in the spans of the given metrics |
| `Sensitivity.MetricSpansAre` | cgtlib/sensitivity.py:49-59 | the three spans stand under their own names and no other |
| `Sensitivity.ComputeMaxTransitionSpan` | cgtlib/sensitivity.py:62-68 | the loop finds the largest span of one scenario, 0 without scenarios |
| `Sensitivity.LargestSpanIs` | cgtlib/sensitivity.py:62-68 | the largest scenario span is the span of some scenario and at least that of each, and 0 without scenarios |
| `Sensitivity.MeanSpreadsNoFurther` | cgtlib/sensitivity.py:49-68 | the span of the mean over scenarios is at most the largest span of one scenario |
| `Surfaces.EvaluateBenchmarkSurface` | cgtlib/benchmark_surfaces.py:34-59 | the loop over the axis values computes the specified surface, or the first error |
| `Surfaces.SurfacePoints` | cgtlib/benchmark_surfaces.py:46-59 | one point per axis value, each with the summary at the replaced parameters |
| `Surfaces.SurfaceBands` | cgtlib/benchmark_surfaces.py:80-99 | the summary of a surface holds its size, the range of its axis and the band of each metric over its points |
| `Evaluation.EvaluatedReportsAreValid` | cgtlib/batch.py:28-53 | whatever the engine answers, every report of a batch that succeeds is within the validated ranges |
| `Evaluation.PackAveragesInRange` | cgtlib/simulation.py:15-26 | averages of validated reports stay in their ranges |
| `Evaluation.PackMeansInRange` | cgtlib/scenarios.py:61-71 | so do the means over packs |
| `Evaluation.PacksInRange` | cgtlib/scenarios.py:55-58 | and every pack of an evaluated list has such averages |
| `Averages.SeriesOfOne` | cgtlib/simulation.py:15-26 | the averages over one report are its own readings |
| `Averages.SeriesNext` | cgtlib/simulation.py:15-26 | one more report moves each average by its own share |
| `Averages.SeriesInAnyOrder` | cgtlib/simulation.py:15-26 | the averages do not depend on the order of the reports |
| `Averages.PacksNext` | cgtlib/scenarios.py:61-71 | one more pack moves each mean by its own share, however many reports it has |
| `Averages.PacksInAnyOrder` | cgtlib/scenarios.py:61-71 | the means do not depend on the order of the packs |
| `Validation.BatchFailsExactly` | cgtlib/batch.py:28-53 | a batch is refused if and only if it is empty, a parameter is out of range, or the engine fails on an input or answers out of range; otherwise it returns the engine's answers as they are |
| `Validation.PackFailsExactly` | cgtlib/scenarios.py:34-52 | a pack is refused if and only if its batch is, its id is blank, or an input is out of range; its summary is that of its reports |
| `Validation.PacksFailExactly` | cgtlib/scenarios.py:55-58 | packs are refused if and only if there is none, a parameter is out of range, or one of them is refused |
| `Embedding.SurfaceSpansEmbed` | cgtlib/robustness.py:36-77 | for every engine: when the base parameters lie on the other axes of each axis that varies, max surface span <= span of the grid means <= max scenario span for transitions, and surface spans <= grid spans for compatibility and aftermath |
| `Embedding.MeanSpanIsBounded` | cgtlib/sensitivity.py:25-68 | the second of these inequalities holds for all base parameters |
| `Embedding.EmbeddingIsExact` | cgtlib/robustness.py:36-77 | the inequalities hold for every engine if and only if the base parameters satisfy that condition |
| `Embedding.SomeEngineEscapes` | cgtlib/robustness.py:36-77 | where the condition fails, an engine that breaks the first inequality |
| `Classifier.RobustnessSeverityInUnit` | cgtlib/regime_classifiers.py:34-68 | for every engine the severity of an evaluated report is in [0, 1] |
| `Classifier.GatingIsDominated` | cgtlib/regime_classifiers.py:34-51 | under the condition above the gating span adds nothing to severity, and a gating-stressed report has a transition span in [0.18, 0.3) |
| `Classifier.LabelsAre` | cgtlib/regime_classifiers.py:45-51 | exactly which spans each label stands for |
| `Classifier.SeverityIsLeast` | cgtlib/regime_classifiers.py:44-44 | the severity is the least number that is at least each span, the aftermath counting half and at most 1 |
| `Classifier.EnvelopeIsWorstProfile` | cgtlib/regime_classifiers.py:71-85 | the envelope classification has the severity and the label of the worst profile, no profile is worse, and its severity is in [0, 1] |
| `Classifier.RobustnessIsJustified` | cgtlib/regime_classifiers.py:54-68 | the evidence of a classified report has exactly the four cited entries, and label and severity are those of its numbers |
| `Classifier.EnvelopeIsJustified` | cgtlib/regime_classifiers.py:71-85 | so has the evidence of a classified envelope report, whether or not a comparison produced it |
| `Classifier.EnvelopeLookup` | cgtlib/comparative_envelopes.py:60-86 | what the classifier reads from an envelope summary is the maximum of that metric over the profiles |
| `Classifier.CompareMetrics` | cgtlib/comparative_envelopes.py:60-67 | the loop computes minimum and maximum of each of the seven metrics |
| `Envelopes.EnvelopeDescribesProfile` | cgtlib/comparative_envelopes.py:37-45 | an envelope bears its profile's name, the number of its axes and the number of their combinations |
| `Envelopes.SummaryHoldsBounds` | cgtlib/comparative_envelopes.py:70-86 | the summary holds the least, the largest and the span of each metric over the profiles |
| `Envelopes.SummaryHoldsCounts` | cgtlib/comparative_envelopes.py:70-80 | it holds how many profiles were compared and the mean size of their grids and number of their axes |
| `Classifier.SummarizeComparativeEnvelopes` | cgtlib/comparative_envelopes.py:70-86 | the loop adds the three bounds of each metric to the counts |
| `Regimes.DefaultsCover` | cgtlib/robustness_profiles.py:18-49 | the default parameters satisfy the condition on every canonical profile and on no stress regime |
| `Regimes.ProfilesAreEven` | cgtlib/stress_regimes.py:18-49 | every profile and regime varies three axes over three evenly spaced values, the canonical ones around the defaults |
| `Regimes.CanonicalEnvelopesAreOrdered` | cgtlib/comparative_envelopes.py:48-67 | so with the default parameters the three envelope maxima of transition spans are ordered for every engine |
| `Regimes.StressRegimesEscape` | cgtlib/stress_regimes.py:18-49 | and for each stress regime some engine breaks the first inequality |
| `Regimes.SeveritiesInUnit` | cgtlib/regime_classifiers.py:88-102 | all severities of the classifier report and their mean are in [0, 1] |
| `Regimes.DominantWins` | cgtlib/regime_classifiers.py:101-101 | the dominant label has the largest count and is the alphabetically last of several |
| `Regimes.PositionIsAlphabetical` | cgtlib/regime_classifiers.py:101-101 | the order of labels is that of their texts |
| `Regimes.BuildHistogram` | cgtlib/regime_classifiers.py:98-100 | the loop counts the classifications of each label that occurs |
| `Regimes.CountsAddUp` | cgtlib/regime_classifiers.py:98-100 | the counts of the four labels add up to the number of classifications |
| `Regimes.EvaluateClassifierReport` | cgtlib/regime_classifiers.py:88-109 | the report holds the classifications, their histogram, the dominant label, the mean severity and the comparative summary, or the first error |
| `Regimes.ReportSubjects` | cgtlib/regime_classifiers.py:88-97 | the classifications are those of the stress regimes, each under its own name, and then that of the compared profiles |
| `Redaction.RedactValue` | processual_api/admin_audit_log.py:66-107 | the recursion with its loops computes the specified value and count |
| `Redaction.RedactEntries` | processual_api/admin_audit_log.py:88-105 | the loop over a dictionary drops, keeps and counts as specified, and adds the subtotal when it is positive |
| `Redaction.RedactItems` | processual_api/admin_audit_log.py:70-86 | the loops over lists and tuples |
| `RedactionLaws.CountKeyIsPlain` | processual_api/admin_audit_log.py:53-55 | the name under which subtotals are stored is not itself sensitive |
| `RedactionNames.SensitiveExactly` | processual_api/admin_audit_log.py:53-55 | a name is sensitive if and only if it holds one of the eleven words, wherever it stands and in any mixture of capitals and small letters |
| `RedactionNames.NamedEntryIsDropped` | processual_api/admin_audit_log.py:91-95 | an entry with such a name is dropped whole and counted once, whatever its value |
| `RedactionNames.OtherEntryStays` | processual_api/admin_audit_log.py:97-100 | every other entry keeps its name and loses only what its own value loses |
| `RedactionLaws.RedactedIsClean` | processual_api/admin_audit_log.py:66-107 | no entry at any depth of a redacted value has a sensitive name |
| `RedactionLaws.RedactionIsIdempotent` | processual_api/admin_audit_log.py:66-112 | with an idempotent string redactor, redacting twice changes nothing more and drops nothing |
| `RedactionPaths.CountIsExact` | processual_api/admin_audit_log.py:66-107 | the count is the number of paths to entries with sensitive names that lie in no other such entry |
| `RedactionPaths.RedactedInPlace` | processual_api/admin_audit_log.py:66-107 | whatever a surviving path leads to stands at the same path of the result, redacted |
| `RedactionPaths.SubtotalRecorded` | processual_api/admin_audit_log.py:102-105 | a dictionary records its subtotal if it is positive, and otherwise keeps exactly its keys |
| `RedactionPaths.SubtotalsInPlace` | processual_api/admin_audit_log.py:102-105 | every surviving dictionary whose subtree lost entries records its own subtotal at its place |
| `RedactionPaths.RedactedIsKeyed` | processual_api/admin_audit_log.py:88-105 | no dictionary of the result has a key twice |
| `Sessions.SessionStore.Issue` | processual_api/supervisor_session_keys.py:220-257 | appends one active record, or refuses without a change |
| `Sessions.SessionStore.Validate` | processual_api/supervisor_session_keys.py:271-292 | the first record that verifies decides: revoked, expired, or stamped as used; all else unchanged |
| `Sessions.SessionStore.Revoke` | processual_api/supervisor_session_keys.py:377-401 | the first record with the id is stamped, even if it was revoked before; all else unchanged |
| `Sessions.SessionStore.RevokeForIdentity` | processual_api/supervisor_session_keys.py:295-374 | argument errors in order, store errors, and otherwise the specified new file and count |
| `Sessions.RevokeLoaded` | processual_api/supervisor_session_keys.py:345-372 | the loop revokes exactly the concerned records and counts them; a row that is no record rejects the whole store |
| `SessionLaws.RunGrows` | processual_api/supervisor_session_keys.py:220-401 | over every run no record is removed, moved or rewritten, and no revocation is unset |
| `SessionLaws.DeadForever` | processual_api/supervisor_session_keys.py:271-292 | once the record that decides a key is revoked, the key is refused after every further run and at every time |
| `SessionLaws.RefusedExactlyWhenDead` | processual_api/supervisor_session_keys.py:277-284 | a key is refused as revoked exactly then |
| `SessionLaws.RevokedByIdIsDead` | processual_api/supervisor_session_keys.py:387-401 | revoking the deciding record by id makes its key dead |
| `SessionLaws.RevokedForIdentityIsDead` | processual_api/supervisor_session_keys.py:345-372 | revoking for an identity makes every key dead that a record of that identity decides |
| `SessionLaws.IssuedKeyValidates` | processual_api/supervisor_session_keys.py:233-257 | a key issued under a new hash is decided by its own record and validates exactly before the requested time of expiry, or for good if that names no time |
| `SessionTimes.DecidedKey` | processual_api/supervisor_session_keys.py:271-292 | a decided key is revoked, expired or accepted exactly by its revocation and by its time of expiry compared with now |
| `SessionTimes.UndecidedKey` | processual_api/supervisor_session_keys.py:273-292 | any other key is invalid, and no other |
| `SessionTimes.ValidationTouches` | processual_api/supervisor_session_keys.py:286-289 | a refusal changes nothing, an acceptance only the time of use on the deciding record |
| `SessionTimes.ExpiredForever` | processual_api/supervisor_session_keys.py:215-217 | a key refused as expired is refused at every later time, whatever happens to the store meanwhile |
| `SessionTimes.AcceptedBefore` | processual_api/supervisor_session_keys.py:215-217 | a key that is accepted was acceptable at every earlier time |
| `SessionTimes.ManagersAre` | processual_api/supervisor_session_keys.py:209-212 | keys are managed exactly by an owner supervisor, whatever the case of the level and the white space around it |
| `SessionTimes.IssueRefusals` | processual_api/supervisor_session_keys.py:226-231 | issuing is refused exactly to others and for levels without scopes, and then changes nothing |
| `SessionTimes.IssuedRecordShows` | processual_api/supervisor_session_keys.py:233-251 | what an issued key's record shows of the request, behind all earlier rows |
| `SessionTimes.RevokedRecordShows` | processual_api/supervisor_session_keys.py:377-401 | who revoked a record by id, why and when, on the first record with that id; exactly when that is refused |
| `SessionTimes.NamedAre` | processual_api/supervisor_session_keys.py:305-307 | a revocation concerns the records issued to one of its identities, up to case and surrounding white space |
| `SessionTimes.ArgumentErrors` | processual_api/supervisor_session_keys.py:305-326 | which argument is refused first, exactly |
| `SessionTimes.StoreErrors` | processual_api/supervisor_session_keys.py:329-352 | with valid arguments only an unreadable store or a row that is no record is refused, and nothing then changes |
| `SessionTimes.UnreadableIsEmpty` | processual_api/supervisor_session_keys.py:76-82 | a store that is absent or cannot be read holds no key for issuing, validation and revocation by id |
| `SessionLaws.RevokesExactlyTheActive` | processual_api/supervisor_session_keys.py:345-374 | the answer is the number of records that stop being active; revoked ones keep their stamp, others are untouched, none of the named stays active |
| `SessionLaws.SecondRevocationIsIdle` | processual_api/supervisor_session_keys.py:345-374 | a second call for identities already covered returns 0 and changes nothing, whoever asks and whenever |
| `SessionLaws.KeepsStampExactly` | processual_api/supervisor_session_keys.py:387-401 | a revoked record keeps its stamp under an operation if and only if that is not a permitted revocation by the id whose first record it is, or it comes at the same time |
| `SessionLaws.StampAfterRun` | processual_api/supervisor_session_keys.py:345-401 | over every run a revoked record bears the time of its last revocation by id, and its first stamp if there is none |
| `SessionLaws.KeepsStampThroughRun` | processual_api/supervisor_session_keys.py:345-401 | so a run without a revocation of it by id keeps the stamp |
| `SessionLaws.RevokedAgainLosesStamp` | processual_api/supervisor_session_keys.py:387-401 | a witness: an owner who revokes a revoked record by its id at another time replaces the stamp |

## Left out

- Floating point: numbers are exact reals, so rounding, infinities and NaN are not modelled, nor the checks that reject
  non-finite values.
- The private numerical engine: reports are arbitrary, and only their validation is modelled.
- Wall clocks, identifiers drawn at random, reasons, payload texts, confidence values, the dictionary form of reports,
  goals, instructions and metadata of plans.
- Custom telemetry entries: `need_boost` and `handoff_priority` are fields with the defaults of the source.
- Exceptions thrown by the runtime and interleaving at `await`: a call returns a result before anything else happens.
- Replacing the policy of a live kernel, kernel snapshots and the active ratio.
- Kernel.MaestroKernel.AttemptStep: step records and handoff records are values in maps of the kernel, so the identity
  of such a record, kept by a caller across updates, is not captured; agent, workflow and kernel records are objects.
- SqlText.NormalizeSqlText: white space and letter case of ASCII only; `str.isspace` and `str.lower` know more.
- SqlChecks.CompareReflectedChecks: databases are represented by the texts that inspection returns.
- RouteAudit.AuditRoutes: yielded routes and the path items of the schema are given, not built by the framework.
- Routes.EffectiveApiRoutes: a route object is a node of a finite graph, and its candidates do not change while they are
  enumerated.
- Evaluation.EvaluatedReportsAreValid: the arguments that are handed to the engine unchecked are one opaque value.
- Regimes.EvaluateClassifierReport: the canonical scenario packs are a parameter; summaries are keyed by constructors
  instead of formatted strings.
- Redaction.RedactValue: the regular expressions that rewrite strings are an opaque function, and keys are strings.
- Sessions.SessionStore.RevokeForIdentity: identities are compared after ASCII lower-casing, not full case folding.
- Sessions.SessionStore.Issue: hashing and key generation are a verification function and given values; the safe view
  that omits the hash, the listing, file locks, temporary files, backups and JSON encoding are not modelled.
- The adaptive toolkit, HTTP routing, settings, migrations, readiness tables, benchmarks and scripts: they add only
  finite tables, recording or input and output.
