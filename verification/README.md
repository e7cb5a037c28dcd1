# Verification of the observe workflow, the trading authority and their kernels

A Dafny model of the stored procedures that schedule decision episodes and
guard simulated trading, with proofs about every sequence of calls. Each stored
procedure is one atomic step. Its clock readings are arguments, so nothing is
assumed about how long a procedure waits for a lock after it has read the clock.

## Parts

* `WorkflowModel`, `SkipPropagation`, `PlanValidation`, `WorkflowSteps`: cycles,
  episodes and tasks; plan validation; every workflow procedure as a function
  from one database state to the next.
* `WorkflowInvariants`, `WorkflowClosing`, `WorkflowSafety`,
  `WorkflowGuarantees`, `WorkflowEndings`: what holds in every reachable state.
* `WorkflowFencing`, `WorkflowProgress`, `WorkflowFanIn`: fencing tokens, claims
  and deadlock, ambiguous fan-in.
* `WorkflowLiveness`, `WorkflowClash`, `WorkflowCritic`: which plans can be worked
  off, which can deadlock, which can run into an ambiguous fan-in; a run with a
  Critic.
* `WorkflowStore`: the same procedures updating their tables in place, each
  proved equal to its step function.
* `AuthorityModel`, `AuthoritySteps`, `AuthorityInvariants`, `AuthoritySafety`,
  `RiskCeiling`, `AuthorityGuarantees`, `AuthorityStore`: mandates, approvals,
  bases, reservations, receipts and bindings, in the same arrangement.
* `Journal`: the decision journal and its rebuild.
* `CanonicalJson`, `CanonicalText`: canonical JSON text and canonical text sets.
* `Roster`, `Folds`: the roster freeze and the fold score.

A sealed predicate (`Inv`, `Accepted`, `Materialized`, `EvolvedDb`, `Grown`) is
the plain predicate behind a quantifier; the `Open` and `Seal` lemmas beside it
convert, so that proofs which only pass it on do not unfold it.

## Where code and intent differ

* The cycle check of the plan validator
  (`migrations/versions/0005_v1_008_observe_workflow.py:127-129`) never rejects
  anything: its walk keeps the root on the path and drops every row that returns
  to a visited node. Cyclic plans are therefore accepted, their episodes can
  never end COMPLETED, and they can deadlock (`DeadlockIffCyclic`). A plan can
  be worked off exactly when it is acyclic (`WorkedOffIffAcyclic`); its episode
  then ends COMPLETED, or DEFERRED if the plan has a Critic
  (`FinishableIffAcyclic`), because a Critic task always ends DEFERRED.
* A claim that finds duplicate fan-in artifacts raises, which undoes its sweep
  too (`migrations/versions/0005_v1_008_observe_workflow.py:220-233`). The
  duplicate is permanent, so every claim on that episode raises until the task
  leaves PENDING by deadline, cancellation or recovery. It takes two different
  dependencies of one step that declare the same output kind, which the validator
  accepts: exactly the acyclic plans with such a step can get there
  (`AcyclicClashIff`, `BlockedClaimsIffFanIn`), and `FanInBlocksClaims` is a run
  from the empty database that does.
* A mandate moved by `transition_simulation_autonomy_mandate` or
  `expire_simulation_autonomy_mandate` leaves behind exactly the bindings pinned
  to the version it had (`OrphanArisesIff`); the binding trigger then refuses
  every later pause or retirement of them
  (`OrphanNeverMoves`, `PauseModeRaisesIff`, `RetireRaisesIff`).
  `ValidatingOrphans` is a run of three commands that gets there.
* Canonical JSON text keeps the scale of a number, so `1.5` and `1.50`, equal as
  JSONB, have different texts: values that are equal as JSONB print alike exactly
  when all scales agree (`EqualValuesPrintAlikeIff`).

## Model

| member | source | states |
|---|---|---|
| `SkipPropagation.PropagateSkips` | migrations/versions/0005_v1_008_observe_workflow.py:214-217 | the UPDATE-until-nothing-changes loop terminates and skips exactly the PENDING tasks from which a DEFERRED, FAILED, TIMED_OUT, CANCELLED or SKIPPED task can be reached along depends_on through PENDING tasks, each once |
| `SkipPropagation.LayerKeepsMeaning` | migrations/versions/0005_v1_008_observe_workflow.py:214-216 | one round of the loop leaves the set that will have been skipped at the end unchanged |
| `SkipPropagation.EmptyLayerIsFixpoint` | migrations/versions/0005_v1_008_observe_workflow.py:216 | when a round touches no row, nothing is left to skip |
| `SkipPropagation.SkipBlockedSettles` | migrations/versions/0005_v1_008_observe_workflow.py:214-217 | afterwards no PENDING task depends on a task that ended without COMPLETED |
| `PlanValidation.CycleGuardNeverFires` | migrations/versions/0005_v1_008_observe_workflow.py:127-129 | the recursive cycle query never selects a row for a plan that passes the other checks: validity is the same with and without it |
| `PlanValidation.CycleIffTrap` | migrations/versions/0005_v1_008_observe_workflow.py:127-129 | a dependency graph has a cycle exactly when some set of steps has no member that could go first |
| `PlanValidation.CyclicPlanIsAccepted` | migrations/versions/0005_v1_008_observe_workflow.py:87-132 | two MARKET_REGIME steps that wait for each other are accepted for every episode of their cycle |
| `PlanValidation.EveryDefHasItsStep` | migrations/versions/0005_v1_008_observe_workflow.py:93-126 | with as many task definitions as steps and one definition matching each step, every definition belongs to a step |
| `PlanValidation.AcceptedIsWellKeyed` | migrations/versions/0005_v1_008_observe_workflow.py:87-132 | an accepted execution, legacy or Critic, has one task definition per step key, each repeating a step of the plan, one for every dependency, and a parallelism of at least one |
| `PlanValidation.CriticPosition` | migrations/versions/0006_v1_009_research_critic.py:48-136 | an accepted Critic plan has exactly one Critic step and one definition for it, and taking both out leaves the rest in order |
| `PlanValidation.NothingDependsOnCritic` | migrations/versions/0006_v1_009_research_critic.py:48-136 | no step of an accepted Critic plan depends on the Critic |
| `PlanValidation.CriticKeepsAcyclic` | migrations/versions/0006_v1_009_research_critic.py:48-136 | an accepted Critic plan is acyclic exactly when the plan without its Critic is |
| `PlanValidation.ValidatorsAreDisjoint` | migrations/versions/0006_v1_009_research_critic.py:138-144 | corollary of CriticPosition: no plan passes both the legacy and the Critic validator |
| `WorkflowClosing.CloseEpisodeCloses` | migrations/versions/0005_v1_008_observe_workflow.py:189-191 | v1005_close_episode settles the episode it is called for and its cycle and leaves all other episodes and cycles consistent |
| `WorkflowClosing.SweptKeeps` | migrations/versions/0005_v1_008_observe_workflow.py:212-218 | the sweep of claim (close, requeue, time out, skip, close) only takes work away and keeps all three levels consistent |
| `WorkflowClosing.CancelKeeps` | migrations/versions/0005_v1_008_observe_workflow.py:168-170 | cancelling an episode keeps all three levels consistent and only takes work away |
| `WorkflowClosing.CloseAllCloses` | migrations/versions/0005_v1_008_observe_workflow.py:159-163 | a recovery scan closes every picked episode once it has visited it, in any scan order and at any later readings |
| `WorkflowClosing.RecoverKeeps` | migrations/versions/0005_v1_008_observe_workflow.py:159-163 | recovery at n keeps all three levels consistent and leaves no RUNNING episode or cycle that expired by n |
| `WorkflowClosing.RecoverEndsLateTasks` | migrations/versions/0005_v1_008_observe_workflow.py:159-163 | after recovery at n no task whose deadline is n or earlier is PENDING or RUNNING |
| `WorkflowSafety.ReachableIsSafe` | migrations/versions/0005_v1_008_observe_workflow.py:174-268 | the workflow invariant (task table, limits, dependencies, critiques, closure of cycles and episodes) holds after every sequence of commands, with arbitrary clock readings |
| `WorkflowSafety.ApplyKeeps` | migrations/versions/0005_v1_008_observe_workflow.py:174-268 | each single command keeps that invariant |
| `WorkflowSafety.SweptLeasesRun` | migrations/versions/0005_v1_008_observe_workflow.py:212-213 | after the sweep the RUNNING tasks of the episode are exactly those with an unexpired lease |
| `WorkflowSafety.AcceptedIsReported` | migrations/versions/0005_v1_008_observe_workflow.py:268 | an accepted completion leaves the task with exactly the submitted result at the next version under the presented token |
| `WorkflowGuarantees.SchedulingSafety` | migrations/versions/0005_v1_008_observe_workflow.py:219-240 | in every reachable state at most max_parallel_tasks tasks of an episode run, and whatever runs or has reported had all its dependencies COMPLETED |
| `WorkflowGuarantees.NothingRunsBelowTheEnded` | migrations/versions/0005_v1_008_observe_workflow.py:189-191 | an unfinished task has a RUNNING episode and a RUNNING episode a RUNNING cycle |
| `WorkflowGuarantees.RunningRowsAreBusy` | migrations/versions/0005_v1_008_observe_workflow.py:189-191 | a RUNNING cycle with episodes has a RUNNING one; a RUNNING episode with a plan has an unfinished task |
| `WorkflowGuarantees.CompletedGoesDown` | migrations/versions/0005_v1_008_observe_workflow.py:189-191 | a COMPLETED cycle has only COMPLETED episodes, a COMPLETED episode has a plan and only COMPLETED tasks |
| `WorkflowGuarantees.RecoveryLeavesNothingOverdue` | migrations/versions/0005_v1_008_observe_workflow.py:159-163 | after recovery at n, at the end of any run, no cycle or episode that expired by n is RUNNING and no task due by n is unfinished |
| `WorkflowEndings.EndingsTellWhy` | migrations/versions/0005_v1_008_observe_workflow.py:160-191 | in every run: an episode ends COMPLETED only with all its tasks COMPLETED, DEFERRED only with a task that ended otherwise, TIMED_OUT with deadline_exceeded, CANCELLED with a trimmed reason; a cycle ends DEFERRED only with an episode that ended otherwise than COMPLETED, TIMED_OUT with deadline_exceeded, never CANCELLED (a COMPLETED cycle: CompletedGoesDown) |
| `WorkflowEndings.CloseEndsWell` | migrations/versions/0005_v1_008_observe_workflow.py:190 | whatever v1005_close_episode ends, it ends for such a reason |
| `WorkflowFencing.ApplyEvolves` | migrations/versions/0005_v1_008_observe_workflow.py:212-268 | every command leaves definitions and plans as they are, raises the version of each task row it changes, never lowers a fencing token, and changes no terminal row |
| `WorkflowFencing.RunEvolves` | migrations/versions/0005_v1_008_observe_workflow.py:212-268 | the same over any run |
| `WorkflowFencing.ClaimTokens` | migrations/versions/0005_v1_008_observe_workflow.py:234-241 | a claim hands out a token one above the last, a version above the last, and the row records exactly that lease |
| `WorkflowFencing.SupersededClaimNeverWrites` | migrations/versions/0005_v1_008_observe_workflow.py:234-268 | once a task has been claimed again, a completion under the earlier token, of a Critic task or any other, is FALSE and changes nothing, in every later state |
| `WorkflowFencing.OnlyTheHolderWrites` | migrations/versions/0005_v1_008_observe_workflow.py:268 | a result changes only by a completion of that task under its current version and token within the lease, and becomes the submitted one |
| `WorkflowFencing.LaterCompletions` | migrations/versions/0005_v1_008_observe_workflow.py:268 | after an accepted completion every later one changes nothing and is TRUE exactly when it repeats version, token and result |
| `WorkflowFencing.TerminalAbsorbs` | migrations/versions/0005_v1_008_observe_workflow.py:190-268 | rows of ended tasks, episodes and cycles never change again |
| `WorkflowFencing.UniqueRow` | migrations/versions/0005_v1_008_observe_workflow.py:152-156 | an episode has one task row per step key |
| `WorkflowFencing.SameInputsForEveryClaim` | migrations/versions/0005_v1_008_observe_workflow.py:234-241 | any two claims of one task in a run, by whichever workers, hand out the same definition and the same merged inputs |
| `WorkflowFencing.HandedInputsAre` | migrations/versions/0005_v1_008_observe_workflow.py:220-241 | handed inputs are the own inputs followed by the artifacts of the COMPLETED dependencies in depends_on order, without duplicates |
| `WorkflowFencing.LaterCritics` | migrations/versions/0006_v1_009_research_critic.py:276-361 | a repeated Critic completion changes nothing and is TRUE exactly when its payload passes the field checks, it repeats the accepted version, token, critique and hypothesis, and the clock has not reached the expiry of the critique: an exact repeat after that is FALSE |
| `WorkflowFencing.CriticEpisodeNeverCompletes` | migrations/versions/0006_v1_009_research_critic.py:268-361 | a Critic task, its episode and its cycle never end COMPLETED, and a critique is stored exactly when the task is DEFERRED |
| `WorkflowProgress.NoDrift` | migrations/versions/0005_v1_008_observe_workflow.py:151-157 | the integrity check of claim and persist holds for every persisted plan in a reachable state |
| `WorkflowProgress.ClaimRaisesIff` | migrations/versions/0005_v1_008_observe_workflow.py:209-233 | a claim raises exactly for a bad worker, a bad lease, a missing plan or ambiguous inputs |
| `WorkflowProgress.HandsOutIff` | migrations/versions/0005_v1_008_observe_workflow.py:219-240 | a claim hands out a task exactly when one is ready and the parallelism limit is not reached |
| `WorkflowProgress.StuckIff` | migrations/versions/0005_v1_008_observe_workflow.py:212-240 | nothing to hand out, nothing running and the episode RUNNING: exactly when every PENDING task waits for a PENDING task |
| `WorkflowProgress.StuckIsCyclic` | migrations/versions/0005_v1_008_observe_workflow.py:127-129 | a stuck episode has a cyclic plan, shown by its unstarted steps |
| `WorkflowProgress.NoDeadlock` | migrations/versions/0005_v1_008_observe_workflow.py:203-242 | for an acyclic plan, after a claim on an episode that still runs a task was handed out or one is leased |
| `WorkflowProgress.TrapNeverRuns` | migrations/versions/0005_v1_008_observe_workflow.py:127-129 | no step of a set whose members all wait inside it is ever handed out, in any run |
| `WorkflowProgress.CyclicNeverCompletes` | migrations/versions/0005_v1_008_observe_workflow.py:127-129 | the episode of a cyclic plan never ends COMPLETED |
| `PlanValidation.CriticIsLast` | migrations/versions/0006_v1_009_research_critic.py:48-136 | a Critic step of any accepted plan follows one RESEARCH step with three outputs, and no step depends on it |
| `PlanValidation.AcceptedIsTidy` | migrations/versions/0005_v1_008_observe_workflow.py:93-126 | in an accepted plan, legacy or Critic, inputs, outputs and dependencies never repeat, and no input has a kind that a dependency could produce |
| `WorkflowFanIn.FanInClashIff` | migrations/versions/0005_v1_008_observe_workflow.py:220-233 | in every reachable state the merged inputs of a task contain a duplicate exactly when two of its dependencies reported the same artifact; own inputs never take part |
| `WorkflowFanIn.ClashIsForever` | migrations/versions/0005_v1_008_observe_workflow.py:220-233 | a task whose merged inputs contain a duplicate never runs, whatever happens afterwards |
| `WorkflowFanIn.ClashBlocksClaims` | migrations/versions/0005_v1_008_observe_workflow.py:220-233 | in any reachable state, while such a task stays PENDING through the sweep, the claim raises for every worker and is undone as a whole |
| `WorkflowLiveness.DeadlockIffCyclic` | migrations/versions/0005_v1_008_observe_workflow.py:127-129 | some run of a freshly persisted plan, with or without a Critic, reaches a deadlock exactly when the plan is cyclic |
| `WorkflowLiveness.WorkedOffIffAcyclic` | migrations/versions/0005_v1_008_observe_workflow.py:87-268 | some run of a freshly persisted plan, with or without a Critic, ends its episode with every task COMPLETED but the Critic, which is DEFERRED with its critique stored, exactly when the plan is acyclic |
| `WorkflowLiveness.FinishableIffAcyclic` | migrations/versions/0005_v1_008_observe_workflow.py:87-268 | some run of it ends its episode COMPLETED exactly when the plan is acyclic and has no Critic |
| `WorkflowLiveness.CriticWorks` | migrations/versions/0006_v1_009_research_critic.py:275-361 | complete_critic_workflow_task answers TRUE to the holder of the lease once the evaluation is reserved and the dependency has its three artifacts, and closes the task and the episode like any other report |
| `WorkflowCritic.CriticPlanIsWorkedOff` | migrations/versions/0006_v1_009_research_critic.py:48-361 | from the empty database: a MARKET_REGIME, a RESEARCH and a PRE_TRADE_CRITIC step, accepted by the additive validator, end so with a stored critique |
| `WorkflowLiveness.CyclicPlanDeadlocks` | migrations/versions/0005_v1_008_observe_workflow.py:127-129 | a deadlock is reachable from the empty database |
| `WorkflowClash.ClashIffFanIn` | migrations/versions/0005_v1_008_observe_workflow.py:87-132 | some run of a freshly persisted plan, with or without a Critic, gives a task a duplicate input exactly when the plan has a step two different dependencies of which declare the same output kind, while none of its dependencies lies on or waits for a cycle |
| `WorkflowClash.AcyclicClashIff` | migrations/versions/0005_v1_008_observe_workflow.py:87-132 | for an acyclic plan, with or without a Critic: exactly when some step has two different dependencies whose outputs share a kind |
| `WorkflowClash.BlockedClaimsIffFanIn` | migrations/versions/0005_v1_008_observe_workflow.py:203-233 | the same plans, and no others, have a run after which the episode is RUNNING and yet every claim on it raises and changes nothing |
| `WorkflowClash.FanInBlocksClaims` | migrations/versions/0005_v1_008_observe_workflow.py:87-233 | from the empty database: two MARKET_REGIME steps that report the same artifact and a RESEARCH step on both, an accepted acyclic plan, end in such a state |
| `WorkflowStore.IsAccepted` | migrations/versions/0005_v1_008_observe_workflow.py:87-132 | decides exactly the plan and task sets that the two validators accept |
| `WorkflowStore.CollectUpstream` | migrations/versions/0005_v1_008_observe_workflow.py:241 | the loop over depends_on collects exactly the upstream artifacts in order |
| `WorkflowStore.FindAmbiguity` | migrations/versions/0005_v1_008_observe_workflow.py:220-233 | finds a candidate with duplicate inputs exactly when there is one |
| `WorkflowStore.FindFirst` | migrations/versions/0005_v1_008_observe_workflow.py:234-240 | picks the candidate with the least step key |
| `WorkflowStore.Store.CloseEpisodeNow` | migrations/versions/0005_v1_008_observe_workflow.py:189-191 | the statements of v1005_close_episode compute the closing step |
| `WorkflowStore.Store.StartDecisionCycle` | migrations/versions/0005_v1_008_observe_workflow.py:174-179 | start_autonomy_cycle in place: idempotent by (source, key), raising on a conflicting repeat, undone when it raises |
| `WorkflowStore.Store.StartDecisionEpisode` | migrations/versions/0005_v1_008_observe_workflow.py:180-185 | start_decision_episode in place: one episode per cycle and candidate, within the life of the cycle |
| `WorkflowStore.Store.PersistWorkflowExecution` | migrations/versions/0005_v1_008_observe_workflow.py:265 | persist_workflow_execution in place: the first accepted plan stands, a repeat is idempotent, anything else raises |
| `WorkflowStore.Store.ClaimWorkflowTask` | migrations/versions/0005_v1_008_observe_workflow.py:203-242 | claim_workflow_task in place computes the claim step; an exception undoes the sweep |
| `WorkflowStore.Store.CompleteWorkflowTask` | migrations/versions/0006_v1_009_research_critic.py:267-273 | complete_workflow_task in place: Critic tasks are refused, the rest goes through the fenced completion |
| `WorkflowStore.Store.CompleteCriticTask` | migrations/versions/0006_v1_009_research_critic.py:275-361 | complete_critic_workflow_task in place: one reserved evaluation, three upstream artifacts, times of the critique within the deadline and its expiry ahead, the generic result, one stored critique |
| `WorkflowStore.Store.ReserveCritiqueRevision` | migrations/versions/0006_v1_009_research_critic.py:220-242 | reserve_critique_revision in place: one evaluation per episode, repeats answered |
| `WorkflowStore.Store.CancelDecisionEpisode` | migrations/versions/0005_v1_008_observe_workflow.py:168-170 | cancel_decision_episode in place computes the cancel step |
| `WorkflowStore.Store.RecoverableWorkflowCycles` | migrations/versions/0005_v1_008_observe_workflow.py:159-163 | recoverable_workflow_cycles in place: both scans, the table sweep, the cycle update; returns the cycles still RUNNING, none of which expired by n |
| `Journal.RebuildIsExact` | migrations/versions/0005_v1_008_observe_workflow.py:249-258 | after a successful rebuild the entries of the journal are exactly the events bound to the episode, with their facts, DECISION_TIME iff recorded by the cutoff |
| `Journal.RebuildCounts` | migrations/versions/0005_v1_008_observe_workflow.py:257 | the reply is the number of entries added |
| `Journal.SecondRebuildAddsNothing` | migrations/versions/0005_v1_008_observe_workflow.py:249-258 | an immediate second rebuild, at any admissible projection time, adds 0 and changes nothing |
| `Journal.RebuildRaisesIff` | migrations/versions/0005_v1_008_observe_workflow.py:250-258 | a rebuild of a reachable ledger raises exactly for wrong arguments, a journal bound otherwise, or an event recorded after the projection time; the drift checks never fail |
| `Journal.IncrementalAgrees` | migrations/versions/0005_v1_008_observe_workflow.py:249-258 | rebuilding on the way does not change what the last rebuild says, and never makes it fail unless the journal was bound otherwise |
| `Journal.JournalsAreDisjoint` | migrations/versions/0005_v1_008_observe_workflow.py:275 | journals of different episodes share no event |
| `Journal.Store.RebuildProjection` | migrations/versions/0005_v1_008_observe_workflow.py:249-258 | rebuild_decision_journal_projection in place: every INSERT before the checks, all undone when one fails |
| `Journal.Store.BindWorkflowSource` | migrations/versions/0005_v1_008_observe_workflow.py:275 | bind_workflow_source_episode in place: the first valid binding of an event stands |
| `AuthoritySafety.ReachableIsSafe` | migrations/versions/0004_v0_014_hardening.py:135-335 | the authority invariant holds after every sequence of commands, with arbitrary clock readings |
| `AuthoritySafety.ApplyKeeps` | migrations/versions/0004_v0_014_hardening.py:135-335 | each single command keeps it; rows never disappear, versions grow, identities and ended statuses stay |
| `AuthorityGuarantees.InForceMeansCurrent` | migrations/versions/0004_v0_014_hardening.py:267-335 | an ACTIVE mandate basis names its mandate's current ACTIVE version, a HELD reservation on it has an ACTIVE basis, an ISSUED receipt on it a mandate still ACTIVE at that version |
| `AuthorityGuarantees.ReceiptIsContained` | migrations/versions/0004_v0_014_hardening.py:120-259 | for every receipt: receipt, reservation, basis and source expire in that order, consumption precedes expiry, the quantity is the authorised one within the ceiling, and action, instrument, strategy and session lie in the scope of the source |
| `AuthorityGuarantees.AuthorityHasAnAuthor` | migrations/versions/0004_v0_014_hardening.py:135-236 | a basis on an approval was issued by the user who decided it, a manual test receipt names that user, a basis on a mandate was issued by a service and carries agent receipts only |
| `AuthorityGuarantees.OneOfEach` | migrations/versions/0003_v0_014_autonomy_contracts.py:56-101 | one basis per approval and per mandate version and plan version, one reservation and one receipt per basis |
| `AuthorityGuarantees.OneApprovedBasisPerPlan` | migrations/versions/0004_v0_014_hardening.py:135-158 | all approvals of one plan together give it at most one basis |
| `AuthorityGuarantees.UsedReservationHasItsReceipt` | migrations/versions/0004_v0_014_hardening.py:260-266 | a CONSUMED reservation has exactly one receipt, and it is CONSUMED |
| `AuthorityGuarantees.ConsumedAtMostOnce` | migrations/versions/0004_v0_014_hardening.py:237-259 | a receipt is consumed at most once in a run |
| `AuthorityGuarantees.ApprovalRetry` | migrations/versions/0004_v0_014_hardening.py:142-147 | consuming an approval again answers the first basis exactly for the same request, and never changes anything |
| `AuthorityGuarantees.MandateBasisRetry` | migrations/versions/0004_v0_014_hardening.py:159-177 | asking again for a basis on the same mandate and plan version answers the first one exactly for the same request, and issues no second |
| `AuthorityGuarantees.ReservationRetry` | migrations/versions/0004_v0_014_hardening.py:196-206 | reserving a basis again changes nothing and is TRUE exactly for the same request while its reservation is HELD |
| `AuthorityGuarantees.ReceiptRetry` | migrations/versions/0004_v0_014_hardening.py:207-236 | issuing again on a basis answers the first receipt exactly for the same terms while they may be issued, and never issues a second |
| `AuthorityGuarantees.PauseBarrier` | migrations/versions/0010_v3_009_autonomy_control.py:92-130 | an autonomous receipt issued on a binding before composite_pause, pause_autonomy_mode or retire is never consumed afterwards, even after resume |
| `AuthorityGuarantees.BehindIsNeverConsumed` | migrations/versions/0004_v0_014_hardening.py:237-259 | a receipt whose binding version or mandate version has been left behind is never consumed |
| `AuthorityGuarantees.MandateBarrier` | migrations/versions/0004_v0_014_hardening.py:267-295 | whenever a mandate has moved, no receipt issued on it before is still open |
| `AuthorityGuarantees.OrphanArisesIff` | migrations/versions/0004_v0_014_hardening.py:267-335 | a binding is pinned to a version its mandate has left after a command exactly if it was so before, or if the command passes the guards of a transition or expiry of its mandate at that version, or of a composite pause or resume of that mandate with another binding |
| `AuthorityGuarantees.OrphanNeverMoves` | migrations/versions/0004_v0_014_hardening.py:409-416 | a binding pinned to a version its mandate has left never changes again, in any run: it is neither paused, resumed nor retired |
| `AuthorityGuarantees.ValidatingOrphans` | migrations/versions/0010_v3_009_autonomy_control.py:92-130 | from no authority: a mandate and a binding are recorded, the mandate is validated, and from then on pause_autonomy_mode raises for the binding |
| `AuthorityGuarantees.PauseModeRaisesIff` | migrations/versions/0010_v3_009_autonomy_control.py:92-130 | pause_autonomy_mode raises exactly when its guards pass and the binding is pinned to a version its mandate has left |
| `AuthorityGuarantees.RetireRaisesIff` | migrations/versions/0004_v0_014_hardening.py:323-335 | retire raises exactly when its guards pass and the binding is so pinned, or is superseded after its expiry |
| `AuthorityGuarantees.CompositesNeverRaise` | migrations/versions/0004_v0_014_hardening.py:296-322 | composite pause and resume never raise in a reachable state |
| `AuthorityGuarantees.ReserveRaisesIff` | migrations/versions/0004_v0_014_hardening.py:370-377 | corollary of the definitions: reserving raises exactly when everything is in order but the quantity is below the authorised one |
| `AuthorityGuarantees.BasisTriggerPasses` | migrations/versions/0004_v0_014_hardening.py:396-408 | corollary of the definitions: the scope trigger never refuses a basis row that its command inserts |
| `AuthorityGuarantees.StoredRowsPassTheirTriggers` | migrations/versions/0004_v0_014_hardening.py:370-408 | every stored basis, reservation, receipt and approval passes its trigger, so no status UPDATE is refused |
| `AuthorityStore.Store.RecordBinding` | migrations/versions/0003_v0_014_autonomy_contracts.py:80-93 | a new binding is stored exactly when its CHECK constraints, the temporal one included, and its scope trigger allow it; an autonomous one is pinned to the current version of its mandate |
| `RiskCeiling.CeilingHolds` | migrations/versions/0004_v0_014_hardening.py:178-206 | per account the losses of HELD unexpired reservations never exceed the ceiling, at every time not before the readings taken, in any order of reading and acting |
| `RiskCeiling.SumHeld` | migrations/versions/0004_v0_014_hardening.py:199 | the running sum over an account is the total of its HELD unexpired losses |
| `AuthorityStore.Store.RequestAgentPlanApproval` | migrations/versions/0010_v3_009_autonomy_control.py:27-90 | request_agent_plan_approval in place: only for trades outside the mandate scope; UNIQUE violations answer FALSE |
| `AuthorityStore.Store.GrantPlanApproval` | migrations/versions/0010_v3_009_autonomy_control.py:139-160 | grant_plan_approval in place: a REQUESTED, unexpired approval of that plan becomes GRANTED by that user at the next version, all else of the row and of every other table stays |
| `AuthorityStore.Store.ConsumePlanApproval` | migrations/versions/0004_v0_014_hardening.py:135-158 | consume_plan_approval in place: basis row and approval row change together |
| `AuthorityStore.Store.IssueMandateBasis` | migrations/versions/0004_v0_014_hardening.py:159-177 | issue_mandate_basis in place |
| `AuthorityStore.Store.ReserveRiskBudget` | migrations/versions/0004_v0_014_hardening.py:178-206 | reserve_risk_budget in place, with the loop that sums what is held; raises when the reservation trigger refuses |
| `AuthorityStore.Store.ConsumeRiskBudgetReservation` | migrations/versions/0004_v0_014_hardening.py:260-266 | consume_risk_budget_reservation in place: needs a CONSUMED receipt of the reservation and takes exactly that reservation out of what its account holds |
| `AuthorityStore.Store.IssueAutonomyGateReceipt` | migrations/versions/0004_v0_014_hardening.py:207-236 | issue_autonomy_gate_receipt in place for both origins, with the answer after a unique violation |
| `AuthorityStore.Store.ConsumeAutonomyGateReceipt` | migrations/versions/0004_v0_014_hardening.py:237-259 | consume_autonomy_gate_receipt in place: an ISSUED, unexpired receipt whose basis is ACTIVE, whose reservation is HELD and whose binding is in force becomes CONSUMED, and nothing else changes |
| `AuthorityStore.Store.TransitionMandate` | migrations/versions/0004_v0_014_hardening.py:267-282 | transition_simulation_autonomy_mandate in place with its three cascading UPDATEs |
| `AuthorityStore.Store.ExpireMandateNow` | migrations/versions/0004_v0_014_hardening.py:283-295 | expire_simulation_autonomy_mandate in place |
| `AuthorityStore.Store.PauseComposite` | migrations/versions/0004_v0_014_hardening.py:296-310 | composite_pause in place; when the binding trigger refuses, the mandate row is restored |
| `AuthorityStore.Store.ResumeComposite` | migrations/versions/0004_v0_014_hardening.py:311-322 | composite_resume in place |
| `AuthorityStore.Store.PauseAutonomyMode` | migrations/versions/0010_v3_009_autonomy_control.py:92-130 | pause_autonomy_mode in place with its cascade |
| `AuthorityStore.Store.RetireBinding` | migrations/versions/0004_v0_014_hardening.py:323-335 | retire_autonomy_mode_binding in place with its cascade |
| `CanonicalJson.ParsePrint` | migrations/versions/0006_v1_009_research_critic.py:146-156 | a parser recovers every JSON value from its canonical text and leaves what follows it |
| `CanonicalJson.CanonicalIsInjective` | migrations/versions/0006_v1_009_research_critic.py:146-156 | equal canonical texts mean equal values |
| `CanonicalJson.CanonicalIsPrefixFree` | migrations/versions/0006_v1_009_research_critic.py:146-156 | canonical texts followed by anything that does not continue a number can be taken apart in one way only |
| `CanonicalJson.EqualValuesPrintAlikeIff` | migrations/versions/0006_v1_009_research_critic.py:146-156 | two values equal as JSONB, where numbers are compared up to trailing zeros, have the same canonical text exactly when all their numbers have the same scale |
| `CanonicalJson.ScaleShowsInText` | migrations/versions/0006_v1_009_research_critic.py:153 | its instance for one number: with trailing zeros appended it is equal as JSONB and has another canonical text |
| `CanonicalJson.SortedKeys` | migrations/versions/0006_v1_009_research_critic.py:151 | object keys are listed once each in ascending order |
| `CanonicalText.ValidIffAscending` | migrations/versions/0006_v1_009_research_critic.py:159-169 | an array is a canonical text set exactly when its elements are trimmed non-empty texts in strictly ascending order |
| `CanonicalText.NormalizedIsValid` | migrations/versions/0006_v1_009_research_critic.py:166-168 | the normalised array is canonical and has the same members |
| `CanonicalText.SameMembersSameArray` | migrations/versions/0006_v1_009_research_critic.py:159-169 | corollary of ValidIffAscending: two canonical text sets are equal exactly when they have the same members |
| `Roster.FreezeRosters` | scripts/run_mvp_r_formal_eval.py:154-180 | groups, sorts, deals ten rounds and splits 30 and 50; fails below 80 candidates or when the rosters share a key |
| `Roster.DealAll` | scripts/run_mvp_r_formal_eval.py:167-173 | the two nested loops deal round by round over the sorted cells |
| `Roster.GroupByCell` | scripts/run_mvp_r_formal_eval.py:155-163 | each cell collects its unused candidates in input order |
| `Roster.SortSorts` | scripts/run_mvp_r_formal_eval.py:164-165 | sorting a cell permutes it into cutoff order |
| `Roster.SortIsStable` | scripts/run_mvp_r_formal_eval.py:164-165 | equal cutoffs keep their order |
| `Roster.OrderedPerCell` | scripts/run_mvp_r_formal_eval.py:164-173 | the frozen order contains of each cell its first ten unused candidates by cutoff, once each and in order |
| `Roster.OrderedIsFair` | scripts/run_mvp_r_formal_eval.py:168-173 | in every prefix two cells differ by at most one unless the one behind has none left |
| `Roster.OrderedIsUnused` | scripts/run_mvp_r_formal_eval.py:154-163 | only candidates whose key is not among the prior ones are selected |
| `Roster.RostersAreDisjoint` | scripts/run_mvp_r_formal_eval.py:174-180 | with distinct candidate keys the diagnostic and holdout rosters share none |
| `Folds.FoldRatios` | scripts/summarize_mvp_r_replay.py:269-291 | the fold loop computes both ratios from the three counters |
| `Folds.FoldsPartition` | scripts/summarize_mvp_r_replay.py:280-281 | the fold bounds follow one another from the first signal to the last, with sizes that differ by at most one |
| `Folds.FoldsAddUp` | scripts/summarize_mvp_r_replay.py:280-286 | fold gross values add up to the total gross |
| `Folds.NeverBothWays` | scripts/summarize_mvp_r_replay.py:287-288 | with a non-negative cost no fold is positive both ways |
| `Folds.RatiosAreShares` | scripts/summarize_mvp_r_replay.py:287-291 | both ratios lie in [0, 1] and together are at most 1 |
| `Folds.AllFoldsPositive` | scripts/summarize_mvp_r_replay.py:286-288 | when every populated fold earns its costs the whole episode has a positive net |
| `Folds.MirroredFolds` | scripts/summarize_mvp_r_replay.py:286-288 | negating the returns swaps the two tallies |
| `Folds.ScoreEpisode` | scripts/summarize_mvp_r_replay.py:51-73 | gross, cost, both stressed nets and the chosen family of one episode |
| `Folds.ChosenFamily` | scripts/summarize_mvp_r_replay.py:63-73 | the chosen family follows the sign of the gross, and its stressed net, the better one, is the absolute gross less twice the cost |

## Left out

- Roles, grants, SECURITY DEFINER, search_path, downgrades and the repair of legacy rows: deployment, no algorithm.
- Digests, UUIDs and the textual form of references are opaque ids compared for equality; a `canonicalOk` or `formatOk` argument stands for their checks, and names are numbered by their collation rank.
- JSON shape checks of artifacts, triggers and critique payloads are abstract: `triggerOk`, `policyOk` and the `ok` of a `PayloadCheck` stand for them. Of a critique the two times are modelled; both are compared with one clock reading, where the procedure reads the clock twice.
- SQL NULL logic: columns that may be NULL are options, the others plain values; a NULL worker or lease is refused like a malformed one.
- Row locks, advisory locks and SKIP LOCKED: each procedure is one atomic step; a candidate row locked by someone else is not skipped.
- NaN and infinite numerics, which the procedures reject, do not occur in `real`.
- Mandates, bindings and approvals have one row per id whose version is bumped in place; inserting a second row of the same id from outside is not modelled.
- Risk authority rows do not change once recorded, because no procedure here changes them; recording one stands for its insertion from outside.
- CanonicalJson.SortedKeys: fixes code point order, while `0006_v1_009_research_critic.py:151` orders keys by the database collation (only text sets name COLLATE "C"); injectivity and prefix freedom do not depend on which order it is.
- WorkflowStore.Store.CompleteCriticTask: takes the outcome of the field checks of the critique payload as the `ok` of a `PayloadCheck`; the checks themselves (`0006_v1_009_research_critic.py:283-352`), against constants, digests and the three upstream artifacts, are not modelled.
- WorkflowLiveness.WorkedOffIffAcyclic: takes for granted that a payload passing those checks can be written for a Critic task.
- WorkflowStore.IsAccepted: does not walk the recursive cycle query, which never selects a row; the other checks are evaluated as written.
- WorkflowStore.Store.ClaimWorkflowTask: does not evaluate the integrity check `v1005_valid_materialized_execution`, which holds for every persisted plan of a reachable state (WorkflowProgress.NoDrift); the same goes for WorkflowStore.Store.PersistWorkflowExecution.
- WorkflowStore.Store.RecoverableWorkflowCycles: the order in which its two loops visit the episodes and the readings of their closing steps are arguments; the loops visit every episode, at readings not before n.
- Journal.Store.RebuildProjection: models the entries of projection version 1 only; `append_decision_journal` and trade episode projections are not modelled.
- `hydrate_*` and `recoverable_workflow_episodes` only read.
- `append_workflow_domain_event`: the journal takes events as given rows that are never changed.
- Roster selection before grouping (`stratified_replay_candidates`), file output and the predecessor manifest are not part of this model.
- Folds.ScoreEpisode: does not compute the accuracy and the opportunity flag, and uses exact reals where the script uses Decimal with its context precision.
- `agent_orchestration/autonomy_gate.py` computes a gate verdict from three flags and has an in-memory receipt; the receipts of the database are modelled instead.
- `accounting_settlement/replay.py` applies a numbered log of fills and settlements to an account in order; the simulation account is not part of this model.
- `observability.py` compares metric samples with the thresholds of alert policies; not modelled.
- `channel_gateway` drops inbound events it has seen and passes notifications to the adapter registered for a channel; not modelled.
- `health.py` answers a fixed status, and `cli.py` parses arguments and starts the other parts; not modelled.
