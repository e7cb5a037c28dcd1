/** A plan with a Critic, worked off from the empty database. */
module WorkflowCritic {
  import opened Common
  import opened WorkflowModel
  import opened PlanValidation
  import opened WorkflowSteps
  import opened WorkflowInvariants
  import opened WorkflowFencing
  import opened WorkflowLiveness
  import opened WorkflowClash

  const THESIS_STEP := Step(2, Research, [], [Hypothesis, EvidenceSynthesis, ExperimentRequest], UNIT_BUDGET, [1])
  const VERDICT_STEP := Step(3, PreTradeCritic, [], [Critique], UNIT_BUDGET, [2])

  const LEGACY_STEPS := [RegimeStep(1), THESIS_STEP]
  const LEGACY_DEFS := [TaskDef(41, 9, RegimeStep(1), 100), TaskDef(42, 9, THESIS_STEP, 100)]
  const VERDICT_STEPS := LEGACY_STEPS + [VERDICT_STEP]
  const VERDICT_DEFS := LEGACY_DEFS + [TaskDef(43, 9, VERDICT_STEP, 100)]

  const VERDICT_PLAN := Plan(7, 9, 0, 100, Budget(3, 3, 3, 3, 1), VERDICT_STEPS)
  const LEGACY_PLAN := VERDICT_PLAN.(steps := LEGACY_STEPS)
  const VERDICT := Execution(VERDICT_PLAN, VERDICT_DEFS, 0, 0)

  lemma VerdictSteps()
    ensures forall s :: s in LEGACY_STEPS <==> s == RegimeStep(1) || s == THESIS_STEP
    ensures forall s :: s in VERDICT_STEPS <==> s in LEGACY_STEPS || s == VERDICT_STEP
    ensures HasKey(LEGACY_STEPS, 1) && RegimeStep(1).key == 1
  {
    assert LEGACY_STEPS[0] == RegimeStep(1) && LEGACY_STEPS[1] == THESIS_STEP;
    assert VERDICT_STEPS[2] == VERDICT_STEP;
  }

  lemma RestIsLegacy()
    ensures WithoutCritic(VERDICT_PLAN) == LEGACY_PLAN && Keep(VERDICT_DEFS, CRITIC_DEF) == LEGACY_DEFS
  {
    KeepDropsOne(VERDICT_STEPS, CRITIC_STEP, 2);
    KeepDropsOne(VERDICT_DEFS, CRITIC_DEF, 2);
  }

  lemma LegacyTotals(cost: Budget -> int)
    ensures Total(LEGACY_STEPS, cost) == cost(UNIT_BUDGET) + cost(UNIT_BUDGET)
    ensures Total(VERDICT_STEPS, cost) == cost(UNIT_BUDGET) + cost(UNIT_BUDGET) + cost(UNIT_BUDGET)
  {
    assert LEGACY_STEPS[1..] == [THESIS_STEP] && [THESIS_STEP][1..] == [];
    assert Total([VERDICT_STEP], cost) == cost(UNIT_BUDGET);
    assert [THESIS_STEP, VERDICT_STEP][1..] == [VERDICT_STEP];
    assert Total([THESIS_STEP, VERDICT_STEP], cost) == cost(UNIT_BUDGET) + cost(UNIT_BUDGET);
    assert VERDICT_STEPS[1..] == [THESIS_STEP, VERDICT_STEP];
  }

  lemma VerdictWithinBudget()
    ensures WithinBudget(VERDICT_PLAN) && WithinBudget(LEGACY_PLAN)
  {
    VerdictSteps();
    forall cost: Budget -> int
      ensures Total(LEGACY_STEPS, cost) == cost(UNIT_BUDGET) + cost(UNIT_BUDGET)
      ensures Total(VERDICT_STEPS, cost) == cost(UNIT_BUDGET) + cost(UNIT_BUDGET) + cost(UNIT_BUDGET)
    {
      LegacyTotals(cost);
    }
  }

  lemma LegacyStepIsDefined(s: Step)
    requires s in LEGACY_STEPS
    ensures ValidStep(LEGACY_STEPS, s)
    ensures exists i: nat :: i < |LEGACY_DEFS| && DefinesStep(LEGACY_PLAN, 9, LEGACY_DEFS, s, i)
  {
    VerdictSteps();
    assert DefinesStep(LEGACY_PLAN, 9, LEGACY_DEFS, RegimeStep(1), 0);
    assert DefinesStep(LEGACY_PLAN, 9, LEGACY_DEFS, THESIS_STEP, 1);
  }

  lemma RestIsValid()
    ensures ValidLegacy(STARTED_DB.episodes, 9, LEGACY_PLAN, LEGACY_DEFS)
  {
    VerdictWithinBudget();
    forall s | s in LEGACY_STEPS
      ensures ValidStep(LEGACY_STEPS, s)
      ensures exists i: nat :: i < |LEGACY_DEFS| && DefinesStep(LEGACY_PLAN, 9, LEGACY_DEFS, s, i)
    {
      LegacyStepIsDefined(s);
    }
    CycleGuardNeverFires(STARTED_DB.episodes, 9, LEGACY_PLAN, LEGACY_DEFS);
  }

  lemma VerdictShape()
    ensures CriticShape(VERDICT_PLAN, 9, VERDICT_DEFS)
  {
    VerdictSteps();
    VerdictWithinBudget();
    assert VERDICT_STEPS[1] == THESIS_STEP && THESIS_STEP in VERDICT_STEPS;
    assert ValidCriticStep(VERDICT_STEPS, VERDICT_STEPS[2]);
    assert DefinesStep(VERDICT_PLAN, 9, VERDICT_DEFS, VERDICT_STEPS[2], 2);
  }

  lemma VerdictIsAcyclic()
    ensures Acyclic(VERDICT_STEPS)
  {
    VerdictSteps();
    DescendingIsAcyclic(VERDICT_STEPS);
  }

  lemma VerdictIsFirst()
    ensures FirstPlan(VERDICT)
  {
    VerdictShape();
    RestIsLegacy();
    RestIsValid();
    assert ValidCritic(STARTED_DB.episodes, 9, VERDICT_PLAN, VERDICT_DEFS);
    forall d | d in VERDICT_DEFS ensures d.deadline == 100 {
      assert d == VERDICT_DEFS[0] || d == VERDICT_DEFS[1] || d == VERDICT_DEFS[2];
    }
  }

  /** An observation, a thesis on it and a Critic on the thesis: some run from the
      empty database ends with both others COMPLETED, the Critic DEFERRED and its
      critique stored. */
  lemma {:induction false} CriticPlanIsWorkedOff() returns (cs: seq<Command>, id: Id)
    ensures WorkedOff(Run(EMPTY_DB, cs), 9)
    ensures IsCritic(Run(EMPTY_DB, cs), id) && Run(EMPTY_DB, cs).tasks[id].def.episode == 9
    ensures id in Run(EMPTY_DB, cs).critiques
  {
    VerdictIsFirst();
    VerdictIsAcyclic();
    var pre := PersistRun(VERDICT);
    var db := Run(EMPTY_DB, pre);
    WorkedOffIffAcyclic(db, 9, 0);
    var later :| WorkedOff(Run(db, later), 9);
    cs := pre + later;
    RunConcat(EMPTY_DB, pre, later);
    VerdictSteps();
    id := CriticRowStays(db, later, 9, VERDICT_STEP);
    assert RowWorkedOff(Run(EMPTY_DB, cs), id);
  }
}
