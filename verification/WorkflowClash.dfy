/** Which accepted plans can run into an ambiguous fan-in, and so into an episode
    on which every claim raises. */
module WorkflowClash {
  import opened Common
  import opened WorkflowModel
  import opened SkipPropagation
  import opened PlanValidation
  import opened WorkflowSteps
  import opened WorkflowInvariants
  import opened WorkflowClosing
  import opened WorkflowSafety
  import opened WorkflowFencing
  import opened WorkflowProgress
  import opened WorkflowFanIn
  import opened WorkflowLiveness

  // ---- The plan ------------------------------------------------------------------

  /** Both steps declare an output of this kind. */
  ghost predicate BothDeclare(steps: seq<Step>, a: StepKey, b: StepKey, kind: Kind) {
    exists s, t :: s in steps && t in steps && s.key == a && t.key == b && kind in s.outputs && kind in t.outputs
  }

  /** Two different dependencies of the step declare outputs of one kind. */
  ghost predicate FansIn(steps: seq<Step>, s: Step) {
    exists a, b, kind :: a in s.dependsOn && b in s.dependsOn && a != b && BothDeclare(steps, a, b, kind)
  }

  /** No dependency of the step belongs to a set that waits inside itself. */
  ghost predicate Startable(steps: seq<Step>, s: Step) {
    forall trap, key :: Trap(steps, trap) && key in s.dependsOn ==> key !in trap
  }

  ghost predicate MayClash(steps: seq<Step>) {
    exists s :: s in steps && FansIn(steps, s) && Startable(steps, s)
  }

  /** An acyclic plan has nothing that never starts. */
  lemma AcyclicMayClash(steps: seq<Step>)
    requires Acyclic(steps)
    ensures MayClash(steps) <==> exists s :: s in steps && FansIn(steps, s)
  {
    CycleIffTrap(steps);
    assert forall s :: s in steps ==> Startable(steps, s);
  }

  // ---- What a clash says about the plan ----------------------------------------------

  ghost predicate ClashesIn(db: Db, ep: Id, id: Id) {
    Clashes(db, id) && db.tasks[id].def.episode == ep
  }

  ghost predicate NoTrapRan(db: Db, ep: Id) {
    ep in db.executions && forall trap :: Trap(db.executions[ep].plan.steps, trap) ==> Untouched(db, ep, trap)
  }

  lemma ReadyClashIs(db: Db, ep: Id, n: Time, id: Id)
    requires id in Ready(db, ep, n) && FanInClash(db.tasks, id)
    ensures ClashesIn(db, ep, id)
  {
  }

  lemma ReportedKind(db: Db, ep: Id, key: StepKey, a: Artifact) returns (s: Step)
    requires Inv(db) && ep in db.executions && Reports(db.tasks, ep, key, a)
    ensures s in db.executions[ep].plan.steps && s.key == key && a.kind in s.outputs
  {
    var u :| RowAt(db.tasks, ep, key, u) && a in ArtifactsOf(db.tasks, u);
    RowIsStep(db, u);
    ArtifactsAreOutputs(db, u);
    s := db.tasks[u].def.step;
  }

  lemma SettledIsStartable(db: Db, ep: Id, id: Id)
    requires Inv(db) && NoTrapRan(db, ep) && id in db.tasks && db.tasks[id].def.episode == ep
    requires DepsCompleted(db.tasks, id)
    ensures Startable(db.executions[ep].plan.steps, db.tasks[id].def.step)
  {
    var steps := db.executions[ep].plan.steps;
    forall trap, key | Trap(steps, trap) && key in db.tasks[id].def.step.dependsOn ensures key !in trap {
      var u := DepRow(db, id, key);
      assert Untouched(db, ep, trap) && Ran(db.tasks[u]);
    }
  }

  /** Wherever a task clashes, its step fans two outputs of one kind in. */
  lemma ClashFansIn(db: Db, ep: Id, id: Id)
    requires Inv(db) && NoTrapRan(db, ep) && ClashesIn(db, ep, id)
    ensures MayClash(db.executions[ep].plan.steps)
  {
    var steps, step := db.executions[ep].plan.steps, db.tasks[id].def.step;
    RowIsStep(db, id);
    FanInClashIff(db, id);
    var key, other, a :|
      key in step.dependsOn && other in step.dependsOn && key != other &&
      Reports(db.tasks, ep, key, a) && Reports(db.tasks, ep, other, a);
    var s := ReportedKind(db, ep, key, a);
    var t := ReportedKind(db, ep, other, a);
    assert BothDeclare(steps, key, other, a.kind);
    assert FansIn(steps, step);
    SettledIsStartable(db, ep, id);
  }

  lemma {:induction false} RunTrapsNothing(db: Db, cs: seq<Command>, ep: Id, n: Time)
    requires JustPersisted(db, ep, n)
    ensures Inv(Run(db, cs)) && NoTrapRan(Run(db, cs), ep)
    ensures Run(db, cs).executions[ep] == db.executions[ep]
  {
    PlanStays(db, cs, ep);
    RunKeeps(db, cs);
    forall trap | Trap(db.executions[ep].plan.steps, trap) ensures Untouched(Run(db, cs), ep, trap) {
      RunUntouched(db, cs, ep, trap);
    }
  }

  // ---- A worker that reports the same artifact twice ------------------------------------

  lemma SameOutput(def: TaskDef, kind: Kind)
    requires kind in def.step.outputs
    ensures Artifact(0, kind, 0, 0, 0) in Outputs(def, false)
  {
    var i :| 0 <= i < |def.step.outputs| && def.step.outputs[i] == kind;
    assert Outputs(def, false)[i] == Artifact(0, kind, 0, 0, 0);
  }

  lemma CompletedReports(db: Db, ep: Id, n: Time, s: Step, u: Id, kind: Kind)
    requires Driving(db, ep, n, false) && s in db.executions[ep].plan.steps && kind in s.outputs
    requires RowAt(db.tasks, ep, s.key, u) && db.tasks[u].status.Completed?
    ensures Reports(db.tasks, ep, s.key, Artifact(0, kind, 0, 0, 0))
  {
    RowIsStep(db, u);
    assert db.tasks[u].def.step == s;
    assert OnTrack(db.tasks[u], n, false);
    SameOutput(db.tasks[u].def, kind);
  }

  lemma DependencyReports(db: Db, ep: Id, n: Time, id: Id, s: Step, kind: Kind)
    requires Driving(db, ep, n, false) && id in Ready(db, ep, n)
    requires s in db.executions[ep].plan.steps && s.key in db.tasks[id].def.step.dependsOn && kind in s.outputs
    ensures Reports(db.tasks, ep, s.key, Artifact(0, kind, 0, 0, 0))
  {
    var u := DepRow(db, id, s.key);
    CompletedReports(db, ep, n, s, u, kind);
  }

  /** Once such a step is ready, its inputs repeat an artifact. */
  lemma ReadyClashes(db: Db, ep: Id, n: Time, id: Id)
    requires Driving(db, ep, n, false) && id in Ready(db, ep, n)
    requires FansIn(db.executions[ep].plan.steps, db.tasks[id].def.step)
    ensures FanInClash(db.tasks, id)
  {
    var steps, step := db.executions[ep].plan.steps, db.tasks[id].def.step;
    var a, b, kind :| a in step.dependsOn && b in step.dependsOn && a != b && BothDeclare(steps, a, b, kind);
    var s, t :| s in steps && t in steps && s.key == a && t.key == b && kind in s.outputs && kind in t.outputs;
    DependencyReports(db, ep, n, id, s, kind);
    DependencyReports(db, ep, n, id, t, kind);
    FanInClashIff(db, id);
  }

  /** Something is ready while a startable step is PENDING. */
  lemma StartableIsReached(db: Db, ep: Id, n: Time, id: Id)
    requires Driving(db, ep, n, false) && id in PendingOf(db.tasks, ep)
    requires Startable(db.executions[ep].plan.steps, db.tasks[id].def.step)
    ensures Ready(db, ep, n) != {}
  {
    if Ready(db, ep, n) == {} {
      DrivingIsSwept(db, ep, n, false);
      StuckIff(db, ep, n, n, n);
      assert WaitsOnPending(db.tasks, ep, id);
      var u :| DependsOn(db.tasks, id, u) && db.tasks[u].status.Pending?;
      assert db.tasks[u].def.step.key in PendingKeys(db.tasks, ep);
      AllWaitIsTrap(db, ep);
      assert false;
    }
  }

  lemma PendingKeepsOpen(db: Db, ep: Id, id: Id)
    requires Inv(db) && id in PendingOf(db.tasks, ep)
    ensures !WorkedOff(db, ep)
  {
    assert !RowWorkedOff(db, id);
  }

  lemma {:induction false} ReadyKeeps(db: Db, ep: Id, n: Time, id: Id, cs: seq<Command>, done: Id)
    requires Driving(db, ep, n, false) && id in PendingOf(db.tasks, ep) && id !in Ready(db, ep, n)
    requires done in Ready(db, ep, n) && PendingOf(Run(db, cs).tasks, ep) == PendingOf(db.tasks, ep) - {done}
    ensures id in PendingOf(Run(db, cs).tasks, ep) && Run(db, cs).tasks[id].def == db.tasks[id].def
    ensures !WorkedOff(Run(db, cs), ep) && PendingOf(Run(db, cs).tasks, ep) < PendingOf(db.tasks, ep)
  {
    RunEvolves(db, cs);
    RowHistory(db, Run(db, cs), id);
    PendingKeepsOpen(Run(db, cs), ep, id);
    ReadyRow(db, ep, n, done);
    assert done in PendingOf(db.tasks, ep);
  }

  /** Work with equal artifacts until some ready task clashes. */
  lemma {:induction false} WorkUntilClash(db: Db, ep: Id, n: Time, id: Id) returns (cs: seq<Command>, t: Id)
    requires Driving(db, ep, n, false) && id in PendingOf(db.tasks, ep)
    requires FansIn(db.executions[ep].plan.steps, db.tasks[id].def.step)
    requires Startable(db.executions[ep].plan.steps, db.tasks[id].def.step)
    ensures Driving(Run(db, cs), ep, n, false) && t in Ready(Run(db, cs), ep, n) && FanInClash(Run(db, cs).tasks, t)
    decreases PendingOf(db.tasks, ep)
  {
    if !ReadyApart(db, ep, n) {
      cs := [];
      t :| t in Ready(db, ep, n) && FanInClash(db.tasks, t);
    } else {
      if id in Ready(db, ep, n) {
        ReadyClashes(db, ep, n, id);
      }
      StartableIsReached(db, ep, n, id);
      var first, done := OneTask(db, ep, n, false);
      ReadyKeeps(db, ep, n, id, first, done);
      var rest;
      rest, t := WorkUntilClash(Run(db, first), ep, n, id);
      cs := first + rest;
      RunConcat(db, first, rest);
    }
  }

  lemma FanInRow(db: Db, ep: Id, n: Time) returns (id: Id)
    requires JustPersisted(db, ep, n) && MayClash(db.executions[ep].plan.steps)
    ensures id in PendingOf(db.tasks, ep)
    ensures FansIn(db.executions[ep].plan.steps, db.tasks[id].def.step)
    ensures Startable(db.executions[ep].plan.steps, db.tasks[id].def.step)
  {
    var steps := db.executions[ep].plan.steps;
    var s :| s in steps && FansIn(steps, s) && Startable(steps, s);
    id := StepRow(db, ep, s);
  }

  lemma {:induction false} FanInIsReached(db: Db, ep: Id, n: Time) returns (cs: seq<Command>, t: Id)
    requires JustPersisted(db, ep, n) && MayClash(db.executions[ep].plan.steps)
    ensures Driving(Run(db, cs), ep, n, false) && t in Ready(Run(db, cs), ep, n) && ClashesIn(Run(db, cs), ep, t)
  {
    var id := FanInRow(db, ep, n);
    PersistedIsDriving(db, ep, n, false);
    cs, t := WorkUntilClash(db, ep, n, id);
    ReadyClashIs(Run(db, cs), ep, n, t);
  }

  // ---- The plans that clash ---------------------------------------------------------------

  /** Some run from here gives a task of the episode the same artifact twice. */
  ghost predicate CanClash(db: Db, ep: Id) {
    exists cs, id :: ClashesIn(Run(db, cs), ep, id)
  }

  /** Which plans can clash: exactly those with a step two of whose dependencies
      declare the same kind and can both be completed. */
  lemma {:induction false} ClashIffFanIn(db: Db, ep: Id, n: Time)
    requires JustPersisted(db, ep, n)
    ensures CanClash(db, ep) <==> MayClash(db.executions[ep].plan.steps)
  {
    if CanClash(db, ep) {
      var cs, id :| ClashesIn(Run(db, cs), ep, id);
      RunTrapsNothing(db, cs, ep, n);
      ClashFansIn(Run(db, cs), ep, id);
    }
    if MayClash(db.executions[ep].plan.steps) {
      var cs, t := FanInIsReached(db, ep, n);
    }
  }

  lemma {:induction false} AcyclicClashIff(db: Db, ep: Id, n: Time)
    requires JustPersisted(db, ep, n) && Acyclic(db.executions[ep].plan.steps)
    ensures var steps := db.executions[ep].plan.steps;
            CanClash(db, ep) <==> exists s :: s in steps && FansIn(steps, s)
  {
    ClashIffFanIn(db, ep, n);
    AcyclicMayClash(db.executions[ep].plan.steps);
  }

  // ---- The claims that raise ----------------------------------------------------------------

  /** The episode runs, and yet every claim on it raises and changes nothing. */
  ghost predicate ClaimsRaise(d: Db, ep: Id, m: Time) {
    Open(d, ep, m) && forall worker, seconds :: Claim(d, ep, worker, seconds, m, m, m) == (d, Raised)
  }

  ghost predicate CanBlockClaims(db: Db, ep: Id) {
    exists cs, m :: ClaimsRaise(Run(db, cs), ep, m)
  }

  lemma SweepTrapsNothing(a: Db, b: Db, ep: Id, trap: set<StepKey>)
    requires SweptDb(a, b) && Untouched(a, ep, trap)
    ensures Untouched(b, ep, trap)
  {
    forall id | id in b.tasks && b.tasks[id].def.episode == ep && b.tasks[id].def.step.key in trap
      ensures !Ran(b.tasks[id])
    {
      assert SweptRow(a.tasks[id], b.tasks[id]);
    }
  }

  lemma SweepKeepsTraps(a: Db, b: Db, ep: Id)
    requires SweptDb(a, b) && NoTrapRan(a, ep)
    ensures NoTrapRan(b, ep)
  {
    forall trap | Trap(b.executions[ep].plan.steps, trap) ensures Untouched(b, ep, trap) {
      SweepTrapsNothing(a, b, ep, trap);
    }
  }

  lemma SweptTrapsNothing(db: Db, ep: Id, m: Time)
    requires Inv(db) && NoTrapRan(db, ep)
    ensures Inv(Swept(db, ep, m, m, m)) && NoTrapRan(Swept(db, ep, m, m, m), ep)
    ensures Swept(db, ep, m, m, m).executions == db.executions
  {
    SweptInv(db, ep, m, m, m);
    SweepKeepsTraps(db, Swept(db, ep, m, m, m), ep);
  }

  lemma RaisingClaimFansIn(db: Db, ep: Id, m: Time)
    requires Inv(db) && NoTrapRan(db, ep) && ClaimsRaise(db, ep, m)
    ensures MayClash(db.executions[ep].plan.steps)
  {
    assert Claim(db, ep, "", 1, m, m, m).1.Raised?;
    ClaimRaisesIff(db, ep, "", 1, m, m, m);
    SweptTrapsNothing(db, ep, m);
    AmbiguityFansIn(Swept(db, ep, m, m, m), ep, m);
  }

  lemma AmbiguityFansIn(s: Db, ep: Id, m: Time)
    requires Inv(s) && NoTrapRan(s, ep) && AmbiguousFanIn(s, ep, m)
    ensures MayClash(s.executions[ep].plan.steps)
  {
    var id :| id in Ready(s, ep, m) && FanInClash(s.tasks, id);
    ReadyClashIs(s, ep, m, id);
    ClashFansIn(s, ep, id);
  }

  lemma DrivenClaimsRaise(d: Db, ep: Id, n: Time, t: Id)
    requires Driving(d, ep, n, false) && t in Ready(d, ep, n) && ClashesIn(d, ep, t)
    ensures ClaimsRaise(d, ep, n)
  {
    DrivingIsSwept(d, ep, n, false);
    forall worker, seconds ensures Claim(d, ep, worker, seconds, n, n, n) == (d, Raised) {
      ClashBlocksClaims(d, t, worker, seconds, n, n, n);
    }
  }

  /** Which plans can leave a running episode on which every claim raises: the
      same ones. */
  lemma {:induction false} BlockedClaimsIffFanIn(db: Db, ep: Id, n: Time)
    requires JustPersisted(db, ep, n)
    ensures CanBlockClaims(db, ep) <==> MayClash(db.executions[ep].plan.steps)
  {
    if CanBlockClaims(db, ep) {
      var cs, m :| ClaimsRaise(Run(db, cs), ep, m);
      RunTrapsNothing(db, cs, ep, n);
      RaisingClaimFansIn(Run(db, cs), ep, m);
    }
    if MayClash(db.executions[ep].plan.steps) {
      var cs, t := FanInIsReached(db, ep, n);
      DrivenClaimsRaise(Run(db, cs), ep, n, t);
    }
  }

  // ---- A clash from the empty database --------------------------------------------------------

  function RegimeStep(key: StepKey): Step {
    Step(key, MarketRegime, [SNAPSHOT], [MarketStateAssessment], UNIT_BUDGET, [])
  }

  const JOIN_STEP := Step(3, Research, [], [Hypothesis], UNIT_BUDGET, [1, 2])
  const FAN_STEPS := [RegimeStep(1), RegimeStep(2), JOIN_STEP]
  const FAN_PLAN := Plan(7, 9, 0, 100, Budget(3, 3, 3, 3, 1), FAN_STEPS)
  const FAN_DEFS := [
    TaskDef(31, 9, RegimeStep(1), 100), TaskDef(32, 9, RegimeStep(2), 100), TaskDef(33, 9, JOIN_STEP, 100)]
  const FAN := Execution(FAN_PLAN, FAN_DEFS, 0, 0)

  lemma FanKeys()
    ensures forall s :: s in FAN_STEPS <==> s == RegimeStep(1) || s == RegimeStep(2) || s == JOIN_STEP
    ensures HasKey(FAN_STEPS, 1) && HasKey(FAN_STEPS, 2)
  {
    assert FAN_STEPS[0] == RegimeStep(1) && FAN_STEPS[1] == RegimeStep(2) && FAN_STEPS[2] == JOIN_STEP;
    assert RegimeStep(1).key == 1 && RegimeStep(2).key == 2;
  }

  lemma FanStepsAreValid(s: Step)
    requires s in FAN_STEPS
    ensures ValidStep(FAN_STEPS, s)
  {
    FanKeys();
  }

  lemma FanStepsAreDefined(s: Step)
    requires s in FAN_STEPS
    ensures exists i: nat :: i < |FAN_DEFS| && DefinesStep(FAN_PLAN, 9, FAN_DEFS, s, i)
  {
    FanKeys();
    assert DefinesStep(FAN_PLAN, 9, FAN_DEFS, RegimeStep(1), 0);
    assert DefinesStep(FAN_PLAN, 9, FAN_DEFS, RegimeStep(2), 1);
    assert DefinesStep(FAN_PLAN, 9, FAN_DEFS, JOIN_STEP, 2);
  }

  lemma FanTotal(cost: Budget -> int)
    ensures Total(FAN_STEPS, cost) == cost(UNIT_BUDGET) + cost(UNIT_BUDGET) + cost(UNIT_BUDGET)
  {
    assert Total([JOIN_STEP], cost) == cost(UNIT_BUDGET);
    assert [RegimeStep(2), JOIN_STEP][1..] == [JOIN_STEP];
    assert Total([RegimeStep(2), JOIN_STEP], cost) == cost(UNIT_BUDGET) + cost(UNIT_BUDGET);
    assert FAN_STEPS[1..] == [RegimeStep(2), JOIN_STEP];
  }

  lemma FanWithinBudget()
    ensures WithinBudget(FAN_PLAN)
  {
    FanKeys();
    forall cost: Budget -> int
      ensures Total(FAN_STEPS, cost) == cost(UNIT_BUDGET) + cost(UNIT_BUDGET) + cost(UNIT_BUDGET)
    {
      FanTotal(cost);
    }
  }

  lemma FanIsAcyclic()
    ensures Acyclic(FAN_STEPS)
  {
    FanKeys();
    DescendingIsAcyclic(FAN_STEPS);
  }

  lemma FanIsFirst()
    ensures FirstPlan(FAN)
  {
    FanWithinBudget();
    forall s | s in FAN_STEPS
      ensures ValidStep(FAN_STEPS, s) && exists i: nat :: i < |FAN_DEFS| && DefinesStep(FAN_PLAN, 9, FAN_DEFS, s, i)
    {
      FanStepsAreValid(s);
      FanStepsAreDefined(s);
    }
    CycleGuardNeverFires(STARTED_DB.episodes, 9, FAN_PLAN, FAN_DEFS);
    forall d | d in FAN_DEFS ensures d.deadline == 100 {
      assert d == FAN_DEFS[0] || d == FAN_DEFS[1] || d == FAN_DEFS[2];
    }
  }

  lemma FanFansIn()
    ensures FansIn(FAN_STEPS, JOIN_STEP) && JOIN_STEP in FAN_STEPS
  {
    FanKeys();
    assert JOIN_STEP.dependsOn[0] == 1 && JOIN_STEP.dependsOn[1] == 2;
    assert RegimeStep(1).outputs[0] == MarketStateAssessment && RegimeStep(2).outputs[0] == MarketStateAssessment;
    assert RegimeStep(1) in FAN_STEPS && RegimeStep(2) in FAN_STEPS;
    assert BothDeclare(FAN_STEPS, 1, 2, MarketStateAssessment);
  }

  lemma {:induction false} ClashFrom(db: Db, pre: seq<Command>, ep: Id)
    ensures CanClash(Run(db, pre), ep) ==> CanClash(db, ep)
    ensures CanBlockClaims(Run(db, pre), ep) ==> CanBlockClaims(db, ep)
  {
    if CanClash(Run(db, pre), ep) {
      var cs, id :| ClashesIn(Run(Run(db, pre), cs), ep, id);
      RunConcat(db, pre, cs);
      assert ClashesIn(Run(db, pre + cs), ep, id);
    }
    if CanBlockClaims(Run(db, pre), ep) {
      var cs, m :| ClaimsRaise(Run(Run(db, pre), cs), ep, m);
      RunConcat(db, pre, cs);
      assert ClaimsRaise(Run(db, pre + cs), ep, m);
    }
  }

  /** Two MARKET_REGIME steps that report the same artifact and a RESEARCH step on
      both: an acyclic plan, accepted, after which every claim raises. */
  lemma FanInBlocksClaims()
    ensures Acyclic(FAN_STEPS) && CanClash(EMPTY_DB, 9) && CanBlockClaims(EMPTY_DB, 9)
  {
    FanIsFirst();
    FanIsAcyclic();
    FanFansIn();
    AcyclicMayClash(FAN_STEPS);
    var pre := PersistRun(FAN);
    ClashIffFanIn(Run(EMPTY_DB, pre), 9, 0);
    BlockedClaimsIffFanIn(Run(EMPTY_DB, pre), 9, 0);
    ClashFrom(EMPTY_DB, pre, 9);
  }
}
