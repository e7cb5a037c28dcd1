/** When a plan and its task set are accepted, and what acceptance says about
    the dependency graph. */
module PlanValidation {
  import opened Common
  import opened WorkflowModel

  predicate ValidArtifact(a: Artifact) {
    a.createdAt >= a.asOf
  }

  predicate PositiveBudget(b: Budget) {
    b.turns > 0 && b.toolCalls > 0 && b.tokens > 0 && b.seconds > 0 && b.parallel > 0
  }

  function Total(steps: seq<Step>, cost: Budget -> int): int {
    if steps == [] then 0 else cost(steps[0].budget) + Total(steps[1..], cost)
  }

  /** The step budgets add up within the cycle budget; parallelism is a maximum. */
  predicate WithinBudget(plan: Plan) {
    && Total(plan.steps, (b: Budget) => b.turns) <= plan.budget.turns
    && Total(plan.steps, (b: Budget) => b.toolCalls) <= plan.budget.toolCalls
    && Total(plan.steps, (b: Budget) => b.tokens) <= plan.budget.tokens
    && Total(plan.steps, (b: Budget) => b.seconds) <= plan.budget.seconds
    && (forall s <- plan.steps :: s.budget.parallel <= plan.budget.parallel)
  }

  predicate HasKey(steps: seq<Step>, key: StepKey) {
    exists s :: s in steps && s.key == key
  }

  predicate DistinctKeys(steps: seq<Step>) {
    forall i, j :: 0 <= i < j < |steps| ==> steps[i].key != steps[j].key
  }

  /** Kinds that come from outside; no step declares them as outputs. */
  const GIVEN_KINDS := {ResearchBrief, MarketSnapshot, FeatureObservation, RegimeAssessment}

  predicate ValidStep(steps: seq<Step>, s: Step) {
    && !s.role.PreTradeCritic?
    && Distinct(s.dependsOn)
    && (forall d <- s.dependsOn :: HasKey(steps, d) && d != s.key)
    && s.outputs != [] && Distinct(s.outputs) && Critique !in s.outputs
    && Distinct(s.inputs)
    && (s.role.MarketRegime? ==>
          && s.inputs != [] && s.outputs == [MarketStateAssessment]
          && (forall a <- s.inputs :: a.kind in GIVEN_KINDS))
    && (s.role.Research? ==>
          && (forall o <- s.outputs :: o in {Hypothesis, EvidenceSynthesis, ExperimentRequest})
          && (forall a <- s.inputs :: a.kind.MarketStateAssessment?)
          && (s.inputs == [] <==> s.dependsOn != [])
          && (forall u <- steps :: u.key in s.dependsOn ==>
                u.role.MarketRegime? && u.outputs == [MarketStateAssessment]))
    && PositiveBudget(s.budget)
    && (forall a <- s.inputs :: ValidArtifact(a))
  }

  /** Definition i is the only one for its step and repeats the step's fields. */
  predicate DefinesStep(plan: Plan, ep: Id, defs: seq<TaskDef>, s: Step, i: nat) {
    && i < |defs| && defs[i].step == s && defs[i].episode == ep
    && defs[i].deadline <= plan.expiresAt
    && (forall j :: 0 <= j < |defs| && defs[j].step.key == s.key ==> j == i)
  }

  ghost predicate Edge(steps: seq<Step>, a: StepKey, b: StepKey) {
    exists s :: s in steps && s.key == a && b in s.dependsOn
  }

  ghost predicate PathOf(steps: seq<Step>, p: seq<StepKey>) {
    |p| >= 2 && forall i :: 0 <= i < |p| - 1 ==> Edge(steps, p[i], p[i + 1])
  }

  /** The rows of the recursive query walk(root, node, path): the first edge is
      taken freely, every later one only to a node not yet on the path. */
  ghost predicate WalkRow(steps: seq<Step>, p: seq<StepKey>) {
    PathOf(steps, p) && forall i :: 2 <= i < |p| ==> p[i] !in p[..i]
  }

  /** The cycle guard: some walk ends at its root. */
  ghost predicate CycleGuardFires(steps: seq<Step>) {
    exists p :: WalkRow(steps, p) && p[0] == p[|p| - 1]
  }

  /** Everything the legacy validator asks except the cycle guard. */
  predicate ValidShape(episodes: map<Id, Episode>, ep: Id, plan: Plan, defs: seq<TaskDef>) {
    && ep in episodes && plan.episode == ep && plan.cycle == episodes[ep].cycle
    && plan.expiresAt > plan.asOf
    && |plan.steps| == |defs|
    && PositiveBudget(plan.budget)
    && plan.steps != [] && DistinctKeys(plan.steps)
    && (forall s <- plan.steps ::
          ValidStep(plan.steps, s) && exists i: nat :: i < |defs| && DefinesStep(plan, ep, defs, s, i))
    && WithinBudget(plan)
  }

  ghost predicate ValidLegacy(episodes: map<Id, Episode>, ep: Id, plan: Plan, defs: seq<TaskDef>) {
    ValidShape(episodes, ep, plan, defs) && !CycleGuardFires(plan.steps)
  }

  predicate SmallBudget(b: Budget) {
    PositiveBudget(b) && b.turns <= 4 && b.toolCalls <= 16 && b.tokens <= 12000 && b.seconds <= 120 && b.parallel <= 1
  }

  /** The elements of xs that are not dropped, in order. */
  function Keep<T>(xs: seq<T>, drop: T -> bool): seq<T> {
    if xs == [] then [] else (if drop(xs[0]) then [] else [xs[0]]) + Keep(xs[1..], drop)
  }

  const CRITIC_STEP := (s: Step) => s.role.PreTradeCritic?
  const CRITIC_DEF := (d: TaskDef) => d.step.role.PreTradeCritic?

  function WithoutCritic(plan: Plan): Plan {
    plan.(steps := Keep(plan.steps, CRITIC_STEP))
  }

  predicate ValidCriticStep(steps: seq<Step>, c: Step) {
    && c.role.PreTradeCritic? && c.inputs == [] && c.outputs == [Critique]
    && |c.dependsOn| == 1 && SmallBudget(c.budget)
    && (exists u :: u in steps && u.key == c.dependsOn[0] && u.role.Research? &&
                    u.outputs == [Hypothesis, EvidenceSynthesis, ExperimentRequest])
  }

  /** What the additive validator asks of the Critic step itself. */
  predicate CriticShape(plan: Plan, ep: Id, defs: seq<TaskDef>) {
    && |plan.steps| == |defs|
    && DistinctKeys(plan.steps)
    && (forall i, j :: 0 <= i < j < |defs| ==> defs[i].taskId != defs[j].taskId)
    && (exists k :: 0 <= k < |plan.steps| && ValidCriticStep(plan.steps, plan.steps[k])
          && (forall j :: 0 <= j < |plan.steps| && plan.steps[j].role.PreTradeCritic? ==> j == k)
          && (exists i: nat :: i < |defs| && DefinesStep(plan, ep, defs, plan.steps[k], i)))
    && WithinBudget(plan)
  }

  /** The additive validator: one Critic on top of a legacy plan. */
  ghost predicate ValidCritic(episodes: map<Id, Episode>, ep: Id, plan: Plan, defs: seq<TaskDef>) {
    CriticShape(plan, ep, defs) && ValidLegacy(episodes, ep, WithoutCritic(plan), Keep(defs, CRITIC_DEF))
  }

  ghost predicate ValidExecution(episodes: map<Id, Episode>, ep: Id, plan: Plan, defs: seq<TaskDef>) {
    ValidLegacy(episodes, ep, plan, defs) || ValidCritic(episodes, ep, plan, defs)
  }

  ghost predicate UnsealedPlan(k: int) {
    true
  }

  /** ValidExecution, behind a quantifier that keeps its body out of proofs that
      only pass it on; OpenAccepted and SealAccepted convert. */
  ghost predicate Accepted(episodes: map<Id, Episode>, ep: Id, x: Execution) {
    forall k {:trigger UnsealedPlan(k)} :: UnsealedPlan(k) ==> ValidExecution(episodes, ep, x.plan, x.defs)
  }

  lemma OpenAccepted(episodes: map<Id, Episode>, ep: Id, x: Execution)
    requires Accepted(episodes, ep, x)
    ensures ValidExecution(episodes, ep, x.plan, x.defs) && WellKeyed(x.plan, ep, x.defs)
  {
    assert UnsealedPlan(0);
    AcceptedIsWellKeyed(episodes, ep, x.plan, x.defs);
  }

  lemma SealAccepted(episodes: map<Id, Episode>, ep: Id, x: Execution)
    requires ValidExecution(episodes, ep, x.plan, x.defs)
    ensures Accepted(episodes, ep, x)
  {
  }

  // ---- The cycle guard -------------------------------------------------

  lemma WalkAvoidsItsRoot(steps: seq<Step>, p: seq<StepKey>)
    requires WalkRow(steps, p) && (forall s <- steps :: s.key !in s.dependsOn) && DistinctKeys(steps)
    ensures p[0] != p[|p| - 1]
  {
    if |p| == 2 {
      assert Edge(steps, p[0], p[1]);
    } else {
      assert p[|p| - 1] !in p[..|p| - 1];
      assert p[0] == p[..|p| - 1][0];
    }
  }

  /** A walk never returns to its root: after the first edge the root is on the
      path, so the row that would close the cycle is pruned. */
  lemma CycleGuardNeverFires(episodes: map<Id, Episode>, ep: Id, plan: Plan, defs: seq<TaskDef>)
    ensures ValidLegacy(episodes, ep, plan, defs) <==> ValidShape(episodes, ep, plan, defs)
  {
    if ValidShape(episodes, ep, plan, defs) {
      forall p | WalkRow(plan.steps, p) ensures p[0] != p[|p| - 1] {
        WalkAvoidsItsRoot(plan.steps, p);
      }
    }
  }

  ghost predicate ClosedWalk(steps: seq<Step>, p: seq<StepKey>) {
    PathOf(steps, p) && p[0] == p[|p| - 1]
  }

  ghost predicate Acyclic(steps: seq<Step>) {
    forall p :: !ClosedWalk(steps, p)
  }

  ghost predicate WaitsInside(steps: seq<Step>, c: set<StepKey>, a: StepKey) {
    exists b :: b in c && Edge(steps, a, b)
  }

  /** A set of steps none of which can go first. */
  ghost predicate Trap(steps: seq<Step>, c: set<StepKey>) {
    c != {} && forall a {:trigger WaitsInside(steps, c, a)} :: a in c ==> WaitsInside(steps, c, a)
  }

  lemma {:induction false} WalkInside(steps: seq<Step>, c: set<StepKey>, a: StepKey, n: nat)
    returns (p: seq<StepKey>)
    requires Trap(steps, c) && a in c
    ensures |p| == n + 1 && p[0] == a && (forall k <- p :: k in c)
    ensures forall i :: 0 <= i < n ==> Edge(steps, p[i], p[i + 1])
    decreases n
  {
    if n == 0 {
      p := [a];
    } else {
      assert WaitsInside(steps, c, a);
      var b :| b in c && Edge(steps, a, b);
      var q := WalkInside(steps, c, b, n - 1);
      p := [a] + q;
    }
  }

  lemma DistinctFits<T>(p: seq<T>, c: set<T>)
    requires Distinct(p) && forall x <- p :: x in c
    ensures |p| <= |c|
  {
    DistinctSeqSetSize(p);
    assert c == SeqSet(p) + (c - SeqSet(p));
  }

  /** A dependency cycle is the same thing as a set no member of which can go
      first. */
  lemma CycleIffTrap(steps: seq<Step>)
    ensures !Acyclic(steps) <==> exists c :: Trap(steps, c)
  {
    if c :| Trap(steps, c) {
      var a :| a in c;
      var p := WalkInside(steps, c, a, |c|);
      if Distinct(p) { DistinctFits(p, c); }
      var i, j :| 0 <= i < j < |p| && p[i] == p[j];
      var q := p[i..j + 1];
      forall k | 0 <= k < |q| - 1 ensures Edge(steps, q[k], q[k + 1]) {
        assert q[k] == p[i + k] && q[k + 1] == p[i + k + 1];
      }
      assert ClosedWalk(steps, q);
    }
    if p :| ClosedWalk(steps, p) {
      var c := SeqSet(p);
      forall a | a in c ensures WaitsInside(steps, c, a) {
        var i :| 0 <= i < |p| && p[i] == a;
        var k := if i == |p| - 1 then 0 else i;
        assert Edge(steps, p[k], p[k + 1]) && p[k + 1] in c;
      }
      assert p[0] in c;
      assert Trap(steps, c);
    }
  }

  lemma {:induction false} WalkDescends(steps: seq<Step>, p: seq<StepKey>, i: nat)
    requires PathOf(steps, p) && 0 < i < |p| && forall a, b :: Edge(steps, a, b) ==> b < a
    ensures p[i] < p[0]
  {
    assert Edge(steps, p[i - 1], p[i - 1 + 1]);
    if i > 1 {
      WalkDescends(steps, p, i - 1);
    }
  }

  /** Keys that descend along every dependency rule out cycles. */
  lemma DescendingIsAcyclic(steps: seq<Step>)
    requires forall a, b :: Edge(steps, a, b) ==> b < a
    ensures Acyclic(steps)
  {
    forall p | PathOf(steps, p) ensures !ClosedWalk(steps, p) {
      WalkDescends(steps, p, |p| - 1);
    }
  }

  // ---- What the guard lets through ---------------------------------------

  const SNAPSHOT := Artifact(1, MarketSnapshot, 1, 0, 0)
  const UNIT_BUDGET := Budget(1, 1, 1, 1, 1)

  function LoopStep(key: StepKey, other: StepKey): Step {
    Step(key, MarketRegime, [SNAPSHOT], [MarketStateAssessment], UNIT_BUDGET, [other])
  }

  const LOOP_PLAN := Plan(7, 9, 0, 100, Budget(2, 2, 2, 2, 1), [LoopStep(1, 2), LoopStep(2, 1)])
  const LOOP_DEFS := [TaskDef(21, 9, LoopStep(1, 2), 100), TaskDef(22, 9, LoopStep(2, 1), 100)]

  lemma LoopIsClosed()
    ensures !Acyclic(LOOP_PLAN.steps)
  {
    var steps := LOOP_PLAN.steps;
    assert steps[0] in steps && steps[1] in steps;
    assert Edge(steps, 1, 2) && Edge(steps, 2, 1);
    assert ClosedWalk(steps, [1, 2, 1]);
  }

  lemma LoopStepsAreValid(s: Step)
    requires s in LOOP_PLAN.steps
    ensures ValidStep(LOOP_PLAN.steps, s)
  {
    var steps := LOOP_PLAN.steps;
    assert steps[0].key == 1 && steps[1].key == 2;
    assert HasKey(steps, 1) && HasKey(steps, 2);
    assert s == steps[0] || s == steps[1];
  }

  lemma LoopStepsAreDefined(s: Step)
    requires s in LOOP_PLAN.steps
    ensures exists i: nat :: i < |LOOP_DEFS| && DefinesStep(LOOP_PLAN, 9, LOOP_DEFS, s, i)
  {
    var steps := LOOP_PLAN.steps;
    assert DefinesStep(LOOP_PLAN, 9, LOOP_DEFS, steps[0], 0);
    assert DefinesStep(LOOP_PLAN, 9, LOOP_DEFS, steps[1], 1);
    assert s == steps[0] || s == steps[1];
  }

  lemma LoopWithinBudget()
    ensures WithinBudget(LOOP_PLAN)
  {
    var steps := LOOP_PLAN.steps;
    forall cost: Budget -> int ensures Total(steps, cost) == cost(UNIT_BUDGET) + cost(UNIT_BUDGET) {
      assert steps[1..] == [steps[1]] && steps[1..][1..] == [];
    }
  }

  /** Two steps that wait for each other are accepted for any running episode. */
  lemma CyclicPlanIsAccepted(episodes: map<Id, Episode>)
    requires 9 in episodes && episodes[9].cycle == 7
    ensures ValidLegacy(episodes, 9, LOOP_PLAN, LOOP_DEFS)
    ensures !Acyclic(LOOP_PLAN.steps)
  {
    LoopIsClosed();
    LoopWithinBudget();
    forall s | s in LOOP_PLAN.steps
      ensures ValidStep(LOOP_PLAN.steps, s)
      ensures exists i: nat :: i < |LOOP_DEFS| && DefinesStep(LOOP_PLAN, 9, LOOP_DEFS, s, i)
    {
      LoopStepsAreValid(s);
      LoopStepsAreDefined(s);
    }
    CycleGuardNeverFires(episodes, 9, LOOP_PLAN, LOOP_DEFS);
  }

  // ---- The Critic extension ----------------------------------------------

  lemma {:induction false} KeepAll<T>(xs: seq<T>, drop: T -> bool)
    requires forall x <- xs :: !drop(x)
    ensures Keep(xs, drop) == xs
  {
    if xs != [] {
      KeepAll(xs[1..], drop);
    }
  }

  lemma {:induction false} KeepShortens<T>(xs: seq<T>, drop: T -> bool)
    ensures |Keep(xs, drop)| <= |xs|
    ensures |Keep(xs, drop)| == |xs| ==> forall x <- xs :: !drop(x)
  {
    if xs != [] {
      KeepShortens(xs[1..], drop);
    }
  }

  /** Exactly one element dropped: where it was. */
  lemma {:induction false} KeepAllButOne<T>(xs: seq<T>, drop: T -> bool) returns (m: nat)
    requires |Keep(xs, drop)| == |xs| - 1
    ensures m < |xs| && drop(xs[m]) && Keep(xs, drop) == xs[..m] + xs[m + 1..]
    ensures forall i :: 0 <= i < |xs| && i != m ==> !drop(xs[i])
  {
    if drop(xs[0]) {
      m := 0;
      KeepShortens(xs[1..], drop);
      KeepAll(xs[1..], drop);
    } else {
      var k := KeepAllButOne(xs[1..], drop);
      m := k + 1;
      assert xs[..m] == [xs[0]] + xs[1..][..k] && xs[m + 1..] == xs[1..][k + 1..];
      assert forall i :: 1 <= i < |xs| ==> xs[i] == xs[1..][i - 1];
    }
  }

  lemma {:induction false} KeepDropsOne<T>(xs: seq<T>, drop: T -> bool, m: nat)
    requires m < |xs| && drop(xs[m]) && forall i :: 0 <= i < |xs| && i != m ==> !drop(xs[i])
    ensures Keep(xs, drop) == xs[..m] + xs[m + 1..]
  {
    if m == 0 {
      KeepAll(xs[1..], drop);
    } else {
      KeepDropsOne(xs[1..], drop, m - 1);
      assert xs[..m] == [xs[0]] + xs[1..][..m - 1] && xs[m + 1..] == xs[1..][m..];
    }
  }

  lemma CriticStepOf(plan: Plan, ep: Id, defs: seq<TaskDef>) returns (k: nat, i: nat)
    requires CriticShape(plan, ep, defs)
    ensures k < |plan.steps| && ValidCriticStep(plan.steps, plan.steps[k]) && |plan.steps| == |defs|
    ensures forall j :: 0 <= j < |plan.steps| && j != k ==> !plan.steps[j].role.PreTradeCritic?
    ensures i < |defs| && DefinesStep(plan, ep, defs, plan.steps[k], i)
  {
    k :| 0 <= k < |plan.steps| && ValidCriticStep(plan.steps, plan.steps[k])
      && (forall j :: 0 <= j < |plan.steps| && plan.steps[j].role.PreTradeCritic? ==> j == k)
      && (exists i: nat :: i < |defs| && DefinesStep(plan, ep, defs, plan.steps[k], i));
    i :| i < |defs| && DefinesStep(plan, ep, defs, plan.steps[k], i);
  }

  lemma LegacySizes(episodes: map<Id, Episode>, ep: Id, plan: Plan, defs: seq<TaskDef>)
    requires ValidLegacy(episodes, ep, plan, defs)
    ensures |plan.steps| == |defs|
  {
  }

  /** Where the Critic sits in an accepted Critic plan. */
  lemma CriticPosition(episodes: map<Id, Episode>, ep: Id, plan: Plan, defs: seq<TaskDef>) returns (k: nat, m: nat)
    requires ValidCritic(episodes, ep, plan, defs)
    ensures k < |plan.steps| && ValidCriticStep(plan.steps, plan.steps[k])
    ensures forall j :: 0 <= j < |plan.steps| && j != k ==> !plan.steps[j].role.PreTradeCritic?
    ensures WithoutCritic(plan).steps == plan.steps[..k] + plan.steps[k + 1..]
    ensures m < |defs| && DefinesStep(plan, ep, defs, plan.steps[k], m)
    ensures Keep(defs, CRITIC_DEF) == defs[..m] + defs[m + 1..]
  {
    var i: nat;
    k, i := CriticStepOf(plan, ep, defs);
    KeepDropsOne(plan.steps, CRITIC_STEP, k);
    LegacySizes(episodes, ep, WithoutCritic(plan), Keep(defs, CRITIC_DEF));
    m := KeepAllButOne(defs, CRITIC_DEF);
    assert CRITIC_DEF(defs[i]);
  }

  /** All the steps but the one at k. */
  lemma Others(steps: seq<Step>, rest: seq<Step>, k: nat)
    requires k < |steps| && rest == steps[..k] + steps[k + 1..]
    ensures forall s :: s in steps && s != steps[k] ==> s in rest
    ensures forall s :: s in rest ==> s in steps
    ensures DistinctKeys(steps) ==> forall s :: s in rest ==> s.key != steps[k].key
  {
    forall s | s in steps && s != steps[k] ensures s in rest {
      var j :| 0 <= j < |steps| && steps[j] == s;
      assert rest[if j < k then j else j - 1] == s;
    }
    forall s | s in rest ensures s in steps && (DistinctKeys(steps) ==> s.key != steps[k].key) {
      var i :| 0 <= i < |rest| && rest[i] == s;
      assert s == steps[if i < k then i else i + 1];
    }
  }

  lemma LegacyDependsInside(episodes: map<Id, Episode>, ep: Id, plan: Plan, defs: seq<TaskDef>, s: Step, d: StepKey)
    requires ValidLegacy(episodes, ep, plan, defs) && s in plan.steps && d in s.dependsOn
    ensures HasKey(plan.steps, d)
  {
    assert ValidStep(plan.steps, s);
  }

  lemma CriticDependsOnResearch(steps: seq<Step>, c: Step)
    requires ValidCriticStep(steps, c) && DistinctKeys(steps) && c in steps
    ensures c.key !in c.dependsOn
  {
    var u :| u in steps && u.key == c.dependsOn[0] && u.role.Research?;
    assert u != c;
    assert u.key != c.key;
    assert c.dependsOn == [u.key];
  }

  /** The Critic is a leaf: no step depends on it. */
  lemma NothingDependsOnCritic(episodes: map<Id, Episode>, ep: Id, plan: Plan, defs: seq<TaskDef>, c: Step, s: Step)
    requires ValidCritic(episodes, ep, plan, defs)
    requires c in plan.steps && c.role.PreTradeCritic? && s in plan.steps
    ensures c.key !in s.dependsOn
  {
    var k, m := CriticPosition(episodes, ep, plan, defs);
    var rest := WithoutCritic(plan).steps;
    Others(plan.steps, rest, k);
    assert c == plan.steps[k];
    if s == c {
      CriticDependsOnResearch(plan.steps, c);
    } else if c.key in s.dependsOn {
      LegacyDependsInside(episodes, ep, WithoutCritic(plan), Keep(defs, CRITIC_DEF), s, c.key);
    }
  }

  lemma EdgesWithin(steps: seq<Step>, rest: seq<Step>, k: nat)
    requires k < |steps| && rest == steps[..k] + steps[k + 1..]
    ensures forall a, b :: Edge(rest, a, b) ==> Edge(steps, a, b)
    ensures forall a, b :: Edge(steps, a, b) && a != steps[k].key ==> Edge(rest, a, b)
  {
    Others(steps, rest, k);
    forall a, b | Edge(rest, a, b) ensures Edge(steps, a, b) {
      var s :| s in rest && s.key == a && b in s.dependsOn;
      assert s in steps;
    }
    forall a, b | Edge(steps, a, b) && a != steps[k].key ensures Edge(rest, a, b) {
      var s :| s in steps && s.key == a && b in s.dependsOn;
      assert s in rest;
    }
  }

  /** Every node of a closed walk has an edge coming in. */
  lemma WalkEnters(steps: seq<Step>, p: seq<StepKey>, i: nat)
    requires ClosedWalk(steps, p) && i < |p|
    ensures exists a :: Edge(steps, a, p[i])
  {
    var from := if i == 0 then |p| - 2 else i - 1;
    assert Edge(steps, p[from], p[from + 1]);
  }

  lemma CriticKeepsAcyclic(episodes: map<Id, Episode>, ep: Id, plan: Plan, defs: seq<TaskDef>)
    requires ValidCritic(episodes, ep, plan, defs)
    ensures Acyclic(plan.steps) <==> Acyclic(WithoutCritic(plan).steps)
  {
    var k, m := CriticPosition(episodes, ep, plan, defs);
    var rest := WithoutCritic(plan).steps;
    var c := plan.steps[k];
    EdgesWithin(plan.steps, rest, k);
    forall a ensures !Edge(plan.steps, a, c.key) {
      forall s | s in plan.steps ensures c.key !in s.dependsOn {
        NothingDependsOnCritic(episodes, ep, plan, defs, c, s);
      }
    }
    forall p | ClosedWalk(plan.steps, p) ensures ClosedWalk(rest, p) {
      forall i | 0 <= i < |p| - 1 ensures Edge(rest, p[i], p[i + 1]) {
        assert Edge(plan.steps, p[i], p[i + 1]);
        WalkEnters(plan.steps, p, i);
      }
    }
    assert forall p :: ClosedWalk(rest, p) ==> ClosedWalk(plan.steps, p);
  }

  /** The two validators accept disjoint sets of plans. */
  lemma ValidatorsAreDisjoint(episodes: map<Id, Episode>, ep: Id, plan: Plan, defs: seq<TaskDef>)
    ensures !(ValidLegacy(episodes, ep, plan, defs) && ValidCritic(episodes, ep, plan, defs))
  {
    if ValidCritic(episodes, ep, plan, defs) {
      var k, m := CriticPosition(episodes, ep, plan, defs);
      assert !ValidStep(plan.steps, plan.steps[k]);
    }
  }

  // ---- One definition per step ---------------------------------------------

  /** Facts about accepted executions that the task table relies on. */
  ghost predicate WellKeyed(plan: Plan, ep: Id, defs: seq<TaskDef>) {
    && plan.steps != [] && plan.budget.parallel >= 1 && |defs| == |plan.steps|
    && (forall i, j :: 0 <= i < |defs| && 0 <= j < |defs| && defs[i].step.key == defs[j].step.key ==> i == j)
    && (forall i :: 0 <= i < |defs| ==> defs[i].step in plan.steps && defs[i].episode == ep)
    && (forall s, d :: s in plan.steps && d in s.dependsOn ==> HasDef(defs, d))
  }

  ghost predicate HasDef(defs: seq<TaskDef>, key: StepKey) {
    exists i :: 0 <= i < |defs| && defs[i].step.key == key
  }

  ghost predicate AllDefined(plan: Plan, ep: Id, defs: seq<TaskDef>) {
    forall s <- plan.steps :: exists i: nat :: i < |defs| && DefinesStep(plan, ep, defs, s, i)
  }

  lemma {:induction false} PickDefs(plan: Plan, ep: Id, defs: seq<TaskDef>, n: nat) returns (picks: seq<nat>)
    requires n <= |plan.steps|
    requires forall s <- plan.steps :: exists i: nat :: i < |defs| && DefinesStep(plan, ep, defs, s, i)
    ensures |picks| == n && forall k :: 0 <= k < n ==> DefinesStep(plan, ep, defs, plan.steps[k], picks[k])
  {
    if n == 0 {
      picks := [];
    } else {
      var front := PickDefs(plan, ep, defs, n - 1);
      assert plan.steps[n - 1] in plan.steps;
      var i: nat :| DefinesStep(plan, ep, defs, plan.steps[n - 1], i);
      picks := front + [i];
    }
  }

  /** As many definitions as steps and one for each step: none is left over. */
  lemma EveryDefHasItsStep(plan: Plan, ep: Id, defs: seq<TaskDef>, m: nat)
    requires DistinctKeys(plan.steps) && |plan.steps| == |defs| && m < |defs|
    requires forall s <- plan.steps :: exists i: nat :: i < |defs| && DefinesStep(plan, ep, defs, s, i)
    ensures exists k :: 0 <= k < |plan.steps| && DefinesStep(plan, ep, defs, plan.steps[k], m)
  {
    var picks := PickDefs(plan, ep, defs, |plan.steps|);
    if m in picks {
      var k :| 0 <= k < |picks| && picks[k] == m;
      assert DefinesStep(plan, ep, defs, plan.steps[k], m);
    } else {
      var all := seq(|defs|, i requires 0 <= i < |defs| => i);
      DistinctSeqSetSize(all);
      assert Distinct([m] + picks) by {
        forall i, j | 0 <= i < j < |picks| ensures picks[i] != picks[j] {
          assert DefinesStep(plan, ep, defs, plan.steps[i], picks[i]);
          assert DefinesStep(plan, ep, defs, plan.steps[j], picks[j]);
        }
      }
      forall x | x in [m] + picks ensures x in SeqSet(all) {
        if x != m {
          var k :| 0 <= k < |picks| && picks[k] == x;
          assert DefinesStep(plan, ep, defs, plan.steps[k], picks[k]);
        }
        assert all[x] == x;
      }
      DistinctFits([m] + picks, SeqSet(all));
    }
  }

  lemma LegacyIsWellKeyed(episodes: map<Id, Episode>, ep: Id, plan: Plan, defs: seq<TaskDef>)
    requires ValidLegacy(episodes, ep, plan, defs)
    ensures WellKeyed(plan, ep, defs)
  {
    forall i | 0 <= i < |defs|
      ensures defs[i].step in plan.steps && defs[i].episode == ep
      ensures forall j :: 0 <= j < |defs| && defs[i].step.key == defs[j].step.key ==> i == j
    {
      EveryDefHasItsStep(plan, ep, defs, i);
    }
    forall s, d | s in plan.steps && d in s.dependsOn ensures HasDef(defs, d) {
      assert ValidStep(plan.steps, s);
      assert HasKey(plan.steps, d);
      var u :| u in plan.steps && u.key == d;
      var i: nat :| DefinesStep(plan, ep, defs, u, i);
    }
  }

  lemma CriticDepsHaveDefs(
      plan: Plan, ep: Id, defs: seq<TaskDef>, rest: Plan, kept: seq<TaskDef>, k: nat, s: Step, d: StepKey)
    requires k < |plan.steps| && ValidCriticStep(plan.steps, plan.steps[k])
    requires rest.steps == plan.steps[..k] + plan.steps[k + 1..]
    requires forall x <- kept :: x in defs
    requires AllDefined(rest, ep, kept) && WellKeyed(rest, ep, kept)
    requires s in plan.steps && d in s.dependsOn
    ensures HasDef(defs, d)
  {
    var u: Step;
    if s == plan.steps[k] {
      assert d == s.dependsOn[0];
      u :| u in plan.steps && u.key == d && u.role.Research?;
    } else {
      u := s;
    }
    var j :| 0 <= j < |plan.steps| && plan.steps[j] == u;
    assert rest.steps[if j < k then j else j - 1] == u;
    assert u in rest.steps;
    var at: nat;
    if s == plan.steps[k] {
      at :| at < |kept| && DefinesStep(rest, ep, kept, u, at);
      assert kept[at].step == u;
    } else {
      assert HasDef(kept, d);
      at :| at < |kept| && kept[at].step.key == d;
    }
    assert kept[at] in defs;
  }

  lemma OneDefPerKey(defs: seq<TaskDef>, kept: seq<TaskDef>, m: nat, i: nat, j: nat)
    requires m < |defs| && kept == defs[..m] + defs[m + 1..] && i < |defs| && j < |defs|
    requires forall a, b :: 0 <= a < |kept| && 0 <= b < |kept| && kept[a].step.key == kept[b].step.key ==> a == b
    requires forall a :: 0 <= a < |defs| && defs[a].step.key == defs[m].step.key ==> a == m
    requires defs[i].step.key == defs[j].step.key
    ensures i == j
  {
    if i != m && j != m {
      var i', j' := if i < m then i else i - 1, if j < m then j else j - 1;
      assert kept[i'] == defs[i] && kept[j'] == defs[j];
    }
  }

  lemma KeptAndOne(plan: Plan, ep: Id, defs: seq<TaskDef>, rest: Plan, kept: seq<TaskDef>, k: nat, m: nat)
    requires k < |plan.steps| && m < |defs| && DefinesStep(plan, ep, defs, plan.steps[k], m)
    requires rest.steps == plan.steps[..k] + plan.steps[k + 1..] && kept == defs[..m] + defs[m + 1..]
    requires WellKeyed(rest, ep, kept)
    ensures forall i, j :: 0 <= i < |defs| && 0 <= j < |defs| && defs[i].step.key == defs[j].step.key ==> i == j
    ensures forall i :: 0 <= i < |defs| ==> defs[i].step in plan.steps && defs[i].episode == ep
  {
    forall i, j | 0 <= i < |defs| && 0 <= j < |defs| && defs[i].step.key == defs[j].step.key ensures i == j {
      OneDefPerKey(defs, kept, m, i, j);
    }
    Others(plan.steps, rest.steps, k);
    forall i | 0 <= i < |defs| ensures defs[i].step in plan.steps && defs[i].episode == ep {
      if i != m {
        assert kept[if i < m then i else i - 1] == defs[i];
        assert defs[i].step in rest.steps;
      }
    }
  }

  lemma LegacyDefines(episodes: map<Id, Episode>, ep: Id, plan: Plan, defs: seq<TaskDef>)
    requires ValidLegacy(episodes, ep, plan, defs)
    ensures AllDefined(plan, ep, defs)
  {
  }

  lemma CriticIsWellKeyed(episodes: map<Id, Episode>, ep: Id, plan: Plan, defs: seq<TaskDef>)
    requires ValidCritic(episodes, ep, plan, defs)
    ensures WellKeyed(plan, ep, defs)
  {
    var k, m := CriticPosition(episodes, ep, plan, defs);
    var rest, kept := WithoutCritic(plan), Keep(defs, CRITIC_DEF);
    LegacyIsWellKeyed(episodes, ep, rest, kept);
    LegacyDefines(episodes, ep, rest, kept);
    KeptAndOne(plan, ep, defs, rest, kept, k, m);
    forall s, d | s in plan.steps && d in s.dependsOn ensures HasDef(defs, d) {
      CriticDepsHaveDefs(plan, ep, defs, rest, kept, k, s, d);
    }
  }

  lemma AcceptedIsWellKeyed(episodes: map<Id, Episode>, ep: Id, plan: Plan, defs: seq<TaskDef>)
    requires ValidExecution(episodes, ep, plan, defs)
    ensures WellKeyed(plan, ep, defs)
  {
    if ValidLegacy(episodes, ep, plan, defs) {
      LegacyIsWellKeyed(episodes, ep, plan, defs);
    } else {
      CriticIsWellKeyed(episodes, ep, plan, defs);
    }
  }

  // ---- Kinds of artifacts ----------------------------------------------------

  /** No list repeats an entry, and no dependency can have produced an input. */
  predicate Tidy(s: Step) {
    && Distinct(s.inputs) && Distinct(s.outputs) && Distinct(s.dependsOn)
    && (forall o <- s.outputs :: o !in GIVEN_KINDS)
    && (s.dependsOn != [] ==> forall a <- s.inputs :: a.kind in GIVEN_KINDS)
  }

  lemma LegacyIsTidy(episodes: map<Id, Episode>, ep: Id, plan: Plan, defs: seq<TaskDef>, s: Step)
    requires ValidLegacy(episodes, ep, plan, defs) && s in plan.steps
    ensures Tidy(s)
  {
    assert ValidStep(plan.steps, s);
  }

  lemma CriticStepIsTidy(steps: seq<Step>, c: Step)
    requires ValidCriticStep(steps, c)
    ensures Tidy(c)
  {
  }

  lemma CriticPlanIsTidy(episodes: map<Id, Episode>, ep: Id, plan: Plan, defs: seq<TaskDef>, s: Step)
    requires ValidCritic(episodes, ep, plan, defs) && s in plan.steps
    ensures Tidy(s)
  {
    var k, m := CriticPosition(episodes, ep, plan, defs);
    CriticStepIsTidy(plan.steps, plan.steps[k]);
    Others(plan.steps, WithoutCritic(plan).steps, k);
    if s != plan.steps[k] {
      LegacyIsTidy(episodes, ep, WithoutCritic(plan), Keep(defs, CRITIC_DEF), s);
    }
  }

  /** Own inputs and upstream artifacts never share a kind, and one result never
      repeats a kind. */
  lemma AcceptedIsTidy(episodes: map<Id, Episode>, ep: Id, x: Execution, s: Step)
    requires Accepted(episodes, ep, x) && s in x.plan.steps
    ensures Tidy(s)
  {
    OpenAccepted(episodes, ep, x);
    if ValidLegacy(episodes, ep, x.plan, x.defs) {
      LegacyIsTidy(episodes, ep, x.plan, x.defs, s);
    } else {
      CriticPlanIsTidy(episodes, ep, x.plan, x.defs, s);
    }
  }

  // ---- The Critic of an accepted plan ----------------------------------------

  lemma LegacyHasNoCritic(episodes: map<Id, Episode>, ep: Id, plan: Plan, defs: seq<TaskDef>, c: Step)
    requires ValidLegacy(episodes, ep, plan, defs) && c in plan.steps
    ensures !c.role.PreTradeCritic?
  {
    assert ValidStep(plan.steps, c);
  }

  /** A Critic step of an accepted plan follows one RESEARCH step with three
      outputs, and nothing follows it. */
  lemma CriticIsLast(episodes: map<Id, Episode>, ep: Id, x: Execution, c: Step)
    requires Accepted(episodes, ep, x) && c in x.plan.steps && c.role.PreTradeCritic?
    ensures ValidCriticStep(x.plan.steps, c)
    ensures forall s :: s in x.plan.steps ==> c.key !in s.dependsOn
  {
    OpenAccepted(episodes, ep, x);
    if ValidLegacy(episodes, ep, x.plan, x.defs) {
      LegacyHasNoCritic(episodes, ep, x.plan, x.defs, c);
    } else {
      var k, m := CriticPosition(episodes, ep, x.plan, x.defs);
      assert c == x.plan.steps[k];
      forall s | s in x.plan.steps ensures c.key !in s.dependsOn {
        NothingDependsOnCritic(episodes, ep, x.plan, x.defs, c, s);
      }
    }
  }

  lemma LegacyStepHasDef(episodes: map<Id, Episode>, ep: Id, plan: Plan, defs: seq<TaskDef>, s: Step)
    requires ValidLegacy(episodes, ep, plan, defs) && s in plan.steps
    ensures HasDef(defs, s.key) && s.outputs != []
  {
    assert ValidStep(plan.steps, s);
    var i: nat :| i < |defs| && DefinesStep(plan, ep, defs, s, i);
    assert defs[i].step.key == s.key;
  }

  lemma KeptHasDef(defs: seq<TaskDef>, kept: seq<TaskDef>, m: nat, key: StepKey)
    requires m < |defs| && kept == defs[..m] + defs[m + 1..] && HasDef(kept, key)
    ensures HasDef(defs, key)
  {
    var i :| 0 <= i < |kept| && kept[i].step.key == key;
    assert defs[if i < m then i else i + 1] == kept[i];
  }

  lemma CriticStepHasDef(episodes: map<Id, Episode>, ep: Id, plan: Plan, defs: seq<TaskDef>, s: Step)
    requires ValidCritic(episodes, ep, plan, defs) && s in plan.steps
    ensures HasDef(defs, s.key) && s.outputs != []
  {
    var k, m := CriticPosition(episodes, ep, plan, defs);
    if s == plan.steps[k] {
      assert defs[m].step.key == s.key;
    } else {
      var kept := Keep(defs, CRITIC_DEF);
      Others(plan.steps, WithoutCritic(plan).steps, k);
      LegacyStepHasDef(episodes, ep, WithoutCritic(plan), kept, s);
      KeptHasDef(defs, kept, m, s.key);
    }
  }

  /** Every step of an accepted plan declares outputs and has its definition. */
  lemma StepHasDef(episodes: map<Id, Episode>, ep: Id, x: Execution, s: Step)
    requires Accepted(episodes, ep, x) && s in x.plan.steps
    ensures HasDef(x.defs, s.key) && s.outputs != []
  {
    OpenAccepted(episodes, ep, x);
    if ValidLegacy(episodes, ep, x.plan, x.defs) {
      LegacyStepHasDef(episodes, ep, x.plan, x.defs, s);
    } else {
      CriticStepHasDef(episodes, ep, x.plan, x.defs, s);
    }
  }
}
