/** Which merged inputs repeat an artifact, and what that does to the episode. */
module WorkflowFanIn {
  import opened Common
  import opened WorkflowModel
  import opened SkipPropagation
  import opened PlanValidation
  import opened WorkflowSteps
  import opened WorkflowInvariants
  import opened WorkflowClosing
  import opened WorkflowSafety
  import opened WorkflowFencing
  import opened WorkflowProgress

  // ---- Where a duplicate comes from ----------------------------------------------

  /** The task of step key has reported the artifact. */
  ghost predicate Reports(ts: Tasks, ep: Id, key: StepKey, a: Artifact) {
    exists u :: RowAt(ts, ep, key, u) && a in ArtifactsOf(ts, u)
  }

  ghost predicate SomeReports(ts: Tasks, ep: Id, keys: seq<StepKey>, a: Artifact) {
    exists key :: key in keys && Reports(ts, ep, key, a)
  }

  /** No artifact was reported for two of the steps. */
  ghost predicate KeysApart(ts: Tasks, ep: Id, keys: seq<StepKey>) {
    forall key, other, a ::
      key in keys && other in keys && Reports(ts, ep, key, a) && Reports(ts, ep, other, a) ==> key == other
  }

  lemma ConcatDistinct<T>(p: seq<T>, q: seq<T>)
    ensures Distinct(p + q) <==> Distinct(p) && Distinct(q) && forall x :: x in p ==> x !in q
  {
    var r := p + q;
    if Distinct(r) {
      forall i, j | 0 <= i < j < |q| ensures q[i] != q[j] {
        assert r[|p| + i] == q[i] && r[|p| + j] == q[j];
      }
      forall i, j | 0 <= i < j < |p| ensures p[i] != p[j] {
        assert r[i] == p[i] && r[j] == p[j];
      }
      forall x | x in p ensures x !in q {
        var i :| 0 <= i < |p| && p[i] == x;
        assert r[i] == x;
        assert forall j :: 0 <= j < |q| ==> r[|p| + j] == q[j];
      }
    } else {
      var i, j :| 0 <= i < j < |r| && r[i] == r[j];
      assert i < |p| ==> r[i] in p;
      assert j >= |p| ==> r[j] in q;
    }
  }

  lemma RowReports(db: Db, ep: Id, key: StepKey, u: Id)
    requires Inv(db) && RowAt(db.tasks, ep, key, u)
    ensures forall a :: Reports(db.tasks, ep, key, a) <==> a in ArtifactsOf(db.tasks, u)
  {
    forall v | RowAt(db.tasks, ep, key, v) ensures v == u {
      UniqueRow(db, ep, key, u, v);
    }
  }

  lemma KeysApartStep(ts: Tasks, ep: Id, keys: seq<StepKey>)
    requires keys != [] && Distinct(keys)
    ensures KeysApart(ts, ep, keys) <==>
              KeysApart(ts, ep, keys[1..]) && forall a :: Reports(ts, ep, keys[0], a) ==>
                  !SomeReports(ts, ep, keys[1..], a)
  {
    var tail := keys[1..];
    assert forall key :: key in keys <==> key == keys[0] || key in tail;
    assert keys[0] !in tail;
  }

  lemma RowIsTidy(db: Db, id: Id)
    requires Inv(db) && id in db.tasks
    ensures Tidy(db.tasks[id].def.step)
  {
    RowIsStep(db, id);
    OpenInv(db);
    var ep := db.tasks[id].def.episode;
    assert Planned(db, ep);
    AcceptedIsTidy(db.episodes, ep, db.executions[ep], db.tasks[id].def.step);
  }

  lemma KindsTell(arts: seq<Artifact>)
    ensures Distinct(Kinds(arts)) ==> Distinct(arts)
    ensures forall a :: a in arts ==> a.kind in Kinds(arts)
  {
    forall i | 0 <= i < |arts| ensures arts[i].kind == Kinds(arts)[i] {
    }
  }

  /** A result has one artifact of each declared kind. */
  lemma ArtifactsAreOutputs(db: Db, id: Id)
    requires Inv(db) && id in db.tasks
    ensures Distinct(ArtifactsOf(db.tasks, id))
    ensures forall a :: a in ArtifactsOf(db.tasks, id) ==> a.kind in db.tasks[id].def.step.outputs
  {
    RowIsTidy(db, id);
    OpenInv(db);
    assert RowOk(db.tasks[id]);
    KindsTell(ArtifactsOf(db.tasks, id));
  }

  lemma {:induction false} UpstreamDistinct(db: Db, id: Id, keys: seq<StepKey>)
    requires Inv(db) && id in db.tasks && Distinct(keys)
    requires forall key <- keys :: key in db.tasks[id].def.step.dependsOn
    ensures var ep := db.tasks[id].def.episode;
            && (forall a :: a in Upstream(db.tasks, ep, keys) <==> SomeReports(db.tasks, ep, keys, a))
            && (Distinct(Upstream(db.tasks, ep, keys)) <==> KeysApart(db.tasks, ep, keys))
  {
    if keys != [] {
      var ep := db.tasks[id].def.episode;
      var u := DepRow(db, id, keys[0]);
      UpstreamStep(db, ep, keys, u);
      UpstreamDistinct(db, id, keys[1..]);
      RowReports(db, ep, keys[0], u);
      ArtifactsAreOutputs(db, u);
      ConcatDistinct(ArtifactsOf(db.tasks, u), Upstream(db.tasks, ep, keys[1..]));
      KeysApartStep(db.tasks, ep, keys);
      assert forall key :: key in keys <==> key == keys[0] || key in keys[1..];
    }
  }

  lemma InputsAreApart(db: Db, id: Id, a: Artifact)
    requires Inv(db) && id in db.tasks && a in db.tasks[id].def.step.inputs
    ensures !SomeReports(db.tasks, db.tasks[id].def.episode, db.tasks[id].def.step.dependsOn, a)
  {
    var ep, deps := db.tasks[id].def.episode, db.tasks[id].def.step.dependsOn;
    RowIsTidy(db, id);
    forall key, u | key in deps && RowAt(db.tasks, ep, key, u) ensures a !in ArtifactsOf(db.tasks, u) {
      RowIsTidy(db, u);
      ArtifactsAreOutputs(db, u);
    }
  }

  /** The only way to an ambiguous fan-in: two dependencies of the task reported
      the same artifact.  Own inputs never take part in it. */
  lemma FanInClashIff(db: Db, id: Id)
    requires Inv(db) && id in db.tasks
    ensures FanInClash(db.tasks, id) <==>
              !KeysApart(db.tasks, db.tasks[id].def.episode, db.tasks[id].def.step.dependsOn)
  {
    var ep, step := db.tasks[id].def.episode, db.tasks[id].def.step;
    RowIsTidy(db, id);
    UpstreamDistinct(db, id, step.dependsOn);
    forall a | a in step.inputs ensures a !in Upstream(db.tasks, ep, step.dependsOn) {
      InputsAreApart(db, id, a);
    }
    ConcatDistinct(step.inputs, Upstream(db.tasks, ep, step.dependsOn));
  }

  // ---- Only a claim makes a task run ----------------------------------------------

  lemma CompletionRunsNothing(
      db: Db, x: Id, version: int, fencing: int, doc: ResultDoc, canonicalOk: bool, n: Time, n1: Time, id: Id)
    requires id in db.tasks && !db.tasks[id].status.Running?
    ensures var d := CompleteLegacy(db, x, version, fencing, doc, canonicalOk, n, n1).0;
            id in d.tasks && !d.tasks[id].status.Running?
  {
    var d := CompleteLegacy(db, x, version, fencing, doc, canonicalOk, n, n1).0;
    if d != db {
      ReportSteps(db, x, doc, n1);
      assert SweptRow(db.tasks[x := Report(db.tasks[x], doc)][id], d.tasks[id]);
    }
  }

  lemma SweepRunsNothing(a: Db, b: Db, id: Id)
    requires SweptDb(a, b) && id in a.tasks && !a.tasks[id].status.Running?
    ensures id in b.tasks && !b.tasks[id].status.Running?
  {
    assert SweptRow(a.tasks[id], b.tasks[id]);
  }

  /** Only a claim that hands a task out makes it run. */
  lemma OnlyClaimsRun(db: Db, c: Command, id: Id)
    requires Inv(db) && id in db.tasks && !db.tasks[id].status.Running? && !c.DoClaim?
    ensures id in Apply(db, c).tasks && !Apply(db, c).tasks[id].status.Running?
  {
    match c
    case DoStartCycle(_, _, _, _, _) =>
    case DoStartEpisode(_, _, _, _, _) =>
    case DoPersist(ep, expected, x, ok, n) => PersistLeavesRows(db, ep, expected, x, ok, n, id);
    case DoComplete(x, version, fencing, doc, ok, n, n1) =>
      CompletionRunsNothing(db, x, version, fencing, doc, ok, n, n1, id);
    case DoCritic(x, version, fencing, row, h, ok, n, n1) =>
      CompletionRunsNothing(db, x, version, fencing, CriticResult(x), true, n, n1, id);
    case DoReserve(_, _, _, _) =>
    case DoCancel(ep, reason, n) =>
      CancelEvolves(db, ep, reason, n);
      SweepRunsNothing(db, Apply(db, c), id);
    case DoRecover(n, first, second) =>
      RecoverEvolves(db, n, first, second);
      SweepRunsNothing(db, Apply(db, c), id);
  }

  lemma DecideRuns(s: Db, ep: Id, limit: int, worker: string, n: Time, until: Time, id: Id)
    requires id in s.tasks && !s.tasks[id].status.Running?
    requires Decide(s, ep, limit, worker, n, until).0.tasks[id].status.Running?
    ensures Decide(s, ep, limit, worker, n, until).1.Handed? && Decide(s, ep, limit, worker, n, until).1.task == id
  {
  }

  lemma ClaimRuns(db: Db, c: Command, id: Id) returns (h: Claimed)
    requires Inv(db) && c.DoClaim? && id in db.tasks && !db.tasks[id].status.Running?
    requires id in Apply(db, c).tasks && Apply(db, c).tasks[id].status.Running?
    ensures Hands(db, c, h) && h.task == id
  {
    var s := Swept(db, c.ep, c.n, c.n1, c.n2);
    SweptInv(db, c.ep, c.n, c.n1, c.n2);
    SweepRunsNothing(db, s, id);
    var limit := db.executions[c.ep].plan.budget.parallel;
    h := Decide(s, c.ep, limit, c.worker, c.n, LeaseEnd(c.n, c.seconds)).1;
    DecideRuns(s, c.ep, limit, c.worker, c.n, LeaseEnd(c.n, c.seconds), id);
  }

  // ---- A clash is for ever ---------------------------------------------------------

  /** The inputs of a task that never ran, once its dependencies are COMPLETED. */
  ghost predicate Clashes(db: Db, id: Id) {
    id in db.tasks && !Ran(db.tasks[id]) && DepsCompleted(db.tasks, id) && FanInClash(db.tasks, id)
  }

  lemma SettledDeps(a: Db, b: Db, id: Id)
    requires Inv(a) && Inv(b) && EvolvedDb(a, b) && id in a.tasks && id in b.tasks && DepsCompleted(a.tasks, id)
    ensures DepsCompleted(b.tasks, id)
  {
    RowHistory(a, b, id);
    forall v | v in b.tasks && DependsOn(b.tasks, id, v) ensures b.tasks[v].status.Completed? {
      var u := DepRow(a, id, b.tasks[v].def.step.key);
      RowHistory(a, b, u);
      UniqueRow(b, b.tasks[id].def.episode, b.tasks[v].def.step.key, u, v);
    }
  }

  lemma {:induction false} ClashStep(db: Db, c: Command, id: Id)
    requires Inv(db) && Clashes(db, id)
    ensures Clashes(Apply(db, c), id)
  {
    var d := Apply(db, c);
    ApplyKeeps(db, c);
    ApplyEvolves(db, c);
    RowHistory(db, d, id);
    UpstreamSame(db, d, id, db.tasks[id].def.step.dependsOn);
    SettledDeps(db, d, id);
    if d.tasks[id].status.Reported() {
      ReportedHasRun(db, c, id);
    } else if d.tasks[id].status.Running? {
      if c.DoClaim? {
        var h := ClaimRuns(db, c, id);
        HandedInputsAre(db, c, h);
        HandedInputs(db, c, h);
      } else {
        OnlyClaimsRun(db, c, id);
      }
    }
  }

  /** A task whose merged inputs contain an artifact twice never runs, whatever
      happens afterwards: nothing takes the duplicate away again. */
  lemma {:induction false} ClashIsForever(db: Db, cs: seq<Command>, id: Id)
    requires Inv(db) && Clashes(db, id)
    ensures Clashes(Run(db, cs), id)
  {
    if cs != [] {
      ClashIsForever(db, cs[..|cs| - 1], id);
      RunKeeps(db, cs[..|cs| - 1]);
      ClashStep(Run(db, cs[..|cs| - 1]), cs[|cs| - 1], id);
    }
  }

  /** While such a task is still PENDING after the sweep, every claim on its
      episode raises and is undone as a whole. */
  lemma ClashBlocksClaims(db: Db, id: Id, worker: string, seconds: int, n: Time, n1: Time, n2: Time)
    requires Inv(db) && Clashes(db, id) && db.tasks[id].def.episode in db.executions
    requires var s := Swept(db, db.tasks[id].def.episode, n, n1, n2);
             Open(s, db.tasks[id].def.episode, n) && id in s.tasks && s.tasks[id].status.Pending?
    ensures Claim(db, db.tasks[id].def.episode, worker, seconds, n, n1, n2) == (db, Raised)
  {
    var ep := db.tasks[id].def.episode;
    var s := Swept(db, ep, n, n1, n2);
    SweptInv(db, ep, n, n1, n2);
    SweepEvolves(db, s);
    RowHistory(db, s, id);
    UpstreamSame(db, s, id, db.tasks[id].def.step.dependsOn);
    SettledDeps(db, s, id);
    assert FanInClash(s.tasks, id) && id in Ready(s, ep, n);
  }
}
