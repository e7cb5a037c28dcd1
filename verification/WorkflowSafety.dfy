/** The invariant holds in every reachable state. */
module WorkflowSafety {
  import opened Common
  import opened WorkflowModel
  import opened SkipPropagation
  import opened PlanValidation
  import opened WorkflowSteps
  import opened WorkflowInvariants
  import opened WorkflowClosing

  lemma SweepKeepsInv(a: Db, b: Db)
    requires Inv(a) && SweptDb(a, b) && Closure(b, {}, {})
    ensures Inv(b)
  {
    OpenInv(a);
    SweepKeepsTaskInv(a, b);
    SweepKeepsCritiques(a, b, {});
    SealInv(b);
  }

  lemma StartCycleKeeps(db: Db, id: Id, trigger: Trigger, triggerOk: bool, expiresAt: Time, n: Time)
    requires Inv(db)
    ensures Inv(StartCycle(db, id, trigger, triggerOk, expiresAt, n).0)
  {
    OpenInv(db);
    var d := StartCycle(db, id, trigger, triggerOk, expiresAt, n).0;
    if d != db {
      WiredFrame(db, d);
      SameTasksSameEpisodes(db, d, {});
      forall cy ensures CycleAllows(d, cy) && CycleBusy(d, cy) {
        assert CycleAllows(db, cy) && CycleBusy(db, cy);
        if cy != id {
          CycleFrame(db, d, cy);
        }
      }
    }
    SealInv(d);
  }

  lemma NewEpisodeHasNoRows(db: Db, id: Id)
    requires Wired(db) && id !in db.episodes
    ensures id !in db.executions && TasksOf(db.tasks, id) == {}
  {
    assert id in db.executions ==> Planned(db, id);
    forall t | t in db.tasks ensures db.tasks[t].def.episode != id {
      assert TaskWired(db, t);
      assert Planned(db, db.tasks[t].def.episode);
    }
  }

  lemma NewEpisodeCycles(db: Db, d: Db, id: Id)
    requires CyclesAllow(db) && CyclesBusy(db, {}) && id !in db.episodes && LiveEp(d, id) && d.cycles == db.cycles
    requires d.episodes == db.episodes[id := d.episodes[id]] && LiveCycle(db, d.episodes[id].cycle)
    ensures CyclesAllow(d) && CyclesBusy(d, {})
  {
    forall c ensures CycleAllows(d, c) && CycleBusy(d, c) {
      assert CycleAllows(db, c) && CycleBusy(db, c);
      if c != d.episodes[id].cycle {
        CycleFrame(db, d, c);
      } else {
        assert LiveEp(d, id);
      }
    }
  }

  lemma NewEpisodeEpisodes(db: Db, d: Db, id: Id)
    requires EpisodesAllow(db) && EpisodesBusy(db, {}) && id !in db.episodes && LiveEp(d, id)
    requires d.episodes == db.episodes[id := d.episodes[id]] && d.tasks == db.tasks && d.executions == db.executions
    requires id !in db.executions && TasksOf(db.tasks, id) == {}
    ensures EpisodesAllow(d) && EpisodesBusy(d, {})
  {
    forall ep ensures EpisodeAllows(d, ep) && EpisodeBusy(d, ep) {
      assert EpisodeAllows(db, ep) && EpisodeBusy(db, ep);
      if ep != id {
        EpisodeFrame(db, d, ep);
      } else {
        assert forall t :: t in db.tasks ==> t !in TasksOf(db.tasks, id);
      }
    }
  }

  lemma StartEpisodeKeeps(db: Db, id: Id, cy: Id, candidate: string, expiresAt: Time, n: Time)
    requires Inv(db)
    ensures Inv(StartEpisode(db, id, cy, candidate, expiresAt, n).0)
  {
    OpenInv(db);
    var d := StartEpisode(db, id, cy, candidate, expiresAt, n).0;
    if d != db {
      NewEpisodeHasNoRows(db, id);
      WiredFrame(db, d);
      NewEpisodeCycles(db, d, id);
      NewEpisodeEpisodes(db, d, id);
    }
    SealInv(d);
  }

  lemma {:induction false} FreshTasksAre(defs: seq<TaskDef>)
    requires forall i, j :: 0 <= i < j < |defs| ==> defs[i].taskId != defs[j].taskId
    ensures forall d <- defs :: d.taskId in FreshTasks(defs) && FreshTasks(defs)[d.taskId] == FreshTask(d)
    ensures forall id :: id in FreshTasks(defs) ==>
              FreshTasks(defs)[id].def in defs && FreshTasks(defs)[id] == FreshTask(FreshTasks(defs)[id].def) &&
              FreshTasks(defs)[id].def.taskId == id
  {
    if defs != [] {
      FreshTasksAre(defs[1..]);
      assert forall d <- defs :: d == defs[0] || d in defs[1..];
    }
  }

  lemma PlannedStays(db: Db, ep: Id, e: Id, x: Execution, d: Db)
    requires Planned(db, e) && e != ep
    requires d == db.(executions := db.executions[ep := x], tasks := d.tasks)
    requires forall id :: id in db.tasks ==> id in d.tasks && d.tasks[id] == db.tasks[id]
    ensures Planned(d, e)
  {
    forall def | def in d.executions[e].defs ensures def.taskId in d.tasks && d.tasks[def.taskId].def == def {
      assert def.taskId in db.tasks;
    }
  }

  lemma PersistAdds(db: Db, ep: Id, x: Execution, ts: Tasks)
    requires forall id :: id in db.tasks ==> TaskWired(db, id)
    requires ep !in db.executions && NewTaskIds(db.tasks, x.defs) && WellKeyed(x.plan, ep, x.defs)
    requires ts == db.tasks + FreshTasks(x.defs)
    ensures AddedRows(db.tasks, ts, ep)
    ensures forall id :: id in ts && id !in db.tasks ==> ts[id].def in x.defs && ts[id].def.taskId == id
    ensures forall def :: def in x.defs ==> def.taskId in ts && ts[def.taskId].def == def
  {
    FreshTasksAre(x.defs);
    forall id | id in FreshTasks(x.defs) ensures id !in db.tasks && FreshTasks(x.defs)[id].def.episode == ep {
      assert FreshTasks(x.defs)[id].def in x.defs;
    }
    forall t | t in db.tasks ensures db.tasks[t].def.episode != ep {
      assert TaskWired(db, t);
    }
  }

  lemma PersistWired(db: Db, ep: Id, x: Execution, d: Db)
    requires Wired(db) && Accepted(db.episodes, ep, x) && ep !in db.executions && NewTaskIds(db.tasks, x.defs)
    requires WellKeyed(x.plan, ep, x.defs) && ep in db.episodes
    requires d == db.(executions := db.executions[ep := x], tasks := db.tasks + FreshTasks(x.defs))
    ensures Wired(d) && AddedRows(db.tasks, d.tasks, ep)
  {
    PersistAdds(db, ep, x, d.tasks);
    forall e | e in d.executions ensures Planned(d, e) {
      if e != ep {
        assert Planned(db, e);
        PlannedStays(db, ep, e, x, d);
      }
    }
    forall id | id in d.tasks ensures TaskWired(d, id) {
      if id in db.tasks {
        assert TaskWired(db, id);
      }
    }
  }

  /** Adding the PENDING rows of an episode that had none. */
  ghost predicate AddedRows(a: Tasks, b: Tasks, ep: Id) {
    && TasksOf(a, ep) == {} && a.Keys <= b.Keys
    && (forall id :: id in a ==> b[id] == a[id])
    && (forall id :: id in b && id !in a ==> b[id].def.episode == ep && b[id] == FreshTask(b[id].def))
  }

  lemma AddedRowsKeep(a: Tasks, b: Tasks, ep: Id)
    requires AddedRows(a, b, ep) && RowsOk(a) && DepsFirst(a)
    ensures RowsOk(b) && DepsFirst(b)
    ensures forall e :: RunningOf(b, e) == RunningOf(a, e)
  {
    forall id | id in b ensures RowOk(b[id]) {
      if id in a {
        assert RowOk(a[id]);
      }
    }
    forall d, u | DependsOn(b, d, u) && (b[d].status.Running? || b[d].status.Reported())
      ensures b[u].status.Completed?
    {
      assert d in a && d !in TasksOf(a, ep);
      assert u in a && DependsOn(a, d, u);
    }
  }

  lemma PersistWithinLimit(db: Db, ep: Id, x: Execution, d: Db)
    requires WithinLimit(db) && AddedRows(db.tasks, d.tasks, ep) && x.plan.budget.parallel >= 0
    requires d.executions == db.executions[ep := x] && forall e :: RunningOf(d.tasks, e) == RunningOf(db.tasks, e)
    ensures WithinLimit(d)
  {
    assert forall id :: id in RunningOf(db.tasks, ep) ==> id in TasksOf(db.tasks, ep);
    assert RunningOf(d.tasks, ep) == {};
  }

  lemma PersistKeepsCritiques(db: Db, d: Db, ep: Id)
    requires CritiquesMatch(db, {}) && AddedRows(db.tasks, d.tasks, ep) && d.critiques == db.critiques
    ensures CritiquesMatch(d, {})
  {
  }

  lemma PersistedKeeps(db: Db, ep: Id, x: Execution, d: Db)
    requires Inv(db) && Accepted(db.episodes, ep, x) && ep !in db.executions && NewTaskIds(db.tasks, x.defs)
    requires LiveEp(db, ep)
    requires d == db.(executions := db.executions[ep := x], tasks := db.tasks + FreshTasks(x.defs))
    ensures Inv(d)
  {
    OpenInv(db);
    OpenAccepted(db.episodes, ep, x);
    PersistWired(db, ep, x, d);
    AddedRowsKeep(db.tasks, d.tasks, ep);
    SameEpisodesSameCycles(db, d, {});
    PersistWithinLimit(db, ep, x, d);
    PersistKeepsCritiques(db, d, ep);
    PersistCloses(db, ep, x, d);
    SealInv(d);
  }

  lemma PersistKeeps(db: Db, ep: Id, expected: nat, x: Execution, canonicalOk: bool, n: Time)
    requires Inv(db)
    ensures Inv(Persist(db, ep, expected, x, canonicalOk, n).0)
  {
    var d := Persist(db, ep, expected, x, canonicalOk, n).0;
    if d != db {
      PersistedKeeps(db, ep, x, d);
    }
  }

  lemma PersistCloses(db: Db, ep: Id, x: Execution, d: Db)
    requires EpisodesAllow(db) && EpisodesBusy(db, {}) && AddedRows(db.tasks, d.tasks, ep) && LiveEp(db, ep)
    requires d == db.(executions := db.executions[ep := x], tasks := db.tasks + FreshTasks(x.defs)) && x.defs != []
    requires NewTaskIds(db.tasks, x.defs)
    ensures EpisodesAllow(d) && EpisodesBusy(d, {})
  {
    FreshTasksAre(x.defs);
    forall e ensures EpisodeAllows(d, e) && EpisodeBusy(d, e) {
      assert EpisodeAllows(db, e) && EpisodeBusy(db, e);
      if e == ep {
        var first := x.defs[0];
        assert first in x.defs;
        assert first.taskId in UnfinishedOf(d.tasks, ep);
        assert forall id :: id in d.tasks && d.tasks[id].def.episode == e ==>
               id !in db.tasks || id in TasksOf(db.tasks, ep);
      } else {
        assert forall id :: id in d.tasks && d.tasks[id].def.episode == e ==>
               id in db.tasks && d.tasks[id] == db.tasks[id];
        assert UnfinishedOf(d.tasks, e) == UnfinishedOf(db.tasks, e);
      }
    }
  }

  // ---- Claim -----------------------------------------------------------------

  ghost predicate LeasesRun(ts: Tasks, ep: Id, n: Time) {
    forall id :: id in ts && ts[id].def.episode == ep && ts[id].status.Running? ==>
        ts[id].lease.Some? && ts[id].lease.value > n
  }

  lemma SweepKeepsLeases(a: Tasks, b: Tasks, ep: Id, n: Time)
    requires SweptTasks(a, b) && LeasesRun(a, ep, n)
    ensures LeasesRun(b, ep, n)
  {
    forall id | id in b && b[id].def.episode == ep && b[id].status.Running?
      ensures b[id].lease.Some? && b[id].lease.value > n
    {
      assert SweptRow(a[id], b[id]);
    }
  }

  lemma RequeueLeavesLive(ts: Tasks, ep: Id, n: Time)
    requires RowsOk(ts)
    ensures LeasesRun(Requeue(ts, Expired(ts, ep, n)), ep, n)
  {
    assert forall id :: id in ts ==> RowOk(ts[id]);
  }

  /** After the sweep every RUNNING row of the episode holds a live lease. */
  lemma {:induction false} SweptLeasesRun(db: Db, ep: Id, n: Time, n1: Time, n2: Time)
    requires Inv(db)
    ensures RunningOf(Swept(db, ep, n, n1, n2).tasks, ep) == Leased(Swept(db, ep, n, n1, n2).tasks, ep, n)
  {
    OpenInv(db);
    var d1 := CloseEpisode(db, ep, n1);
    CloseEpisodeIsSweep(db, ep, n1);
    SweepKeepsRows(db.tasks, d1.tasks);
    RequeueLeavesLive(d1.tasks, ep, n);
    SweptAfterRequeue(d1.tasks, ep, n);
    var ts := SweptTable(d1.tasks, ep, n);
    SweepKeepsLeases(Requeue(d1.tasks, Expired(d1.tasks, ep, n)), ts, ep, n);
    CloseEpisodeIsSweep(d1.(tasks := ts), ep, n2);
    SweepKeepsLeases(ts, Swept(db, ep, n, n1, n2).tasks, ep, n);
  }

  lemma SweptAfterRequeue(ts: Tasks, ep: Id, n: Time)
    ensures SweptTasks(Requeue(ts, Expired(ts, ep, n)), SweptTable(ts, ep, n))
  {
    var t2 := Requeue(ts, Expired(ts, ep, n));
    var t3 := Finish(t2, Late(t2, {ep}, n), TimedOut);
    FinishIsSweep(t2, Late(t2, {ep}, n), TimedOut);
    SkipIsSweep(t3, {ep});
    SweptTasksTransitive(t2, t3, SweptTable(ts, ep, n));
  }

  /** One row changes; nothing else does. */
  lemma OneRowFrame(db: Db, id: Id, row: Task)
    requires Wired(db) && id in db.tasks && row.def == db.tasks[id].def
    ensures Wired(db.(tasks := db.tasks[id := row]))
    ensures CyclesAllow(db) ==> CyclesAllow(db.(tasks := db.tasks[id := row]))
    ensures CyclesBusy(db, {}) ==> CyclesBusy(db.(tasks := db.tasks[id := row]), {})
  {
    var d := db.(tasks := db.tasks[id := row]);
    WiredFrame(db, d);
    SameEpisodesSameCycles(db, d, {});
  }

  lemma LeaseKeepsRows(ts: Tasks, id: Id, worker: string, until: Time)
    requires RowsOk(ts) && DepsFirst(ts) && id in ts && ts[id].status.Pending? && DepsCompleted(ts, id)
    ensures RowsOk(Lease(ts, id, worker, until)) && DepsFirst(Lease(ts, id, worker, until))
  {
    var t := Lease(ts, id, worker, until);
    assert RowOk(ts[id]);
    forall d, u | DependsOn(t, d, u) && (t[d].status.Running? || t[d].status.Reported())
      ensures t[u].status.Completed?
    {
      assert DependsOn(ts, d, u);
    }
  }

  lemma LeaseKeepsLimit(db: Db, id: Id, worker: string, until: Time)
    requires WithinLimit(db) && id in db.tasks && db.tasks[id].def.episode in db.executions
    requires |RunningOf(db.tasks, db.tasks[id].def.episode)| <
               db.executions[db.tasks[id].def.episode].plan.budget.parallel
    ensures WithinLimit(db.(tasks := Lease(db.tasks, id, worker, until)))
  {
    var ts := Lease(db.tasks, id, worker, until);
    forall e | e in db.executions ensures |RunningOf(ts, e)| <= db.executions[e].plan.budget.parallel {
      if e == db.tasks[id].def.episode {
        assert RunningOf(ts, e) == RunningOf(db.tasks, e) + {id};
      } else {
        assert RunningOf(ts, e) == RunningOf(db.tasks, e);
      }
    }
  }

  lemma LeaseKeepsEpisodes(db: Db, id: Id, worker: string, until: Time)
    requires EpisodesAllow(db) && EpisodesBusy(db, {}) && id in db.tasks && db.tasks[id].status.Pending?
    ensures EpisodesAllow(db.(tasks := Lease(db.tasks, id, worker, until)))
    ensures EpisodesBusy(db.(tasks := Lease(db.tasks, id, worker, until)), {})
  {
    var d := db.(tasks := Lease(db.tasks, id, worker, until));
    forall e ensures EpisodeAllows(d, e) && EpisodeBusy(d, e) {
      assert EpisodeAllows(db, e) && EpisodeBusy(db, e);
      assert UnfinishedOf(d.tasks, e) == UnfinishedOf(db.tasks, e);
    }
  }

  lemma OneRowKeepsCritiques(db: Db, id: Id, row: Task, except: set<Id>)
    requires CritiquesMatch(db, {}) && id in db.tasks && row.def == db.tasks[id].def && !db.tasks[id].status.Deferred?
    requires IsCritic(db, id) && row.status.Deferred? ==> id in except
    ensures CritiquesMatch(db.(tasks := db.tasks[id := row]), except)
  {
  }

  lemma LeaseKeeps(db: Db, id: Id, worker: string, until: Time, n: Time)
    requires Inv(db) && id in db.tasks && db.tasks[id].status.Pending? && DepsCompleted(db.tasks, id)
    requires db.tasks[id].def.episode in db.executions
    requires |RunningOf(db.tasks, db.tasks[id].def.episode)| <
               db.executions[db.tasks[id].def.episode].plan.budget.parallel
    ensures Inv(db.(tasks := Lease(db.tasks, id, worker, until)))
  {
    OpenInv(db);
    var row := Lease(db.tasks, id, worker, until)[id];
    OneRowFrame(db, id, row);
    OneRowKeepsCritiques(db, id, row, {});
    LeaseKeepsRows(db.tasks, id, worker, until);
    LeaseKeepsLimit(db, id, worker, until);
    LeaseKeepsEpisodes(db, id, worker, until);
    SealInv(db.(tasks := Lease(db.tasks, id, worker, until)));
  }

  lemma DecideKeeps(s: Db, ep: Id, worker: string, n: Time, until: Time)
    requires Inv(s) && ep in s.executions && RunningOf(s.tasks, ep) == Leased(s.tasks, ep, n)
    ensures Inv(Decide(s, ep, s.executions[ep].plan.budget.parallel, worker, n, until).0)
  {
    var r := Decide(s, ep, s.executions[ep].plan.budget.parallel, worker, n, until);
    if r.1.Handed? {
      LeaseKeeps(s, r.1.task, worker, until, n);
    }
  }

  lemma SweptDecides(db: Db, ep: Id, worker: string, n: Time, n1: Time, n2: Time, until: Time)
    requires Inv(db) && ep in db.executions
    ensures Inv(Decide(Swept(db, ep, n, n1, n2), ep, db.executions[ep].plan.budget.parallel, worker, n, until).0)
  {
    SweptInv(db, ep, n, n1, n2);
    SweptLeasesRun(db, ep, n, n1, n2);
    DecideKeeps(Swept(db, ep, n, n1, n2), ep, worker, n, until);
  }

  lemma ClaimKeeps(db: Db, ep: Id, worker: string, seconds: int, n: Time, n1: Time, n2: Time)
    requires Inv(db)
    ensures Inv(Claim(db, ep, worker, seconds, n, n1, n2).0)
  {
    if Materialized(db, ep) {
      SweptDecides(db, ep, worker, n, n1, n2, LeaseEnd(n, seconds));
    }
  }

  lemma SweptInv(db: Db, ep: Id, n: Time, n1: Time, n2: Time)
    requires Inv(db) && ep in db.executions
    ensures Inv(Swept(db, ep, n, n1, n2)) && SweptDb(db, Swept(db, ep, n, n1, n2))
  {
    OpenInv(db);
    assert Planned(db, ep);
    SweptKeeps(db, ep, n, n1, n2);
    SweepKeepsInv(db, Swept(db, ep, n, n1, n2));
  }

  // ---- Completion ------------------------------------------------------------

  lemma ReportKeepsRows(ts: Tasks, id: Id, doc: ResultDoc)
    requires RowsOk(ts) && DepsFirst(ts) && id in ts && ts[id].status.Running? && ValidDoc(ts[id].def, doc.result)
    requires ts[id].def.step.role.PreTradeCritic? ==> doc.result.status.Deferred?
    ensures RowsOk(ts[id := Report(ts[id], doc)]) && DepsFirst(ts[id := Report(ts[id], doc)])
  {
    var t := ts[id := Report(ts[id], doc)];
    assert RowOk(ts[id]);
    forall a, u | DependsOn(t, a, u) && (t[a].status.Running? || t[a].status.Reported())
      ensures t[u].status.Completed?
    {
      assert DependsOn(ts, a, u);
    }
  }

  lemma ReportKeepsLimit(db: Db, id: Id, doc: ResultDoc)
    requires WithinLimit(db) && id in db.tasks && doc.result.status.Reported()
    ensures WithinLimit(db.(tasks := db.tasks[id := Report(db.tasks[id], doc)]))
  {
    var ts := db.tasks[id := Report(db.tasks[id], doc)];
    forall e | e in db.executions ensures |RunningOf(ts, e)| <= db.executions[e].plan.budget.parallel {
      SubsetSize(RunningOf(ts, e), RunningOf(db.tasks, e));
    }
  }

  lemma ReportKeepsTasks(db: Db, id: Id, doc: ResultDoc)
    requires TaskInv(db) && id in db.tasks && db.tasks[id].status.Running?
    requires ValidDoc(db.tasks[id].def, doc.result)
    requires IsCritic(db, id) ==> doc.result.status.Deferred?
    ensures TaskInv(db.(tasks := db.tasks[id := Report(db.tasks[id], doc)]))
  {
    OneRowFrame(db, id, Report(db.tasks[id], doc));
    ReportKeepsRows(db.tasks, id, doc);
    ReportKeepsLimit(db, id, doc);
  }

  /** A reported result keeps the task-level invariant. */
  lemma ReportKeeps(db: Db, id: Id, doc: ResultDoc, except: set<Id>)
    requires TaskInv(db) && CritiquesMatch(db, {}) && id in db.tasks && db.tasks[id].status.Running?
    requires ValidDoc(db.tasks[id].def, doc.result)
    requires IsCritic(db, id) ==> doc.result.status.Deferred? && id in except
    ensures TaskInv(db.(tasks := db.tasks[id := Report(db.tasks[id], doc)]))
    ensures CritiquesMatch(db.(tasks := db.tasks[id := Report(db.tasks[id], doc)]), except)
  {
    ReportKeepsTasks(db, id, doc);
    OneRowKeepsCritiques(db, id, Report(db.tasks[id], doc), except);
  }

  lemma ReportAllows(db: Db, d: Db, id: Id, e: Id)
    requires EpisodeAllows(db, e) && id in db.tasks && db.tasks[id].status.Running?
    requires LiveEp(db, db.tasks[id].def.episode)
    requires id in d.tasks && d == db.(tasks := db.tasks[id := d.tasks[id]]) && d.tasks[id].def == db.tasks[id].def
    ensures EpisodeAllows(d, e)
  {
  }

  lemma ReportLeavesBusy(db: Db, d: Db, id: Id, e: Id)
    requires EpisodeBusy(db, e) && id in db.tasks && e != db.tasks[id].def.episode
    requires id in d.tasks && d == db.(tasks := db.tasks[id := d.tasks[id]]) && d.tasks[id].def == db.tasks[id].def
    ensures EpisodeBusy(d, e)
  {
    assert UnfinishedOf(d.tasks, e) == UnfinishedOf(db.tasks, e);
  }

  lemma ReportCloses(db: Db, id: Id, doc: ResultDoc)
    requires Closure(db, {}, {}) && Wired(db) && id in db.tasks && db.tasks[id].status.Running?
    requires doc.result.status.Reported()
    requires LiveEp(db, db.tasks[id].def.episode)
    ensures Closure(db.(tasks := db.tasks[id := Report(db.tasks[id], doc)]), {}, {db.tasks[id].def.episode})
  {
    var ep := db.tasks[id].def.episode;
    var d := db.(tasks := db.tasks[id := Report(db.tasks[id], doc)]);
    OneRowFrame(db, id, d.tasks[id]);
    forall e ensures EpisodeAllows(d, e) && (e != ep ==> EpisodeBusy(d, e)) {
      assert EpisodeAllows(db, e) && EpisodeBusy(db, e);
      ReportAllows(db, d, id, e);
      if e != ep {
        ReportLeavesBusy(db, d, id, e);
      }
    }
  }

  /** Skipping and closing after a report. */
  lemma AfterReport(db: Db, ep: Id, n1: Time, except: set<Id>)
    requires TaskInv(db) && CritiquesMatch(db, except) && Closure(db, {}, {ep}) && ep in db.executions
    requires ep in db.episodes
    ensures var d := CloseEpisode(db.(tasks := SkipBlocked(db.tasks, {ep})), ep, n1);
            SweptDb(db, d) && TaskInv(d) && CritiquesMatch(d, except) && Closure(d, {}, {})
  {
    var d := CloseEpisode(db.(tasks := SkipBlocked(db.tasks, {ep})), ep, n1);
    AfterReportCloses(db, ep, n1);
    SweepKeepsTaskInv(db, d);
    SweepKeepsCritiques(db, d, except);
  }

  lemma AfterReportCloses(db: Db, ep: Id, n1: Time)
    requires Closure(db, {}, {ep}) && ep in db.executions && ep in db.episodes
    ensures var d := CloseEpisode(db.(tasks := SkipBlocked(db.tasks, {ep})), ep, n1);
            SweptDb(db, d) && Closure(d, {}, {})
  {
    var ts := SkipBlocked(db.tasks, {ep});
    var d1 := db.(tasks := ts);
    SkipIsSweep(db.tasks, {ep});
    BlockedStaysInScope(db.tasks, {ep});
    SkippingCloses(db, ts, ep);
    CloseEpisodeIsSweep(d1, ep, n1);
    CloseEpisodeCloses(d1, ep, n1, {ep});
    assert {ep} - {ep} == {};
    SweptDbReflexive(db);
    SweptDbTransitive(db, d1, CloseEpisode(d1, ep, n1));
  }

  lemma SkippingCloses(db: Db, ts: Tasks, ep: Id)
    requires Closure(db, {}, {ep}) && SweptTasks(db.tasks, ts)
    requires forall id :: id in ts && ts[id].def.episode != ep ==> ts[id] == db.tasks[id]
    ensures Closure(db.(tasks := ts), {}, {ep})
  {
    var d := db.(tasks := ts);
    SameEpisodesSameCycles(db, d, {});
    assert forall id :: id in ts ==> SweptRow(db.tasks[id], ts[id]);
    forall e ensures EpisodeAllows(d, e) && (e != ep ==> EpisodeBusy(d, e)) {
      assert EpisodeAllows(db, e);
      if e != ep {
        assert EpisodeBusy(db, e);
        EpisodeFrame(db, d, e);
      }
    }
  }

  lemma CompleteLegacyKeeps(
      db: Db, id: Id, version: int, fencing: int, doc: ResultDoc, canonicalOk: bool, n: Time, n1: Time, except: set<Id>)
    requires Inv(db) && (IsCritic(db, id) ==> doc.result.status.Deferred? && id in except)
    ensures var r := CompleteLegacy(db, id, version, fencing, doc, canonicalOk, n, n1);
            TaskInv(r.0) && CritiquesMatch(r.0, except) && Closure(r.0, {}, {})
  {
    OpenInv(db);
    if id in db.tasks && canonicalOk && ValidDoc(db.tasks[id].def, doc.result) {
      var t := db.tasks[id];
      if !t.status.Reported() && HoldsLease(db, t, version, fencing, n) {
        var ep := t.def.episode;
        assert TaskWired(db, id) && Planned(db, ep);
        ReportKeeps(db, id, doc, except);
        ReportCloses(db, id, doc);
        AfterReport(db.(tasks := db.tasks[id := Report(t, doc)]), ep, n1, except);
      }
    }
  }

  lemma CriticKeeps(
      db: Db, id: Id, version: int, fencing: int, row: CritiqueRow, hypothesis: Id, check: PayloadCheck, n: Time,
      n1: Time)
    requires Inv(db)
    ensures Inv(CompleteCritic(db, id, version, fencing, row, hypothesis, check, n, n1).0)
  {
    OpenInv(db);
    if CompleteCritic(db, id, version, fencing, row, hypothesis, check, n, n1).1 {
      var doc := CriticResult(id);
      var r := CompleteLegacy(db, id, version, fencing, doc, true, n, n1);
      CompleteLegacyKeeps(db, id, version, fencing, doc, true, n, n1, {id});
      AcceptedIsReported(db, id, version, fencing, doc, true, n, n1);
      CritiqueStored(r.0, id, row);
    }
  }

  lemma CritiqueKeepsTasks(db: Db, d: Db)
    requires TaskInv(db) && d == db.(critiques := d.critiques)
    ensures TaskInv(d)
  {
    WiredFrame(db, d);
  }

  lemma CritiqueKeepsClosure(db: Db, d: Db)
    requires Closure(db, {}, {}) && d == db.(critiques := d.critiques)
    ensures Closure(d, {}, {})
  {
    SameEpisodesSameCycles(db, d, {});
    SameTasksSameEpisodes(db, d, {});
  }

  lemma CritiqueMatches(db: Db, id: Id, row: CritiqueRow)
    requires CritiquesMatch(db, {id}) && IsCritic(db, id) && db.tasks[id].status.Deferred?
    ensures CritiquesMatch(db.(critiques := db.critiques[id := row]), {})
  {
  }

  lemma {:induction false} CritiqueStored(db: Db, id: Id, row: CritiqueRow)
    requires TaskInv(db) && CritiquesMatch(db, {id}) && Closure(db, {}, {}) && IsCritic(db, id)
    requires db.tasks[id].status.Deferred?
    ensures Inv(db.(critiques := db.critiques[id := row]))
  {
    var d := db.(critiques := db.critiques[id := row]);
    CritiqueKeepsTasks(db, d);
    CritiqueKeepsClosure(db, d);
    CritiqueMatches(db, id, row);
    SealInv(d);
  }

  lemma ReportedRowStays(db: Db, id: Id, ep: Id, n1: Time)
    requires id in db.tasks && !db.tasks[id].status.Unfinished()
    ensures var d := CloseEpisode(db.(tasks := SkipBlocked(db.tasks, {ep})), ep, n1);
            id in d.tasks && d.tasks[id] == db.tasks[id]
  {
    var d1 := db.(tasks := SkipBlocked(db.tasks, {ep}));
    SkipIsSweep(db.tasks, {ep});
    CloseEpisodeIsSweep(d1, ep, n1);
    assert SweptRow(db.tasks[id], d1.tasks[id]) && SweptRow(d1.tasks[id], CloseEpisode(d1, ep, n1).tasks[id]);
  }

  /** An accepted completion leaves the task with exactly the submitted result. */
  lemma AcceptedIsReported(
      db: Db, id: Id, version: int, fencing: int, doc: ResultDoc, canonicalOk: bool, n: Time, n1: Time)
    requires RowsOk(db.tasks)
    requires CompleteLegacy(db, id, version, fencing, doc, canonicalOk, n, n1).1
    ensures var d := CompleteLegacy(db, id, version, fencing, doc, canonicalOk, n, n1).0;
            id in d.tasks &&
            d.tasks[id] ==
                db.tasks[id].(status := doc.result.status, doc := Some(doc), version := d.tasks[id].version,
                    lease := None) &&
            d.tasks[id].version == version + 1 && d.tasks[id].fencing == fencing
  {
    var t := db.tasks[id];
    assert RowOk(t);
    if !t.status.Reported() {
      ReportedRowStays(db.(tasks := db.tasks[id := Report(t, doc)]), id, t.def.episode, n1);
    }
  }

  lemma ReserveKeeps(db: Db, ep: Id, hypothesis: Id, evaluation: Id, policyOk: bool)
    requires Inv(db)
    ensures Inv(ReserveRevision(db, ep, hypothesis, evaluation, policyOk).0)
  {
    OpenInv(db);
    var d := ReserveRevision(db, ep, hypothesis, evaluation, policyOk).0;
    if d != db {
      WiredFrame(db, d);
      SameEpisodesSameCycles(db, d, {});
      SameTasksSameEpisodes(db, d, {});
    }
    SealInv(d);
  }

  // ---- Every run -------------------------------------------------------------

  lemma CompleteKeeps(db: Db, id: Id, version: int, fencing: int, doc: ResultDoc, canonicalOk: bool, n: Time, n1: Time)
    requires Inv(db)
    ensures Inv(Complete(db, id, version, fencing, doc, canonicalOk, n, n1).0)
  {
    OpenInv(db);
    if !IsCritic(db, id) {
      CompleteLegacyKeeps(db, id, version, fencing, doc, canonicalOk, n, n1, {});
    }
    SealInv(Complete(db, id, version, fencing, doc, canonicalOk, n, n1).0);
  }

  lemma CancelKeepsInv(db: Db, ep: Id, reason: string, n: Time)
    requires Inv(db)
    ensures Inv(Cancel(db, ep, reason, n).0)
  {
    OpenInv(db);
    CancelKeeps(db, ep, reason, n);
    SweepKeepsInv(db, Cancel(db, ep, reason, n).0);
  }

  lemma RecoverKeepsInv(db: Db, n: Time, first: seq<Visit>, second: seq<Visit>)
    requires Inv(db) && FullScan(db, first, n) && FullScan(db, second, n)
    ensures Inv(Recover(db, n, first, second))
  {
    OpenInv(db);
    RecoverKeeps(db, n, first, second);
    SweepKeepsInv(db, Recover(db, n, first, second));
  }

  lemma RecoverCommandKeeps(db: Db, n: Time, first: seq<Visit>, second: seq<Visit>)
    requires Inv(db)
    ensures Inv(Apply(db, DoRecover(n, first, second)))
  {
    var d := Apply(db, DoRecover(n, first, second));
    if FullScan(db, first, n) && FullScan(db, second, n) {
      RecoverKeepsInv(db, n, first, second);
      assert d == Recover(db, n, first, second);
    } else {
      assert d == db;
    }
  }

  predicate Opens(c: Command) {
    c.DoStartCycle? || c.DoStartEpisode? || c.DoPersist? || c.DoReserve?
  }

  lemma OpeningKeeps(db: Db, c: Command)
    requires Inv(db) && Opens(c)
    ensures Inv(Apply(db, c))
  {
    match c
    case DoStartCycle(id, trigger, ok, expiresAt, n) => StartCycleKeeps(db, id, trigger, ok, expiresAt, n);
    case DoStartEpisode(id, cycle, candidate, expiresAt, n) =>
      StartEpisodeKeeps(db, id, cycle, candidate, expiresAt, n);
    case DoPersist(ep, expected, x, ok, n) => PersistKeeps(db, ep, expected, x, ok, n);
    case DoReserve(ep, h, evaluation, ok) => ReserveKeeps(db, ep, h, evaluation, ok);
  }

  /** Every command keeps the invariant. */
  lemma ApplyKeeps(db: Db, c: Command)
    requires Inv(db)
    ensures Inv(Apply(db, c))
  {
    if Opens(c) {
      OpeningKeeps(db, c);
    } else {
      match c
      case DoClaim(ep, worker, seconds, n, n1, n2) => ClaimKeeps(db, ep, worker, seconds, n, n1, n2);
      case DoComplete(id, version, fencing, doc, ok, n, n1) => CompleteKeeps(db, id, version, fencing, doc, ok, n, n1);
      case DoCritic(id, version, fencing, row, h, ok, n, n1) =>
        CriticKeeps(db, id, version, fencing, row, h, ok, n, n1);
      case DoCancel(ep, reason, n) => CancelKeepsInv(db, ep, reason, n);
      case DoRecover(n, first, second) => RecoverCommandKeeps(db, n, first, second);
    }
  }

  lemma {:induction false} RunKeeps(db: Db, cs: seq<Command>)
    requires Inv(db)
    ensures Inv(Run(db, cs))
  {
    if cs != [] {
      RunKeeps(db, cs[..|cs| - 1]);
      ApplyKeeps(Run(db, cs[..|cs| - 1]), cs[|cs| - 1]);
    }
  }

  lemma {:induction false} ReachableIsSafe(cs: seq<Command>)
    ensures Inv(Run(EMPTY_DB, cs))
  {
    assert Inv(EMPTY_DB);
    RunKeeps(EMPTY_DB, cs);
  }
}
