/** When a claim raises, when it hands out work, and when an episode is stuck. */
module WorkflowProgress {
  import opened Common
  import opened WorkflowModel
  import opened SkipPropagation
  import opened PlanValidation
  import opened WorkflowSteps
  import opened WorkflowInvariants
  import opened WorkflowClosing
  import opened WorkflowSafety
  import opened WorkflowFencing

  // ---- The integrity check ---------------------------------------------------

  function IdsOf(defs: seq<TaskDef>): (ids: seq<Id>) {
    seq(|defs|, i requires 0 <= i < |defs| => defs[i].taskId)
  }

  lemma RowHasDef(db: Db, ep: Id, id: Id)
    requires Wired(db) && id in TasksOf(db.tasks, ep)
    ensures ep in db.executions && id in IdsOf(db.executions[ep].defs)
  {
    assert TaskWired(db, id);
    var defs := db.executions[ep].defs;
    var i :| 0 <= i < |defs| && defs[i] == db.tasks[id].def;
    assert IdsOf(defs)[i] == id;
  }

  lemma DefHasRow(db: Db, ep: Id, i: nat)
    requires Wired(db) && ep in db.executions && i < |db.executions[ep].defs|
    ensures db.executions[ep].defs[i].taskId in TasksOf(db.tasks, ep)
  {
    assert Planned(db, ep);
    OpenAccepted(db.episodes, ep, db.executions[ep]);
    assert db.executions[ep].defs[i] in db.executions[ep].defs;
  }

  lemma RowsAreDefs(db: Db, ep: Id)
    requires Wired(db) && ep in db.executions
    ensures |TasksOf(db.tasks, ep)| == |db.executions[ep].defs|
  {
    var ids := IdsOf(db.executions[ep].defs);
    assert Planned(db, ep);
    forall i | 0 <= i < |ids| ensures ids[i] in TasksOf(db.tasks, ep) {
      DefHasRow(db, ep, i);
    }
    forall id | id in TasksOf(db.tasks, ep) ensures id in ids {
      RowHasDef(db, ep, id);
    }
    DistinctSeqSetSize(ids);
    assert SeqSet(ids) == TasksOf(db.tasks, ep);
  }

  /** The integrity check never fails on a persisted plan: there is no drift. */
  lemma NoDrift(db: Db, ep: Id)
    requires Inv(db)
    ensures Materialized(db, ep) <==> ep in db.executions
  {
    if ep in db.executions {
      OpenInv(db);
      assert Planned(db, ep);
      RowsAreDefs(db, ep);
      OpenAccepted(db.episodes, ep, db.executions[ep]);
      forall id | id in db.tasks && db.tasks[id].def.episode == ep
        ensures db.tasks[id].def in db.executions[ep].defs && db.tasks[id].def.taskId == id
        ensures db.tasks[id].doc.Some? ==> ValidDoc(db.tasks[id].def, db.tasks[id].doc.value.result)
      {
        assert TaskWired(db, id) && RowOk(db.tasks[id]);
      }
      forall d | d in db.executions[ep].defs ensures d.taskId in db.tasks && db.tasks[d.taskId].def.episode == ep {
        var i :| 0 <= i < |db.executions[ep].defs| && db.executions[ep].defs[i] == d;
      }
      assert MaterializedRows(db, ep);
    }
  }

  /** In a reachable state a claim raises for exactly four reasons. */
  lemma ClaimRaisesIff(db: Db, ep: Id, worker: string, seconds: int, n: Time, n1: Time, n2: Time)
    requires Inv(db)
    ensures Claim(db, ep, worker, seconds, n, n1, n2).1.Raised? <==>
              !Trimmed(worker) || !(1 <= seconds <= 3600) || ep !in db.executions ||
              AmbiguousFanIn(Swept(db, ep, n, n1, n2), ep, n)
  {
    NoDrift(db, ep);
  }

  // ---- What is left after a sweep ----------------------------------------------

  /** Every PENDING row waits for another PENDING row. */
  ghost predicate WaitsOnPending(ts: Tasks, ep: Id, d: Id) {
    exists u :: DependsOn(ts, d, u) && ts[u].status.Pending?
  }

  ghost predicate AllWait(ts: Tasks, ep: Id) {
    forall d {:trigger WaitsOnPending(ts, ep, d)} ::
      d in ts && ts[d].def.episode == ep && ts[d].status.Pending? ==> WaitsOnPending(ts, ep, d)
  }

  /** No row of the episode can be handed out, none is being worked on, and yet
      the episode runs: it can only wait for its deadline. */
  ghost predicate Stuck(s: Db, ep: Id, n: Time) {
    Open(s, ep, n) && RunningOf(s.tasks, ep) == {} && Ready(s, ep, n) == {}
  }

  lemma ClosingCycleKeeps(db: Db, cy: Id, n: Time)
    ensures CloseCycle(db, cy, n).episodes == db.episodes && CloseCycle(db, cy, n).tasks == db.tasks
    ensures CloseCycle(db, cy, n).executions == db.executions
  {
  }

  lemma SettledKeepsLive(db: Db, ep: Id)
    requires LiveEp(CloseSettled(db, ep), ep)
    ensures CloseSettled(db, ep) == db
  {
  }

  lemma OverdueKeepsLive(db: Db, ep: Id, n: Time)
    requires LiveEp(CloseOverdue(db, ep, n), ep)
    ensures CloseOverdue(db, ep, n) == db && LiveEp(db, ep) && db.episodes[ep].expiresAt > n
  {
  }

  lemma ClosingKeepsLiveTasks(db: Db, ep: Id, n: Time)
    requires LiveEp(CloseEpisode(db, ep, n), ep)
    ensures LiveEp(db, ep) && CloseEpisode(db, ep, n).tasks == db.tasks && db.episodes[ep].expiresAt > n
    ensures CloseEpisode(db, ep, n).episodes == db.episodes
  {
    if ep in db.episodes {
      ClosingCycleKeeps(CloseSettled(CloseOverdue(db, ep, n), ep), db.episodes[ep].cycle, n);
      SettledKeepsLive(CloseOverdue(db, ep, n), ep);
      OverdueKeepsLive(db, ep, n);
    }
  }

  /** A row that is still PENDING after the sweep has no blocking dependency. */
  lemma SweptSettles(db: Db, ep: Id, n: Time, n1: Time, n2: Time, d: Id, u: Id)
    requires var s := Swept(db, ep, n, n1, n2);
             LiveEp(s, ep) && DependsOn(s.tasks, d, u) && s.tasks[d].def.episode == ep && s.tasks[d].status.Pending?
    ensures var s := Swept(db, ep, n, n1, n2);
            u in s.tasks && !s.tasks[u].status.Blocking()
  {
    var d1 := CloseEpisode(db, ep, n1);
    var t2 := Requeue(d1.tasks, Expired(d1.tasks, ep, n));
    var t3 := Finish(t2, Late(t2, {ep}, n), TimedOut);
    var d2 := d1.(tasks := SkipBlocked(t3, {ep}));
    ClosingKeepsLiveTasks(d2, ep, n2);
    SkipBlockedSettles(t3, {ep}, d, u);
  }

  /** After a sweep an unblocked PENDING row either is ready or waits for a
      PENDING or RUNNING row. */
  lemma SweptWaits(db: Db, ep: Id, n: Time, n1: Time, n2: Time, d: Id)
    requires var s := Swept(db, ep, n, n1, n2);
             Open(s, ep, n) && d in s.tasks && s.tasks[d].def.episode == ep && s.tasks[d].status.Pending?
    requires var s := Swept(db, ep, n, n1, n2);
             d !in Ready(s, ep, n) && RunningOf(s.tasks, ep) == {}
    ensures WaitsOnPending(Swept(db, ep, n, n1, n2).tasks, ep, d)
  {
    var s := Swept(db, ep, n, n1, n2);
    assert !DepsCompleted(s.tasks, d);
    var u :| u in s.tasks && DependsOn(s.tasks, d, u) && !s.tasks[u].status.Completed?;
    SweptSettles(db, ep, n, n1, n2, d, u);
    assert u !in RunningOf(s.tasks, ep);
  }

  /** Stuck, said about statuses only: there is unfinished work, none of it runs,
      and all of it waits for work that has not started. */
  lemma {:induction false} StuckIff(db: Db, ep: Id, n: Time, n1: Time, n2: Time)
    requires Inv(db) && ep in db.executions && n <= n2
    ensures var s := Swept(db, ep, n, n1, n2);
            Stuck(s, ep, n) <==> LiveEp(s, ep) && RunningOf(s.tasks, ep) == {} && AllWait(s.tasks, ep)
  {
    var s := Swept(db, ep, n, n1, n2);
    if LiveEp(s, ep) {
      SweptIsOpen(db, ep, n, n1, n2);
    }
    if Stuck(s, ep, n) {
      forall d | d in s.tasks && s.tasks[d].def.episode == ep && s.tasks[d].status.Pending?
        ensures WaitsOnPending(s.tasks, ep, d)
      {
        SweptWaits(db, ep, n, n1, n2, d);
      }
    }
    if AllWait(s.tasks, ep) {
      forall d | d in s.tasks && s.tasks[d].def.episode == ep && s.tasks[d].status.Pending?
        ensures d !in Ready(s, ep, n)
      {
        assert WaitsOnPending(s.tasks, ep, d);
      }
    }
  }

  lemma SweptIsOpen(db: Db, ep: Id, n: Time, n1: Time, n2: Time)
    requires n <= n2 && LiveEp(Swept(db, ep, n, n1, n2), ep)
    ensures Open(Swept(db, ep, n, n1, n2), ep, n)
  {
    var d1 := CloseEpisode(db, ep, n1);
    var d2 := d1.(tasks := SweptTable(d1.tasks, ep, n));
    ClosingKeepsLiveTasks(d2, ep, n2);
  }

  /** Keys of the PENDING rows. */
  ghost function PendingKeys(ts: Tasks, ep: Id): set<StepKey> {
    set id | id in ts && ts[id].def.episode == ep && ts[id].status.Pending? :: ts[id].def.step.key
  }

  lemma DependencyIsEdge(db: Db, d: Id, u: Id)
    requires Inv(db) && DependsOn(db.tasks, d, u)
    ensures var ep := db.tasks[d].def.episode;
            ep in db.executions &&
            Edge(db.executions[ep].plan.steps, db.tasks[d].def.step.key, db.tasks[u].def.step.key)
  {
    RowIsStep(db, d);
  }

  /** Rows that all wait for one another come from a dependency cycle. */
  lemma AllWaitIsTrap(s: Db, ep: Id)
    requires Inv(s) && ep in s.executions && AllWait(s.tasks, ep) && PendingKeys(s.tasks, ep) != {}
    ensures Trap(s.executions[ep].plan.steps, PendingKeys(s.tasks, ep))
  {
    var steps := s.executions[ep].plan.steps;
    var keys := PendingKeys(s.tasks, ep);
    forall a | a in keys ensures WaitsInside(steps, keys, a) {
      var d :| d in s.tasks && s.tasks[d].def.episode == ep && s.tasks[d].status.Pending? &&
          s.tasks[d].def.step.key == a;
      assert WaitsOnPending(s.tasks, ep, d);
      var u :| DependsOn(s.tasks, d, u) && s.tasks[u].status.Pending?;
      DependencyIsEdge(s, d, u);
      assert s.tasks[u].def.step.key in keys;
    }
  }

  lemma LiveHasPending(s: Db, ep: Id)
    requires Inv(s) && ep in s.executions && LiveEp(s, ep) && RunningOf(s.tasks, ep) == {}
    ensures PendingKeys(s.tasks, ep) != {}
  {
    OpenInv(s);
    assert EpisodeBusy(s, ep);
    var id :| id in UnfinishedOf(s.tasks, ep);
    assert id !in RunningOf(s.tasks, ep);
    assert s.tasks[id].def.step.key in PendingKeys(s.tasks, ep);
  }

  /** A stuck episode has a cyclic plan, and its unstarted steps show the cycle. */
  lemma StuckIsCyclic(db: Db, ep: Id, n: Time, n1: Time, n2: Time)
    requires Inv(db) && ep in db.executions && n <= n2 && Stuck(Swept(db, ep, n, n1, n2), ep, n)
    ensures var s := Swept(db, ep, n, n1, n2);
            Trap(db.executions[ep].plan.steps, PendingKeys(s.tasks, ep)) && !Acyclic(db.executions[ep].plan.steps)
  {
    var s := Swept(db, ep, n, n1, n2);
    SweptInv(db, ep, n, n1, n2);
    StuckIff(db, ep, n, n1, n2);
    LiveHasPending(s, ep);
    AllWaitIsTrap(s, ep);
    CycleIffTrap(s.executions[ep].plan.steps);
  }

  /** What a claim answers: a task whenever one is ready and the limit is not
      reached; otherwise nothing. */
  lemma HandsOutIff(db: Db, ep: Id, worker: string, seconds: int, n: Time, n1: Time, n2: Time)
    requires Inv(db) && Claim(db, ep, worker, seconds, n, n1, n2).1.Done?
    ensures ep in db.executions
    ensures var s := Swept(db, ep, n, n1, n2);
            Claim(db, ep, worker, seconds, n, n1, n2).1.value.Handed? <==>
              Ready(s, ep, n) != {} && |RunningOf(s.tasks, ep)| < db.executions[ep].plan.budget.parallel
  {
    SweptLeasesRun(db, ep, n, n1, n2);
  }

  /** No deadlock: after a claim on an acyclic plan whose episode still runs, a
      task was handed out or some task is leased. */
  lemma {:induction false} NoDeadlock(db: Db, ep: Id, worker: string, seconds: int, n: Time, n1: Time, n2: Time)
    requires Inv(db) && n <= n2 && Claim(db, ep, worker, seconds, n, n1, n2).1.Done?
    requires ep in db.executions && Acyclic(db.executions[ep].plan.steps)
    requires LiveEp(Claim(db, ep, worker, seconds, n, n1, n2).0, ep)
    ensures Claim(db, ep, worker, seconds, n, n1, n2).1.value.Handed? ||
            Leased(Claim(db, ep, worker, seconds, n, n1, n2).0.tasks, ep, n) != {}
  {
    var s := Swept(db, ep, n, n1, n2);
    HandsOutIff(db, ep, worker, seconds, n, n1, n2);
    SweptLeasesRun(db, ep, n, n1, n2);
    if Claim(db, ep, worker, seconds, n, n1, n2).1.value.NoTask? {
      SweptIsOpen(db, ep, n, n1, n2);
      LimitIsPositive(db, ep);
      if RunningOf(s.tasks, ep) == {} {
        StuckIsCyclic(db, ep, n, n1, n2);
      }
    }
  }

  lemma LimitIsPositive(db: Db, ep: Id)
    requires Inv(db) && ep in db.executions
    ensures db.executions[ep].plan.budget.parallel >= 1
  {
    OpenInv(db);
    assert Planned(db, ep);
    OpenAccepted(db.episodes, ep, db.executions[ep]);
  }

  // ---- A cyclic plan never finishes --------------------------------------------

  /** Rows a command adds are PENDING. */
  lemma {:induction false} NewRowsPend(db: Db, c: Command, id: Id)
    requires Inv(db) && id in Apply(db, c).tasks && id !in db.tasks
    ensures Apply(db, c).tasks[id].status.Pending?
  {
    match c
    case DoStartCycle(_, _, _, _, _) =>
    case DoStartEpisode(_, _, _, _, _) =>
    case DoPersist(ep, expected, x, ok, n) => PersistAddsRows(db, ep, x);
    case DoClaim(ep, worker, seconds, n, n1, n2) => ClaimAddsNothing(db, ep, worker, seconds, n, n1, n2);
    case DoComplete(id, version, fencing, doc, ok, n, n1) =>
      CompletionAddsNothing(db, id, version, fencing, doc, ok, n, n1);
    case DoCritic(id, version, fencing, row, h, ok, n, n1) =>
      CompletionAddsNothing(db, id, version, fencing, CriticResult(id), true, n, n1);
    case DoReserve(_, _, _, _) =>
    case DoCancel(ep, reason, n) => CancelEvolves(db, ep, reason, n);
    case DoRecover(n, first, second) => RecoverEvolves(db, n, first, second);
  }

  lemma ClaimAddsNothing(db: Db, ep: Id, worker: string, seconds: int, n: Time, n1: Time, n2: Time)
    requires Inv(db)
    ensures Claim(db, ep, worker, seconds, n, n1, n2).0.tasks.Keys == db.tasks.Keys
  {
    if Materialized(db, ep) {
      SweptInv(db, ep, n, n1, n2);
    }
  }

  lemma {:induction false} CompletionAddsNothing(
      db: Db, id: Id, version: int, fencing: int, doc: ResultDoc, canonicalOk: bool, n: Time, n1: Time)
    ensures CompleteLegacy(db, id, version, fencing, doc, canonicalOk, n, n1).0.tasks.Keys == db.tasks.Keys
  {
    if CompleteLegacy(db, id, version, fencing, doc, canonicalOk, n, n1).0 != db {
      ReportSteps(db, id, doc, n1);
    }
  }

  ghost predicate Ran(t: Task) {
    t.status.Running? || t.status.Reported()
  }

  /** A result is only written for a row that was running. */
  lemma ReportedHasRun(db: Db, c: Command, id: Id)
    requires Inv(db) && id in Apply(db, c).tasks && Apply(db, c).tasks[id].status.Reported()
    ensures id in db.tasks && Ran(db.tasks[id])
  {
    var d := Apply(db, c);
    ApplyKeeps(db, c);
    OpenInv(d);
    OpenInv(db);
    assert RowOk(d.tasks[id]);
    if id !in db.tasks {
      NewRowsPend(db, c, id);
    } else {
      assert RowOk(db.tasks[id]);
      if d.tasks[id].doc != db.tasks[id].doc {
        OnlyTheHolderWrites(db, c, id);
      }
    }
  }

  /** No row with a key in the trap has run. */
  ghost predicate Untouched(db: Db, ep: Id, trap: set<StepKey>) {
    forall id :: id in db.tasks && db.tasks[id].def.episode == ep && db.tasks[id].def.step.key in trap ==>
        !Ran(db.tasks[id])
  }

  lemma RowIsStep(db: Db, id: Id)
    requires Inv(db) && id in db.tasks
    ensures var ep := db.tasks[id].def.episode;
            ep in db.executions && db.tasks[id].def.step in db.executions[ep].plan.steps &&
            DistinctKeys(db.executions[ep].plan.steps)
  {
    OpenInv(db);
    var ep := db.tasks[id].def.episode;
    assert TaskWired(db, id) && Planned(db, ep);
    OpenAccepted(db.episodes, ep, db.executions[ep]);
    var defs := db.executions[ep].defs;
    var i :| 0 <= i < |defs| && defs[i] == db.tasks[id].def;
  }

  /** Each row of a trap depends on another row of the trap. */
  lemma TrapRowWaits(db: Db, id: Id, trap: set<StepKey>) returns (u: Id)
    requires Inv(db) && id in db.tasks && db.tasks[id].def.episode in db.executions
    requires Trap(db.executions[db.tasks[id].def.episode].plan.steps, trap) && db.tasks[id].def.step.key in trap
    ensures DependsOn(db.tasks, id, u) && db.tasks[u].def.step.key in trap
  {
    var ep := db.tasks[id].def.episode;
    var steps := db.executions[ep].plan.steps;
    RowIsStep(db, id);
    assert WaitsInside(steps, trap, db.tasks[id].def.step.key);
    var b :| b in trap && Edge(steps, db.tasks[id].def.step.key, b);
    var s :| s in steps && s.key == db.tasks[id].def.step.key && b in s.dependsOn;
    assert s == db.tasks[id].def.step;
    u := DepRow(db, id, b);
  }

  lemma TrapStaysUntouched(db: Db, c: Command, ep: Id, trap: set<StepKey>)
    requires Inv(db) && Untouched(db, ep, trap)
    requires ep in Apply(db, c).executions && Trap(Apply(db, c).executions[ep].plan.steps, trap)
    ensures Untouched(Apply(db, c), ep, trap)
  {
    var d := Apply(db, c);
    ApplyKeeps(db, c);
    ApplyEvolves(db, c);
    forall id | id in d.tasks && d.tasks[id].def.episode == ep && d.tasks[id].def.step.key in trap
      ensures !Ran(d.tasks[id])
    {
      var u := TrapRowWaits(d, id, trap);
      if Ran(d.tasks[id]) {
        RanIsSettled(d, id, u);
        ReportedHasRun(db, c, u);
        RowHistory(db, d, u);
      }
    }
  }

  /** A plan stays what it was when it was persisted. */
  lemma {:induction false} TrapNeverRuns(cs: seq<Command>, ep: Id, trap: set<StepKey>)
    requires ep in Run(EMPTY_DB, cs).executions && Trap(Run(EMPTY_DB, cs).executions[ep].plan.steps, trap)
    ensures Untouched(Run(EMPTY_DB, cs), ep, trap)
  {
    if cs != [] {
      var front := cs[..|cs| - 1];
      var db := Run(EMPTY_DB, front);
      ReachableIsSafe(front);
      if ep in db.executions {
        ApplyEvolves(db, cs[|cs| - 1]);
        OpenHistory(db, Run(EMPTY_DB, cs));
        TrapNeverRuns(front, ep, trap);
      } else {
        NoPlanNoRows(db, ep);
      }
      TrapStaysUntouched(db, cs[|cs| - 1], ep, trap);
    }
  }

  lemma NoPlanNoRows(db: Db, ep: Id)
    requires Inv(db) && ep !in db.executions
    ensures TasksOf(db.tasks, ep) == {} && forall trap :: Untouched(db, ep, trap)
  {
    OpenInv(db);
    forall id | id in db.tasks ensures db.tasks[id].def.episode != ep {
      assert TaskWired(db, id);
    }
  }

  /** The episode of a cyclic plan never ends COMPLETED, whatever its workers do;
      none of the steps on a cycle is ever handed out. */
  lemma {:induction false} CyclicNeverCompletes(cs: seq<Command>, ep: Id, trap: set<StepKey>)
    requires ep in Run(EMPTY_DB, cs).executions && Trap(Run(EMPTY_DB, cs).executions[ep].plan.steps, trap)
    ensures !CompletedEp(Run(EMPTY_DB, cs), ep)
  {
    var db := Run(EMPTY_DB, cs);
    ReachableIsSafe(cs);
    TrapNeverRuns(cs, ep, trap);
    OpenInv(db);
    assert EpisodeAllows(db, ep);
    var id := TrapHasRow(db, ep, trap);
    assert !Ran(db.tasks[id]);
  }

  lemma KeyHasRow(db: Db, ep: Id, key: StepKey) returns (id: Id)
    requires Inv(db) && ep in db.executions && HasDef(db.executions[ep].defs, key)
    ensures RowAt(db.tasks, ep, key, id)
  {
    OpenInv(db);
    assert Planned(db, ep);
    OpenAccepted(db.episodes, ep, db.executions[ep]);
    var defs := db.executions[ep].defs;
    var i :| 0 <= i < |defs| && defs[i].step.key == key;
    assert defs[i] in defs;
    id := defs[i].taskId;
  }

  lemma EdgeHasDef(db: Db, ep: Id, a: StepKey, b: StepKey)
    requires Inv(db) && ep in db.executions && Edge(db.executions[ep].plan.steps, a, b)
    ensures HasDef(db.executions[ep].defs, b)
  {
    OpenInv(db);
    assert Planned(db, ep);
    OpenAccepted(db.episodes, ep, db.executions[ep]);
    var s :| s in db.executions[ep].plan.steps && s.key == a && b in s.dependsOn;
  }

  lemma TrapHasRow(db: Db, ep: Id, trap: set<StepKey>) returns (id: Id)
    requires Inv(db) && ep in db.executions && Trap(db.executions[ep].plan.steps, trap)
    ensures id in db.tasks && db.tasks[id].def.episode == ep && db.tasks[id].def.step.key in trap
  {
    var steps := db.executions[ep].plan.steps;
    var a :| a in trap;
    assert WaitsInside(steps, trap, a);
    var b :| b in trap && Edge(steps, a, b);
    EdgeHasDef(db, ep, a, b);
    id := KeyHasRow(db, ep, b);
  }
}
