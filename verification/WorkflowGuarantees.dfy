/** The invariant of the workflow, read off for a whole run. */
module WorkflowGuarantees {
  import opened Common
  import opened WorkflowModel
  import opened PlanValidation
  import opened WorkflowSteps
  import opened WorkflowInvariants
  import opened WorkflowClosing
  import opened WorkflowSafety

  /** Never more tasks run than the plan allows, and whatever runs or has
      reported had every dependency COMPLETED. */
  lemma {:induction false} SchedulingSafety(cs: seq<Command>)
    ensures var db := Run(EMPTY_DB, cs);
            && (forall ep :: ep in db.executions ==>
                  |RunningOf(db.tasks, ep)| <= db.executions[ep].plan.budget.parallel)
            && (forall d, u ::
                  DependsOn(db.tasks, d, u) && (db.tasks[d].status.Running? || db.tasks[d].status.Reported()) ==>
                  db.tasks[u].status.Completed?)
  {
    ReachableIsSafe(cs);
    OpenInv(Run(EMPTY_DB, cs));
  }

  /** Nothing runs below a row that has ended. */
  lemma {:induction false} NothingRunsBelowTheEnded(cs: seq<Command>)
    ensures var db := Run(EMPTY_DB, cs);
            && (forall id :: id in db.tasks && db.tasks[id].status.Unfinished() ==>
                  LiveEp(db, db.tasks[id].def.episode))
            && (forall ep :: LiveEp(db, ep) ==> LiveCycle(db, db.episodes[ep].cycle))
  {
    ReachableIsSafe(cs);
    var db := Run(EMPTY_DB, cs);
    OpenInv(db);
    forall id | id in db.tasks && db.tasks[id].status.Unfinished() ensures LiveEp(db, db.tasks[id].def.episode) {
      assert EpisodeAllows(db, db.tasks[id].def.episode);
    }
    forall ep | LiveEp(db, ep) ensures LiveCycle(db, db.episodes[ep].cycle) {
      assert CycleAllows(db, db.episodes[ep].cycle);
    }
  }

  /** A row that runs has something running below it, once there is anything below. */
  lemma {:induction false} RunningRowsAreBusy(cs: seq<Command>)
    ensures var db := Run(EMPTY_DB, cs);
            && (forall cy :: LiveCycle(db, cy) && EpisodesOf(db.episodes, cy) != {} ==> HasLiveEpisode(db, cy))
            && (forall ep :: LiveEp(db, ep) && ep in db.executions ==> UnfinishedOf(db.tasks, ep) != {})
  {
    ReachableIsSafe(cs);
    var db := Run(EMPTY_DB, cs);
    OpenInv(db);
    forall cy | LiveCycle(db, cy) && EpisodesOf(db.episodes, cy) != {} ensures HasLiveEpisode(db, cy) {
      assert CycleBusy(db, cy);
    }
    forall ep | LiveEp(db, ep) && ep in db.executions ensures UnfinishedOf(db.tasks, ep) != {} {
      assert EpisodeBusy(db, ep);
    }
  }

  /** COMPLETED goes all the way down: episodes, their plans and every task. */
  lemma {:induction false} CompletedGoesDown(cs: seq<Command>)
    ensures var db := Run(EMPTY_DB, cs);
            && (forall ep :: ep in db.episodes && CompletedCycle(db, db.episodes[ep].cycle) ==> CompletedEp(db, ep))
            && (forall ep :: CompletedEp(db, ep) ==> ep in db.executions)
            && (forall id :: id in db.tasks && CompletedEp(db, db.tasks[id].def.episode) ==>
                  db.tasks[id].status.Completed?)
  {
    ReachableIsSafe(cs);
    var db := Run(EMPTY_DB, cs);
    OpenInv(db);
    forall ep | ep in db.episodes && CompletedCycle(db, db.episodes[ep].cycle) ensures CompletedEp(db, ep) {
      assert CycleAllows(db, db.episodes[ep].cycle);
    }
    forall ep | CompletedEp(db, ep) ensures ep in db.executions {
      assert EpisodeAllows(db, ep);
    }
    forall id | id in db.tasks && CompletedEp(db, db.tasks[id].def.episode) ensures db.tasks[id].status.Completed? {
      assert EpisodeAllows(db, db.tasks[id].def.episode);
    }
  }

  /** After recovery at n nothing that was due by n is still running, on any level. */
  lemma {:induction false} RecoveryLeavesNothingOverdue(
      cs: seq<Command>, n: Time, first: seq<Visit>, second: seq<Visit>)
    requires FullScan(Run(EMPTY_DB, cs), first, n) && FullScan(Run(EMPTY_DB, cs), second, n)
    ensures var db := Run(EMPTY_DB, cs + [DoRecover(n, first, second)]);
            && (forall cy :: LiveCycle(db, cy) ==> db.cycles[cy].expiresAt > n)
            && (forall ep :: LiveEp(db, ep) ==> db.episodes[ep].expiresAt > n)
            && (forall id :: id in db.tasks && db.tasks[id].status.Unfinished() ==> db.tasks[id].def.deadline > n)
  {
    var db := Run(EMPTY_DB, cs);
    ReachableIsSafe(cs);
    OpenInv(db);
    assert (cs + [DoRecover(n, first, second)])[..|cs|] == cs;
    RecoveryEnds(db, n, first, second);
  }

  lemma RecoveryEndsCycles(db: Db, n: Time, first: seq<Visit>, second: seq<Visit>)
    requires Wired(db) && Closure(db, {}, {}) && FullScan(db, first, n) && FullScan(db, second, n)
    ensures var d := Recover(db, n, first, second);
            NothingOverdue(d, n) && forall cy :: LiveCycle(d, cy) ==> d.cycles[cy].expiresAt > n
  {
    var d := Recover(db, n, first, second);
    RecoverKeeps(db, n, first, second);
    forall cy | LiveCycle(d, cy) ensures d.cycles[cy].expiresAt > n {
      assert EndedCycle(db.cycles[cy], d.cycles[cy]);
    }
  }

  lemma RecoveryEndsTasks(db: Db, n: Time, first: seq<Visit>, second: seq<Visit>, id: Id)
    requires Wired(db) && Closure(db, {}, {}) && FullScan(db, first, n) && FullScan(db, second, n)
    requires id in Recover(db, n, first, second).tasks && Recover(db, n, first, second).tasks[id].status.Unfinished()
    ensures Recover(db, n, first, second).tasks[id].def.deadline > n
  {
    RecoverKeeps(db, n, first, second);
    assert SweptRow(db.tasks[id], Recover(db, n, first, second).tasks[id]);
    if db.tasks[id].def.deadline <= n {
      RecoverEndsLateTasks(db, n, first, second, id);
    }
  }

  lemma RecoveryEnds(db: Db, n: Time, first: seq<Visit>, second: seq<Visit>)
    requires Wired(db) && Closure(db, {}, {}) && FullScan(db, first, n) && FullScan(db, second, n)
    ensures var d := Recover(db, n, first, second);
            && (forall cy :: LiveCycle(d, cy) ==> d.cycles[cy].expiresAt > n)
            && NothingOverdue(d, n)
            && (forall id :: id in d.tasks && d.tasks[id].status.Unfinished() ==> d.tasks[id].def.deadline > n)
  {
    var d := Recover(db, n, first, second);
    RecoveryEndsCycles(db, n, first, second);
    forall id | id in d.tasks && d.tasks[id].status.Unfinished() ensures d.tasks[id].def.deadline > n {
      RecoveryEndsTasks(db, n, first, second, id);
    }
  }
}
