/** What every command of the workflow keeps, for any interleaving and any
    clock readings. */
module WorkflowInvariants {
  import opened Common
  import opened WorkflowModel
  import opened SkipPropagation
  import opened PlanValidation
  import opened WorkflowSteps

  // ---- The invariant ---------------------------------------------------------

  /** Every task row is one definition of an accepted execution and vice versa. */
  ghost predicate Wired(db: Db) {
    && (forall ep :: ep in db.episodes ==>
          db.episodes[ep].cycle in db.cycles && db.episodes[ep].expiresAt <= db.cycles[db.episodes[ep].cycle].expiresAt)
    && (forall ep :: ep in db.executions ==> Planned(db, ep))
    && (forall id :: id in db.tasks ==> TaskWired(db, id))
  }

  ghost predicate Planned(db: Db, ep: Id) {
    && ep in db.executions && ep in db.episodes
    && Accepted(db.episodes, ep, db.executions[ep])
    && (forall i, j :: 0 <= i < j < |db.executions[ep].defs| ==>
          db.executions[ep].defs[i].taskId != db.executions[ep].defs[j].taskId)
    && (forall d :: d in db.executions[ep].defs ==> d.taskId in db.tasks && db.tasks[d.taskId].def == d)
  }

  ghost predicate TaskWired(db: Db, id: Id) {
    id in db.tasks && db.tasks[id].def.taskId == id && db.tasks[id].def.episode in db.executions &&
    db.tasks[id].def in db.executions[db.tasks[id].def.episode].defs
  }

  ghost predicate RowOk(t: Task) {
    && t.version >= 1
    && (t.status.Running? <==> t.lease.Some?)
    && (t.status.Running? ==> t.fencing >= 1 && t.worker.Some?)
    && (t.doc.Some? <==> t.status.Reported())
    && (t.doc.Some? ==> ValidDoc(t.def, t.doc.value.result) && t.doc.value.result.status == t.status)
    && (t.def.step.role.PreTradeCritic? ==> !t.status.Completed? && !t.status.Failed?)
  }

  ghost predicate RowsOk(ts: Tasks) {
    forall id :: id in ts ==> RowOk(ts[id])
  }

  /** A task that ran has all its dependencies COMPLETED. */
  ghost predicate DepsFirst(ts: Tasks) {
    forall d, u :: DependsOn(ts, d, u) && (ts[d].status.Running? || ts[d].status.Reported()) ==> ts[u].status.Completed?
  }

  ghost predicate WithinLimit(db: Db) {
    forall ep :: ep in db.executions ==> |RunningOf(db.tasks, ep)| <= db.executions[ep].plan.budget.parallel
  }

  /** A critique is stored exactly for the DEFERRED Critic tasks. */
  ghost predicate CritiquesMatch(db: Db, except: set<Id>) {
    forall id :: id !in except ==> (id in db.critiques <==> IsCritic(db, id) && db.tasks[id].status.Deferred?)
  }

  ghost predicate OneRevision(db: Db) {
    && (forall r :: r in db.revisions ==> r.iteration == 1)
    && (forall r, q :: r in db.revisions && q in db.revisions && r.episode == q.episode ==> r == q)
  }

  ghost predicate TaskInv(db: Db) {
    Wired(db) && RowsOk(db.tasks) && DepsFirst(db.tasks) && WithinLimit(db) && OneRevision(db)
  }

  ghost predicate LiveEp(db: Db, ep: Id) {
    ep in db.episodes && db.episodes[ep].state.Live?
  }

  ghost predicate LiveCycle(db: Db, cy: Id) {
    cy in db.cycles && db.cycles[cy].state.Live?
  }

  ghost predicate CompletedEp(db: Db, ep: Id) {
    ep in db.episodes && db.episodes[ep].state.Ended? && db.episodes[ep].state.ending.AllCompleted?
  }

  ghost predicate CompletedCycle(db: Db, cy: Id) {
    cy in db.cycles && db.cycles[cy].state.Ended? && db.cycles[cy].state.ending.AllCompleted?
  }

  ghost predicate HasLiveEpisode(db: Db, cy: Id) {
    exists ep :: LiveEp(db, ep) && db.episodes[ep].cycle == cy
  }

  /** Nothing below cycle cy contradicts its status ... */
  ghost predicate CycleAllows(db: Db, cy: Id) {
    && (forall ep :: LiveEp(db, ep) && db.episodes[ep].cycle == cy ==> LiveCycle(db, cy))
    && (CompletedCycle(db, cy) ==> forall ep :: ep in db.episodes && db.episodes[ep].cycle == cy ==>
          CompletedEp(db, ep))
  }

  /** ... and while it runs one of its episodes, if it has any, runs too. */
  ghost predicate CycleBusy(db: Db, cy: Id) {
    LiveCycle(db, cy) && EpisodesOf(db.episodes, cy) != {} ==> HasLiveEpisode(db, cy)
  }

  /** Nothing below episode ep contradicts its status ... */
  ghost predicate EpisodeAllows(db: Db, ep: Id) {
    && (forall id :: id in db.tasks && db.tasks[id].def.episode == ep && db.tasks[id].status.Unfinished() ==>
          LiveEp(db, ep))
    && (CompletedEp(db, ep) ==> ep in db.executions)
    && (CompletedEp(db, ep) ==> AllTasksCompleted(db.tasks, ep))
  }

  /** ... and while it runs its plan has an unfinished task. */
  ghost predicate EpisodeBusy(db: Db, ep: Id) {
    LiveEp(db, ep) && ep in db.executions ==> UnfinishedOf(db.tasks, ep) != {}
  }

  ghost predicate CyclesAllow(db: Db) {
    forall cy {:trigger CycleAllows(db, cy)} :: CycleAllows(db, cy)
  }

  ghost predicate CyclesBusy(db: Db, except: set<Id>) {
    forall cy {:trigger CycleBusy(db, cy)} :: cy !in except ==> CycleBusy(db, cy)
  }

  ghost predicate EpisodesAllow(db: Db) {
    forall ep {:trigger EpisodeAllows(db, ep)} :: EpisodeAllows(db, ep)
  }

  ghost predicate EpisodesBusy(db: Db, except: set<Id>) {
    forall ep {:trigger EpisodeBusy(db, ep)} :: ep !in except ==> EpisodeBusy(db, ep)
  }

  /** Closing is consistent on all three levels; the listed cycles and episodes
      may still have to be closed. */
  ghost predicate Closure(db: Db, cycles: set<Id>, episodes: set<Id>) {
    CyclesAllow(db) && EpisodesAllow(db) && CyclesBusy(db, cycles) && EpisodesBusy(db, episodes)
  }

  ghost predicate Unsealed(k: int) {
    true
  }

  /** The invariant of every reachable state.  The quantifier keeps its body out
      of proofs that only pass the invariant on; OpenInv and SealInv convert. */
  ghost predicate Inv(db: Db) {
    forall k {:trigger Unsealed(k)} :: Unsealed(k) ==> TaskInv(db) && CritiquesMatch(db, {}) && Closure(db, {}, {})
  }

  lemma OpenInv(db: Db)
    requires Inv(db)
    ensures TaskInv(db) && CritiquesMatch(db, {}) && Closure(db, {}, {})
  {
    assert Unsealed(0);
  }

  lemma SealInv(db: Db)
    requires TaskInv(db) && CritiquesMatch(db, {}) && Closure(db, {}, {})
    ensures Inv(db)
  {
  }

  // ---- Sweeps: steps that only take work away --------------------------------

  ghost predicate SweptRow(t: Task, t': Task) {
    t' == t ||
    (t.status.Unfinished() && t'.version > t.version &&
     (t'.status.Pending? || t'.status.Skipped? || t'.status.TimedOut? || t'.status.Cancelled?) &&
     t' == t.(status := t'.status, version := t'.version, worker := t'.worker, lease := None))
  }

  ghost predicate SweptTasks(ts: Tasks, ts': Tasks) {
    ts'.Keys == ts.Keys && forall id :: id in ts ==> SweptRow(ts[id], ts'[id])
  }

  ghost predicate EndedEpisode(e: Episode, e': Episode) {
    e' == e || (e.state.Live? && e'.state.Ended? && e'.version > e.version && e' == e.(version := e'.version,
        state := e'.state))
  }

  ghost predicate EndedCycle(c: Cycle, c': Cycle) {
    c' == c || (c.state.Live? && c'.state.Ended? && c'.version > c.version && c' == c.(version := c'.version,
        state := c'.state))
  }

  ghost predicate SweptDb(a: Db, b: Db) {
    && SweptTasks(a.tasks, b.tasks)
    && b.executions == a.executions && b.critiques == a.critiques && b.revisions == a.revisions
    && b.episodes.Keys == a.episodes.Keys
    && (forall ep :: ep in a.episodes ==> EndedEpisode(a.episodes[ep], b.episodes[ep]))
    && b.cycles.Keys == a.cycles.Keys && (forall cy :: cy in a.cycles ==> EndedCycle(a.cycles[cy], b.cycles[cy]))
  }

  lemma SweptDbTransitive(a: Db, b: Db, c: Db)
    requires SweptDb(a, b) && SweptDb(b, c)
    ensures SweptDb(a, c)
  {
    forall id | id in a.tasks ensures SweptRow(a.tasks[id], c.tasks[id]) {
      assert SweptRow(a.tasks[id], b.tasks[id]) && SweptRow(b.tasks[id], c.tasks[id]);
    }
    forall ep | ep in a.episodes ensures EndedEpisode(a.episodes[ep], c.episodes[ep]) {
      assert EndedEpisode(a.episodes[ep], b.episodes[ep]) && EndedEpisode(b.episodes[ep], c.episodes[ep]);
    }
    forall cy | cy in a.cycles ensures EndedCycle(a.cycles[cy], c.cycles[cy]) {
      assert EndedCycle(a.cycles[cy], b.cycles[cy]) && EndedCycle(b.cycles[cy], c.cycles[cy]);
    }
  }

  /** Validity of a plan reads nothing of the episode table but the cycle. */
  lemma AcceptedFrame(a: map<Id, Episode>, b: map<Id, Episode>, ep: Id, x: Execution)
    requires Accepted(a, ep, x) && ep in a && ep in b && a[ep].cycle == b[ep].cycle
    ensures Accepted(b, ep, x)
  {
    OpenAccepted(a, ep, x);
    SealAccepted(b, ep, x);
  }

  lemma SubsetSize<T>(a: set<T>, b: set<T>)
    requires a <= b
    ensures |a| <= |b|
  {
    assert b == a + (b - a);
  }

  lemma WiredFrame(a: Db, b: Db)
    requires Wired(a) && b.executions == a.executions && b.tasks.Keys == a.tasks.Keys
    requires forall id :: id in a.tasks ==> b.tasks[id].def == a.tasks[id].def
    requires b.cycles.Keys >= a.cycles.Keys && forall cy :: cy in a.cycles ==>
               b.cycles[cy].expiresAt == a.cycles[cy].expiresAt
    requires b.episodes.Keys >= a.episodes.Keys
    requires forall ep :: ep in a.episodes ==> b.episodes[ep].cycle == a.episodes[ep].cycle
    requires forall ep :: ep in b.episodes ==>
               b.episodes[ep].cycle in b.cycles && b.episodes[ep].expiresAt <= b.cycles[b.episodes[ep].cycle].expiresAt
    ensures Wired(b)
  {
    forall ep | ep in b.executions ensures Planned(b, ep) {
      assert Planned(a, ep);
      AcceptedFrame(a.episodes, b.episodes, ep, a.executions[ep]);
    }
    forall id | id in b.tasks ensures TaskWired(b, id) {
      assert TaskWired(a, id);
    }
  }

  lemma SweepKeepsRows(a: Tasks, b: Tasks)
    requires SweptTasks(a, b)
    ensures RowsOk(a) ==> RowsOk(b)
    ensures DepsFirst(a) ==> DepsFirst(b)
  {
    if RowsOk(a) {
      forall id | id in b ensures RowOk(b[id]) {
        assert RowOk(a[id]) && SweptRow(a[id], b[id]);
      }
    }
    if DepsFirst(a) {
      forall d, u | DependsOn(b, d, u) && (b[d].status.Running? || b[d].status.Reported())
        ensures b[u].status.Completed?
      {
        assert SweptRow(a[d], b[d]) && SweptRow(a[u], b[u]);
        assert DependsOn(a, d, u);
      }
    }
  }

  lemma SweepShrinksRunning(a: Tasks, b: Tasks, ep: Id)
    requires SweptTasks(a, b)
    ensures |RunningOf(b, ep)| <= |RunningOf(a, ep)|
  {
    forall id | id in RunningOf(b, ep) ensures id in RunningOf(a, ep) {
      assert SweptRow(a[id], b[id]);
    }
    SubsetSize(RunningOf(b, ep), RunningOf(a, ep));
  }

  /** A sweep moves no expiry, so episodes still end within their cycles. */
  lemma SweepKeepsWindows(a: Db, b: Db)
    requires SweptDb(a, b)
    ensures forall ep :: ep in a.episodes ==>
              b.episodes[ep].cycle == a.episodes[ep].cycle && b.episodes[ep].expiresAt == a.episodes[ep].expiresAt
    ensures forall cy :: cy in a.cycles ==> b.cycles[cy].expiresAt == a.cycles[cy].expiresAt
    ensures forall id :: id in a.tasks ==> b.tasks[id].def == a.tasks[id].def
  {
    assert forall ep :: ep in a.episodes ==> EndedEpisode(a.episodes[ep], b.episodes[ep]);
    assert forall cy :: cy in a.cycles ==> EndedCycle(a.cycles[cy], b.cycles[cy]);
    assert forall id :: id in a.tasks ==> SweptRow(a.tasks[id], b.tasks[id]);
  }

  lemma {:induction false} SweepKeepsWired(a: Db, b: Db)
    requires Wired(a) && SweptDb(a, b)
    ensures Wired(b)
  {
    SweepKeepsWindows(a, b);
    WiredFrame(a, b);
  }

  lemma SweepKeepsTaskInv(a: Db, b: Db)
    requires TaskInv(a) && SweptDb(a, b)
    ensures TaskInv(b)
  {
    SweepKeepsWired(a, b);
    SweepKeepsRows(a.tasks, b.tasks);
    forall ep | ep in b.executions ensures |RunningOf(b.tasks, ep)| <= b.executions[ep].plan.budget.parallel {
      SweepShrinksRunning(a.tasks, b.tasks, ep);
    }
  }

  lemma SweepKeepsCritiques(a: Db, b: Db, except: set<Id>)
    requires CritiquesMatch(a, except) && SweptDb(a, b)
    ensures CritiquesMatch(b, except)
  {
    forall id | id !in except ensures id in b.critiques <==> IsCritic(b, id) && b.tasks[id].status.Deferred? {
      assert id in a.tasks ==> SweptRow(a.tasks[id], b.tasks[id]);
    }
  }

  lemma FinishIsSweep(ts: Tasks, picked: set<Id>, status: TaskStatus)
    requires status.Skipped? || status.TimedOut? || status.Cancelled?
    requires forall id :: id in picked && id in ts ==> ts[id].status.Unfinished()
    ensures SweptTasks(ts, Finish(ts, picked, status))
  {
  }

  lemma SkipIsSweep(ts: Tasks, scope: set<Id>)
    ensures SweptTasks(ts, SkipBlocked(ts, scope))
  {
    forall d | d in BlockedSet(ts, scope) ensures ts[d].status.Unfinished() {
      var p :| BlockedPath(ts, scope, p) && p[0] == d;
      assert Waiting(ts, scope, p[0]);
    }
    FinishIsSweep(ts, BlockedSet(ts, scope), Skipped);
  }

  lemma CloseOverdueIsSweep(db: Db, ep: Id, n: Time)
    ensures SweptDb(db, CloseOverdue(db, ep, n))
  {
    FinishIsSweep(db.tasks, UnfinishedOf(db.tasks, ep), TimedOut);
  }

  lemma SweptDbReflexive(db: Db)
    ensures SweptDb(db, db)
  {
  }

  lemma EndEpisodeIsSweep(db: Db, ep: Id, ending: Ending, reason: string)
    requires ep in db.episodes && db.episodes[ep].state.Live?
    ensures SweptDb(db, EndEpisode(db, ep, ending, reason))
  {
    SweptDbReflexive(db);
  }

  lemma EndCycleIsSweep(db: Db, cy: Id, ending: Ending, reason: string)
    requires cy in db.cycles && db.cycles[cy].state.Live?
    ensures SweptDb(db, EndCycle(db, cy, ending, reason))
  {
    SweptDbReflexive(db);
  }

  lemma CloseSettledIsSweep(db: Db, ep: Id)
    ensures SweptDb(db, CloseSettled(db, ep))
  {
    SweptDbReflexive(db);
    if ep in db.episodes && db.episodes[ep].state.Live? {
      EndEpisodeIsSweep(db, ep, if AllTasksCompleted(db.tasks, ep) then AllCompleted else SomeDeferred,
          "all_tasks_terminal");
    }
  }

  lemma CloseCycleIsSweep(db: Db, cy: Id, n: Time)
    ensures SweptDb(db, CloseCycle(db, cy, n))
  {
    SweptDbReflexive(db);
    if cy in db.cycles && db.cycles[cy].state.Live? {
      EndCycleIsSweep(db, cy, ByDeadline, "deadline_exceeded");
      EndCycleIsSweep(db, cy, AllCompleted, "all_episodes_terminal");
      EndCycleIsSweep(db, cy, SomeDeferred, "all_episodes_terminal");
    }
  }

  lemma CloseEpisodeIsSweep(db: Db, ep: Id, n: Time)
    ensures SweptDb(db, CloseEpisode(db, ep, n))
  {
    SweptDbReflexive(db);
    if ep in db.episodes {
      var d1 := CloseOverdue(db, ep, n);
      var d2 := CloseSettled(d1, ep);
      CloseOverdueIsSweep(db, ep, n);
      CloseSettledIsSweep(d1, ep);
      SweptDbTransitive(db, d1, d2);
      CloseCycleIsSweep(d2, db.episodes[ep].cycle, n);
      SweptDbTransitive(db, d2, CloseCycle(d2, db.episodes[ep].cycle, n));
    }
  }
}
