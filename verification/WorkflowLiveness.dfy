/** An accepted plan, with or without a Critic, can be worked off exactly when its
    dependencies are acyclic; otherwise it can deadlock. */
module WorkflowLiveness {
  import opened Common
  import opened WorkflowModel
  import opened SkipPropagation
  import opened PlanValidation
  import opened WorkflowSteps
  import opened WorkflowInvariants
  import opened WorkflowClosing
  import opened WorkflowSafety
  import opened WorkflowFencing
  import opened WorkflowProgress
  import opened WorkflowFanIn

  // ---- The results a diligent worker would report ------------------------------

  /** One artifact per declared output.  A worker that keeps its tasks apart names
      it by the task; otherwise two tasks that declare the same kind report the
      same artifact. */
  function Output(def: TaskDef, apart: bool, kind: Kind): Artifact {
    Artifact(if apart then def.taskId else 0, kind, 0, 0, 0)
  }

  function Outputs(def: TaskDef, apart: bool): (a: seq<Artifact>) {
    seq(|def.step.outputs|, i requires 0 <= i < |def.step.outputs| => Output(def, apart, def.step.outputs[i]))
  }

  function GoodDoc(def: TaskDef, apart: bool): ResultDoc {
    ResultDoc(TaskResult(def.taskId, Completed, Outputs(def, apart), [], []), 0, 0)
  }

  /** A row that a diligent worker has finished or can still finish. */
  ghost predicate OnTrack(t: Task, n: Time, apart: bool) {
    && t.def.deadline > n && t.def.step.outputs != []
    && ((t.status.Pending? && t.doc.None?) || Worked(t, apart))
  }

  /** What the worker leaves behind: a Critic task is never COMPLETED. */
  ghost predicate Worked(t: Task, apart: bool) {
    if t.def.step.role.PreTradeCritic? then t.status.Deferred? && t.doc == Some(CriticResult(t.def.taskId))
    else t.status.Completed? && t.doc == Some(GoodDoc(t.def, apart))
  }

  ghost predicate AllOnTrack(ts: Tasks, ep: Id, n: Time, apart: bool) {
    forall id :: id in ts && ts[id].def.episode == ep ==> OnTrack(ts[id], n, apart)
  }

  ghost predicate Driving(db: Db, ep: Id, n: Time, apart: bool) {
    Inv(db) && ep in db.executions && Open(db, ep, n) && AllOnTrack(db.tasks, ep, n, apart)
  }

  lemma GoodDocIsValid(def: TaskDef, apart: bool)
    requires def.step.outputs != []
    ensures ValidDoc(def, GoodDoc(def, apart).result)
  {
    assert Kinds(Outputs(def, apart)) == def.step.outputs;
  }

  // ---- A sweep changes nothing ---------------------------------------------------

  /** No row of the episode depends on a Critic. */
  ghost predicate CriticsLast(ts: Tasks, ep: Id) {
    forall d, u :: DependsOn(ts, d, u) && ts[d].def.episode == ep ==> !ts[u].def.step.role.PreTradeCritic?
  }

  lemma RowsEndInCritics(db: Db, ep: Id)
    requires Inv(db)
    ensures CriticsLast(db.tasks, ep)
  {
    forall d, u | DependsOn(db.tasks, d, u) && db.tasks[d].def.episode == ep
      ensures !db.tasks[u].def.step.role.PreTradeCritic?
    {
      RowIsStep(db, d);
      RowIsStep(db, u);
      if db.tasks[u].def.step.role.PreTradeCritic? {
        RowCritic(db, u);
      }
    }
  }

  /** A Critic row and its plan. */
  lemma RowCritic(db: Db, id: Id)
    requires Inv(db) && IsCritic(db, id)
    ensures var ep := db.tasks[id].def.episode;
            && ep in db.executions && ValidCriticStep(db.executions[ep].plan.steps, db.tasks[id].def.step)
            && forall s :: s in db.executions[ep].plan.steps ==> db.tasks[id].def.step.key !in s.dependsOn
  {
    var ep := db.tasks[id].def.episode;
    RowIsStep(db, id);
    OpenInv(db);
    assert Planned(db, ep);
    CriticIsLast(db.episodes, ep, db.executions[ep], db.tasks[id].def.step);
  }

  /** A Critic that ended DEFERRED blocks no one. */
  lemma NothingBlocked(ts: Tasks, ep: Id, n: Time, apart: bool)
    requires AllOnTrack(ts, ep, n, apart) && CriticsLast(ts, ep)
    ensures SkipBlocked(ts, {ep}) == ts
  {
    forall d | d in ts ensures d !in Layer(ts, {ep}) {
      forall u | DependsOn(ts, d, u) && ts[d].def.episode == ep ensures !ts[u].status.Blocking() {
        assert OnTrack(ts[u], n, apart);
      }
    }
    EmptyLayerIsFixpoint(ts, {ep});
  }

  lemma OpenStays(db: Db, ep: Id, n: Time)
    requires Open(db, ep, n) && UnfinishedOf(db.tasks, ep) != {}
    ensures CloseEpisode(db, ep, n) == db
  {
    assert ep in LiveEpisodesOf(db, db.episodes[ep].cycle);
  }

  lemma DrivingBusy(db: Db, ep: Id, n: Time, apart: bool)
    requires Driving(db, ep, n, apart)
    ensures UnfinishedOf(db.tasks, ep) != {} && RunningOf(db.tasks, ep) == {}
  {
    OpenInv(db);
    assert EpisodeBusy(db, ep);
    forall id | id in db.tasks && db.tasks[id].def.episode == ep ensures !db.tasks[id].status.Running? {
      assert OnTrack(db.tasks[id], n, apart);
    }
  }

  lemma TrackIsSwept(ts: Tasks, ep: Id, n: Time, apart: bool)
    requires AllOnTrack(ts, ep, n, apart) && CriticsLast(ts, ep)
    ensures SweptTable(ts, ep, n) == ts
  {
    assert Expired(ts, ep, n) == {};
    assert Requeue(ts, {}) == ts;
    assert Late(ts, {ep}, n) == {};
    assert Finish(ts, {}, TimedOut) == ts;
    NothingBlocked(ts, ep, n, apart);
  }

  lemma DrivingIsSwept(db: Db, ep: Id, n: Time, apart: bool)
    requires Driving(db, ep, n, apart)
    ensures Swept(db, ep, n, n, n) == db && RunningOf(db.tasks, ep) == {}
  {
    DrivingBusy(db, ep, n, apart);
    OpenStays(db, ep, n);
    RowsEndInCritics(db, ep);
    TrackIsSwept(db.tasks, ep, n, apart);
  }

  // ---- The fan-in is unambiguous ---------------------------------------------------

  lemma TaskIdIs(db: Db, id: Id)
    requires Inv(db) && id in db.tasks
    ensures db.tasks[id].def.taskId == id
  {
    OpenInv(db);
    assert TaskWired(db, id);
  }

  /** On track, an artifact carries the id of the task that reported it. */
  lemma TrackReports(db: Db, ep: Id, n: Time, key: StepKey, a: Artifact) returns (u: Id)
    requires Driving(db, ep, n, true) && Reports(db.tasks, ep, key, a)
    ensures RowAt(db.tasks, ep, key, u) && a.id == u
  {
    u :| RowAt(db.tasks, ep, key, u) && a in ArtifactsOf(db.tasks, u);
    TaskIdIs(db, u);
    assert OnTrack(db.tasks[u], n, true);
  }

  lemma MergedApart(db: Db, ep: Id, n: Time, id: Id)
    requires Driving(db, ep, n, true) && id in db.tasks && db.tasks[id].def.episode == ep
    ensures !FanInClash(db.tasks, id)
  {
    var deps := db.tasks[id].def.step.dependsOn;
    forall key, other, a | key in deps && other in deps && Reports(db.tasks, ep, key, a) &&
        Reports(db.tasks, ep, other, a)
      ensures key == other
    {
      var u := TrackReports(db, ep, n, key, a);
      var v := TrackReports(db, ep, n, other, a);
    }
    FanInClashIff(db, id);
  }

  // ---- One task ---------------------------------------------------------------------

  function ClaimNow(ep: Id, n: Time): Command {
    DoClaim(ep, "", 1, n, n, n)
  }

  lemma DecideHands(s: Db, ep: Id, limit: int, worker: string, n: Time, until: Time) returns (id: Id)
    requires Ready(s, ep, n) != {} && |Leased(s.tasks, ep, n)| < limit
    ensures id in Ready(s, ep, n)
    ensures Decide(s, ep, limit, worker, n, until).0 == s.(tasks := Lease(s.tasks, id, worker, until))
  {
    DecideTokens(s, ep, limit, worker, n, until);
    id := Decide(s, ep, limit, worker, n, until).1.task;
  }

  lemma ClaimOnSwept(db: Db, ep: Id, n: Time, limit: int, until: Time)
    requires Inv(db) && ep in db.executions && Swept(db, ep, n, n, n) == db && !AmbiguousFanIn(db, ep, n)
    requires limit == db.executions[ep].plan.budget.parallel && until == LeaseEnd(n, 1)
    ensures Apply(db, ClaimNow(ep, n)) == Decide(db, ep, limit, "", n, until).0
  {
    NoDrift(db, ep);
    ClaimFrom(db, ep, "", 1, n, n, n, limit, until);
  }

  /** No ready task repeats an input. */
  ghost predicate ReadyApart(db: Db, ep: Id, n: Time) {
    forall t {:trigger FanInClash(db.tasks, t)} :: t in Ready(db, ep, n) ==> !FanInClash(db.tasks, t)
  }

  lemma ClaimWorks(db: Db, ep: Id, n: Time, apart: bool) returns (id: Id)
    requires Driving(db, ep, n, apart) && Ready(db, ep, n) != {} && ReadyApart(db, ep, n)
    ensures id in Ready(db, ep, n)
    ensures Apply(db, ClaimNow(ep, n)) == db.(tasks := Lease(db.tasks, id, "", LeaseEnd(n, 1)))
  {
    DrivingIsSwept(db, ep, n, apart);
    LimitIsPositive(db, ep);
    assert Leased(db.tasks, ep, n) <= RunningOf(db.tasks, ep);
    var limit, until := db.executions[ep].plan.budget.parallel, LeaseEnd(n, 1);
    ClaimOnSwept(db, ep, n, limit, until);
    id := DecideHands(db, ep, limit, "", n, until);
  }

  ghost function PendingOf(ts: Tasks, ep: Id): set<Id> {
    set id | id in ts && ts[id].def.episode == ep && ts[id].status.Pending?
  }

  lemma RunTwo(db: Db, c: Command, c': Command)
    ensures Run(db, [c, c']) == Apply(Apply(db, c), c')
  {
    assert [c, c'][..1] == [c] && [c][..0] == [];
    assert Run(db, [c]) == Apply(Run(db, []), c);
    assert Run(db, [c, c']) == Apply(Run(db, [c]), c');
  }

  lemma LeasedHolds(db: Db, ep: Id, n: Time, apart: bool, id: Id)
    requires Driving(db, ep, n, apart) && id in Ready(db, ep, n)
    ensures var d := db.(tasks := Lease(db.tasks, id, "", LeaseEnd(n, 1)));
            HoldsLease(d, d.tasks[id], d.tasks[id].version, d.tasks[id].fencing, n) && OnTrack(db.tasks[id], n, apart)
  {
    assert OnTrack(db.tasks[id], n, apart);
  }

  /** The episode is over: its Critic, if there is one, is DEFERRED with its critique
      stored, and every other task is COMPLETED. */
  ghost predicate WorkedOff(db: Db, ep: Id) {
    && ep in db.episodes && db.episodes[ep].state.Ended?
    && db.episodes[ep].state.ending == (if HasCritic(db.tasks, ep) then SomeDeferred else AllCompleted)
    && forall id :: id in db.tasks && db.tasks[id].def.episode == ep ==> RowWorkedOff(db, id)
  }

  ghost predicate RowWorkedOff(db: Db, id: Id) {
    id in db.tasks &&
    if IsCritic(db, id) then db.tasks[id].status.Deferred? && id in db.critiques else db.tasks[id].status.Completed?
  }

  ghost predicate HasCritic(ts: Tasks, ep: Id) {
    exists id :: id in ts && ts[id].def.episode == ep && ts[id].def.step.role.PreTradeCritic?
  }

  /** The result that the worker reports for a task. */
  function DocFor(def: TaskDef, apart: bool): ResultDoc {
    if def.step.role.PreTradeCritic? then CriticResult(def.taskId) else GoodDoc(def, apart)
  }

  /** The table once the leased row has been reported. */
  function Reported(ts: Tasks, id: Id, apart: bool): Tasks
    requires id in ts
  {
    ts[id := Report(ts[id], DocFor(ts[id].def, apart))]
  }

  /** Closing with the result written; nothing is skipped, as all is on track. */
  ghost function ClosedWith(d: Db, id: Id, apart: bool, n: Time): Db
    requires id in d.tasks
  {
    var ep := d.tasks[id].def.episode;
    CloseEpisode(d.(tasks := SkipBlocked(Reported(d.tasks, id, apart), {ep})), ep, n)
  }

  /** e differs from d in critiques and revisions only. */
  ghost predicate SameWork(d: Db, e: Db) {
    e.tasks == d.tasks && e.episodes == d.episodes && e.executions == d.executions
  }

  // ---- A Critic task ------------------------------------------------------------------

  lemma CriticDependency(db: Db, id: Id) returns (key: StepKey, u: Id)
    requires Inv(db) && IsCritic(db, id)
    ensures db.tasks[id].def.step.dependsOn == [key] && DependsOn(db.tasks, id, u)
    ensures RowAt(db.tasks, db.tasks[id].def.episode, key, u)
    ensures !IsCritic(db, u) && |db.tasks[u].def.step.outputs| == 3
  {
    RowCritic(db, id);
    var steps := db.executions[db.tasks[id].def.episode].plan.steps;
    var step := db.tasks[id].def.step;
    key := step.dependsOn[0];
    var s :| s in steps && s.key == key && s.role.Research? &&
        s.outputs == [Hypothesis, EvidenceSynthesis, ExperimentRequest];
    u := DepRow(db, id, key);
    RowIsStep(db, u);
    assert db.tasks[u].def.step == s;
  }

  /** A Critic that is ready sees three artifacts. */
  lemma CriticSeesThree(db: Db, ep: Id, n: Time, apart: bool, id: Id)
    requires Driving(db, ep, n, apart) && id in Ready(db, ep, n) && IsCritic(db, id)
    ensures |Upstream(db.tasks, ep, db.tasks[id].def.step.dependsOn)| == 3
  {
    var key, u := CriticDependency(db, id);
    assert db.tasks[u].status.Completed? && OnTrack(db.tasks[u], n, apart);
    UpstreamStep(db, ep, [key], u);
    assert [key][1..] == [];
  }

  function ReserveNow(ep: Id): Command {
    DoReserve(ep, 0, 0, true)
  }

  lemma ReserveAdds(d: Db, ep: Id)
    requires Inv(d) && ep in d.episodes && forall q :: q in d.revisions ==> q.episode != ep
    ensures ReserveRevision(d, ep, 0, 0, true).0 == d.(revisions := d.revisions + {Revision(ep, 0, 0, 1)})
  {
  }

  lemma ReserveRepeats(d: Db, ep: Id, q: Revision)
    requires Inv(d) && q in d.revisions && q.episode == ep
    ensures ReserveRevision(d, ep, 0, 0, true).0 == d && q == Revision(ep, q.hypothesis, q.evaluation, 1)
  {
    OpenInv(d);
  }

  /** After it the episode has its evaluation reserved, by this call or before. */
  lemma ReserveWorks(d: Db, ep: Id) returns (r: Revision)
    requires Inv(d) && ep in d.episodes
    ensures r in Apply(d, ReserveNow(ep)).revisions && r == Revision(ep, r.hypothesis, r.evaluation, 1)
    ensures SameWork(d, Apply(d, ReserveNow(ep))) && Apply(d, ReserveNow(ep)).cycles == d.cycles
  {
    if q :| q in d.revisions && q.episode == ep {
      ReserveRepeats(d, ep, q);
      r := q;
    } else {
      ReserveAdds(d, ep);
      r := Revision(ep, 0, 0, 1);
    }
  }

  /** A critique within the time of its task. */
  function CritiqueFor(def: TaskDef, evaluation: Id, n: Time): CritiqueRow {
    CritiqueRow(Artifact(0, Critique, 0, 0, 0), 0, n, def.deadline, 0, evaluation)
  }

  function CriticNow(t: Task, r: Revision, n: Time): Command {
    DoCritic(t.def.taskId, t.version, t.fencing, CritiqueFor(t.def, r.evaluation, n), r.hypothesis,
        PayloadCheck(true, n), n, n)
  }

  lemma CriticCloses(d: Db, id: Id, n: Time, apart: bool)
    requires Inv(d) && IsCritic(d, id) && HoldsLease(d, d.tasks[id], d.tasks[id].version, d.tasks[id].fencing, n)
    ensures CompleteLegacy(d, id, d.tasks[id].version, d.tasks[id].fencing, CriticResult(id), true, n, n) ==
              (ClosedWith(d, id, apart, n), true)
  {
    TaskIdIs(d, id);
    assert ValidDoc(d.tasks[id].def, CriticResult(id).result);
  }

  lemma RunningHasNoCritique(d: Db, id: Id)
    requires Inv(d) && id in d.tasks && d.tasks[id].status.Running?
    ensures id !in d.critiques
  {
    OpenInv(d);
  }

  /** What complete_critic_workflow_task asks before it closes the task. */
  lemma CriticPasses(d: Db, id: Id, r: Revision, n: Time, version: int, fencing: int)
    requires IsCritic(d, id) && d.tasks[id].def.deadline > n
    requires |Upstream(d.tasks, d.tasks[id].def.episode, d.tasks[id].def.step.dependsOn)| == 3
    requires r in d.revisions && r == Revision(d.tasks[id].def.episode, r.hypothesis, r.evaluation, 1)
    ensures var row := CritiqueFor(d.tasks[id].def, r.evaluation, n);
            CompleteCritic(d, id, version, fencing, row, r.hypothesis, PayloadCheck(true, n), n, n) ==
              FileCritique(d, id, version, fencing, row, n, n)
  {
  }

  /** complete_critic_workflow_task answers TRUE. */
  lemma CriticWorks(d: Db, id: Id, r: Revision, n: Time, apart: bool)
    requires Inv(d) && IsCritic(d, id) && HoldsLease(d, d.tasks[id], d.tasks[id].version, d.tasks[id].fencing, n)
    requires |Upstream(d.tasks, d.tasks[id].def.episode, d.tasks[id].def.step.dependsOn)| == 3
    requires r in d.revisions && r == Revision(d.tasks[id].def.episode, r.hypothesis, r.evaluation, 1)
    ensures var row := CritiqueFor(d.tasks[id].def, r.evaluation, n);
            var (e, ok) := CompleteCritic(
              d, id, d.tasks[id].version, d.tasks[id].fencing, row, r.hypothesis, PayloadCheck(true, n), n, n);
            ok && SameWork(ClosedWith(d, id, apart, n), e)
  {
    var version, fencing := d.tasks[id].version, d.tasks[id].fencing;
    RunningHasNoCritique(d, id);
    CriticCloses(d, id, n, apart);
    CriticPasses(d, id, r, n, version, fencing);
    FilesCritique(d, id, version, fencing, CritiqueFor(d.tasks[id].def, r.evaluation, n), n, n);
  }

  lemma FilesCritique(d: Db, id: Id, version: int, fencing: int, row: CritiqueRow, n: Time, n1: Time)
    requires id !in d.critiques && CompleteLegacy(d, id, version, fencing, CriticResult(id), true, n, n1).1
    ensures FileCritique(d, id, version, fencing, row, n, n1).1
    ensures SameWork(CompleteLegacy(d, id, version, fencing, CriticResult(id), true, n, n1).0,
                     FileCritique(d, id, version, fencing, row, n, n1).0)
  {
  }

  // ---- A task with artifacts ------------------------------------------------------------

  function ReportNow(t: Task, apart: bool, n: Time): Command {
    DoComplete(t.def.taskId, t.version, t.fencing, GoodDoc(t.def, apart), true, n, n)
  }

  lemma ReportWorks(d: Db, id: Id, n: Time, apart: bool)
    requires Inv(d) && id in d.tasks && HoldsLease(d, d.tasks[id], d.tasks[id].version, d.tasks[id].fencing, n)
    requires !IsCritic(d, id) && d.tasks[id].def.step.outputs != []
    ensures Apply(d, ReportNow(d.tasks[id], apart, n)) == ClosedWith(d, id, apart, n)
  {
    TaskIdIs(d, id);
    GoodDocIsValid(d.tasks[id].def, apart);
  }

  // ---- Any task -----------------------------------------------------------------------

  /** A claimed Critic task is reported once its evaluation is reserved. */
  lemma {:induction false} ReportCritic(d: Db, ep: Id, n: Time, apart: bool, id: Id) returns (cs: seq<Command>)
    requires Inv(d) && IsCritic(d, id) && d.tasks[id].def.episode == ep
    requires HoldsLease(d, d.tasks[id], d.tasks[id].version, d.tasks[id].fencing, n)
    requires |Upstream(d.tasks, ep, d.tasks[id].def.step.dependsOn)| == 3
    ensures Inv(Run(d, cs)) && SameWork(ClosedWith(d, id, apart, n), Run(d, cs))
  {
    var r := ReserveWorks(d, ep);
    var e := Apply(d, ReserveNow(ep));
    ApplyKeeps(d, ReserveNow(ep));
    TaskIdIs(d, id);
    CriticWorks(e, id, r, n, apart);
    SameClose(d, e, id, apart, n);
    ApplyKeeps(e, CriticNow(d.tasks[id], r, n));
    cs := [ReserveNow(ep), CriticNow(d.tasks[id], r, n)];
    RunTwo(d, ReserveNow(ep), CriticNow(d.tasks[id], r, n));
  }

  lemma {:induction false} ReportTask(d: Db, ep: Id, n: Time, apart: bool, id: Id) returns (cs: seq<Command>)
    requires Inv(d) && id in d.tasks && d.tasks[id].def.episode == ep && d.tasks[id].def.step.outputs != []
    requires HoldsLease(d, d.tasks[id], d.tasks[id].version, d.tasks[id].fencing, n)
    requires IsCritic(d, id) ==> |Upstream(d.tasks, ep, d.tasks[id].def.step.dependsOn)| == 3
    ensures Inv(Run(d, cs)) && SameWork(ClosedWith(d, id, apart, n), Run(d, cs))
  {
    if IsCritic(d, id) {
      cs := ReportCritic(d, ep, n, apart, id);
    } else {
      ReportWorks(d, id, n, apart);
      ApplyKeeps(d, ReportNow(d.tasks[id], apart, n));
      cs := [ReportNow(d.tasks[id], apart, n)];
      RunOne(d, ReportNow(d.tasks[id], apart, n));
    }
  }

  /** Closing reads neither critiques nor revisions. */
  lemma SameClose(d: Db, e: Db, id: Id, apart: bool, n: Time)
    requires SameWork(d, e) && e.cycles == d.cycles && id in d.tasks
    ensures SameWork(ClosedWith(d, id, apart, n), ClosedWith(e, id, apart, n))
  {
    var ep := d.tasks[id].def.episode;
    var ts := SkipBlocked(Reported(d.tasks, id, apart), {ep});
    CloseSame(d.(tasks := ts), e.(tasks := ts), ep, n);
  }

  lemma CloseSame(d: Db, e: Db, ep: Id, n: Time)
    requires SameWork(d, e) && e.cycles == d.cycles
    ensures SameWork(CloseEpisode(d, ep, n), CloseEpisode(e, ep, n))
  {
    if ep in d.episodes {
      var d1, e1 := CloseOverdue(d, ep, n), CloseOverdue(e, ep, n);
      assert SameWork(d1, e1);
      var d2, e2 := CloseSettled(d1, ep), CloseSettled(e1, ep);
      assert SameWork(d2, e2);
      ClosingCycleKeeps(d2, d.episodes[ep].cycle, n);
      ClosingCycleKeeps(e2, d.episodes[ep].cycle, n);
    }
  }

  lemma RunOne(db: Db, c: Command)
    ensures Run(db, [c]) == Apply(db, c)
  {
    assert [c][..0] == [];
    assert Run(db, [c]) == Apply(Run(db, []), c);
  }

  /** Claiming and completing one task: the episode is worked off, or there is one
      task less to do. */
  lemma {:induction false} OneTask(db: Db, ep: Id, n: Time, apart: bool) returns (cs: seq<Command>, id: Id)
    requires Driving(db, ep, n, apart) && Ready(db, ep, n) != {} && ReadyApart(db, ep, n)
    ensures id in Ready(db, ep, n) && PendingOf(Run(db, cs).tasks, ep) == PendingOf(db.tasks, ep) - {id}
    ensures Run(db, cs).executions == db.executions
    ensures WorkedOff(Run(db, cs), ep) || Driving(Run(db, cs), ep, n, apart)
  {
    id := ClaimWorks(db, ep, n, apart);
    var d := db.(tasks := Lease(db.tasks, id, "", LeaseEnd(n, 1)));
    ApplyKeeps(db, ClaimNow(ep, n));
    LeasedHolds(db, ep, n, apart, id);
    LeasedSeesThree(db, ep, n, apart, id);
    var report := ReportTask(d, ep, n, apart, id);
    cs := [ClaimNow(ep, n)] + report;
    RunConcat(db, [ClaimNow(ep, n)], report);
    RunOne(db, ClaimNow(ep, n));
    TaskFinished(db, d, ep, n, apart, id, Run(d, report));
  }

  lemma LeasedSeesThree(db: Db, ep: Id, n: Time, apart: bool, id: Id)
    requires Driving(db, ep, n, apart) && id in Ready(db, ep, n)
    ensures var ts := Lease(db.tasks, id, "", LeaseEnd(n, 1));
            IsCritic(db, id) ==> |Upstream(ts, ep, ts[id].def.step.dependsOn)| == 3
  {
    if IsCritic(db, id) {
      CriticSeesThree(db, ep, n, apart, id);
      LeaseLeavesArtifacts(db, id, "", LeaseEnd(n, 1), ep, db.tasks[id].def.step.dependsOn);
    }
  }

  /** The task table once the leased row has been reported. */
  lemma TrackAdvances(ts: Tasks, ep: Id, n: Time, apart: bool, id: Id, after: Tasks)
    requires AllOnTrack(ts, ep, n, apart)
    requires id in ts && ts[id].def.episode == ep && ts[id].status.Pending?
    requires after == Reported(Lease(ts, id, "", LeaseEnd(n, 1)), id, apart)
    ensures AllOnTrack(after, ep, n, apart)
    ensures PendingOf(after, ep) == PendingOf(ts, ep) - {id}
    ensures CriticsLast(ts, ep) ==> CriticsLast(after, ep)
  {
    forall x | x in after && after[x].def.episode == ep ensures OnTrack(after[x], n, apart) {
      assert OnTrack(ts[x], n, apart);
    }
    forall x ensures x in PendingOf(after, ep) <==> x in PendingOf(ts, ep) && x != id {
    }
    if CriticsLast(ts, ep) {
      forall d, u | DependsOn(after, d, u) && after[d].def.episode == ep
        ensures !after[u].def.step.role.PreTradeCritic?
      {
        assert DependsOn(ts, d, u);
      }
    }
  }

  /** Closing an episode before its time ends it exactly when no task is left. */
  lemma OpenCloses(d: Db, ep: Id, n: Time)
    requires Open(d, ep, n)
    ensures CloseEpisode(d, ep, n).executions == d.executions && CloseEpisode(d, ep, n).tasks == d.tasks
    ensures UnfinishedOf(d.tasks, ep) == {} ==>
              ep in CloseEpisode(d, ep, n).episodes && CloseEpisode(d, ep, n).episodes[ep].state ==
                Ended(if AllTasksCompleted(d.tasks, ep) then AllCompleted else SomeDeferred, "all_tasks_terminal")
  {
    assert CloseOverdue(d, ep, n) == d;
    var s := CloseSettled(d, ep);
    assert s.executions == d.executions && s.tasks == d.tasks;
    ClosingCycleKeeps(s, d.episodes[ep].cycle, n);
  }

  /** Without unfinished rows, all are COMPLETED but for the Critic. */
  lemma TrackEnds(e: Db, ep: Id, n: Time, apart: bool)
    requires AllOnTrack(e.tasks, ep, n, apart) && UnfinishedOf(e.tasks, ep) == {} && Inv(e)
    ensures forall x :: x in e.tasks && e.tasks[x].def.episode == ep ==> RowWorkedOff(e, x)
    ensures AllTasksCompleted(e.tasks, ep) <==> !HasCritic(e.tasks, ep)
  {
    OpenInv(e);
    forall x | x in e.tasks && e.tasks[x].def.episode == ep ensures RowWorkedOff(e, x) {
      assert x !in UnfinishedOf(e.tasks, ep) && OnTrack(e.tasks[x], n, apart);
    }
    if !HasCritic(e.tasks, ep) {
      forall x | x in e.tasks && e.tasks[x].def.episode == ep ensures e.tasks[x].status.Completed? {
        assert RowWorkedOff(e, x);
      }
    } else {
      var x :| x in e.tasks && e.tasks[x].def.episode == ep && e.tasks[x].def.step.role.PreTradeCritic?;
      assert RowWorkedOff(e, x);
    }
  }

  lemma TrackCloses(d: Db, e: Db, ep: Id, n: Time, apart: bool)
    requires Open(d, ep, n) && ep in d.executions && SameWork(CloseEpisode(d, ep, n), e) && Inv(e)
    requires AllOnTrack(d.tasks, ep, n, apart)
    ensures e.executions == d.executions && e.tasks == d.tasks
    ensures WorkedOff(e, ep) || Driving(e, ep, n, apart)
  {
    OpenCloses(d, ep, n);
    if UnfinishedOf(d.tasks, ep) != {} {
      OpenStays(d, ep, n);
    } else {
      TrackEnds(e, ep, n, apart);
    }
  }

  lemma ReadyRow(db: Db, ep: Id, n: Time, id: Id)
    requires id in Ready(db, ep, n)
    ensures Open(db, ep, n) && id in db.tasks && db.tasks[id].def.episode == ep && db.tasks[id].status.Pending?
  {
  }

  lemma TaskFinished(db: Db, d: Db, ep: Id, n: Time, apart: bool, id: Id, e: Db)
    requires Driving(db, ep, n, apart) && id in Ready(db, ep, n)
    requires d == db.(tasks := Lease(db.tasks, id, "", LeaseEnd(n, 1)))
    requires SameWork(ClosedWith(d, id, apart, n), e) && Inv(e)
    ensures e.executions == db.executions && PendingOf(e.tasks, ep) == PendingOf(db.tasks, ep) - {id}
    ensures WorkedOff(e, ep) || Driving(e, ep, n, apart)
  {
    var ts := Reported(d.tasks, id, apart);
    ReadyRow(db, ep, n, id);
    RowsEndInCritics(db, ep);
    TrackAdvances(db.tasks, ep, n, apart, id, ts);
    NothingBlocked(ts, ep, n, apart);
    TrackCloses(d.(tasks := ts), e, ep, n, apart);
  }

  // ---- The whole plan ------------------------------------------------------------------

  lemma {:induction false} RunConcat(db: Db, a: seq<Command>, b: seq<Command>)
    ensures Run(db, a + b) == Run(Run(db, a), b)
  {
    if b == [] {
      assert a + b == a;
    } else {
      assert (a + b)[..|a + b| - 1] == a + b[..|b| - 1];
      RunConcat(db, a, b[..|b| - 1]);
    }
  }

  /** Work until nothing is ready: the episode is worked off or stuck. */
  lemma {:induction false} WorkOff(db: Db, ep: Id, n: Time) returns (cs: seq<Command>)
    requires Driving(db, ep, n, true)
    ensures Run(db, cs).executions == db.executions
    ensures WorkedOff(Run(db, cs), ep) || (Driving(Run(db, cs), ep, n, true) && Ready(Run(db, cs), ep, n) == {})
    decreases PendingOf(db.tasks, ep)
  {
    if Ready(db, ep, n) == {} {
      cs := [];
    } else {
      forall t | t in Ready(db, ep, n) ensures !FanInClash(db.tasks, t) {
        MergedApart(db, ep, n, t);
      }
      var first, id := OneTask(db, ep, n, true);
      if WorkedOff(Run(db, first), ep) {
        cs := first;
      } else {
        ReadyRow(db, ep, n, id);
        assert id in PendingOf(db.tasks, ep);
        var rest := WorkOff(Run(db, first), ep, n);
        cs := first + rest;
        RunConcat(db, first, rest);
      }
    }
  }

  /** A claim that finds the episode running, nothing leased and nothing to hand out. */
  ghost predicate Deadlocks(db: Db, ep: Id, n: Time) {
    && Inv(db) && ep in db.executions && Stuck(Swept(db, ep, n, n, n), ep, n)
    && Claim(db, ep, "", 1, n, n, n).1 == Done(NoTask)
  }

  /** What a plan looks like right after it was accepted: all rows PENDING, with
      their deadlines ahead. */
  ghost predicate JustPersisted(db: Db, ep: Id, n: Time) {
    && Inv(db) && ep in db.executions && Open(db, ep, n)
    && (forall id :: id in db.tasks && db.tasks[id].def.episode == ep ==>
          db.tasks[id].status.Pending? && db.tasks[id].def.deadline > n)
  }

  lemma RowOf(db: Db, id: Id)
    requires Inv(db) && id in db.tasks
    ensures RowOk(db.tasks[id])
  {
    OpenInv(db);
  }

  lemma PersistedIsDriving(db: Db, ep: Id, n: Time, apart: bool)
    requires JustPersisted(db, ep, n)
    ensures Driving(db, ep, n, apart)
  {
    forall id | id in db.tasks && db.tasks[id].def.episode == ep ensures OnTrack(db.tasks[id], n, apart) {
      RowIsStep(db, id);
      RowOf(db, id);
      OpenInv(db);
      assert Planned(db, ep);
      StepHasDef(db.episodes, ep, db.executions[ep], db.tasks[id].def.step);
    }
  }

  lemma {:induction false} RunUntouched(db: Db, cs: seq<Command>, ep: Id, trap: set<StepKey>)
    requires Inv(db) && Untouched(db, ep, trap) && ep in db.executions && Trap(db.executions[ep].plan.steps, trap)
    ensures Untouched(Run(db, cs), ep, trap)
  {
    if cs != [] {
      var front := cs[..|cs| - 1];
      RunUntouched(db, front, ep, trap);
      RunKeeps(db, front);
      PlanStays(db, cs, ep);
      TrapStaysUntouched(Run(db, front), cs[|cs| - 1], ep, trap);
    }
  }

  lemma UntouchedNotWorkedOff(db: Db, ep: Id, trap: set<StepKey>)
    requires Inv(db) && Untouched(db, ep, trap) && ep in db.executions && Trap(db.executions[ep].plan.steps, trap)
    ensures !WorkedOff(db, ep) && !CompletedEp(db, ep)
  {
    var id := TrapHasRow(db, ep, trap);
    OpenInv(db);
    assert EpisodeAllows(db, ep);
    assert !Ran(db.tasks[id]) && (WorkedOff(db, ep) ==> RowWorkedOff(db, id));
  }

  lemma {:induction false} PlanStays(db: Db, cs: seq<Command>, ep: Id)
    requires Inv(db) && ep in db.executions
    ensures ep in Run(db, cs).executions && Run(db, cs).executions[ep] == db.executions[ep]
  {
    RunEvolves(db, cs);
    OpenHistory(db, Run(db, cs));
  }

  lemma {:induction false} CyclicIsNeverWorkedOff(db: Db, cs: seq<Command>, ep: Id, n: Time)
    requires JustPersisted(db, ep, n) && !Acyclic(db.executions[ep].plan.steps)
    ensures !WorkedOff(Run(db, cs), ep) && !CompletedEp(Run(db, cs), ep)
  {
    CycleIffTrap(db.executions[ep].plan.steps);
    var trap :| Trap(db.executions[ep].plan.steps, trap);
    RunUntouched(db, cs, ep, trap);
    PlanStays(db, cs, ep);
    RunKeeps(db, cs);
    UntouchedNotWorkedOff(Run(db, cs), ep, trap);
  }

  /** Some run from here works the episode off. */
  ghost predicate CanWorkOff(db: Db, ep: Id) {
    exists cs :: WorkedOff(Run(db, cs), ep)
  }

  /** Which plans can be worked off, the Critic included: the acyclic ones.  The
      validator's cycle guard never fires, so both sides occur. */
  lemma {:induction false} WorkedOffIffAcyclic(db: Db, ep: Id, n: Time)
    requires JustPersisted(db, ep, n)
    ensures Acyclic(db.executions[ep].plan.steps) <==> CanWorkOff(db, ep)
  {
    PersistedIsDriving(db, ep, n, true);
    var cs := WorkOff(db, ep, n);
    if Acyclic(db.executions[ep].plan.steps) {
      if !WorkedOff(Run(db, cs), ep) {
        IdleIsStuck(Run(db, cs), ep, n, true);
        StuckIsCyclic(Run(db, cs), ep, n, n, n);
      }
    } else {
      forall other ensures !WorkedOff(Run(db, other), ep) {
        CyclicIsNeverWorkedOff(db, other, ep, n);
      }
    }
  }

  /** The Critic step of a plan has its row in every later state. */
  lemma {:induction false} CriticRowStays(db: Db, cs: seq<Command>, ep: Id, s: Step) returns (id: Id)
    requires Inv(db) && ep in db.executions && s in db.executions[ep].plan.steps && s.role.PreTradeCritic?
    ensures IsCritic(Run(db, cs), id) && Run(db, cs).tasks[id].def.episode == ep
  {
    id := StepRow(db, ep, s);
    RunEvolves(db, cs);
    RowHistory(db, Run(db, cs), id);
  }

  lemma StepRow(db: Db, ep: Id, s: Step) returns (id: Id)
    requires Inv(db) && ep in db.executions && s in db.executions[ep].plan.steps
    ensures id in db.tasks && db.tasks[id].def.episode == ep && db.tasks[id].def.step == s
  {
    OpenInv(db);
    assert Planned(db, ep);
    StepHasDef(db.episodes, ep, db.executions[ep], s);
    id := KeyHasRow(db, ep, s.key);
    RowIsStep(db, id);
  }

  ghost predicate CriticStep(steps: seq<Step>) {
    exists s :: s in steps && s.role.PreTradeCritic?
  }

  lemma CriticSpoilsCompletion(db: Db, id: Id)
    requires Inv(db) && IsCritic(db, id)
    ensures !CompletedEp(db, db.tasks[id].def.episode)
  {
    OpenInv(db);
    assert RowOk(db.tasks[id]) && EpisodeAllows(db, db.tasks[id].def.episode);
  }

  lemma CriticRowIsStep(db: Db, ep: Id)
    requires Inv(db) && ep in db.executions && HasCritic(db.tasks, ep)
    ensures CriticStep(db.executions[ep].plan.steps)
  {
    var id :| id in db.tasks && db.tasks[id].def.episode == ep && db.tasks[id].def.step.role.PreTradeCritic?;
    RowIsStep(db, id);
  }

  /** Which plans can end COMPLETED: the acyclic ones without a Critic. */
  lemma {:induction false} FinishableIffAcyclic(db: Db, ep: Id, n: Time)
    requires JustPersisted(db, ep, n)
    ensures var steps := db.executions[ep].plan.steps;
            Acyclic(steps) && !CriticStep(steps) <==> exists cs :: CompletedEp(Run(db, cs), ep)
  {
    var steps := db.executions[ep].plan.steps;
    WorkedOffIffAcyclic(db, ep, n);
    if cs :| CompletedEp(Run(db, cs), ep) {
      if !Acyclic(steps) {
        CyclicIsNeverWorkedOff(db, cs, ep, n);
      }
      if s :| s in steps && s.role.PreTradeCritic? {
        var id := CriticRowStays(db, cs, ep, s);
        RunKeeps(db, cs);
        CriticSpoilsCompletion(Run(db, cs), id);
      }
    }
    if Acyclic(steps) && !CriticStep(steps) {
      var cs :| WorkedOff(Run(db, cs), ep);
      PlanStays(db, cs, ep);
      RunKeeps(db, cs);
      if HasCritic(Run(db, cs).tasks, ep) {
        CriticRowIsStep(Run(db, cs), ep);
      }
      assert CompletedEp(Run(db, cs), ep);
    }
  }

  lemma IdleIsStuck(db: Db, ep: Id, n: Time, apart: bool)
    requires Driving(db, ep, n, apart) && Ready(db, ep, n) == {}
    ensures Deadlocks(db, ep, n)
  {
    DrivingIsSwept(db, ep, n, apart);
    NoDrift(db, ep);
  }

  /** Some run from here ends in a deadlock. */
  ghost predicate CanDeadlock(db: Db, ep: Id) {
    exists cs, m :: Deadlocks(Run(db, cs), ep, m)
  }

  /** Which plans can deadlock: the cyclic ones, and every one of them. */
  lemma DeadlockIffCyclic(db: Db, ep: Id, n: Time)
    requires JustPersisted(db, ep, n)
    ensures !Acyclic(db.executions[ep].plan.steps) <==> CanDeadlock(db, ep)
  {
    if !Acyclic(db.executions[ep].plan.steps) {
      PersistedIsDriving(db, ep, n, true);
      var cs := WorkOff(db, ep, n);
      CyclicIsNeverWorkedOff(db, cs, ep, n);
      IdleIsStuck(Run(db, cs), ep, n, true);
    } else {
      forall cs, m ensures !Deadlocks(Run(db, cs), ep, m) {
        PlanStays(db, cs, ep);
        if Deadlocks(Run(db, cs), ep, m) {
          StuckIsCyclic(Run(db, cs), ep, m, m, m);
        }
      }
    }
  }

  // ---- A deadlock from the empty database ------------------------------------------------

  const LOOP := Execution(LOOP_PLAN, LOOP_DEFS, 0, 0)
  const FIRST_TRIGGER := Trigger(0, "first", 0, 0)
  const FIRST_CYCLE := Cycle(FIRST_TRIGGER, 0, 100, 1, Live)
  const FIRST_EPISODE := Episode(7, "first", 0, 0, 0, 100, 1, Live)

  lemma FirstStarts()
    ensures Run(EMPTY_DB, [DoStartCycle(7, FIRST_TRIGGER, true, 100, 0), DoStartEpisode(9, 7, "first", 100, 0)]) ==
              EMPTY_DB.(cycles := map[7 := FIRST_CYCLE], episodes := map[9 := FIRST_EPISODE])
  {
    RunTwo(EMPTY_DB, DoStartCycle(7, FIRST_TRIGGER, true, 100, 0), DoStartEpisode(9, 7, "first", 100, 0));
  }

  const STARTED_DB := EMPTY_DB.(cycles := map[7 := FIRST_CYCLE], episodes := map[9 := FIRST_EPISODE])

  /** A plan for the episode that FirstStarted has started. */
  ghost predicate FirstPlan(x: Execution) {
    && ValidExecution(STARTED_DB.episodes, 9, x.plan, x.defs) && NewTaskIds(map[], x.defs)
    && forall d :: d in x.defs ==> d.deadline > 0
  }

  lemma PersistFirst(db: Db, x: Execution)
    requires db == STARTED_DB && FirstPlan(x)
    ensures Apply(db, DoPersist(9, 0, x, true, 0)) == db.(executions := map[9 := x], tasks := FreshTasks(x.defs))
  {
    SealAccepted(db.episodes, 9, x);
    assert Persist(db, 9, 0, x, true, 0).0 ==
           db.(executions := db.executions[9 := x], tasks := db.tasks + FreshTasks(x.defs));
    assert db.tasks + FreshTasks(x.defs) == FreshTasks(x.defs);
  }

  lemma FirstIsPersisted(d: Db, x: Execution)
    requires FirstPlan(x) && d == STARTED_DB.(executions := map[9 := x], tasks := FreshTasks(x.defs)) && Inv(d)
    ensures JustPersisted(d, 9, 0)
  {
    FreshTasksAre(x.defs);
  }

  lemma {:induction false} FirstStarted() returns (start: seq<Command>)
    ensures Run(EMPTY_DB, start) == STARTED_DB
  {
    FirstStarts();
    start := [DoStartCycle(7, FIRST_TRIGGER, true, 100, 0), DoStartEpisode(9, 7, "first", 100, 0)];
  }

  lemma {:induction false} PersistRun(x: Execution) returns (pre: seq<Command>)
    requires FirstPlan(x)
    ensures JustPersisted(Run(EMPTY_DB, pre), 9, 0) && Run(EMPTY_DB, pre).executions[9] == x
  {
    var start := FirstStarted();
    ReachableIsSafe(start);
    PersistFirst(STARTED_DB, x);
    ApplyKeeps(STARTED_DB, DoPersist(9, 0, x, true, 0));
    FirstIsPersisted(STARTED_DB.(executions := map[9 := x], tasks := FreshTasks(x.defs)), x);
    pre := start + [DoPersist(9, 0, x, true, 0)];
    assert pre[..|start|] == start;
  }

  lemma LoopIsFirst()
    ensures FirstPlan(LOOP) && !Acyclic(LOOP_PLAN.steps)
  {
    CyclicPlanIsAccepted(STARTED_DB.episodes);
    forall d | d in LOOP_DEFS ensures d.deadline == 100 {
      assert d == LOOP_DEFS[0] || d == LOOP_DEFS[1];
    }
  }

  lemma {:induction false} DeadlockLater(db: Db, pre: seq<Command>, cs: seq<Command>, ep: Id, m: Time)
    requires Deadlocks(Run(Run(db, pre), cs), ep, m)
    ensures Deadlocks(Run(db, pre + cs), ep, m)
  {
    RunConcat(db, pre, cs);
  }

  lemma {:induction false} DeadlockFrom(db: Db, pre: seq<Command>, ep: Id)
    requires CanDeadlock(Run(db, pre), ep)
    ensures CanDeadlock(db, ep)
  {
    var cs, m :| Deadlocks(Run(Run(db, pre), cs), ep, m);
    DeadlockLater(db, pre, cs, ep, m);
  }

  /** The two steps of LOOP_PLAN are accepted, and then no claim ever hands out
      work although the episode runs and nothing is leased. */
  lemma CyclicPlanDeadlocks()
    ensures CanDeadlock(EMPTY_DB, 9)
  {
    LoopIsFirst();
    var pre := PersistRun(LOOP);
    DeadlockIffCyclic(Run(EMPTY_DB, pre), 9, 0);
    DeadlockFrom(EMPTY_DB, pre, 9);
  }
}
