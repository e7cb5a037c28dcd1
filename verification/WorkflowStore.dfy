/** The workflow tables as they are updated in place, one method per stored
    procedure; every UPDATE and INSERT is one assignment. */
module WorkflowStore {
  import opened Common
  import opened WorkflowModel
  import opened SkipPropagation
  import opened PlanValidation
  import opened WorkflowSteps
  import opened WorkflowInvariants
  import opened WorkflowClosing
  import opened WorkflowSafety
  import opened WorkflowFencing
  import opened WorkflowProgress

  // ---- Read-only queries ---------------------------------------------------------

  /** The validator.  Its recursive cycle query selects no row
      (CycleGuardNeverFires), so it is not walked here. */
  method IsAccepted(episodes: map<Id, Episode>, ep: Id, x: Execution) returns (ok: bool)
    ensures ok <==> Accepted(episodes, ep, x)
  {
    var rest, kept := WithoutCritic(x.plan), Keep(x.defs, CRITIC_DEF);
    ok := ValidShape(episodes, ep, x.plan, x.defs) ||
    (CriticShape(x.plan, ep, x.defs) && ValidShape(episodes, ep, rest, kept));
    CycleGuardNeverFires(episodes, ep, x.plan, x.defs);
    CycleGuardNeverFires(episodes, ep, rest, kept);
    if ok {
      SealAccepted(episodes, ep, x);
    }
    if Accepted(episodes, ep, x) {
      OpenAccepted(episodes, ep, x);
    }
  }

  lemma UpstreamNext(db: Db, ep: Id, keys: seq<StepKey>, i: nat, u: Id)
    requires Inv(db) && i < |keys|
    ensures RowAt(db.tasks, ep, keys[i], u) ==>
              Upstream(db.tasks, ep, keys[i..]) == ArtifactsOf(db.tasks, u) + Upstream(db.tasks, ep, keys[i + 1..])
    ensures !(exists v :: RowAt(db.tasks, ep, keys[i], v)) ==>
              Upstream(db.tasks, ep, keys[i..]) == Upstream(db.tasks, ep, keys[i + 1..])
  {
    var tail := keys[i..];
    assert tail[0] == keys[i] && tail[1..] == keys[i + 1..];
    if RowAt(db.tasks, ep, keys[i], u) {
      UpstreamStep(db, ep, tail, u);
    }
  }

  /** jsonb_agg of the upstream artifacts, in depends_on order. */
  method CollectUpstream(db: Db, ep: Id, keys: seq<StepKey>) returns (artifacts: seq<Artifact>)
    requires Inv(db)
    ensures artifacts == Upstream(db.tasks, ep, keys)
  {
    artifacts := [];
    assert keys[0..] == keys;
    for i := 0 to |keys|
      invariant artifacts + Upstream(db.tasks, ep, keys[i..]) == Upstream(db.tasks, ep, keys)
    {
      if exists u | u in db.tasks :: RowAt(db.tasks, ep, keys[i], u) {
        var u :| u in db.tasks && RowAt(db.tasks, ep, keys[i], u);
        UpstreamNext(db, ep, keys, i, u);
        artifacts := artifacts + ArtifactsOf(db.tasks, u);
      } else {
        UpstreamNext(db, ep, keys, i, 0);
      }
    }
    assert keys[|keys|..] == [];
  }

  method MergeInputs(db: Db, id: Id) returns (inputs: seq<Artifact>)
    requires Inv(db) && id in db.tasks
    ensures inputs == Merged(db.tasks, id)
  {
    var upstream := CollectUpstream(db, db.tasks[id].def.episode, db.tasks[id].def.step.dependsOn);
    inputs := db.tasks[id].def.step.inputs + upstream;
  }

  /** Whether some candidate would be handed the same artifact twice. */
  method FindAmbiguity(db: Db, ep: Id, n: Time) returns (found: bool)
    requires Inv(db)
    ensures found <==> AmbiguousFanIn(db, ep, n)
  {
    var rest := Ready(db, ep, n);
    found := false;
    while rest != {} && !found
      invariant rest <= Ready(db, ep, n)
      invariant found ==> AmbiguousFanIn(db, ep, n)
      invariant !found ==> forall id {:trigger FanInClash(db.tasks, id)} :: id in Ready(db, ep, n) && id !in rest ==>
                  !FanInClash(db.tasks, id)
      decreases rest
    {
      var id :| id in rest;
      var inputs := MergeInputs(db, id);
      if !Distinct(inputs) {
        assert FanInClash(db.tasks, id);
        found := true;
      }
      rest := rest - {id};
    }
  }

  /** ORDER BY step_key LIMIT 1 */
  method FindFirst(db: Db, ep: Id, ids: set<Id>) returns (r: Option<Id>)
    requires Inv(db) && ids <= TasksOf(db.tasks, ep)
    ensures r == Pick(db.tasks, ids)
  {
    r := None;
    var rest := ids;
    while rest != {}
      invariant rest <= ids
      invariant r.None? ==> rest == ids
      invariant r.Some? ==> First(db.tasks, ids - rest, r.value)
      decreases rest
    {
      var id :| id in rest;
      if r.None? || db.tasks[id].def.step.key < db.tasks[r.value].def.step.key {
        forall other | other in ids - (rest - {id}) ensures NotAfter(db.tasks, id, other) {
          assert other != id ==> r.Some? && other in ids - rest && NotAfter(db.tasks, r.value, other);
        }
        r := Some(id);
      } else {
        forall other | other in ids - (rest - {id}) ensures NotAfter(db.tasks, r.value, other) {
          assert other != id ==> NotAfter(db.tasks, r.value, other);
        }
      }
      rest := rest - {id};
    }
    if r.Some? {
      assert ids - rest == ids;
      var p := Pick(db.tasks, ids);
      assert NotAfter(db.tasks, p.value, r.value) && NotAfter(db.tasks, r.value, p.value);
      UniqueRow(db, ep, db.tasks[p.value].def.step.key, p.value, r.value);
    }
  }

  class Store {
    var cycles: map<Id, Cycle>
    var episodes: map<Id, Episode>
    var executions: map<Id, Execution>
    var tasks: Tasks
    var critiques: map<Id, CritiqueRow>
    var revisions: set<Revision>

    function State(): Db
      reads this
    {
      Db(cycles, episodes, executions, tasks, critiques, revisions)
    }

    ghost predicate Valid()
      reads this
    {
      Inv(State())
    }

    constructor ()
      ensures Valid() && State() == EMPTY_DB
    {
      cycles, episodes, executions, tasks, critiques, revisions := map[], map[], map[], map[], map[], {};
      new;
      ReachableIsSafe([]);
      assert Run(EMPTY_DB, []) == EMPTY_DB;
    }

    // ---- Closing -------------------------------------------------------------------

    /** v1005_close_episode: first the episode, then its cycle. */
    method CloseEpisodeNow(ep: Id, n: Time)
      modifies this`tasks, this`episodes, this`cycles
      ensures State() == CloseEpisode(old(State()), ep, n)
    {
      if ep !in episodes {
        return;
      }
      var e := episodes[ep];
      if e.state.Live? && e.expiresAt <= n {
        tasks := Finish(tasks, UnfinishedOf(tasks, ep), TimedOut);
        episodes := episodes[ep := e.(version := e.version + 1, state := Ended(ByDeadline, "deadline_exceeded"))];
      }
      assert State() == CloseOverdue(old(State()), ep, n);
      if episodes[ep].state.Live? && UnfinishedOf(tasks, ep) == {} {
        var ending := if AllTasksCompleted(tasks, ep) then AllCompleted else SomeDeferred;
        episodes := episodes[ep := e.(version := e.version + 1, state := Ended(ending, "all_tasks_terminal"))];
      }
      assert State() == CloseSettled(CloseOverdue(old(State()), ep, n), ep);
      CloseCycleNow(e.cycle, n);
    }

    method CloseCycleNow(cy: Id, n: Time)
      modifies this`cycles
      ensures State() == CloseCycle(old(State()), cy, n)
    {
      if cy in cycles && cycles[cy].state.Live? && EpisodesOf(episodes, cy) != {} && LiveEpisodesOf(State(), cy) == {} {
        var c := cycles[cy];
        var state;
        if c.expiresAt <= n {
          state := Ended(ByDeadline, "deadline_exceeded");
        } else if AllEpisodesCompleted(State(), cy) {
          state := Ended(AllCompleted, "all_episodes_terminal");
        } else {
          state := Ended(SomeDeferred, "all_episodes_terminal");
        }
        cycles := cycles[cy := c.(version := c.version + 1, state := state)];
      }
    }

    // ---- Starting --------------------------------------------------------------------

    method StartDecisionCycle(id: Id, trigger: Trigger, triggerOk: bool, expiresAt: Time, n: Time)
      returns (r: Outcome<Id>)
      requires Valid()
      modifies this
      ensures Valid() && (State(), r) == StartCycle(old(State()), id, trigger, triggerOk, expiresAt, n)
    {
      StartCycleKeeps(State(), id, trigger, triggerOk, expiresAt, n);
      if !triggerOk || !Trimmed(trigger.key) || trigger.key == "" || expiresAt <= n {
        return Raised;
      }
      var saved := cycles;
      if id !in cycles && !exists c | c in cycles :: SameKey(cycles[c].trigger, trigger) {
        cycles := cycles[id := Cycle(trigger, n, expiresAt, 1, Live)];
      }
      if id in cycles && cycles[id].trigger == trigger && cycles[id].expiresAt == expiresAt {
        return Done(id);
      }
      cycles := saved;
      r := Raised;
    }

    method StartDecisionEpisode(id: Id, cy: Id, candidate: string, expiresAt: Time, n: Time) returns (r: Outcome<Id>)
      requires Valid()
      modifies this
      ensures Valid() && (State(), r) == StartEpisode(old(State()), id, cy, candidate, expiresAt, n)
    {
      StartEpisodeKeeps(State(), id, cy, candidate, expiresAt, n);
      if cy !in cycles || !cycles[cy].state.Live? || !Trimmed(candidate) || candidate == "" || expiresAt <= n ||
         expiresAt > cycles[cy].expiresAt {
        return Raised;
      }
      var taken := exists e | e in episodes :: episodes[e].cycle == cy && episodes[e].candidate == candidate;
      if !taken && id in episodes {
        return Raised;
      }
      var saved := episodes;
      if !taken {
        episodes := episodes[id := Episode(cy, candidate, cycles[cy].trigger.correlation, n, n, expiresAt, 1, Live)];
      }
      if id in episodes && episodes[id].cycle == cy && episodes[id].candidate == candidate &&
         episodes[id].expiresAt == expiresAt {
        return Done(id);
      }
      episodes := saved;
      r := Raised;
    }

    /** One INSERT for the plan and one for each task. */
    method PersistWorkflowExecution(ep: Id, expected: nat, x: Execution, canonicalOk: bool, n: Time)
      returns (r: Outcome<nat>)
      requires Valid()
      modifies this
      ensures Valid() && (State(), r) == Persist(old(State()), ep, expected, x, canonicalOk, n)
    {
      PersistKeeps(State(), ep, expected, x, canonicalOk, n);
      var accepted := IsAccepted(episodes, ep, x);
      if !canonicalOk || !accepted || !Open(State(), ep, n) {
        return Raised;
      }
      if ep in executions {
        NoDrift(State(), ep);
        return if executions[ep] == x then Done(1) else Raised;
      }
      if expected != 0 || !NewTaskIds(tasks, x.defs) {
        return Raised;
      }
      executions := executions[ep := x];
      InsertTasks(x.defs);
      r := Done(1);
    }

    method InsertTasks(defs: seq<TaskDef>)
      requires NewTaskIds(tasks, defs)
      modifies this`tasks
      ensures tasks == old(tasks) + FreshTasks(defs)
    {
      var i := |defs|;
      ghost var before := tasks;
      while i > 0
        invariant 0 <= i <= |defs|
        invariant tasks == before + FreshTasks(defs[i..])
      {
        i := i - 1;
        assert defs[i..][0] == defs[i] && defs[i..][1..] == defs[i + 1..];
        tasks := tasks[defs[i].taskId := FreshTask(defs[i])];
      }
      assert defs[0..] == defs;
    }

    // ---- Claiming ---------------------------------------------------------------------

    /** The sweep before a candidate is looked for. */
    method Sweep(ep: Id, n: Time, n1: Time, n2: Time)
      modifies this`tasks, this`episodes, this`cycles
      ensures State() == Swept(old(State()), ep, n, n1, n2)
    {
      CloseEpisodeNow(ep, n1);
      tasks := Requeue(tasks, Expired(tasks, ep, n));
      tasks := Finish(tasks, Late(tasks, {ep}, n), TimedOut);
      tasks := PropagateSkips(tasks, {ep});
      CloseEpisodeNow(ep, n2);
    }

    method ClaimWorkflowTask(ep: Id, worker: string, seconds: int, n: Time, n1: Time, n2: Time)
      returns (r: Outcome<Claimed>)
      requires Valid()
      modifies this
      ensures Valid() && (State(), r) == Claim(old(State()), ep, worker, seconds, n, n1, n2)
    {
      NoDrift(State(), ep);
      ClaimKeeps(State(), ep, worker, seconds, n, n1, n2);
      if !Trimmed(worker) || seconds < 1 || seconds > 3600 || ep !in executions {
        return Raised;
      }
      var limit, until := executions[ep].plan.budget.parallel, LeaseEnd(n, seconds);
      ClaimFrom(State(), ep, worker, seconds, n, n1, n2, limit, until);
      ghost var s := Swept(State(), ep, n, n1, n2);
      SweptInv(State(), ep, n, n1, n2);
      r := SweepAndClaim(ep, limit, worker, n, n1, n2, until, s);
    }

    method SweepAndClaim(ep: Id, limit: int, worker: string, n: Time, n1: Time, n2: Time, until: Time, ghost s: Db)
      returns (r: Outcome<Claimed>)
      requires s == Swept(State(), ep, n, n1, n2) && Inv(s)
      modifies this`tasks, this`episodes, this`cycles
      ensures r.Raised? <==> AmbiguousFanIn(s, ep, n)
      ensures r.Raised? ==> State() == old(State())
      ensures r.Done? ==> (State(), r.value) == Decide(s, ep, limit, worker, n, until)
    {
      var savedTasks, savedEpisodes, savedCycles := tasks, episodes, cycles;
      Sweep(ep, n, n1, n2);
      r := ClaimOrUndo(ep, limit, worker, n, until, s, savedTasks, savedEpisodes, savedCycles);
    }

    /** An exception undoes the sweep too. */
    method ClaimOrUndo(
        ep: Id, limit: int, worker: string, n: Time, until: Time, ghost s: Db, savedTasks: Tasks,
        savedEpisodes: map<Id, Episode>, savedCycles: map<Id, Cycle>) returns (r: Outcome<Claimed>)
      requires s == State() && Inv(s)
      modifies this`tasks, this`episodes, this`cycles
      ensures r.Raised? <==> AmbiguousFanIn(s, ep, n)
      ensures r.Raised? ==> State() == s.(tasks := savedTasks, episodes := savedEpisodes, cycles := savedCycles)
      ensures r.Done? ==> (State(), r.value) == Decide(s, ep, limit, worker, n, until)
    {
      r := ClaimSwept(ep, limit, worker, n, until, s);
      if r.Raised? {
        tasks, episodes, cycles := savedTasks, savedEpisodes, savedCycles;
      }
    }

    /** The exception for ambiguous inputs, or the candidate that is handed out. */
    method ClaimSwept(ep: Id, limit: int, worker: string, n: Time, until: Time, ghost s: Db)
      returns (r: Outcome<Claimed>)
      requires s == State() && Inv(s)
      modifies this`tasks
      ensures r.Raised? <==> AmbiguousFanIn(s, ep, n)
      ensures r.Done? ==> (State(), r.value) == Decide(s, ep, limit, worker, n, until)
    {
      var ambiguous := FindAmbiguity(State(), ep, n);
      if ambiguous {
        return Raised;
      }
      var c := HandOutNext(ep, limit, worker, n, until);
      r := Done(c);
    }

    method HandOutNext(ep: Id, limit: int, worker: string, n: Time, until: Time) returns (c: Claimed)
      requires Valid()
      modifies this`tasks
      ensures (State(), c) == Decide(old(State()), ep, limit, worker, n, until)
    {
      if |Leased(tasks, ep, n)| >= limit {
        return NoTask;
      }
      var next := FindFirst(State(), ep, Ready(State(), ep, n));
      if next.None? {
        return NoTask;
      }
      var id := next.value;
      var inputs := MergeInputs(State(), id);
      LeaseLeavesArtifacts(State(), id, worker, until, tasks[id].def.episode, tasks[id].def.step.dependsOn);
      var t := tasks[id];
      tasks := tasks[id := t.(status := Running, worker := Some(worker), fencing := t.fencing + 1, lease := Some(until),
          version := t.version + 1)];
      c := Handed(id, t.version + 1, t.fencing + 1, t.def, inputs);
    }

    // ---- Completing ---------------------------------------------------------------------

    method CompleteAny(id: Id, version: int, fencing: int, doc: ResultDoc, canonicalOk: bool, n: Time, n1: Time)
      returns (ok: bool)
      modifies this
      ensures (State(), ok) == CompleteLegacy(old(State()), id, version, fencing, doc, canonicalOk, n, n1)
    {
      if id !in tasks || !canonicalOk || !ValidDoc(tasks[id].def, doc.result) {
        return false;
      }
      var t := tasks[id];
      if t.status.Reported() {
        return t.version == version + 1 && t.fencing == fencing && t.doc.Some? &&
            ValidDoc(t.def, t.doc.value.result) && t.doc.value == doc;
      }
      if !HoldsLease(State(), t, version, fencing, n) {
        return false;
      }
      tasks := tasks[id := t.(status := doc.result.status, doc := Some(doc), version := t.version + 1, lease := None)];
      tasks := PropagateSkips(tasks, {t.def.episode});
      CloseEpisodeNow(t.def.episode, n1);
      ok := true;
    }

    method CompleteWorkflowTask(
        id: Id, version: int, fencing: int, doc: ResultDoc, canonicalOk: bool, n: Time, n1: Time)
      returns (ok: bool)
      requires Valid()
      modifies this
      ensures Valid() && (State(), ok) == Complete(old(State()), id, version, fencing, doc, canonicalOk, n, n1)
    {
      CompleteKeeps(State(), id, version, fencing, doc, canonicalOk, n, n1);
      if IsCritic(State(), id) {
        return false;
      }
      ok := CompleteAny(id, version, fencing, doc, canonicalOk, n, n1);
    }

    method CompleteCriticTask(
        id: Id, version: int, fencing: int, row: CritiqueRow, hypothesis: Id, check: PayloadCheck, n: Time, n1: Time)
      returns (ok: bool)
      requires Valid()
      modifies this
      ensures Valid()
      ensures (State(), ok) == CompleteCritic(old(State()), id, version, fencing, row, hypothesis, check, n, n1)
    {
      CriticKeeps(State(), id, version, fencing, row, hypothesis, check, n, n1);
      if !IsCritic(State(), id) || !check.ok || !Dated(row, tasks[id].def.deadline) ||
         !(row.evaluatedAt <= check.at < row.expiresAt) {
        return false;
      }
      var t := tasks[id].def;
      var upstream := CollectUpstream(State(), t.episode, t.step.dependsOn);
      if |upstream| != 3 || Revision(t.episode, hypothesis, row.sha256, 1) !in revisions {
        return false;
      }
      ok := FileCritiqueNow(id, version, fencing, row, n, n1);
    }

    method FileCritiqueNow(id: Id, version: int, fencing: int, row: CritiqueRow, n: Time, n1: Time) returns (ok: bool)
      modifies this
      ensures (State(), ok) == FileCritique(old(State()), id, version, fencing, row, n, n1)
    {
      var savedTasks, savedEpisodes, savedCycles := tasks, episodes, cycles;
      LegacyKeepsTables(State(), id, version, fencing, CriticResult(id), true, n, n1);
      ok := CompleteAny(id, version, fencing, CriticResult(id), true, n, n1);
      if ok && id in critiques && critiques[id] != row {
        ok := false;
      }
      if ok {
        critiques := critiques[id := row];
      } else {
        tasks, episodes, cycles := savedTasks, savedEpisodes, savedCycles;
      }
    }

    method ReserveCritiqueRevision(ep: Id, hypothesis: Id, evaluation: Id, policyOk: bool) returns (r: Outcome<nat>)
      requires Valid()
      modifies this
      ensures Valid() && (State(), r) == ReserveRevision(old(State()), ep, hypothesis, evaluation, policyOk)
    {
      ReserveKeeps(State(), ep, hypothesis, evaluation, policyOk);
      if !policyOk {
        return Raised;
      }
      if exists q | q in revisions :: q.episode == ep && q.evaluation == evaluation {
        var q :| q in revisions && q.episode == ep && q.evaluation == evaluation;
        forall p | p in revisions && p.episode == ep ensures p == q {
          OneRevisionEach(State(), q, p);
        }
        return if q.hypothesis == hypothesis then Done(q.iteration) else Raised;
      }
      if (exists q | q in revisions :: q.episode == ep && q.iteration >= MAX_ITERATIONS) || ep !in episodes {
        return Raised;
      }
      revisions := revisions + {Revision(ep, hypothesis, evaluation, 1)};
      r := Done(1);
    }

    // ---- Cancelling and recovering -----------------------------------------------------------

    method CancelDecisionEpisode(ep: Id, reason: string, n: Time) returns (ok: bool)
      requires Valid()
      modifies this
      ensures Valid() && (State(), ok) == Cancel(old(State()), ep, reason, n)
    {
      CancelKeepsInv(State(), ep, reason, n);
      if ep !in episodes || !Trimmed(reason) || reason == "" {
        return false;
      }
      var e := episodes[ep];
      ok := e.state.Live?;
      if e.expiresAt <= n {
        StopEpisodeNow(ep, TimedOut, ByDeadline, "deadline_exceeded");
      } else {
        StopEpisodeNow(ep, Cancelled, ByCancel, reason);
      }
      DeferCycleNow(e.cycle);
    }

    method StopEpisodeNow(ep: Id, status: TaskStatus, ending: Ending, reason: string)
      requires ep in episodes
      modifies this`tasks, this`episodes
      ensures State() == StopEpisode(old(State()), ep, status, ending, reason)
    {
      var e := episodes[ep];
      tasks := Finish(tasks, UnfinishedOf(tasks, ep), status);
      if e.state.Live? {
        episodes := episodes[ep := e.(version := e.version + 1, state := Ended(ending, reason))];
      }
    }

    method DeferCycleNow(cy: Id)
      modifies this`cycles
      ensures State() == DeferCycle(old(State()), cy)
    {
      if cy in cycles && cycles[cy].state.Live? && LiveEpisodesOf(State(), cy) == {} {
        var c := cycles[cy];
        cycles := cycles[cy := c.(version := c.version + 1, state := Ended(SomeDeferred, "all_episodes_terminal"))];
      }
    }

    /** FOR episode IN SELECT ... LOOP PERFORM close_episode(episode) END LOOP */
    method CloseEach(visits: seq<Visit>, picked: set<Id>)
      modifies this`tasks, this`episodes, this`cycles
      ensures State() == CloseAll(old(State()), visits, picked)
    {
      ghost var before := State();
      assert visits[..0] == [];
      for i := 0 to |visits|
        invariant State() == CloseAll(before, visits[..i], picked)
      {
        assert visits[..i + 1][..i] == visits[..i] && visits[..i + 1][i] == visits[i];
        if visits[i].ep in picked {
          CloseEpisodeNow(visits[i].ep, visits[i].at);
        }
      }
      assert visits[..|visits|] == visits;
    }

    method RecoverableWorkflowCycles(n: Time, first: seq<Visit>, second: seq<Visit>) returns (live: set<Id>)
      requires Valid() && FullScan(State(), first, n) && FullScan(State(), second, n)
      modifies this
      ensures Valid() && State() == Recover(old(State()), n, first, second)
      ensures forall cy :: cy in live <==> LiveCycle(State(), cy)
      ensures forall cy :: cy in live ==> cy in old(cycles) && old(cycles)[cy].expiresAt > n
    {
      RecoverKeepsInv(State(), n, first, second);
      OpenInv(State());
      RecoverKeeps(State(), n, first, second);
      CloseEach(first, Overdue(State(), n));
      RecoverTasksNow(n);
      CloseEach(second, Settled(tasks));
      ExpireCyclesNow(n);
      live := set cy | cy in cycles && cycles[cy].state.Live?;
    }

    method RecoverTasksNow(n: Time)
      modifies this`tasks
      ensures tasks == RecoverTasks(old(tasks), n)
    {
      FinishKeepsEpisodes(tasks, n);
      tasks := Finish(tasks, Late(tasks, AllEpisodes(tasks), n), TimedOut);
      tasks := PropagateSkips(tasks, AllEpisodes(tasks));
    }

    method ExpireCyclesNow(n: Time)
      modifies this`cycles
      ensures State() == ExpireCycles(old(State()), n)
    {
      var gone := Stale(State(), n);
      cycles := map cy | cy in cycles ::
        if cy in gone then cycles[cy].(
          version := cycles[cy].version + 1,
          state := if cycles[cy].expiresAt <= n
              then Ended(ByDeadline, "deadline_exceeded") else Ended(SomeDeferred, "all_episodes_terminal"))
        else cycles[cy];
      assert cycles == ExpireCycles(old(State()), n).cycles;
    }
  }

  lemma FinishKeepsEpisodes(ts: Tasks, n: Time)
    ensures AllEpisodes(Finish(ts, Late(ts, AllEpisodes(ts), n), TimedOut)) == AllEpisodes(ts)
  {
    var late := Finish(ts, Late(ts, AllEpisodes(ts), n), TimedOut);
    forall ep ensures ep in AllEpisodes(late) <==> ep in AllEpisodes(ts) {
      if ep in AllEpisodes(ts) {
        var id :| id in ts && ts[id].def.episode == ep;
        assert late[id].def.episode == ep;
      }
    }
  }

  /** A completion only touches tasks, episodes and cycles. */
  lemma LegacyKeepsTables(
      db: Db, id: Id, version: int, fencing: int, doc: ResultDoc, canonicalOk: bool, n: Time, n1: Time)
    ensures var d := CompleteLegacy(db, id, version, fencing, doc, canonicalOk, n, n1).0;
            d.executions == db.executions && d.critiques == db.critiques && d.revisions == db.revisions
  {
    if CompleteLegacy(db, id, version, fencing, doc, canonicalOk, n, n1).0 != db {
      ReportSteps(db, id, doc, n1);
    }
  }
}
