/** Why episodes and cycles have ended: their terminal status and reason say what
    happened to their tasks. */
module WorkflowEndings {
  import opened Common
  import opened WorkflowModel
  import opened SkipPropagation
  import opened PlanValidation
  import opened WorkflowSteps
  import opened WorkflowInvariants
  import opened WorkflowClosing
  import opened WorkflowSafety
  import opened WorkflowFencing

  /** A task of the episode that ended without COMPLETED. */
  ghost predicate Shortfall(ts: Tasks, ep: Id) {
    exists id :: id in ts && ts[id].def.episode == ep && !ts[id].status.Unfinished() && !ts[id].status.Completed?
  }

  ghost predicate EpisodeEndingOk(db: Db, ep: Id) {
    ep in db.episodes &&
    match db.episodes[ep].state
    case Live => true
    case Ended(AllCompleted, reason) => reason == "all_tasks_terminal" && AllTasksCompleted(db.tasks, ep)
    case Ended(SomeDeferred, reason) => reason == "all_tasks_terminal" && Shortfall(db.tasks, ep)
    case Ended(ByDeadline, reason) => reason == "deadline_exceeded"
    case Ended(ByCancel, reason) => reason != "" && Trimmed(reason)
  }

  /** An episode of the cycle that ended without COMPLETED. */
  ghost predicate CutShort(db: Db, cy: Id) {
    exists ep :: ep in db.episodes && db.episodes[ep].cycle == cy && db.episodes[ep].state.Ended? &&
                 !db.episodes[ep].state.ending.AllCompleted?
  }

  ghost predicate CycleEndingOk(db: Db, cy: Id) {
    cy in db.cycles &&
    match db.cycles[cy].state
    case Live => true
    case Ended(ByDeadline, reason) => reason == "deadline_exceeded"
    case Ended(ByCancel, reason) => false
    case Ended(AllCompleted, reason) => reason == "all_episodes_terminal"
    case Ended(SomeDeferred, reason) => reason == "all_episodes_terminal" && CutShort(db, cy)
  }

  /** Whatever ended on the way from a to b ended for a proper reason; who was
      COMPLETED still is. */
  ghost predicate EndsWell(a: Db, b: Db) {
    && (forall ep {:trigger EpisodeEndingOk(b, ep)} :: ep in b.episodes ==>
          (ep in a.episodes && b.episodes[ep] == a.episodes[ep]) || EpisodeEndingOk(b, ep))
    && (forall cy {:trigger CycleEndingOk(b, cy)} :: cy in b.cycles ==>
          (cy in a.cycles && b.cycles[cy] == a.cycles[cy]) || CycleEndingOk(b, cy))
  }

  ghost predicate AllEndWell(db: Db) {
    && (forall ep {:trigger EpisodeEndingOk(db, ep)} :: ep in db.episodes ==> EpisodeEndingOk(db, ep))
    && (forall cy {:trigger CycleEndingOk(db, cy)} :: cy in db.cycles ==> CycleEndingOk(db, cy))
  }

  /** A shortfall cannot be made good again. */
  lemma ShortfallStays(a: Db, b: Db, ep: Id)
    requires EvolvedDb(a, b) && Shortfall(a.tasks, ep)
    ensures Shortfall(b.tasks, ep)
  {
    var id :| id in a.tasks && a.tasks[id].def.episode == ep && !a.tasks[id].status.Unfinished() &&
        !a.tasks[id].status.Completed?;
    RowHistory(a, b, id);
    assert b.tasks[id] == a.tasks[id];
  }

  /** Completed tasks stay completed; no row joins an episode that has a plan. */
  ghost predicate SameRows(a: Db, b: Db) {
    b.tasks.Keys == a.tasks.Keys
  }

  lemma CompletedStay(a: Db, b: Db, ep: Id)
    requires EvolvedDb(a, b) && SameRows(a, b) && AllTasksCompleted(a.tasks, ep)
    ensures AllTasksCompleted(b.tasks, ep)
  {
    forall id | id in b.tasks && b.tasks[id].def.episode == ep ensures b.tasks[id].status.Completed? {
      RowHistory(a, b, id);
    }
  }

  lemma EndingStays(a: Db, b: Db, ep: Id)
    requires EvolvedDb(a, b) && SameRows(a, b) && EpisodeEndingOk(a, ep) && ep in b.episodes
    requires b.episodes[ep] == a.episodes[ep]
    ensures EpisodeEndingOk(b, ep)
  {
    if a.episodes[ep].state.Ended? && a.episodes[ep].state.ending.SomeDeferred? {
      ShortfallStays(a, b, ep);
    }
    if a.episodes[ep].state.Ended? && a.episodes[ep].state.ending.AllCompleted? {
      CompletedStay(a, b, ep);
    }
  }

  /** Ended episodes stay as they are. */
  ghost predicate EndedStay(a: Db, b: Db) {
    forall ep :: ep in a.episodes && a.episodes[ep].state.Ended? ==>
        ep in b.episodes && b.episodes[ep] == a.episodes[ep]
  }

  lemma EvolvedKeepsEnded(a: Db, b: Db)
    requires EvolvedDb(a, b)
    ensures EndedStay(a, b)
  {
    OpenHistory(a, b);
    forall ep | ep in a.episodes && a.episodes[ep].state.Ended?
      ensures ep in b.episodes && b.episodes[ep] == a.episodes[ep]
    {
      assert EndedEpisode(a.episodes[ep], b.episodes[ep]);
    }
  }

  /** What was said of an ended cycle remains true. */
  lemma CycleEndingStays(a: Db, b: Db, cy: Id)
    requires EndedStay(a, b) && CycleEndingOk(a, cy) && cy in b.cycles && b.cycles[cy] == a.cycles[cy]
    ensures CycleEndingOk(b, cy)
  {
    if CutShort(a, cy) {
      var ep :| ep in a.episodes && a.episodes[ep].cycle == cy && a.episodes[ep].state.Ended? &&
          !a.episodes[ep].state.ending.AllCompleted?;
      assert b.episodes[ep] == a.episodes[ep];
    }
  }

  lemma EndsWellTransitive(a: Db, b: Db, c: Db)
    requires EndsWell(a, b) && EndsWell(b, c) && EvolvedDb(b, c) && SameRows(b, c)
    ensures EndsWell(a, c)
  {
    forall ep | ep in c.episodes
      ensures (ep in a.episodes && c.episodes[ep] == a.episodes[ep]) || EpisodeEndingOk(c, ep)
    {
      if ep in b.episodes && c.episodes[ep] == b.episodes[ep] && EpisodeEndingOk(b, ep) {
        EndingStays(b, c, ep);
      }
      assert (ep in b.episodes && c.episodes[ep] == b.episodes[ep]) || EpisodeEndingOk(c, ep);
      assert ep in b.episodes ==> (ep in a.episodes && b.episodes[ep] == a.episodes[ep]) || EpisodeEndingOk(b, ep);
    }
    EvolvedKeepsEnded(b, c);
    forall cy | cy in c.cycles ensures (cy in a.cycles && c.cycles[cy] == a.cycles[cy]) || CycleEndingOk(c, cy) {
      if cy in b.cycles && c.cycles[cy] == b.cycles[cy] && CycleEndingOk(b, cy) {
        CycleEndingStays(b, c, cy);
      }
      assert (cy in b.cycles && c.cycles[cy] == b.cycles[cy]) || CycleEndingOk(c, cy);
      assert cy in b.cycles ==> (cy in a.cycles && b.cycles[cy] == a.cycles[cy]) || CycleEndingOk(b, cy);
    }
  }

  lemma AllStillWell(a: Db, b: Db)
    requires AllEndWell(a) && EndsWell(a, b) && EvolvedDb(a, b) && SameRows(a, b)
    ensures AllEndWell(b)
  {
    forall ep | ep in b.episodes ensures EpisodeEndingOk(b, ep) {
      if ep in a.episodes && b.episodes[ep] == a.episodes[ep] {
        assert EpisodeEndingOk(a, ep);
        EndingStays(a, b, ep);
      }
    }
    EvolvedKeepsEnded(a, b);
    forall cy | cy in b.cycles ensures CycleEndingOk(b, cy) {
      if cy in a.cycles && b.cycles[cy] == a.cycles[cy] {
        assert CycleEndingOk(a, cy);
        CycleEndingStays(a, b, cy);
      }
    }
  }

  /** A step that ends nothing. */
  lemma NothingEnds(a: Db, b: Db)
    requires b.episodes == a.episodes && b.cycles == a.cycles
    ensures EndsWell(a, b)
  {
  }

  // ---- Closing ------------------------------------------------------------------

  lemma OverdueEndsWell(db: Db, ep: Id, n: Time)
    ensures EndsWell(db, CloseOverdue(db, ep, n))
  {
  }

  lemma SettledEndsWell(db: Db, ep: Id)
    ensures EndsWell(db, CloseSettled(db, ep))
  {
    var d := CloseSettled(db, ep);
    if ep in db.episodes && db.episodes[ep].state.Live? && UnfinishedOf(db.tasks, ep) == {} {
      if !AllTasksCompleted(db.tasks, ep) {
        var id :| id in db.tasks && db.tasks[id].def.episode == ep && !db.tasks[id].status.Completed?;
        assert id !in UnfinishedOf(db.tasks, ep);
        assert Shortfall(d.tasks, ep);
      }
      assert EpisodeEndingOk(d, ep);
    }
  }

  lemma EndCycleEndsWell(db: Db, cy: Id, ending: Ending, reason: string)
    requires cy in db.cycles && !ending.ByCancel?
    requires reason == if ending.ByDeadline? then "deadline_exceeded" else "all_episodes_terminal"
    requires ending.SomeDeferred? ==> CutShort(db, cy)
    ensures EndsWell(db, EndCycle(db, cy, ending, reason))
  {
    var d := EndCycle(db, cy, ending, reason);
    assert d.episodes == db.episodes;
    assert CutShort(db, cy) ==> CutShort(d, cy);
    assert CycleEndingOk(d, cy);
  }

  lemma CycleEndsWell(db: Db, cy: Id, n: Time)
    ensures EndsWell(db, CloseCycle(db, cy, n))
  {
    NothingEnds(db, db);
    if cy in db.cycles {
      EndCycleEndsWell(db, cy, ByDeadline, "deadline_exceeded");
      EndCycleEndsWell(db, cy, AllCompleted, "all_episodes_terminal");
      if LiveEpisodesOf(db, cy) == {} && !AllEpisodesCompleted(db, cy) {
        SettledCutShort(db, cy);
        EndCycleEndsWell(db, cy, SomeDeferred, "all_episodes_terminal");
      }
    }
  }

  lemma SettledCutShort(db: Db, cy: Id)
    requires LiveEpisodesOf(db, cy) == {} && !AllEpisodesCompleted(db, cy)
    ensures CutShort(db, cy)
  {
    var ep :| ep in db.episodes && db.episodes[ep].cycle == cy &&
              !(db.episodes[ep].state.Ended? && db.episodes[ep].state.ending.AllCompleted?);
    assert ep !in LiveEpisodesOf(db, cy);
  }

  /** A sweep keeps the rows. */
  lemma SweepKeepsKeys(a: Db, b: Db)
    requires SweptDb(a, b)
    ensures EvolvedDb(a, b) && SameRows(a, b)
  {
    SweepEvolves(a, b);
  }

  lemma CloseEndsWell(db: Db, ep: Id, n: Time)
    ensures EndsWell(db, CloseEpisode(db, ep, n))
  {
    NothingEnds(db, db);
    if ep in db.episodes {
      var d1 := CloseOverdue(db, ep, n);
      var d2 := CloseSettled(d1, ep);
      var d3 := CloseCycle(d2, db.episodes[ep].cycle, n);
      OverdueEndsWell(db, ep, n);
      SettledEndsWell(d1, ep);
      CloseSettledIsSweep(d1, ep);
      SweepKeepsKeys(d1, d2);
      EndsWellTransitive(db, d1, d2);
      CycleEndsWell(d2, db.episodes[ep].cycle, n);
      CloseCycleIsSweep(d2, db.episodes[ep].cycle, n);
      SweepKeepsKeys(d2, d3);
      EndsWellTransitive(db, d2, d3);
    }
  }

  /** Sweeping rows and then closing. */
  lemma SweepThenCloseEndsWell(db: Db, ts: Tasks, ep: Id, n: Time)
    ensures EndsWell(db, CloseEpisode(db.(tasks := ts), ep, n))
  {
    var d := db.(tasks := ts);
    NothingEnds(db, d);
    CloseEndsWell(d, ep, n);
    CloseEpisodeIsSweep(d, ep, n);
    SweepKeepsKeys(d, CloseEpisode(d, ep, n));
    EndsWellTransitive(db, d, CloseEpisode(d, ep, n));
  }

  lemma SweptEndsWell(db: Db, ep: Id, n: Time, n1: Time, n2: Time)
    ensures EndsWell(db, Swept(db, ep, n, n1, n2))
  {
    var d1 := CloseEpisode(db, ep, n1);
    var ts := SweptTable(d1.tasks, ep, n);
    var d2 := d1.(tasks := ts);
    CloseEndsWell(db, ep, n1);
    SweptTableIsSweep(d1.tasks, ep, n);
    CloseEpisodeIsSweep(d2, ep, n2);
    SweptDbReflexive(d1);
    SweptDbTransitive(d1, d2, CloseEpisode(d2, ep, n2));
    SweepKeepsKeys(d1, CloseEpisode(d2, ep, n2));
    SweepThenCloseEndsWell(d1, ts, ep, n2);
    EndsWellTransitive(db, d1, CloseEpisode(d2, ep, n2));
  }

  // ---- Commands -------------------------------------------------------------------

  lemma ClaimEndsWell(db: Db, ep: Id, worker: string, seconds: int, n: Time, n1: Time, n2: Time)
    requires Inv(db) && AllEndWell(db)
    ensures AllEndWell(Claim(db, ep, worker, seconds, n, n1, n2).0)
  {
    if Materialized(db, ep) {
      var s := Swept(db, ep, n, n1, n2);
      SweptInv(db, ep, n, n1, n2);
      SweptEndsWell(db, ep, n, n1, n2);
      SweepKeepsKeys(db, s);
      AllStillWell(db, s);
      DecideEndsWell(s, ep, db.executions[ep].plan.budget.parallel, worker, n, LeaseEnd(n, seconds));
    }
  }

  lemma DecideEndsWell(s: Db, ep: Id, limit: int, worker: string, n: Time, until: Time)
    requires AllEndWell(s)
    ensures AllEndWell(Decide(s, ep, limit, worker, n, until).0)
  {
    var d := Decide(s, ep, limit, worker, n, until).0;
    DecideEvolves(s, ep, limit, worker, n, until);
    NothingEnds(s, d);
    AllStillWell(s, d);
  }

  lemma CompleteLegacyEndsWell(
      db: Db, id: Id, version: int, fencing: int, doc: ResultDoc, canonicalOk: bool, n: Time, n1: Time)
    requires AllEndWell(db)
    ensures AllEndWell(CompleteLegacy(db, id, version, fencing, doc, canonicalOk, n, n1).0)
  {
    var d := CompleteLegacy(db, id, version, fencing, doc, canonicalOk, n, n1).0;
    if d != db {
      var ep := db.tasks[id].def.episode;
      var ts := SkipBlocked(db.tasks[id := Report(db.tasks[id], doc)], {ep});
      CompleteLegacyEvolves(db, id, version, fencing, doc, canonicalOk, n, n1);
      ReportSteps(db, id, doc, n1);
      SweepThenCloseEndsWell(db, ts, ep, n1);
      AllStillWell(db, d);
    }
  }

  lemma CriticEndsWell(
      db: Db, id: Id, version: int, fencing: int, row: CritiqueRow, hypothesis: Id, check: PayloadCheck, n: Time,
      n1: Time)
    requires AllEndWell(db)
    ensures AllEndWell(CompleteCritic(db, id, version, fencing, row, hypothesis, check, n, n1).0)
  {
    var d := CompleteCritic(db, id, version, fencing, row, hypothesis, check, n, n1).0;
    if d != db {
      var r := CompleteLegacy(db, id, version, fencing, CriticResult(id), true, n, n1).0;
      CompleteLegacyEndsWell(db, id, version, fencing, CriticResult(id), true, n, n1);
      CritiquesEndNothing(r, d);
    }
  }

  lemma CritiquesEndNothing(a: Db, b: Db)
    requires AllEndWell(a) && b.tasks == a.tasks && b.episodes == a.episodes && b.cycles == a.cycles
    ensures AllEndWell(b)
  {
    forall ep | ep in b.episodes ensures EpisodeEndingOk(b, ep) {
      assert EpisodeEndingOk(a, ep);
    }
    forall cy | cy in b.cycles ensures CycleEndingOk(b, cy) {
      assert CycleEndingOk(a, cy);
      CycleEndingStays(a, b, cy);
    }
  }

  lemma StopEndsWell(db: Db, ep: Id, status: TaskStatus, ending: Ending, reason: string)
    requires ep in db.episodes
    requires (ending.ByDeadline? && reason == "deadline_exceeded") ||
               (ending.ByCancel? && reason != "" && Trimmed(reason))
    ensures EndsWell(db, StopEpisode(db, ep, status, ending, reason))
  {
  }

  lemma DeferEndsWell(db: Db, cy: Id)
    requires LiveCycle(db, cy) && LiveEpisodesOf(db, cy) == {} ==> CutShort(db, cy)
    ensures EndsWell(db, DeferCycle(db, cy)) && SweptDb(db, DeferCycle(db, cy))
  {
    SweptDbReflexive(db);
    NothingEnds(db, db);
    if LiveCycle(db, cy) && LiveEpisodesOf(db, cy) == {} {
      EndCycleEndsWell(db, cy, SomeDeferred, "all_episodes_terminal");
    }
  }

  /** A running cycle without running episodes has no episode yet. */
  lemma BusyCycleHasLive(db: Db, cy: Id)
    requires CyclesBusy(db, {}) && LiveCycle(db, cy) && EpisodesOf(db.episodes, cy) != {}
    ensures LiveEpisodesOf(db, cy) != {}
  {
    assert CycleBusy(db, cy);
    var ep :| LiveEp(db, ep) && db.episodes[ep].cycle == cy;
    assert ep in LiveEpisodesOf(db, cy);
  }

  /** Stopping an episode leaves its cycle running, or with an episode cut short. */
  lemma StopCutsShort(db: Db, ep: Id, status: TaskStatus, ending: Ending, reason: string)
    requires Inv(db) && ep in db.episodes && !ending.AllCompleted?
    ensures var d := StopEpisode(db, ep, status, ending, reason);
            LiveCycle(d, db.episodes[ep].cycle) && LiveEpisodesOf(d, db.episodes[ep].cycle) == {} ==>
                CutShort(d, db.episodes[ep].cycle)
  {
    var d := StopEpisode(db, ep, status, ending, reason);
    var cy := db.episodes[ep].cycle;
    if db.episodes[ep].state.Live? {
      assert d.episodes[ep].state == Ended(ending, reason) && d.episodes[ep].cycle == cy;
    } else if LiveCycle(d, cy) {
      OpenInv(db);
      assert ep in EpisodesOf(db.episodes, cy);
      BusyCycleHasLive(db, cy);
      assert LiveEpisodesOf(d, cy) == LiveEpisodesOf(db, cy);
    }
  }

  lemma CancelEndsWell(db: Db, ep: Id, reason: string, n: Time)
    requires Inv(db) && AllEndWell(db)
    ensures AllEndWell(Cancel(db, ep, reason, n).0)
  {
    if ep in db.episodes && Trimmed(reason) && reason != "" {
      var late := db.episodes[ep].expiresAt <= n;
      var d := if late then StopEpisode(db, ep, TimedOut, ByDeadline, "deadline_exceeded")
               else StopEpisode(db, ep, Cancelled, ByCancel, reason);
      if late {
        StopEndsWell(db, ep, TimedOut, ByDeadline, "deadline_exceeded");
        StopCutsShort(db, ep, TimedOut, ByDeadline, "deadline_exceeded");
      } else {
        StopEndsWell(db, ep, Cancelled, ByCancel, reason);
        StopCutsShort(db, ep, Cancelled, ByCancel, reason);
      }
      DeferEndsWell(d, db.episodes[ep].cycle);
      SweepKeepsKeys(d, DeferCycle(d, db.episodes[ep].cycle));
      EndsWellTransitive(db, d, DeferCycle(d, db.episodes[ep].cycle));
      CancelEvolves(db, ep, reason, n);
      AllStillWell(db, Cancel(db, ep, reason, n).0);
    }
  }

  lemma {:induction false} CloseAllEndsWell(db: Db, visits: seq<Visit>, picked: set<Id>)
    ensures EndsWell(db, CloseAll(db, visits, picked))
  {
    NothingEnds(db, db);
    if visits != [] {
      var front, v := visits[..|visits| - 1], visits[|visits| - 1];
      var d := CloseAll(db, front, picked);
      CloseAllEndsWell(db, front, picked);
      if v.ep in picked {
        CloseEndsWell(d, v.ep, v.at);
        CloseEpisodeIsSweep(d, v.ep, v.at);
        SweepKeepsKeys(d, CloseEpisode(d, v.ep, v.at));
        EndsWellTransitive(db, d, CloseEpisode(d, v.ep, v.at));
      }
    }
  }

  lemma ExpireEndsWell(db: Db, n: Time)
    requires CyclesBusy(db, {})
    ensures EndsWell(db, ExpireCycles(db, n))
  {
    var d := ExpireCycles(db, n);
    forall cy | cy in d.cycles ensures d.cycles[cy] == db.cycles[cy] || CycleEndingOk(d, cy) {
      if cy in Stale(db, n) && db.cycles[cy].expiresAt > n {
        BusyCycleHasLive(db, cy);
      }
    }
  }

  lemma ExpireIsEvolution(db: Db, n: Time)
    ensures EvolvedDb(db, ExpireCycles(db, n)) && SameRows(db, ExpireCycles(db, n))
  {
    SweptDbReflexive(db);
    SweepKeepsKeys(db, ExpireCycles(db, n));
  }

  lemma RecoveredEndsWell(db: Db, n: Time, first: seq<Visit>, second: seq<Visit>)
    ensures EndsWell(db, Recovered(db, n, first, second))
  {
    var d1 := CloseAll(db, first, Overdue(db, n));
    var t2 := RecoverTasks(d1.tasks, n);
    var d2 := d1.(tasks := t2);
    var d3 := CloseAll(d2, second, Settled(t2));
    CloseAllEndsWell(db, first, Overdue(db, n));
    NothingEnds(d1, d2);
    RecoverTasksIsSweep(d1.tasks, n);
    SweptDbReflexive(d1);
    SweepKeepsKeys(d1, d2);
    EndsWellTransitive(db, d1, d2);
    CloseAllEndsWell(d2, second, Settled(t2));
    CloseAllIsSweep(d2, second, Settled(t2));
    SweepKeepsKeys(d2, d3);
    EndsWellTransitive(db, d2, d3);
  }

  lemma RecoverEndsWell(db: Db, n: Time, first: seq<Visit>, second: seq<Visit>)
    requires Inv(db) && AllEndWell(db)
    ensures AllEndWell(Apply(db, DoRecover(n, first, second)))
  {
    if FullScan(db, first, n) && FullScan(db, second, n) {
      var d := Recovered(db, n, first, second);
      RecoveredEndsWell(db, n, first, second);
      OpenInv(db);
      BothScans(db, n, first, second);
      ExpireEndsWell(d, n);
      ExpireIsEvolution(d, n);
      EndsWellTransitive(db, d, ExpireCycles(d, n));
      RecoverEvolves(db, n, first, second);
      SweepKeepsKeys(db, Recover(db, n, first, second));
      AllStillWell(db, Recover(db, n, first, second));
    }
  }

  lemma PersistEndsWell(db: Db, ep: Id, expected: nat, x: Execution, canonicalOk: bool, n: Time)
    requires Inv(db) && AllEndWell(db)
    ensures AllEndWell(Persist(db, ep, expected, x, canonicalOk, n).0)
  {
    var d := Persist(db, ep, expected, x, canonicalOk, n).0;
    if d != db {
      PersistAddsRows(db, ep, x);
      PersistEvolves(db, ep, expected, x, canonicalOk, n);
      AddedRowsEndNothing(db, d, ep);
    }
  }

  lemma AddedRowsEndNothing(db: Db, d: Db, ep: Id)
    requires AllEndWell(db) && EvolvedDb(db, d) && AddedRows(db.tasks, d.tasks, ep) && LiveEp(db, ep)
    requires d.episodes == db.episodes && d.cycles == db.cycles
    ensures AllEndWell(d)
  {
    forall e | e in d.episodes ensures EpisodeEndingOk(d, e) {
      assert EpisodeEndingOk(db, e);
      if e != ep && Shortfall(db.tasks, e) {
        ShortfallStays(db, d, e);
      }
    }
    forall cy | cy in d.cycles ensures CycleEndingOk(d, cy) {
      assert CycleEndingOk(db, cy);
      CycleEndingStays(db, d, cy);
    }
  }

  lemma StartsEndWell(db: Db, d: Db)
    requires AllEndWell(db) && d.tasks == db.tasks
    requires forall ep :: ep in d.episodes ==>
               d.episodes[ep].state.Live? || (ep in db.episodes && d.episodes[ep] == db.episodes[ep])
    requires forall cy :: cy in d.cycles ==>
               d.cycles[cy].state.Live? || (cy in db.cycles && d.cycles[cy] == db.cycles[cy])
    requires EndedStay(db, d)
    ensures AllEndWell(d)
  {
    forall ep | ep in d.episodes ensures EpisodeEndingOk(d, ep) {
      assert ep in db.episodes ==> EpisodeEndingOk(db, ep);
    }
    forall cy | cy in d.cycles ensures CycleEndingOk(d, cy) {
      if cy in db.cycles && d.cycles[cy] == db.cycles[cy] {
        assert CycleEndingOk(db, cy);
        CycleEndingStays(db, d, cy);
      }
    }
  }

  lemma StartCycleEndsWell(db: Db, id: Id, trigger: Trigger, triggerOk: bool, expiresAt: Time, n: Time)
    requires AllEndWell(db)
    ensures AllEndWell(StartCycle(db, id, trigger, triggerOk, expiresAt, n).0)
  {
    StartsEndWell(db, StartCycle(db, id, trigger, triggerOk, expiresAt, n).0);
  }

  lemma StartEpisodeEndsWell(db: Db, id: Id, cy: Id, candidate: string, expiresAt: Time, n: Time)
    requires AllEndWell(db)
    ensures AllEndWell(StartEpisode(db, id, cy, candidate, expiresAt, n).0)
  {
    StartsEndWell(db, StartEpisode(db, id, cy, candidate, expiresAt, n).0);
  }

  lemma ReserveEndsWell(db: Db, ep: Id, hypothesis: Id, evaluation: Id, policyOk: bool)
    requires AllEndWell(db)
    ensures AllEndWell(ReserveRevision(db, ep, hypothesis, evaluation, policyOk).0)
  {
    CritiquesEndNothing(db, ReserveRevision(db, ep, hypothesis, evaluation, policyOk).0);
  }

  lemma OpeningEndsWell(db: Db, c: Command)
    requires Inv(db) && AllEndWell(db) && Opens(c)
    ensures AllEndWell(Apply(db, c))
  {
    match c
    case DoStartCycle(id, trigger, ok, expiresAt, n) => StartCycleEndsWell(db, id, trigger, ok, expiresAt, n);
    case DoStartEpisode(id, cycle, candidate, expiresAt, n) =>
      StartEpisodeEndsWell(db, id, cycle, candidate, expiresAt, n);
    case DoPersist(ep, expected, x, ok, n) => PersistEndsWell(db, ep, expected, x, ok, n);
    case DoReserve(ep, h, evaluation, ok) => ReserveEndsWell(db, ep, h, evaluation, ok);
  }

  lemma ApplyEndsWell(db: Db, c: Command)
    requires Inv(db) && AllEndWell(db)
    ensures AllEndWell(Apply(db, c))
  {
    if Opens(c) {
      OpeningEndsWell(db, c);
    } else {
      match c
      case DoClaim(ep, worker, seconds, n, n1, n2) => ClaimEndsWell(db, ep, worker, seconds, n, n1, n2);
      case DoComplete(id, version, fencing, doc, ok, n, n1) =>
        CompleteLegacyEndsWell(db, id, version, fencing, doc, ok, n, n1);
      case DoCritic(id, version, fencing, row, h, ok, n, n1) =>
        CriticEndsWell(db, id, version, fencing, row, h, ok, n, n1);
      case DoCancel(ep, reason, n) => CancelEndsWell(db, ep, reason, n);
      case DoRecover(n, first, second) => RecoverEndsWell(db, n, first, second);
    }
  }

  /** In every run an ended episode or cycle carries the reason that fits: COMPLETED
      only with all tasks COMPLETED, DEFERRED only with a task that fell short,
      TIMED_OUT with the deadline reason, CANCELLED with the caller's. */
  lemma {:induction false} EndingsTellWhy(cs: seq<Command>)
    ensures AllEndWell(Run(EMPTY_DB, cs))
  {
    if cs != [] {
      var front := cs[..|cs| - 1];
      EndingsTellWhy(front);
      ReachableIsSafe(front);
      ApplyEndsWell(Run(EMPTY_DB, front), cs[|cs| - 1]);
    }
  }
}
