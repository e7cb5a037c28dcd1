/** Closing steps re-establish consistency between tasks, episodes and cycles. */
module WorkflowClosing {
  import opened Common
  import opened WorkflowModel
  import opened SkipPropagation
  import opened WorkflowSteps
  import opened WorkflowInvariants

  /** What a cycle's consistency reads: its row and its episodes. */
  lemma CycleFrame(a: Db, b: Db, cy: Id)
    requires cy in a.cycles <==> cy in b.cycles
    requires cy in a.cycles ==> a.cycles[cy] == b.cycles[cy]
    requires forall ep :: (ep in a.episodes && a.episodes[ep].cycle == cy) <==>
               (ep in b.episodes && b.episodes[ep].cycle == cy)
    requires forall ep :: ep in a.episodes && a.episodes[ep].cycle == cy ==> a.episodes[ep] == b.episodes[ep]
    ensures CycleAllows(a, cy) ==> CycleAllows(b, cy)
    ensures CycleBusy(a, cy) ==> CycleBusy(b, cy)
  {
    if CycleBusy(a, cy) && LiveCycle(b, cy) && EpisodesOf(b.episodes, cy) != {} {
      var ep :| ep in EpisodesOf(b.episodes, cy);
      assert ep in EpisodesOf(a.episodes, cy);
      var live :| LiveEp(a, live) && a.episodes[live].cycle == cy;
      assert LiveEp(b, live) && b.episodes[live].cycle == cy;
    }
  }

  /** What an episode's consistency reads: its row and its tasks. */
  lemma EpisodeFrame(a: Db, b: Db, ep: Id)
    requires ep in a.episodes <==> ep in b.episodes
    requires ep in a.episodes ==> a.episodes[ep] == b.episodes[ep]
    requires ep in a.executions <==> ep in b.executions
    requires a.tasks.Keys == b.tasks.Keys
    requires forall id :: id in a.tasks ==> b.tasks[id].def == a.tasks[id].def
    requires forall id :: id in a.tasks && a.tasks[id].def.episode == ep ==> a.tasks[id] == b.tasks[id]
    ensures EpisodeAllows(a, ep) ==> EpisodeAllows(b, ep)
    ensures EpisodeBusy(a, ep) ==> EpisodeBusy(b, ep)
  {
    assert UnfinishedOf(a.tasks, ep) == UnfinishedOf(b.tasks, ep);
  }

  /** Ending one live episode leaves only its own cycle to be closed. */
  lemma EndingAnEpisode(db: Db, ep: Id, ending: Ending, reason: string, cycles: set<Id>)
    requires CyclesAllow(db) && CyclesBusy(db, cycles) && LiveEp(db, ep)
    ensures var d := EndEpisode(db, ep, ending, reason);
            CyclesAllow(d) && CyclesBusy(d, cycles + {db.episodes[ep].cycle})
  {
    var d := EndEpisode(db, ep, ending, reason);
    forall cy ensures CycleAllows(d, cy) && (cy !in cycles + {db.episodes[ep].cycle} ==> CycleBusy(d, cy)) {
      assert CycleAllows(db, cy);
      if cy != db.episodes[ep].cycle {
        assert cy !in cycles ==> CycleBusy(db, cy);
        CycleFrame(db, d, cy);
      } else {
        assert LiveEp(db, ep);
      }
    }
  }

  lemma SameEpisodesSameCycles(a: Db, b: Db, cycles: set<Id>)
    requires a.episodes == b.episodes && a.cycles == b.cycles
    ensures CyclesAllow(a) ==> CyclesAllow(b)
    ensures CyclesBusy(a, cycles) ==> CyclesBusy(b, cycles)
  {
    forall cy
      ensures CycleAllows(a, cy) ==> CycleAllows(b, cy)
      ensures CycleBusy(a, cy) ==> CycleBusy(b, cy)
    {
      CycleFrame(a, b, cy);
    }
  }

  lemma SameTasksSameEpisodes(a: Db, b: Db, episodes: set<Id>)
    requires a.episodes == b.episodes && a.tasks == b.tasks && a.executions == b.executions
    ensures EpisodesAllow(a) ==> EpisodesAllow(b)
    ensures EpisodesBusy(a, episodes) ==> EpisodesBusy(b, episodes)
  {
    forall ep
      ensures EpisodeAllows(a, ep) ==> EpisodeAllows(b, ep)
      ensures EpisodeBusy(a, ep) ==> EpisodeBusy(b, ep)
    {
      EpisodeFrame(a, b, ep);
    }
  }

  /** An episode that ends together with its tasks is consistent. */
  lemma StoppingAnEpisode(
      db: Db, ep: Id, status: TaskStatus, ending: Ending, reason: string, cycles: set<Id>, episodes: set<Id>)
    requires Closure(db, cycles, episodes) && LiveEp(db, ep) && !ending.AllCompleted?
    requires status.TimedOut? || status.Cancelled?
    ensures var d := StopEpisode(db, ep, status, ending, reason);
            SweptDb(db, d) && Closure(d, cycles + {db.episodes[ep].cycle}, episodes)
  {
    var e1 := EndEpisode(db, ep, ending, reason);
    var d := StopEpisode(db, ep, status, ending, reason);
    FinishIsSweep(db.tasks, UnfinishedOf(db.tasks, ep), status);
    EndingAnEpisode(db, ep, ending, reason, cycles);
    SameEpisodesSameCycles(e1, d, cycles + {db.episodes[ep].cycle});
    forall e ensures EpisodeAllows(d, e) && (e !in episodes ==> EpisodeBusy(d, e)) {
      assert EpisodeAllows(db, e) && (e !in episodes ==> EpisodeBusy(db, e));
      if e != ep {
        EpisodeFrame(db, d, e);
      }
    }
  }

  /** Stopping an episode that is over touches no row. */
  lemma StoppingAnEndedEpisode(db: Db, ep: Id, status: TaskStatus, ending: Ending, reason: string)
    requires EpisodesAllow(db) && ep in db.episodes && db.episodes[ep].state.Ended?
    ensures StopEpisode(db, ep, status, ending, reason) == db
  {
    assert EpisodeAllows(db, ep);
    assert UnfinishedOf(db.tasks, ep) == {};
    assert Finish(db.tasks, {}, status) == db.tasks;
  }

  lemma CloseOverdueCloses(db: Db, ep: Id, n: Time, episodes: set<Id>)
    requires Closure(db, {}, episodes) && ep in db.episodes
    ensures Closure(CloseOverdue(db, ep, n), {db.episodes[ep].cycle}, episodes)
  {
    if Due(db, ep, n) {
      StoppingAnEpisode(db, ep, TimedOut, ByDeadline, "deadline_exceeded", {}, episodes);
      assert CloseOverdue(db, ep, n) == StopEpisode(db, ep, TimedOut, ByDeadline, "deadline_exceeded");
    }
  }

  lemma CloseSettledCloses(db: Db, ep: Id, episodes: set<Id>)
    requires ep in db.episodes && Closure(db, {db.episodes[ep].cycle}, episodes)
    requires ep in db.executions || db.episodes[ep].state.Ended?
    ensures Closure(CloseSettled(db, ep), {db.episodes[ep].cycle}, episodes - {ep})
  {
    if LiveEp(db, ep) && UnfinishedOf(db.tasks, ep) == {} {
      var cy := db.episodes[ep].cycle;
      var ending := if AllTasksCompleted(db.tasks, ep) then AllCompleted else SomeDeferred;
      EndingAnEpisode(db, ep, ending, "all_tasks_terminal", {cy});
      var d := CloseSettled(db, ep);
      assert {cy} + {cy} == {cy};
      forall e ensures EpisodeAllows(d, e) && (e !in episodes - {ep} ==> EpisodeBusy(d, e)) {
        assert EpisodeAllows(db, e) && (e !in episodes ==> EpisodeBusy(db, e));
        if e != ep {
          EpisodeFrame(db, d, e);
        } else {
          assert forall id :: id in db.tasks && db.tasks[id].def.episode == ep ==> id !in UnfinishedOf(db.tasks, ep);
        }
      }
    } else {
      assert EpisodeBusy(db, ep);
    }
  }

  /** Closing the one cycle that may have lost its last live episode. */
  lemma EndingACycle(db: Db, cy: Id, ending: Ending, reason: string)
    requires CyclesAllow(db) && CyclesBusy(db, {cy}) && cy in db.cycles && LiveEpisodesOf(db, cy) == {}
    requires ending.AllCompleted? ==> AllEpisodesCompleted(db, cy)
    ensures CyclesAllow(EndCycle(db, cy, ending, reason)) && CyclesBusy(EndCycle(db, cy, ending, reason), {})
  {
    var d := EndCycle(db, cy, ending, reason);
    forall c ensures CycleAllows(d, c) && CycleBusy(d, c) {
      assert CycleAllows(db, c);
      if c != cy {
        assert CycleBusy(db, c);
        CycleFrame(db, d, c);
      } else {
        assert forall ep :: LiveEp(d, ep) && d.episodes[ep].cycle == cy ==> ep in LiveEpisodesOf(db, cy);
      }
    }
  }

  lemma CycleStillBusy(db: Db, cy: Id)
    requires CyclesBusy(db, {cy})
    requires !(LiveCycle(db, cy) && EpisodesOf(db.episodes, cy) != {} && LiveEpisodesOf(db, cy) == {})
    ensures CyclesBusy(db, {})
  {
    forall c ensures CycleBusy(db, c) {
      if c == cy && LiveEpisodesOf(db, cy) != {} {
        var ep :| ep in LiveEpisodesOf(db, cy);
        assert LiveEp(db, ep) && db.episodes[ep].cycle == cy;
      }
    }
  }

  lemma CloseCycleCloses(db: Db, cy: Id, n: Time, episodes: set<Id>)
    requires Closure(db, {cy}, episodes)
    ensures Closure(CloseCycle(db, cy, n), {}, episodes)
  {
    var d := CloseCycle(db, cy, n);
    SameTasksSameEpisodes(db, d, episodes);
    if LiveCycle(db, cy) && EpisodesOf(db.episodes, cy) != {} && LiveEpisodesOf(db, cy) == {} {
      if db.cycles[cy].expiresAt <= n {
        EndingACycle(db, cy, ByDeadline, "deadline_exceeded");
      } else if AllEpisodesCompleted(db, cy) {
        EndingACycle(db, cy, AllCompleted, "all_episodes_terminal");
      } else {
        EndingACycle(db, cy, SomeDeferred, "all_episodes_terminal");
      }
    } else {
      CycleStillBusy(db, cy);
    }
  }

  /** v1005_close_episode restores consistency of the episode it is called for. */
  lemma CloseEpisodeCloses(db: Db, ep: Id, n: Time, episodes: set<Id>)
    requires Closure(db, {}, episodes) && ep in db.episodes
    requires ep in db.executions || db.episodes[ep].state.Ended? || db.episodes[ep].expiresAt <= n
    ensures Closure(CloseEpisode(db, ep, n), {}, episodes - {ep})
  {
    CloseOverdueCloses(db, ep, n, episodes);
    var d1 := CloseOverdue(db, ep, n);
    CloseSettledCloses(d1, ep, episodes);
    CloseCycleCloses(CloseSettled(d1, ep), db.episodes[ep].cycle, n, episodes - {ep});
  }

  /** Sweeping only task rows leaves to close the episodes it has emptied. */
  lemma SweepingTasks(db: Db, ts: Tasks, emptied: set<Id>)
    requires Closure(db, {}, {}) && SweptTasks(db.tasks, ts)
    requires forall ep :: ep in db.executions && LiveEp(db, ep) && UnfinishedOf(ts, ep) == {} ==> ep in emptied
    ensures Closure(db.(tasks := ts), {}, emptied)
  {
    var d := db.(tasks := ts);
    SameEpisodesSameCycles(db, d, {});
    forall ep ensures EpisodeAllows(d, ep) && (ep !in emptied ==> EpisodeBusy(d, ep)) {
      assert EpisodeAllows(db, ep);
      forall id | id in ts ensures SweptRow(db.tasks[id], ts[id]) {
      }
    }
  }

  lemma RequeueIsSweep(ts: Tasks, ep: Id, n: Time)
    ensures SweptTasks(ts, Requeue(ts, Expired(ts, ep, n)))
  {
  }

  lemma SweptTasksTransitive(a: Tasks, b: Tasks, c: Tasks)
    requires SweptTasks(a, b) && SweptTasks(b, c)
    ensures SweptTasks(a, c)
  {
    forall id | id in a ensures SweptRow(a[id], c[id]) {
      assert SweptRow(a[id], b[id]) && SweptRow(b[id], c[id]);
    }
  }

  // ---- The sweep of claim ----------------------------------------------------

  ghost function SweptTable(ts: Tasks, ep: Id, n: Time): Tasks {
    var t2 := Requeue(ts, Expired(ts, ep, n));
    SkipBlocked(Finish(t2, Late(t2, {ep}, n), TimedOut), {ep})
  }

  lemma SweptTableIsSweep(ts: Tasks, ep: Id, n: Time)
    ensures SweptTasks(ts, SweptTable(ts, ep, n))
    ensures forall id :: id in ts && ts[id].def.episode != ep ==> SweptTable(ts, ep, n)[id] == ts[id]
  {
    var t2 := Requeue(ts, Expired(ts, ep, n));
    var t3 := Finish(t2, Late(t2, {ep}, n), TimedOut);
    RequeueIsSweep(ts, ep, n);
    FinishIsSweep(t2, Late(t2, {ep}, n), TimedOut);
    SkipIsSweep(t3, {ep});
    SweptTasksTransitive(ts, t2, t3);
    SweptTasksTransitive(ts, t3, SweptTable(ts, ep, n));
    BlockedStaysInScope(t3, {ep});
  }

  lemma BlockedStaysInScope(ts: Tasks, scope: set<Id>)
    ensures forall d :: d in BlockedSet(ts, scope) ==> ts[d].status.Pending? && ts[d].def.episode in scope
  {
    forall d | d in BlockedSet(ts, scope) ensures ts[d].status.Pending? && ts[d].def.episode in scope {
      var p :| BlockedPath(ts, scope, p) && p[0] == d;
      assert Waiting(ts, scope, p[0]);
    }
  }

  lemma SweptKeeps(db: Db, ep: Id, n: Time, n1: Time, n2: Time)
    requires Closure(db, {}, {}) && ep in db.executions && ep in db.episodes
    ensures SweptDb(db, Swept(db, ep, n, n1, n2)) && Closure(Swept(db, ep, n, n1, n2), {}, {})
  {
    var d1 := CloseEpisode(db, ep, n1);
    CloseEpisodeIsSweep(db, ep, n1);
    CloseEpisodeCloses(db, ep, n1, {});
    assert {} - {ep} == {} && {ep} - {ep} == {};
    var ts := SweptTable(d1.tasks, ep, n);
    SweptTableIsSweep(d1.tasks, ep, n);
    forall e | e in d1.executions && LiveEp(d1, e) && UnfinishedOf(ts, e) == {} ensures e in {ep} {
      assert EpisodeBusy(d1, e);
      assert e != ep ==> UnfinishedOf(ts, e) == UnfinishedOf(d1.tasks, e);
    }
    SweepingTasks(d1, ts, {ep});
    var d2 := d1.(tasks := ts);
    SweptDbTransitive(db, d1, d2);
    CloseEpisodeIsSweep(d2, ep, n2);
    CloseEpisodeCloses(d2, ep, n2, {ep});
    SweptDbTransitive(db, d2, CloseEpisode(d2, ep, n2));
  }

  // ---- Cancelling ------------------------------------------------------------

  lemma DeferCycleCloses(db: Db, cy: Id)
    requires Closure(db, {cy}, {})
    ensures SweptDb(db, DeferCycle(db, cy)) && Closure(DeferCycle(db, cy), {}, {})
  {
    SameTasksSameEpisodes(db, DeferCycle(db, cy), {});
    if LiveCycle(db, cy) && LiveEpisodesOf(db, cy) == {} {
      EndingACycle(db, cy, SomeDeferred, "all_episodes_terminal");
    } else {
      CycleStillBusy(db, cy);
    }
  }

  lemma CancelKeeps(db: Db, ep: Id, reason: string, n: Time)
    requires Closure(db, {}, {})
    ensures SweptDb(db, Cancel(db, ep, reason, n).0) && Closure(Cancel(db, ep, reason, n).0, {}, {})
  {
    if ep in db.episodes && Trimmed(reason) && reason != "" {
      var e := db.episodes[ep];
      var status := if e.expiresAt <= n then TimedOut else Cancelled;
      var ending := if e.expiresAt <= n then ByDeadline else ByCancel;
      var why := if e.expiresAt <= n then "deadline_exceeded" else reason;
      var d := StopEpisode(db, ep, status, ending, why);
      if e.state.Live? {
        StoppingAnEpisode(db, ep, status, ending, why, {}, {});
      } else {
        StoppingAnEndedEpisode(db, ep, status, ending, why);
      }
      assert Closure(d, {e.cycle}, {});
      DeferCycleCloses(d, e.cycle);
      SweptDbTransitive(db, d, DeferCycle(d, e.cycle));
    }
  }

  // ---- Recovering ------------------------------------------------------------

  /** The episodes a loop has closed by the end of its scan. */
  ghost function Closed(visits: seq<Visit>, picked: set<Id>): set<Id> {
    set ep | ep in picked && Visited(visits, ep)
  }

  lemma {:induction false} CloseAllCloses(db: Db, visits: seq<Visit>, picked: set<Id>, episodes: set<Id>)
    requires Closure(db, {}, episodes) && picked <= db.episodes.Keys
    requires forall v :: v in visits && v.ep in picked ==> v.ep in db.executions || db.episodes[v.ep].expiresAt <= v.at
    ensures SweptDb(db, CloseAll(db, visits, picked))
    ensures Closure(CloseAll(db, visits, picked), {}, episodes - Closed(visits, picked))
  {
    if visits == [] {
      assert episodes - Closed(visits, picked) == episodes;
    } else {
      var front, v := visits[..|visits| - 1], visits[|visits| - 1];
      assert visits == front + [v];
      CloseAllCloses(db, front, picked, episodes);
      var d := CloseAll(db, front, picked);
      assert forall e :: Visited(visits, e) <==> Visited(front, e) || e == v.ep;
      if v.ep in picked {
        assert v in visits;
        assert EndedEpisode(db.episodes[v.ep], d.episodes[v.ep]);
        CloseEpisodeIsSweep(d, v.ep, v.at);
        CloseEpisodeCloses(d, v.ep, v.at, episodes - Closed(front, picked));
        SweptDbTransitive(db, d, CloseEpisode(d, v.ep, v.at));
        assert episodes - Closed(front, picked) - {v.ep} == episodes - Closed(visits, picked);
      } else {
        assert Closed(front, picked) == Closed(visits, picked);
      }
    }
  }

  lemma ClosingEnds(db: Db, ep: Id, n: Time)
    requires ep in db.episodes && db.episodes[ep].expiresAt <= n
    ensures !LiveEp(CloseEpisode(db, ep, n), ep)
  {
  }

  /** An overdue episode is over once the scan has passed it. */
  lemma {:induction false} CloseAllEnds(db: Db, visits: seq<Visit>, picked: set<Id>, ep: Id)
    requires ep in picked && ep in db.episodes && Visited(visits, ep)
    requires forall v :: v in visits && v.ep == ep ==> db.episodes[ep].expiresAt <= v.at
    ensures !LiveEp(CloseAll(db, visits, picked), ep)
  {
    var front, v := visits[..|visits| - 1], visits[|visits| - 1];
    assert visits == front + [v];
    CloseAllIsSweep(db, front, picked);
    var d := CloseAll(db, front, picked);
    assert EndedEpisode(db.episodes[ep], d.episodes[ep]);
    if v.ep == ep {
      assert v in visits;
      ClosingEnds(d, ep, v.at);
    } else {
      CloseAllEnds(db, front, picked, ep);
      CloseEpisodeIsSweep(d, v.ep, v.at);
      assert EndedEpisode(d.episodes[ep], CloseEpisode(d, v.ep, v.at).episodes[ep]);
    }
  }

  lemma {:induction false} CloseAllIsSweep(db: Db, visits: seq<Visit>, picked: set<Id>)
    ensures SweptDb(db, CloseAll(db, visits, picked))
  {
    if visits != [] {
      var front, v := visits[..|visits| - 1], visits[|visits| - 1];
      CloseAllIsSweep(db, front, picked);
      CloseEpisodeIsSweep(CloseAll(db, front, picked), v.ep, v.at);
      SweptDbTransitive(db, CloseAll(db, front, picked), CloseEpisode(CloseAll(db, front, picked), v.ep, v.at));
    }
  }

  lemma RecoverTasksIsSweep(ts: Tasks, n: Time)
    ensures SweptTasks(ts, RecoverTasks(ts, n))
    ensures forall id :: id in ts && ts[id].def.deadline <= n ==> !RecoverTasks(ts, n)[id].status.Unfinished()
  {
    var late := Finish(ts, Late(ts, AllEpisodes(ts), n), TimedOut);
    FinishIsSweep(ts, Late(ts, AllEpisodes(ts), n), TimedOut);
    SkipIsSweep(late, AllEpisodes(ts));
    SweptTasksTransitive(ts, late, RecoverTasks(ts, n));
    forall id | id in ts && ts[id].def.deadline <= n ensures !RecoverTasks(ts, n)[id].status.Unfinished() {
      assert ts[id].def.episode in AllEpisodes(ts);
      assert SweptRow(late[id], RecoverTasks(ts, n)[id]);
    }
  }

  /** No live episode expires at or before n. */
  ghost predicate NothingOverdue(db: Db, n: Time) {
    forall ep :: LiveEp(db, ep) ==> db.episodes[ep].expiresAt > n
  }

  lemma SweepKeepsNothingOverdue(a: Db, b: Db, n: Time)
    requires SweptDb(a, b) && NothingOverdue(a, n)
    ensures NothingOverdue(b, n)
  {
    forall ep | LiveEp(b, ep) ensures b.episodes[ep].expiresAt > n {
      assert EndedEpisode(a.episodes[ep], b.episodes[ep]);
      assert LiveEp(a, ep);
    }
  }

  lemma ExpireCyclesIsSweep(db: Db, n: Time)
    ensures SweptDb(db, ExpireCycles(db, n))
    ensures forall cy :: cy in db.cycles && cy !in Stale(db, n) ==> ExpireCycles(db, n).cycles[cy] == db.cycles[cy]
    ensures forall cy :: LiveCycle(ExpireCycles(db, n), cy) ==> cy !in Stale(db, n) && db.cycles[cy].expiresAt > n
  {
    SweptDbReflexive(db);
  }

  lemma StaleHasNoLive(db: Db, n: Time, cy: Id, ep: Id)
    requires Wired(db) && NothingOverdue(db, n) && cy in Stale(db, n) && LiveEp(db, ep)
    ensures db.episodes[ep].cycle != cy
  {
    assert db.episodes[ep].expiresAt > n;
    assert db.episodes[ep].cycle == cy ==> ep in LiveEpisodesOf(db, cy);
  }

  lemma ExpiringCycles(db: Db, n: Time)
    requires Wired(db) && Closure(db, {}, {}) && NothingOverdue(db, n)
    ensures SweptDb(db, ExpireCycles(db, n)) && Closure(ExpireCycles(db, n), {}, {})
    ensures forall cy :: LiveCycle(ExpireCycles(db, n), cy) ==> db.cycles[cy].expiresAt > n
  {
    var d := ExpireCycles(db, n);
    ExpireCyclesIsSweep(db, n);
    SameTasksSameEpisodes(db, d, {});
    forall cy ensures CycleAllows(d, cy) && CycleBusy(d, cy) {
      assert CycleAllows(db, cy) && CycleBusy(db, cy);
      if cy in Stale(db, n) {
        forall ep | LiveEp(db, ep) ensures db.episodes[ep].cycle != cy {
          StaleHasNoLive(db, n, cy, ep);
        }
      } else {
        CycleFrame(db, d, cy);
      }
    }
  }

  lemma FirstScan(db: Db, n: Time, visits: seq<Visit>)
    requires Closure(db, {}, {}) && FullScan(db, visits, n)
    ensures var d := CloseAll(db, visits, Overdue(db, n));
            SweptDb(db, d) && Closure(d, {}, {}) && NothingOverdue(d, n)
  {
    var picked := Overdue(db, n);
    CloseAllCloses(db, visits, picked, {});
    var d := CloseAll(db, visits, picked);
    assert {} - Closed(visits, picked) == {};
    forall ep | LiveEp(d, ep) ensures d.episodes[ep].expiresAt > n {
      assert EndedEpisode(db.episodes[ep], d.episodes[ep]);
      if db.episodes[ep].expiresAt <= n {
        CloseAllEnds(db, visits, picked, ep);
      }
    }
  }

  lemma PlanHasTasks(db: Db, ep: Id) returns (id: Id)
    requires Wired(db) && ep in db.executions
    ensures id in db.tasks && db.tasks[id].def.episode == ep
  {
    assert Planned(db, ep);
    PlanValidation.OpenAccepted(db.episodes, ep, db.executions[ep]);
    var d := db.executions[ep].defs[0];
    assert d in db.executions[ep].defs;
    id := d.taskId;
  }

  lemma EmptiedIsSettled(db: Db, ts: Tasks, ep: Id)
    requires Wired(db) && SweptTasks(db.tasks, ts)
    requires ep in db.executions && UnfinishedOf(ts, ep) == {}
    ensures ep in Settled(ts)
  {
    var id := PlanHasTasks(db, ep);
    assert SweptRow(db.tasks[id], ts[id]);
  }

  lemma SettledIsPlanned(db: Db, ts: Tasks, ep: Id)
    requires Wired(db) && SweptTasks(db.tasks, ts) && ep in Settled(ts)
    ensures ep in db.executions && ep in db.episodes
  {
    var id :| id in ts && ts[id].def.episode == ep;
    assert SweptRow(db.tasks[id], ts[id]) && TaskWired(db, id) && Planned(db, ep);
  }

  lemma SettledArePlanned(db: Db, ts: Tasks)
    requires Wired(db) && SweptTasks(db.tasks, ts)
    ensures Settled(ts) <= db.executions.Keys * db.episodes.Keys
    ensures forall ep :: ep in db.executions && UnfinishedOf(ts, ep) == {} ==> ep in Settled(ts)
  {
    forall ep | ep in db.executions && UnfinishedOf(ts, ep) == {} ensures ep in Settled(ts) {
      EmptiedIsSettled(db, ts, ep);
    }
    forall ep | ep in Settled(ts) ensures ep in db.executions.Keys * db.episodes.Keys {
      SettledIsPlanned(db, ts, ep);
    }
  }

  lemma RecoveredTasks(db: Db, n: Time)
    requires Wired(db) && Closure(db, {}, {})
    ensures var t2 := RecoverTasks(db.tasks, n);
            SweptDb(db, db.(tasks := t2)) && Closure(db.(tasks := t2), {}, Settled(t2)) &&
            Settled(t2) <= db.executions.Keys * db.episodes.Keys
  {
    var t2 := RecoverTasks(db.tasks, n);
    RecoverTasksIsSweep(db.tasks, n);
    SettledArePlanned(db, t2);
    SweepingTasks(db, t2, Settled(t2));
  }

  lemma ScanSettled(db: Db, n: Time, visits: seq<Visit>, picked: set<Id>)
    requires Closure(db, {}, picked) && picked <= db.executions.Keys * db.episodes.Keys && FullScan(db, visits, n)
    ensures SweptDb(db, CloseAll(db, visits, picked)) && Closure(CloseAll(db, visits, picked), {}, {})
  {
    CloseAllCloses(db, visits, picked, picked);
    assert picked - Closed(visits, picked) == {};
  }

  lemma SecondScan(db: Db, n: Time, visits: seq<Visit>)
    requires Wired(db) && Closure(db, {}, {}) && NothingOverdue(db, n) && FullScan(db, visits, n)
    ensures var t2 := RecoverTasks(db.tasks, n);
            var d := CloseAll(db.(tasks := t2), visits, Settled(t2));
            SweptDb(db, d) && Closure(d, {}, {}) && NothingOverdue(d, n)
  {
    var t2 := RecoverTasks(db.tasks, n);
    var d1 := db.(tasks := t2);
    RecoveredTasks(db, n);
    assert FullScan(d1, visits, n);
    ScanSettled(d1, n, visits, Settled(t2));
    SweptDbTransitive(db, d1, CloseAll(d1, visits, Settled(t2)));
    SweepKeepsNothingOverdue(db, CloseAll(d1, visits, Settled(t2)), n);
  }

  ghost function Recovered(db: Db, n: Time, first: seq<Visit>, second: seq<Visit>): Db {
    var d1 := CloseAll(db, first, Overdue(db, n));
    var t2 := RecoverTasks(d1.tasks, n);
    CloseAll(d1.(tasks := t2), second, Settled(t2))
  }

  lemma BothScans(db: Db, n: Time, first: seq<Visit>, second: seq<Visit>)
    requires Wired(db) && Closure(db, {}, {}) && FullScan(db, first, n) && FullScan(db, second, n)
    ensures var d := Recovered(db, n, first, second);
            SweptDb(db, d) && Closure(d, {}, {}) && NothingOverdue(d, n)
  {
    FirstScan(db, n, first);
    var d1 := CloseAll(db, first, Overdue(db, n));
    SweepKeepsWired(db, d1);
    assert FullScan(d1, second, n);
    SecondScan(d1, n, second);
    SweptDbTransitive(db, d1, Recovered(db, n, first, second));
  }

  /** The last statement of the recovery. */
  lemma ExpiringLast(db: Db, d: Db, n: Time)
    requires Wired(db) && SweptDb(db, d) && Closure(d, {}, {}) && NothingOverdue(d, n)
    ensures SweptDb(db, ExpireCycles(d, n)) && Closure(ExpireCycles(d, n), {}, {})
    ensures NothingOverdue(ExpireCycles(d, n), n)
    ensures forall cy :: LiveCycle(ExpireCycles(d, n), cy) ==> db.cycles[cy].expiresAt > n
  {
    SweepKeepsWired(db, d);
    ExpiringCycles(d, n);
    SweptDbTransitive(db, d, ExpireCycles(d, n));
    SweepKeepsNothingOverdue(d, ExpireCycles(d, n), n);
    forall cy | LiveCycle(ExpireCycles(d, n), cy) ensures db.cycles[cy].expiresAt > n {
      assert EndedCycle(db.cycles[cy], d.cycles[cy]);
    }
  }

  lemma RecoverIsExpiry(db: Db, n: Time, first: seq<Visit>, second: seq<Visit>)
    ensures Recover(db, n, first, second) == ExpireCycles(Recovered(db, n, first, second), n)
  {
  }

  /** Recovery keeps all three levels consistent and leaves nothing overdue. */
  lemma RecoverKeeps(db: Db, n: Time, first: seq<Visit>, second: seq<Visit>)
    requires Wired(db) && Closure(db, {}, {}) && FullScan(db, first, n) && FullScan(db, second, n)
    ensures var d := Recover(db, n, first, second);
            SweptDb(db, d) && Closure(d, {}, {}) && NothingOverdue(d, n)
    ensures forall cy :: LiveCycle(Recover(db, n, first, second), cy) ==> db.cycles[cy].expiresAt > n
  {
    BothScans(db, n, first, second);
    RecoverIsExpiry(db, n, first, second);
    ExpiringLast(db, Recovered(db, n, first, second), n);
  }

  /** After recovery at n no task whose deadline is n or earlier is unfinished. */
  lemma RecoverEndsLateTasks(db: Db, n: Time, first: seq<Visit>, second: seq<Visit>, id: Id)
    requires id in db.tasks && db.tasks[id].def.deadline <= n
    ensures id in Recover(db, n, first, second).tasks && !Recover(db, n, first, second).tasks[id].status.Unfinished()
  {
    var d1 := CloseAll(db, first, Overdue(db, n));
    CloseAllIsSweep(db, first, Overdue(db, n));
    assert SweptRow(db.tasks[id], d1.tasks[id]);
    RecoverTasksIsSweep(d1.tasks, n);
    var d2 := d1.(tasks := RecoverTasks(d1.tasks, n));
    CloseAllIsSweep(d2, second, Settled(d2.tasks));
    assert SweptRow(d2.tasks[id], CloseAll(d2, second, Settled(d2.tasks)).tasks[id]);
  }
}
