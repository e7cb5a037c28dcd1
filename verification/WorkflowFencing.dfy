/** How a task row can change over a whole run: fencing, results, fan-in. */
module WorkflowFencing {
  import opened Common
  import opened WorkflowModel
  import opened SkipPropagation
  import opened PlanValidation
  import opened WorkflowSteps
  import opened WorkflowInvariants
  import opened WorkflowClosing
  import opened WorkflowSafety

  /** Definitions are fixed, tokens and versions grow, terminal rows stay as they are. */
  ghost predicate Evolved(t: Task, t': Task) {
    t'.def == t.def && t'.fencing >= t.fencing && (t' == t || (t.status.Unfinished() && t'.version > t.version))
  }

  ghost predicate EvolvedTables(a: Db, b: Db) {
    && a.tasks.Keys <= b.tasks.Keys && (forall id :: id in a.tasks ==> Evolved(a.tasks[id], b.tasks[id]))
    && a.executions.Keys <= b.executions.Keys
    && (forall ep :: ep in a.executions ==> b.executions[ep] == a.executions[ep])
    && a.episodes.Keys <= b.episodes.Keys
    && (forall ep :: ep in a.episodes ==> EndedEpisode(a.episodes[ep], b.episodes[ep]))
    && a.cycles.Keys <= b.cycles.Keys && (forall cy :: cy in a.cycles ==> EndedCycle(a.cycles[cy], b.cycles[cy]))
    && a.critiques.Keys <= b.critiques.Keys && (forall id :: id in a.critiques ==> b.critiques[id] == a.critiques[id])
    && a.revisions <= b.revisions
  }

  ghost predicate UnsealedHistory(k: int) {
    true
  }

  /** How a later state relates to an earlier one, sealed like Inv. */
  ghost predicate EvolvedDb(a: Db, b: Db) {
    forall k {:trigger UnsealedHistory(k)} :: UnsealedHistory(k) ==> EvolvedTables(a, b)
  }

  lemma OpenHistory(a: Db, b: Db)
    requires EvolvedDb(a, b)
    ensures EvolvedTables(a, b)
  {
    assert UnsealedHistory(0);
  }

  lemma SealHistory(a: Db, b: Db)
    requires EvolvedTables(a, b)
    ensures EvolvedDb(a, b)
  {
  }

  /** One row of the history. */
  lemma RowHistory(a: Db, b: Db, id: Id)
    requires EvolvedDb(a, b) && id in a.tasks
    ensures id in b.tasks && Evolved(a.tasks[id], b.tasks[id])
  {
    OpenHistory(a, b);
  }

  lemma EvolvedDbTransitive(a: Db, b: Db, c: Db)
    requires EvolvedDb(a, b) && EvolvedDb(b, c)
    ensures EvolvedDb(a, c)
  {
    OpenHistory(a, b);
    OpenHistory(b, c);
    forall id | id in a.tasks ensures Evolved(a.tasks[id], c.tasks[id]) {
      assert Evolved(a.tasks[id], b.tasks[id]) && Evolved(b.tasks[id], c.tasks[id]);
    }
    forall ep | ep in a.episodes ensures EndedEpisode(a.episodes[ep], c.episodes[ep]) {
      assert EndedEpisode(a.episodes[ep], b.episodes[ep]) && EndedEpisode(b.episodes[ep], c.episodes[ep]);
    }
    forall cy | cy in a.cycles ensures EndedCycle(a.cycles[cy], c.cycles[cy]) {
      assert EndedCycle(a.cycles[cy], b.cycles[cy]) && EndedCycle(b.cycles[cy], c.cycles[cy]);
    }
    SealHistory(a, c);
  }

  lemma Unchanged(a: Db)
    ensures EvolvedDb(a, a)
  {
    SealHistory(a, a);
  }

  lemma SweepEvolves(a: Db, b: Db)
    requires SweptDb(a, b)
    ensures EvolvedDb(a, b)
  {
    forall id | id in a.tasks ensures Evolved(a.tasks[id], b.tasks[id]) {
      assert SweptRow(a.tasks[id], b.tasks[id]);
    }
    SealHistory(a, b);
  }

  lemma OneRowEvolves(db: Db, id: Id, row: Task)
    requires id in db.tasks && Evolved(db.tasks[id], row)
    ensures EvolvedDb(db, db.(tasks := db.tasks[id := row]))
  {
    SealHistory(db, db.(tasks := db.tasks[id := row]));
  }

  lemma DecideEvolves(s: Db, ep: Id, limit: int, worker: string, n: Time, until: Time)
    ensures EvolvedDb(s, Decide(s, ep, limit, worker, n, until).0)
  {
    var r := Decide(s, ep, limit, worker, n, until);
    Unchanged(s);
    if r.1.Handed? {
      OneRowEvolves(s, r.1.task, Lease(s.tasks, r.1.task, worker, until)[r.1.task]);
    }
  }

  lemma ClaimEvolves(db: Db, ep: Id, worker: string, seconds: int, n: Time, n1: Time, n2: Time)
    requires Inv(db)
    ensures EvolvedDb(db, Claim(db, ep, worker, seconds, n, n1, n2).0)
  {
    Unchanged(db);
    if Materialized(db, ep) {
      var s := Swept(db, ep, n, n1, n2);
      SweptInv(db, ep, n, n1, n2);
      SweepEvolves(db, s);
      var d := Decide(s, ep, db.executions[ep].plan.budget.parallel, worker, n, LeaseEnd(n, seconds)).0;
      DecideEvolves(s, ep, db.executions[ep].plan.budget.parallel, worker, n, LeaseEnd(n, seconds));
      EvolvedDbTransitive(db, s, d);
    }
  }

  /** The steps of an accepted, effective completion. */
  lemma ReportSteps(db: Db, id: Id, doc: ResultDoc, n1: Time)
    requires id in db.tasks
    ensures var ts := db.tasks[id := Report(db.tasks[id], doc)];
            var ep := db.tasks[id].def.episode;
            SweptDb(db.(tasks := ts), CloseEpisode(db.(tasks := SkipBlocked(ts, {ep})), ep, n1))
  {
    var ts := db.tasks[id := Report(db.tasks[id], doc)];
    var ep := db.tasks[id].def.episode;
    SkipIsSweep(ts, {ep});
    CloseEpisodeIsSweep(db.(tasks := SkipBlocked(ts, {ep})), ep, n1);
    SweptDbTransitive(db.(tasks := ts), db.(tasks := SkipBlocked(ts, {ep})),
                      CloseEpisode(db.(tasks := SkipBlocked(ts, {ep})), ep, n1));
  }

  lemma CompleteLegacyEvolves(
      db: Db, id: Id, version: int, fencing: int, doc: ResultDoc, canonicalOk: bool, n: Time, n1: Time)
    ensures EvolvedDb(db, CompleteLegacy(db, id, version, fencing, doc, canonicalOk, n, n1).0)
    ensures CompleteLegacy(db, id, version, fencing, doc, canonicalOk, n, n1).0.critiques == db.critiques
  {
    var d := CompleteLegacy(db, id, version, fencing, doc, canonicalOk, n, n1).0;
    Unchanged(db);
    if d != db {
      var row := Report(db.tasks[id], doc);
      OneRowEvolves(db, id, row);
      ReportSteps(db, id, doc, n1);
      SweepEvolves(db.(tasks := db.tasks[id := row]), d);
      EvolvedDbTransitive(db, db.(tasks := db.tasks[id := row]), d);
    }
  }

  lemma CriticEvolves(
      db: Db, id: Id, version: int, fencing: int, row: CritiqueRow, hypothesis: Id, check: PayloadCheck, n: Time,
      n1: Time)
    ensures EvolvedDb(db, CompleteCritic(db, id, version, fencing, row, hypothesis, check, n, n1).0)
  {
    var d := CompleteCritic(db, id, version, fencing, row, hypothesis, check, n, n1).0;
    Unchanged(db);
    if d != db {
      CompleteLegacyEvolves(db, id, version, fencing, CriticResult(id), true, n, n1);
      var r := CompleteLegacy(db, id, version, fencing, CriticResult(id), true, n, n1).0;
      CritiqueEvolves(r, id, row);
      EvolvedDbTransitive(db, r, d);
    }
  }

  lemma CritiqueEvolves(db: Db, id: Id, row: CritiqueRow)
    requires id in db.critiques ==> db.critiques[id] == row
    ensures EvolvedDb(db, db.(critiques := db.critiques[id := row]))
  {
    SealHistory(db, db.(critiques := db.critiques[id := row]));
  }

  lemma AddedEvolves(db: Db, ep: Id, x: Execution, ts: Tasks)
    requires AddedRows(db.tasks, ts, ep) && ep !in db.executions
    ensures EvolvedDb(db, db.(executions := db.executions[ep := x], tasks := ts))
  {
    SealHistory(db, db.(executions := db.executions[ep := x], tasks := ts));
  }

  lemma PersistAddsRows(db: Db, ep: Id, x: Execution)
    requires Inv(db) && Accepted(db.episodes, ep, x) && ep !in db.executions && NewTaskIds(db.tasks, x.defs)
    ensures AddedRows(db.tasks, db.tasks + FreshTasks(x.defs), ep)
  {
    OpenInv(db);
    OpenAccepted(db.episodes, ep, x);
    PersistAdds(db, ep, x, db.tasks + FreshTasks(x.defs));
  }

  lemma PersistEvolves(db: Db, ep: Id, expected: nat, x: Execution, canonicalOk: bool, n: Time)
    requires Inv(db)
    ensures EvolvedDb(db, Persist(db, ep, expected, x, canonicalOk, n).0)
  {
    Unchanged(db);
    if Persist(db, ep, expected, x, canonicalOk, n).0 != db {
      PersistAddsRows(db, ep, x);
      AddedEvolves(db, ep, x, db.tasks + FreshTasks(x.defs));
    }
  }

  lemma StartsEvolve(a: Db, b: Db)
    requires b.tasks == a.tasks && b.executions == a.executions && b.critiques == a.critiques
    requires a.revisions <= b.revisions
    requires a.episodes.Keys <= b.episodes.Keys && forall ep :: ep in a.episodes ==> b.episodes[ep] == a.episodes[ep]
    requires a.cycles.Keys <= b.cycles.Keys && forall cy :: cy in a.cycles ==> b.cycles[cy] == a.cycles[cy]
    ensures EvolvedDb(a, b)
  {
    SealHistory(a, b);
  }

  lemma StartCycleEvolves(db: Db, id: Id, trigger: Trigger, triggerOk: bool, expiresAt: Time, n: Time)
    ensures EvolvedDb(db, StartCycle(db, id, trigger, triggerOk, expiresAt, n).0)
  {
    StartsEvolve(db, StartCycle(db, id, trigger, triggerOk, expiresAt, n).0);
  }

  lemma StartEpisodeEvolves(db: Db, id: Id, cy: Id, candidate: string, expiresAt: Time, n: Time)
    ensures EvolvedDb(db, StartEpisode(db, id, cy, candidate, expiresAt, n).0)
  {
    StartsEvolve(db, StartEpisode(db, id, cy, candidate, expiresAt, n).0);
  }

  lemma ReserveEvolves(db: Db, ep: Id, hypothesis: Id, evaluation: Id, policyOk: bool)
    ensures EvolvedDb(db, ReserveRevision(db, ep, hypothesis, evaluation, policyOk).0)
  {
    StartsEvolve(db, ReserveRevision(db, ep, hypothesis, evaluation, policyOk).0);
  }

  lemma ApplyEvolves(db: Db, c: Command)
    requires Inv(db)
    ensures EvolvedDb(db, Apply(db, c))
  {
    match c
    case DoStartCycle(id, trigger, ok, expiresAt, n) => StartCycleEvolves(db, id, trigger, ok, expiresAt, n);
    case DoStartEpisode(id, cycle, candidate, expiresAt, n) =>
      StartEpisodeEvolves(db, id, cycle, candidate, expiresAt, n);
    case DoPersist(ep, expected, x, ok, n) => PersistEvolves(db, ep, expected, x, ok, n);
    case DoClaim(ep, worker, seconds, n, n1, n2) => ClaimEvolves(db, ep, worker, seconds, n, n1, n2);
    case DoComplete(id, version, fencing, doc, ok, n, n1) => CompleteEvolves(db, id, version, fencing, doc, ok, n, n1);
    case DoCritic(id, version, fencing, row, h, ok, n, n1) =>
      CriticEvolves(db, id, version, fencing, row, h, ok, n, n1);
    case DoReserve(ep, h, evaluation, ok) => ReserveEvolves(db, ep, h, evaluation, ok);
    case DoCancel(ep, reason, n) => CancelEvolves(db, ep, reason, n);
    case DoRecover(n, first, second) => RecoverEvolves(db, n, first, second);
  }

  lemma CompleteEvolves(
      db: Db, id: Id, version: int, fencing: int, doc: ResultDoc, canonicalOk: bool, n: Time, n1: Time)
    ensures EvolvedDb(db, Complete(db, id, version, fencing, doc, canonicalOk, n, n1).0)
  {
    Unchanged(db);
    CompleteLegacyEvolves(db, id, version, fencing, doc, canonicalOk, n, n1);
  }

  lemma CancelEvolves(db: Db, ep: Id, reason: string, n: Time)
    requires Inv(db)
    ensures EvolvedDb(db, Cancel(db, ep, reason, n).0)
    ensures SweptDb(db, Cancel(db, ep, reason, n).0)
  {
    OpenInv(db);
    CancelKeeps(db, ep, reason, n);
    SweepEvolves(db, Cancel(db, ep, reason, n).0);
  }

  lemma RecoverEvolves(db: Db, n: Time, first: seq<Visit>, second: seq<Visit>)
    requires Inv(db)
    ensures EvolvedDb(db, Apply(db, DoRecover(n, first, second)))
    ensures SweptDb(db, Apply(db, DoRecover(n, first, second)))
  {
    OpenInv(db);
    if FullScan(db, first, n) && FullScan(db, second, n) {
      RecoverKeeps(db, n, first, second);
      SweepEvolves(db, Recover(db, n, first, second));
    } else {
      Unchanged(db);
    }
  }

  /** Over any run: definitions and terminal rows are immutable, versions and
      tokens grow, a written result never changes. */
  lemma {:induction false} RunEvolves(db: Db, cs: seq<Command>)
    requires Inv(db)
    ensures EvolvedDb(db, Run(db, cs)) && Inv(Run(db, cs))
  {
    if cs != [] {
      var front := cs[..|cs| - 1];
      RunEvolves(db, front);
      ApplyEvolves(Run(db, front), cs[|cs| - 1]);
      EvolvedDbTransitive(db, Run(db, front), Run(db, cs));
      ApplyKeeps(Run(db, front), cs[|cs| - 1]);
    }
  }

  // ---- Fencing ---------------------------------------------------------------

  lemma DecideTokens(s: Db, ep: Id, limit: int, worker: string, n: Time, until: Time)
    requires Decide(s, ep, limit, worker, n, until).1.Handed?
    ensures var r := Decide(s, ep, limit, worker, n, until);
            var id := r.1.task;
            && id in Ready(s, ep, n) && r.1.fencing == s.tasks[id].fencing + 1 && r.1.version == s.tasks[id].version + 1
            && r.1.def == s.tasks[id].def && r.0 == s.(tasks := Lease(s.tasks, id, worker, until))
            && r.1.inputs == Merged(r.0.tasks, id)
  {
  }

  /** The state and reply of a claim that handed out a task. */
  ghost predicate Hands(db: Db, c: Command, h: Claimed) {
    c.DoClaim? && h.Handed? && Claim(db, c.ep, c.worker, c.seconds, c.n, c.n1, c.n2).1 == Done(h)
  }

  lemma HandedByDecide(db: Db, c: Command, h: Claimed)
    requires Inv(db) && Hands(db, c, h)
    ensures c.ep in db.executions
    ensures var s := Swept(db, c.ep, c.n, c.n1, c.n2);
            !AmbiguousFanIn(s, c.ep, c.n) && (Apply(db, c), h) ==
              Decide(s, c.ep, db.executions[c.ep].plan.budget.parallel, c.worker, c.n, LeaseEnd(c.n, c.seconds))
  {
    ClaimDone(db, c.ep, c.worker, c.seconds, c.n, c.n1, c.n2, LeaseEnd(c.n, c.seconds));
  }

  lemma SweptRowOf(db: Db, ep: Id, n: Time, n1: Time, n2: Time, id: Id)
    requires Inv(db) && ep in db.executions && id in Swept(db, ep, n, n1, n2).tasks
    ensures id in db.tasks && SweptRow(db.tasks[id], Swept(db, ep, n, n1, n2).tasks[id])
  {
    SweptInv(db, ep, n, n1, n2);
  }

  /** A handed-out task carries a token one above every earlier one and the row
      remembers exactly what was handed out. */
  lemma ClaimTokens(db: Db, c: Command, h: Claimed)
    requires Inv(db) && Hands(db, c, h)
    ensures h.task in db.tasks && h.fencing == db.tasks[h.task].fencing + 1 && h.version > db.tasks[h.task].version
    ensures h.def == db.tasks[h.task].def && h.def.episode == c.ep
    ensures var d := Apply(db, c);
            h.task in d.tasks && d.tasks[h.task] ==
              Task(h.def, Running, d.tasks[h.task].doc, h.version, Some(c.worker), h.fencing,
                  Some(LeaseEnd(c.n, c.seconds)))
  {
    HandedByDecide(db, c, h);
    ClaimedRow(db, c.ep, db.executions[c.ep].plan.budget.parallel, c.worker, c.n, c.n1, c.n2, LeaseEnd(c.n, c.seconds));
  }

  lemma ClaimedRow(db: Db, ep: Id, limit: int, worker: string, n: Time, n1: Time, n2: Time, until: Time)
    requires Inv(db) && ep in db.executions && Decide(Swept(db, ep, n, n1, n2), ep, limit, worker, n, until).1.Handed?
    ensures var r := Decide(Swept(db, ep, n, n1, n2), ep, limit, worker, n, until);
            var h := r.1;
            && h.task in db.tasks && h.fencing == db.tasks[h.task].fencing + 1 && h.version > db.tasks[h.task].version
            && h.def == db.tasks[h.task].def && h.def.episode == ep
            && h.task in r.0.tasks && r.0.tasks[h.task] ==
                 Task(h.def, Running, r.0.tasks[h.task].doc, h.version, Some(worker), h.fencing, Some(until))
  {
    var s := Swept(db, ep, n, n1, n2);
    DecideTokens(s, ep, limit, worker, n, until);
    SweptRowOf(db, ep, n, n1, n2, Decide(s, ep, limit, worker, n, until).1.task);
  }

  /** A completion by anyone but the holder of the current token is refused. */
  lemma WrongTokenIsRefused(
      db: Db, id: Id, version: int, fencing: int, doc: ResultDoc, canonicalOk: bool, n: Time, n1: Time)
    requires id in db.tasks && fencing != db.tasks[id].fencing
    ensures Complete(db, id, version, fencing, doc, canonicalOk, n, n1) == (db, false)
    ensures CompleteLegacy(db, id, version, fencing, doc, canonicalOk, n, n1) == (db, false)
  {
  }

  /** Nor does it file a critique. */
  lemma WrongTokenFilesNothing(
      db: Db, id: Id, version: int, fencing: int, row: CritiqueRow, hypothesis: Id, check: PayloadCheck, n: Time,
      n1: Time)
    requires id in db.tasks && fencing != db.tasks[id].fencing
    ensures CompleteCritic(db, id, version, fencing, row, hypothesis, check, n, n1) == (db, false)
  {
    WrongTokenIsRefused(db, id, version, fencing, CriticResult(id), true, n, n1);
  }

  /** Once a task has been claimed again, the earlier claim can never write: no
      result, and for a Critic task no critique. */
  lemma {:induction false} SupersededClaimNeverWrites(
      db: Db, c: Command, h: Claimed, between: seq<Command>, c': Command, h': Claimed, later: seq<Command>,
      version: int, doc: ResultDoc, canonicalOk: bool, row: CritiqueRow, hypothesis: Id, check: PayloadCheck, n: Time,
      n1: Time)
    requires Inv(db) && Hands(db, c, h) && Hands(Run(Apply(db, c), between), c', h') && h'.task == h.task
    ensures h'.fencing > h.fencing && h'.version > h.version
    ensures var end := Run(Apply(Run(Apply(db, c), between), c'), later);
            Complete(end, h.task, version, h.fencing, doc, canonicalOk, n, n1) == (end, false) &&
            CompleteCritic(end, h.task, version, h.fencing, row, hypothesis, check, n, n1) == (end, false)
  {
    var d := Apply(db, c);
    var mid := Run(d, between);
    var d' := Apply(mid, c');
    var end := Run(d', later);
    ApplyKeeps(db, c);
    ClaimTokens(db, c, h);
    RunEvolves(d, between);
    RowHistory(d, mid, h.task);
    ClaimTokens(mid, c', h');
    ApplyKeeps(mid, c');
    RunEvolves(d', later);
    RowHistory(d', end, h.task);
    WrongTokenIsRefused(end, h.task, version, h.fencing, doc, canonicalOk, n, n1);
    WrongTokenFilesNothing(end, h.task, version, h.fencing, row, hypothesis, check, n, n1);
  }

  /** Commands that complete nothing write no result. */
  lemma OthersLeaveResults(db: Db, c: Command, id: Id)
    requires Inv(db) && id in db.tasks && !c.DoComplete? && !c.DoCritic?
    ensures id in Apply(db, c).tasks && Apply(db, c).tasks[id].doc == db.tasks[id].doc
  {
    match c
    case DoStartCycle(_, _, _, _, _) =>
    case DoStartEpisode(_, _, _, _, _) =>
    case DoPersist(ep, expected, x, ok, n) => PersistLeavesRows(db, ep, expected, x, ok, n, id);
    case DoClaim(ep, worker, seconds, n, n1, n2) => ClaimLeavesDocs(db, ep, worker, seconds, n, n1, n2, id);
    case DoReserve(_, _, _, _) =>
    case DoCancel(ep, reason, n) =>
      CancelEvolves(db, ep, reason, n);
      assert SweptRow(db.tasks[id], Cancel(db, ep, reason, n).0.tasks[id]);
    case DoRecover(n, first, second) =>
      RecoverEvolves(db, n, first, second);
      assert SweptRow(db.tasks[id], Apply(db, c).tasks[id]);
  }

  /** Which command wrote a result: the completion of that task by the holder of
      its current, unexpired lease; the stored result is the submitted one. */
  lemma OnlyTheHolderWrites(db: Db, c: Command, id: Id)
    requires Inv(db) && id in db.tasks && id in Apply(db, c).tasks && Apply(db, c).tasks[id].doc != db.tasks[id].doc
    ensures (c.DoComplete? || c.DoCritic?) && c.id == id && HoldsLease(db, db.tasks[id], c.version, c.fencing, c.n)
    ensures Apply(db, c).tasks[id].doc == Some(if c.DoComplete? then c.doc else CriticResult(id))
  {
    if c.DoComplete? {
      LegacyWrites(db, c.id, c.version, c.fencing, c.doc, c.canonicalOk, c.n, c.n1, id);
    } else if c.DoCritic? {
      LegacyWrites(db, c.id, c.version, c.fencing, CriticResult(c.id), true, c.n, c.n1, id);
    } else {
      OthersLeaveResults(db, c, id);
    }
  }

  lemma PersistLeavesRows(db: Db, ep: Id, expected: nat, x: Execution, canonicalOk: bool, n: Time, id: Id)
    requires Inv(db) && id in db.tasks
    ensures id in Persist(db, ep, expected, x, canonicalOk, n).0.tasks
    ensures Persist(db, ep, expected, x, canonicalOk, n).0.tasks[id] == db.tasks[id]
  {
    if Persist(db, ep, expected, x, canonicalOk, n).0 != db {
      PersistAddsRows(db, ep, x);
    }
  }

  lemma DecideLeavesDocs(s: Db, ep: Id, limit: int, worker: string, n: Time, until: Time, id: Id)
    requires id in s.tasks
    ensures var d := Decide(s, ep, limit, worker, n, until).0;
            id in d.tasks && d.tasks[id].doc == s.tasks[id].doc
  {
  }

  lemma ClaimLeavesDocs(db: Db, ep: Id, worker: string, seconds: int, n: Time, n1: Time, n2: Time, id: Id)
    requires Inv(db) && id in db.tasks
    ensures id in Claim(db, ep, worker, seconds, n, n1, n2).0.tasks
    ensures Claim(db, ep, worker, seconds, n, n1, n2).0.tasks[id].doc == db.tasks[id].doc
  {
    if Materialized(db, ep) {
      var s := Swept(db, ep, n, n1, n2);
      SweptKeepsDoc(db, ep, n, n1, n2, id);
      DecideLeavesDocs(s, ep, db.executions[ep].plan.budget.parallel, worker, n, LeaseEnd(n, seconds), id);
    }
  }

  lemma SweptKeepsDoc(db: Db, ep: Id, n: Time, n1: Time, n2: Time, id: Id)
    requires Inv(db) && ep in db.executions && id in db.tasks
    ensures id in Swept(db, ep, n, n1, n2).tasks && Swept(db, ep, n, n1, n2).tasks[id].doc == db.tasks[id].doc
  {
    SweptInv(db, ep, n, n1, n2);
    assert SweptRow(db.tasks[id], Swept(db, ep, n, n1, n2).tasks[id]);
  }

  lemma LegacyWrites(
      db: Db, x: Id, version: int, fencing: int, doc: ResultDoc, canonicalOk: bool, n: Time, n1: Time, id: Id)
    requires id in db.tasks
    ensures var d := CompleteLegacy(db, x, version, fencing, doc, canonicalOk, n, n1).0;
            id in d.tasks && (d.tasks[id].doc == db.tasks[id].doc ||
              (x == id && HoldsLease(db, db.tasks[id], version, fencing, n) && d.tasks[id].doc == Some(doc)))
  {
    var d := CompleteLegacy(db, x, version, fencing, doc, canonicalOk, n, n1).0;
    if d != db {
      ReportSteps(db, x, doc, n1);
      var ts := db.tasks[x := Report(db.tasks[x], doc)];
      assert SweptRow(ts[id], d.tasks[id]);
    }
  }

  // ---- Repeating a completion ------------------------------------------------

  lemma ReportedReplies(
      d: Db, id: Id, version': int, fencing': int, doc': ResultDoc, canonicalOk': bool, m: Time, m1: Time)
    requires Inv(d) && id in d.tasks && d.tasks[id].status.Reported() && d.tasks[id].doc.Some?
    ensures CompleteLegacy(d, id, version', fencing', doc', canonicalOk', m, m1) ==
              (d, canonicalOk' && d.tasks[id].version == version' + 1 && d.tasks[id].fencing == fencing' &&
                    d.tasks[id].doc.value == doc')
  {
    OpenInv(d);
    assert RowOk(d.tasks[id]);
  }

  /** After an accepted completion every later one, in any state of the run,
      changes nothing, and it is TRUE exactly when it repeats the accepted one. */
  lemma {:induction false} LaterCompletions(
      db: Db, id: Id, version: int, fencing: int, doc: ResultDoc, canonicalOk: bool, n: Time, n1: Time,
      later: seq<Command>, version': int, fencing': int, doc': ResultDoc, canonicalOk': bool, m: Time, m1: Time)
    requires Inv(db) && Complete(db, id, version, fencing, doc, canonicalOk, n, n1).1
    ensures var end := Run(Complete(db, id, version, fencing, doc, canonicalOk, n, n1).0, later);
            Complete(end, id, version', fencing', doc', canonicalOk', m, m1) ==
              (end, canonicalOk' && version' == version && fencing' == fencing && doc' == doc)
  {
    var d := Complete(db, id, version, fencing, doc, canonicalOk, n, n1).0;
    var end := Run(d, later);
    AcceptedCompletion(db, id, version, fencing, doc, canonicalOk, n, n1);
    CompleteKeeps(db, id, version, fencing, doc, canonicalOk, n, n1);
    RunEvolves(d, later);
    RowHistory(d, end, id);
    ReportedReplies(end, id, version', fencing', doc', canonicalOk', m, m1);
  }

  lemma AcceptedCompletion(
      db: Db, id: Id, version: int, fencing: int, doc: ResultDoc, canonicalOk: bool, n: Time, n1: Time)
    requires Inv(db) && Complete(db, id, version, fencing, doc, canonicalOk, n, n1).1
    ensures var d := Complete(db, id, version, fencing, doc, canonicalOk, n, n1).0;
            && id in d.tasks && !IsCritic(d, id) && d.tasks[id].status.Reported() && d.tasks[id].doc == Some(doc)
            && d.tasks[id].version == version + 1 && d.tasks[id].fencing == fencing
  {
    OpenInv(db);
    AcceptedIsReported(db, id, version, fencing, doc, canonicalOk, n, n1);
  }

  /** A terminal task row is frozen for the rest of the run; so are the rows of
      ended episodes and cycles. */
  lemma {:induction false} TerminalAbsorbs(db: Db, cs: seq<Command>)
    requires Inv(db)
    ensures forall id :: id in db.tasks && !db.tasks[id].status.Unfinished() ==>
              id in Run(db, cs).tasks && Run(db, cs).tasks[id] == db.tasks[id]
    ensures forall ep :: ep in db.episodes && db.episodes[ep].state.Ended? ==>
              ep in Run(db, cs).episodes && Run(db, cs).episodes[ep] == db.episodes[ep]
    ensures forall cy :: cy in db.cycles && db.cycles[cy].state.Ended? ==>
              cy in Run(db, cs).cycles && Run(db, cs).cycles[cy] == db.cycles[cy]
  {
    RunEvolves(db, cs);
    var end := Run(db, cs);
    OpenHistory(db, end);
    assert forall id :: id in db.tasks ==> Evolved(db.tasks[id], end.tasks[id]);
    assert forall ep :: ep in db.episodes ==> EndedEpisode(db.episodes[ep], end.episodes[ep]);
    assert forall cy :: cy in db.cycles ==> EndedCycle(db.cycles[cy], end.cycles[cy]);
  }

  // ---- Fan-in ----------------------------------------------------------------

  /** An episode has one row per step key. */
  lemma UniqueRow(db: Db, ep: Id, key: StepKey, a: Id, b: Id)
    requires Inv(db) && RowAt(db.tasks, ep, key, a) && RowAt(db.tasks, ep, key, b)
    ensures a == b
  {
    OpenInv(db);
    assert TaskWired(db, a) && TaskWired(db, b) && Planned(db, ep);
    OpenAccepted(db.episodes, ep, db.executions[ep]);
    var defs := db.executions[ep].defs;
    var i :| 0 <= i < |defs| && defs[i] == db.tasks[a].def;
    var j :| 0 <= j < |defs| && defs[j] == db.tasks[b].def;
  }

  /** ... and a row for every dependency of its rows. */
  lemma DepRow(db: Db, id: Id, key: StepKey) returns (u: Id)
    requires Inv(db) && id in db.tasks && key in db.tasks[id].def.step.dependsOn
    ensures RowAt(db.tasks, db.tasks[id].def.episode, key, u) && DependsOn(db.tasks, id, u)
  {
    OpenInv(db);
    var ep := db.tasks[id].def.episode;
    assert TaskWired(db, id) && Planned(db, ep);
    OpenAccepted(db.episodes, ep, db.executions[ep]);
    var defs := db.executions[ep].defs;
    var i :| 0 <= i < |defs| && defs[i] == db.tasks[id].def;
    assert HasDef(defs, key);
    var j :| 0 <= j < |defs| && defs[j].step.key == key;
    assert defs[j] in defs;
    u := defs[j].taskId;
  }

  lemma RanIsSettled(db: Db, id: Id, u: Id)
    requires Inv(db) && DependsOn(db.tasks, id, u) && (db.tasks[id].status.Running? || db.tasks[id].status.Reported())
    ensures db.tasks[u].status.Completed?
  {
    OpenInv(db);
  }

  /** The artifacts behind one key are those of its one row. */
  lemma UpstreamStep(db: Db, ep: Id, keys: seq<StepKey>, u: Id)
    requires Inv(db) && keys != [] && RowAt(db.tasks, ep, keys[0], u)
    ensures Upstream(db.tasks, ep, keys) == ArtifactsOf(db.tasks, u) + Upstream(db.tasks, ep, keys[1..])
  {
    forall v | RowAt(db.tasks, ep, keys[0], v) ensures v == u {
      UniqueRow(db, ep, keys[0], u, v);
    }
  }

  lemma RanIsReady(db: Db, id: Id)
    requires Inv(db) && id in db.tasks && (db.tasks[id].status.Running? || db.tasks[id].status.Reported())
    ensures DepsCompleted(db.tasks, id)
  {
    OpenInv(db);
  }

  /** Completed dependencies are frozen, so what they produced is too. */
  lemma {:induction false} UpstreamSame(a: Db, b: Db, id: Id, keys: seq<StepKey>)
    requires Inv(a) && Inv(b) && EvolvedDb(a, b) && id in a.tasks && DepsCompleted(a.tasks, id)
    requires forall key <- keys :: key in a.tasks[id].def.step.dependsOn
    ensures Upstream(b.tasks, a.tasks[id].def.episode, keys) == Upstream(a.tasks, a.tasks[id].def.episode, keys)
  {
    if keys != [] {
      var ep := a.tasks[id].def.episode;
      var u := DepRow(a, id, keys[0]);
      RowHistory(a, b, u);
      UpstreamStep(a, ep, keys, u);
      UpstreamStep(b, ep, keys, u);
      UpstreamSame(a, b, id, keys[1..]);
    }
  }

  lemma MergedSame(a: Db, b: Db, id: Id)
    requires Inv(a) && Inv(b) && EvolvedDb(a, b) && id in a.tasks && a.tasks[id].status.Running?
    ensures id in b.tasks && Merged(b.tasks, id) == Merged(a.tasks, id)
  {
    RowHistory(a, b, id);
    RanIsReady(a, id);
    UpstreamSame(a, b, id, a.tasks[id].def.step.dependsOn);
  }

  lemma HandedInputs(db: Db, c: Command, h: Claimed)
    requires Inv(db) && Hands(db, c, h)
    ensures h.task in Apply(db, c).tasks && h.inputs == Merged(Apply(db, c).tasks, h.task)
  {
    HandedByDecide(db, c, h);
    DecideTokens(
      Swept(db, c.ep, c.n, c.n1, c.n2), c.ep, db.executions[c.ep].plan.budget.parallel, c.worker, c.n, LeaseEnd(c.n,
          c.seconds));
  }

  /** Whoever claims a task, and however often its lease has expired before, is
      handed the same definition and the same inputs. */
  lemma {:induction false} SameInputsForEveryClaim(
      db: Db, c: Command, h: Claimed, between: seq<Command>, c': Command, h': Claimed)
    requires Inv(db) && Hands(db, c, h) && Hands(Run(Apply(db, c), between), c', h') && h'.task == h.task
    ensures h'.inputs == h.inputs && h'.def == h.def
  {
    var d := Apply(db, c);
    var mid := Run(d, between);
    var d' := Apply(mid, c');
    ApplyKeeps(db, c);
    RunEvolves(d, between);
    ApplyKeeps(mid, c');
    ApplyEvolves(mid, c');
    EvolvedDbTransitive(d, mid, d');
    ClaimTokens(db, c, h);
    ClaimTokens(mid, c', h');
    RowHistory(d, mid, h.task);
    HandedInputs(db, c, h);
    HandedInputs(mid, c', h');
    MergedSame(d, d', h.task);
  }

  /** The inputs are fixed by the results of the dependencies alone: own inputs,
      then the artifacts of each dependency in depends_on order, each of which
      is COMPLETED; nothing occurs twice. */
  lemma HandedInputsAre(db: Db, c: Command, h: Claimed)
    requires Inv(db) && Hands(db, c, h)
    ensures Distinct(h.inputs)
    ensures h.inputs == h.def.step.inputs + Upstream(Apply(db, c).tasks, c.ep, h.def.step.dependsOn)
    ensures forall u :: DependsOn(Apply(db, c).tasks, h.task, u) ==>
              Apply(db, c).tasks[u].status.Completed? && Apply(db, c).tasks[u].doc.Some?
  {
    var d := Apply(db, c);
    ClaimTokens(db, c, h);
    HandedInputs(db, c, h);
    ApplyKeeps(db, c);
    forall u | DependsOn(d.tasks, h.task, u) ensures d.tasks[u].status.Completed? && d.tasks[u].doc.Some? {
      RanIsSettled(d, h.task, u);
      OpenInv(d);
      assert RowOk(d.tasks[u]);
    }
    SweptInv(db, c.ep, c.n, c.n1, c.n2);
    HandedIsDistinct(
      Swept(db, c.ep, c.n, c.n1, c.n2), c.ep, db.executions[c.ep].plan.budget.parallel, c.worker, c.n, LeaseEnd(c.n,
          c.seconds));
  }

  lemma {:induction false} LeaseLeavesArtifacts(s: Db, id: Id, worker: string, until: Time, ep: Id, keys: seq<StepKey>)
    requires Inv(s) && id in s.tasks
    ensures Upstream(Lease(s.tasks, id, worker, until), ep, keys) == Upstream(s.tasks, ep, keys)
  {
    if keys != [] {
      var l := Lease(s.tasks, id, worker, until);
      LeaseLeavesArtifacts(s, id, worker, until, ep, keys[1..]);
      forall u, v | RowAt(s.tasks, ep, keys[0], u) && RowAt(s.tasks, ep, keys[0], v) ensures u == v {
        UniqueRow(s, ep, keys[0], u, v);
      }
      assert forall u :: RowAt(l, ep, keys[0], u) <==> RowAt(s.tasks, ep, keys[0], u);
      assert forall u :: u in s.tasks ==> ArtifactsOf(l, u) == ArtifactsOf(s.tasks, u);
    }
  }

  lemma HandedIsDistinct(s: Db, ep: Id, limit: int, worker: string, n: Time, until: Time)
    requires Inv(s) && !AmbiguousFanIn(s, ep, n) && Decide(s, ep, limit, worker, n, until).1.Handed?
    ensures Distinct(Decide(s, ep, limit, worker, n, until).1.inputs)
  {
    DecideTokens(s, ep, limit, worker, n, until);
    var id := Decide(s, ep, limit, worker, n, until).1.task;
    assert !FanInClash(s.tasks, id);
    LeaseLeavesArtifacts(s, id, worker, until, s.tasks[id].def.episode, s.tasks[id].def.step.dependsOn);
  }

  // ---- Repeating a Critic completion -------------------------------------------

  lemma CriticAccepted(
      db: Db, id: Id, version: int, fencing: int, row: CritiqueRow, hypothesis: Id, check: PayloadCheck, n: Time,
      n1: Time)
    requires Inv(db) && CompleteCritic(db, id, version, fencing, row, hypothesis, check, n, n1).1
    ensures var d := CompleteCritic(db, id, version, fencing, row, hypothesis, check, n, n1).0;
            CriticClosed(d, id, version, fencing, row, hypothesis)
  {
    OpenInv(db);
    AcceptedIsReported(db, id, version, fencing, CriticResult(id), true, n, n1);
    CriticEvolves(db, id, version, fencing, row, hypothesis, check, n, n1);
    CriticKeeps(db, id, version, fencing, row, hypothesis, check, n, n1);
    var d := CompleteCritic(db, id, version, fencing, row, hypothesis, check, n, n1).0;
    OpenHistory(db, d);
    assert Evolved(db.tasks[id], d.tasks[id]);
    CriticUpstream(db, d, id, version, fencing, n, n1);
  }

  lemma CompletedHasRun(db: Db, id: Id, version: int, fencing: int, n: Time, n1: Time)
    requires CompleteLegacy(db, id, version, fencing, CriticResult(id), true, n, n1).1
    ensures id in db.tasks && (db.tasks[id].status.Running? || db.tasks[id].status.Reported())
  {
  }

  lemma CriticUpstream(db: Db, d: Db, id: Id, version: int, fencing: int, n: Time, n1: Time)
    requires Inv(db) && Inv(d) && EvolvedDb(db, d) && IsCritic(db, id) && id in d.tasks
    requires CompleteLegacy(db, id, version, fencing, CriticResult(id), true, n, n1).1
    ensures Upstream(d.tasks, db.tasks[id].def.episode, db.tasks[id].def.step.dependsOn) ==
            Upstream(db.tasks, db.tasks[id].def.episode, db.tasks[id].def.step.dependsOn)
  {
    CompletedHasRun(db, id, version, fencing, n, n1);
    RanIsReady(db, id);
    UpstreamSame(db, d, id, db.tasks[id].def.step.dependsOn);
  }

  /** A Critic completion repeated anywhere later in the run changes nothing and
      is TRUE exactly when it repeats the accepted one before the critique expires. */
  lemma {:induction false} LaterCritics(
      db: Db, id: Id, version: int, fencing: int, row: CritiqueRow, hypothesis: Id, check: PayloadCheck, n: Time,
      n1: Time, later: seq<Command>,
      version': int, fencing': int, row': CritiqueRow, hypothesis': Id, check': PayloadCheck, m: Time, m1: Time)
    requires Inv(db) && CompleteCritic(db, id, version, fencing, row, hypothesis, check, n, n1).1
    ensures var end := Run(CompleteCritic(db, id, version, fencing, row, hypothesis, check, n, n1).0, later);
            CompleteCritic(end, id, version', fencing', row', hypothesis', check', m, m1) ==
              (end, check'.ok && row.evaluatedAt <= check'.at < row.expiresAt &&
                    version' == version && fencing' == fencing && row' == row && hypothesis' == hypothesis)
  {
    var d := CompleteCritic(db, id, version, fencing, row, hypothesis, check, n, n1).0;
    CriticAccepted(db, id, version, fencing, row, hypothesis, check, n, n1);
    CriticKeeps(db, id, version, fencing, row, hypothesis, check, n, n1);
    RunEvolves(d, later);
    CriticStaysClosed(d, Run(d, later), id, version, fencing, row, hypothesis);
    ClosedCriticReplies(
      Run(d, later), id, version, fencing, row, hypothesis, version', fencing', row', hypothesis', check', m, m1);
  }

  /** The Critic task was closed under this version, token, row and hypothesis. */
  ghost predicate CriticClosed(d: Db, id: Id, version: int, fencing: int, row: CritiqueRow, hypothesis: Id) {
    && IsCritic(d, id) && d.tasks[id].status.Deferred? && d.tasks[id].doc == Some(CriticResult(id))
    && d.tasks[id].version == version + 1 && d.tasks[id].fencing == fencing
    && id in d.critiques && d.critiques[id] == row && Dated(row, d.tasks[id].def.deadline)
    && Revision(d.tasks[id].def.episode, hypothesis, row.sha256, 1) in d.revisions
    && |Upstream(d.tasks, d.tasks[id].def.episode, d.tasks[id].def.step.dependsOn)| == 3
  }

  lemma CriticStaysClosed(a: Db, b: Db, id: Id, version: int, fencing: int, row: CritiqueRow, hypothesis: Id)
    requires Inv(a) && Inv(b) && EvolvedDb(a, b) && CriticClosed(a, id, version, fencing, row, hypothesis)
    ensures CriticClosed(b, id, version, fencing, row, hypothesis)
  {
    RowHistory(a, b, id);
    RanIsReady(a, id);
    UpstreamSame(a, b, id, a.tasks[id].def.step.dependsOn);
    OpenHistory(a, b);
  }

  lemma ClosedCriticReplies(
      d: Db, id: Id, version: int, fencing: int, row: CritiqueRow, hypothesis: Id,
      version': int, fencing': int, row': CritiqueRow, hypothesis': Id, check': PayloadCheck, m: Time, m1: Time)
    requires Inv(d) && CriticClosed(d, id, version, fencing, row, hypothesis)
    ensures CompleteCritic(d, id, version', fencing', row', hypothesis', check', m, m1) ==
              (d, check'.ok && row.evaluatedAt <= check'.at < row.expiresAt &&
                  version' == version && fencing' == fencing && row' == row && hypothesis' == hypothesis)
  {
    ReportedReplies(d, id, version', fencing', CriticResult(id), true, m, m1);
    var known := Revision(d.tasks[id].def.episode, hypothesis, row.sha256, 1);
    var asked := Revision(d.tasks[id].def.episode, hypothesis', row'.sha256, 1);
    OneRevisionEach(d, known, asked);
    assert d.(critiques := d.critiques[id := row]) == d;
  }

  lemma OneRevisionEach(d: Db, a: Revision, b: Revision)
    requires Inv(d) && a in d.revisions && a.episode == b.episode
    ensures b in d.revisions ==> b == a
  {
    OpenInv(d);
  }

  // ---- What the Critic does to its episode -------------------------------------

  /** An episode with a Critic plan never ends COMPLETED, nor does its cycle; a
      critique is stored exactly when the Critic task is DEFERRED. */
  lemma {:induction false} CriticEpisodeNeverCompletes(cs: seq<Command>, id: Id)
    requires IsCritic(Run(EMPTY_DB, cs), id)
    ensures var db := Run(EMPTY_DB, cs);
            var ep := db.tasks[id].def.episode;
            && !db.tasks[id].status.Completed? && !CompletedEp(db, ep)
            && (ep in db.episodes ==> !CompletedCycle(db, db.episodes[ep].cycle))
            && (id in db.critiques <==> db.tasks[id].status.Deferred?)
  {
    var db := Run(EMPTY_DB, cs);
    ReachableIsSafe(cs);
    OpenInv(db);
    var ep := db.tasks[id].def.episode;
    assert RowOk(db.tasks[id]);
    assert EpisodeAllows(db, ep);
    if ep in db.episodes {
      assert CycleAllows(db, db.episodes[ep].cycle);
    }
  }
}
