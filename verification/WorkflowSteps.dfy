/** Every command of the workflow as a function from one database state to the
    next.  Clock readings are arguments: a procedure reads the clock when it
    starts (n) and each closing step it calls reads it again. */
module WorkflowSteps {
  import opened Common
  import opened WorkflowModel
  import opened SkipPropagation
  import opened PlanValidation

  // ---- Closing an episode --------------------------------------------------

  function EndEpisode(db: Db, ep: Id, ending: Ending, reason: string): Db
    requires ep in db.episodes
  {
    var e := db.episodes[ep];
    db.(episodes := db.episodes[ep := e.(version := e.version + 1, state := Ended(ending, reason))])
  }

  function EndCycle(db: Db, cy: Id, ending: Ending, reason: string): Db
    requires cy in db.cycles
  {
    var c := db.cycles[cy];
    db.(cycles := db.cycles[cy := c.(version := c.version + 1, state := Ended(ending, reason))])
  }

  predicate Due(db: Db, ep: Id, n: Time) {
    ep in db.episodes && db.episodes[ep].state.Live? && db.episodes[ep].expiresAt <= n
  }

  function CloseOverdue(db: Db, ep: Id, n: Time): Db {
    if Due(db, ep, n) then
      EndEpisode(db, ep, ByDeadline, "deadline_exceeded").(
        tasks := Finish(db.tasks, UnfinishedOf(db.tasks, ep), TimedOut))
    else db
  }

  predicate AllTasksCompleted(ts: Tasks, ep: Id) {
    forall id | id in ts && ts[id].def.episode == ep :: ts[id].status.Completed?
  }

  function CloseSettled(db: Db, ep: Id): Db {
    if ep in db.episodes && db.episodes[ep].state.Live? && UnfinishedOf(db.tasks, ep) == {} then
      EndEpisode(db, ep, if AllTasksCompleted(db.tasks, ep) then AllCompleted else SomeDeferred, "all_tasks_terminal")
    else db
  }

  function LiveEpisodesOf(db: Db, cy: Id): set<Id> {
    set ep | ep in db.episodes && db.episodes[ep].cycle == cy && db.episodes[ep].state.Live?
  }

  predicate AllEpisodesCompleted(db: Db, cy: Id) {
    forall ep | ep in db.episodes && db.episodes[ep].cycle == cy ::
      db.episodes[ep].state.Ended? && db.episodes[ep].state.ending.AllCompleted?
  }

  function CloseCycle(db: Db, cy: Id, n: Time): Db {
    if cy in db.cycles && db.cycles[cy].state.Live? && EpisodesOf(db.episodes, cy) != {} &&
       LiveEpisodesOf(db, cy) == {}
    then
      if db.cycles[cy].expiresAt <= n then EndCycle(db, cy, ByDeadline, "deadline_exceeded")
      else if AllEpisodesCompleted(db, cy) then EndCycle(db, cy, AllCompleted, "all_episodes_terminal")
      else EndCycle(db, cy, SomeDeferred, "all_episodes_terminal")
    else db
  }

  /** v1005_close_episode at clock reading n. */
  function CloseEpisode(db: Db, ep: Id, n: Time): Db {
    if ep !in db.episodes then db
    else CloseCycle(CloseSettled(CloseOverdue(db, ep, n), ep), db.episodes[ep].cycle, n)
  }

  // ---- Starting work -------------------------------------------------------

  ghost function StartCycle(
      db: Db, id: Id, trigger: Trigger, triggerOk: bool, expiresAt: Time, n: Time): (Db, Outcome<Id>) {
    if !triggerOk || !Trimmed(trigger.key) || trigger.key == "" || expiresAt <= n then (db, Raised)
    else
      var clash := id in db.cycles || exists c :: c in db.cycles && SameKey(db.cycles[c].trigger, trigger);
      var next := if clash then db else db.(cycles := db.cycles[id := Cycle(trigger, n, expiresAt, 1, Live)]);
      if id in next.cycles && next.cycles[id].trigger == trigger && next.cycles[id].expiresAt == expiresAt
      then (next, Done(id)) else (db, Raised)
  }

  predicate SameKey(a: Trigger, b: Trigger) {
    a.source == b.source && a.key == b.key
  }

  ghost function StartEpisode(db: Db, id: Id, cy: Id, candidate: string, expiresAt: Time, n: Time): (Db, Outcome<Id>) {
    if cy !in db.cycles || !db.cycles[cy].state.Live? || !Trimmed(candidate) || candidate == "" ||
       expiresAt <= n || expiresAt > db.cycles[cy].expiresAt
    then (db, Raised)
    else
      var taken := exists e :: e in db.episodes && db.episodes[e].cycle == cy && db.episodes[e].candidate == candidate;
      if !taken && id in db.episodes then (db, Raised)
      else
        var row := Episode(cy, candidate, db.cycles[cy].trigger.correlation, n, n, expiresAt, 1, Live);
        var next := if taken then db else db.(episodes := db.episodes[id := row]);
        if id in next.episodes && next.episodes[id].cycle == cy && next.episodes[id].candidate == candidate &&
           next.episodes[id].expiresAt == expiresAt
        then (next, Done(id)) else (db, Raised)
  }

  predicate ValidDoc(def: TaskDef, result: TaskResult) {
    && result.taskId == def.taskId && result.status.Reported()
    && ValidNotes(result.unknowns) && ValidNotes(result.warnings)
    && (if result.status.Completed?
        then result.artifacts != [] && Kinds(result.artifacts) == def.step.outputs &&
             forall a <- result.artifacts :: ValidArtifact(a)
        else result.artifacts == [] && |result.unknowns| + |result.warnings| > 0)
  }

  predicate ValidNotes(notes: seq<string>) {
    Distinct(notes) && forall x <- notes :: x != "" && Trimmed(x)
  }

  function Kinds(artifacts: seq<Artifact>): seq<Kind> {
    seq(|artifacts|, i requires 0 <= i < |artifacts| => artifacts[i].kind)
  }

  ghost predicate UnsealedTable(k: int) {
    true
  }

  /** The integrity check of claim and persist, sealed like Accepted. */
  ghost predicate Materialized(db: Db, ep: Id) {
    ep in db.executions && forall k {:trigger UnsealedTable(k)} :: UnsealedTable(k) ==> MaterializedRows(db, ep)
  }

  ghost predicate MaterializedRows(db: Db, ep: Id) {
    && ep in db.executions
    && var x := db.executions[ep];
       && Accepted(db.episodes, ep, x)
       && |TasksOf(db.tasks, ep)| == |x.defs|
       && (forall id :: id in db.tasks && db.tasks[id].def.episode == ep ==>
             && db.tasks[id].def in x.defs && db.tasks[id].def.taskId == id
             && (db.tasks[id].doc.Some? ==> ValidDoc(db.tasks[id].def, db.tasks[id].doc.value.result)))
       && (forall d :: d in x.defs ==> d.taskId in db.tasks && db.tasks[d.taskId].def.episode == ep)
  }

  function FreshTask(d: TaskDef): Task {
    Task(d, Pending, None, 1, None, 0, None)
  }

  function FreshTasks(defs: seq<TaskDef>): Tasks {
    if defs == [] then map[] else FreshTasks(defs[1..])[defs[0].taskId := FreshTask(defs[0])]
  }

  /** Primary key of the task table. */
  predicate NewTaskIds(ts: Tasks, defs: seq<TaskDef>) {
    (forall i, j :: 0 <= i < j < |defs| ==> defs[i].taskId != defs[j].taskId) &&
    forall d <- defs :: d.taskId !in ts
  }

  ghost function Persist(db: Db, ep: Id, expected: nat, x: Execution, canonicalOk: bool, n: Time): (Db, Outcome<nat>) {
    if !canonicalOk || !Accepted(db.episodes, ep, x) || !Open(db, ep, n) then (db, Raised)
    else if ep in db.executions then
      (db, if Materialized(db, ep) && db.executions[ep] == x then Done(1) else Raised)
    else if expected != 0 || !NewTaskIds(db.tasks, x.defs) then (db, Raised)
    else (db.(executions := db.executions[ep := x], tasks := db.tasks + FreshTasks(x.defs)), Done(1))
  }

  // ---- Claiming ------------------------------------------------------------

  function ArtifactsOf(ts: Tasks, id: Id): seq<Artifact>
    requires id in ts
  {
    if ts[id].doc.Some? then ts[id].doc.value.result.artifacts else []
  }

  predicate RowAt(ts: Tasks, ep: Id, key: StepKey, id: Id) {
    id in ts && ts[id].def.episode == ep && ts[id].def.step.key == key
  }

  /** Upstream artifacts in depends_on order. */
  ghost function Upstream(ts: Tasks, ep: Id, keys: seq<StepKey>): seq<Artifact> {
    if keys == [] then []
    else
      (if id :| RowAt(ts, ep, keys[0], id) then ArtifactsOf(ts, id) else []) + Upstream(ts, ep, keys[1..])
  }

  /** Own inputs, then the upstream artifacts. */
  ghost function Merged(ts: Tasks, id: Id): seq<Artifact>
    requires id in ts
  {
    ts[id].def.step.inputs + Upstream(ts, ts[id].def.episode, ts[id].def.step.dependsOn)
  }

  predicate DepsCompleted(ts: Tasks, id: Id) {
    forall u | u in ts && DependsOn(ts, id, u) :: ts[u].status.Completed?
  }

  predicate Open(db: Db, ep: Id, n: Time) {
    ep in db.episodes && db.episodes[ep].state.Live? && db.episodes[ep].expiresAt > n
  }

  function Ready(db: Db, ep: Id, n: Time): set<Id> {
    set id | id in db.tasks && db.tasks[id].def.episode == ep && db.tasks[id].status.Pending? &&
             Open(db, ep, n) && DepsCompleted(db.tasks, id)
  }

  function Leased(ts: Tasks, ep: Id, n: Time): set<Id> {
    set id | id in ts && ts[id].def.episode == ep && ts[id].status.Running? &&
             ts[id].lease.Some? && ts[id].lease.value > n
  }

  /** Everything claim does before it looks for a candidate. */
  ghost function Swept(db: Db, ep: Id, n: Time, n1: Time, n2: Time): Db {
    var d1 := CloseEpisode(db, ep, n1);
    var t2 := Requeue(d1.tasks, Expired(d1.tasks, ep, n));
    var t3 := Finish(t2, Late(t2, {ep}, n), TimedOut);
    CloseEpisode(d1.(tasks := SkipBlocked(t3, {ep})), ep, n2)
  }

  ghost predicate NotAfter(ts: Tasks, id: Id, other: Id) {
    id in ts && other in ts && ts[id].def.step.key <= ts[other].def.step.key
  }

  ghost predicate First(ts: Tasks, ids: set<Id>, id: Id) {
    id in ids && forall other {:trigger NotAfter(ts, id, other)} :: other in ids ==> NotAfter(ts, id, other)
  }

  datatype Claimed = NoTask | Handed(task: Id, version: nat, fencing: nat, def: TaskDef, inputs: seq<Artifact>)

  function Lease(ts: Tasks, id: Id, worker: string, until: Time): Tasks
    requires id in ts
  {
    ts[id := ts[id].(status := Running, worker := Some(worker), fencing := ts[id].fencing + 1,
                     lease := Some(until), version := ts[id].version + 1)]
  }

  function LeaseEnd(n: Time, seconds: int): Time {
    n + seconds
  }

  ghost function HandOut(db: Db, id: Id, worker: string, until: Time): (Db, Claimed)
    requires id in db.tasks
  {
    var ts := Lease(db.tasks, id, worker, until);
    (db.(tasks := ts), Handed(id, ts[id].version, ts[id].fencing, ts[id].def, Merged(ts, id)))
  }

  ghost predicate FanInClash(ts: Tasks, id: Id) {
    id in ts && !Distinct(Merged(ts, id))
  }

  ghost predicate AmbiguousFanIn(db: Db, ep: Id, n: Time) {
    exists id {:trigger FanInClash(db.tasks, id)} :: id in Ready(db, ep, n) && FanInClash(db.tasks, id)
  }

  lemma {:induction false} FirstExists(ts: Tasks, ids: set<Id>)
    requires ids != {} && ids <= ts.Keys
    ensures exists id :: First(ts, ids, id)
    decreases |ids|
  {
    var x :| x in ids;
    if ids == {x} {
      assert First(ts, ids, x);
    } else {
      FirstExists(ts, ids - {x});
      var y :| First(ts, ids - {x}, y);
      var id := if ts[x].def.step.key <= ts[y].def.step.key then x else y;
      forall other | other in ids ensures NotAfter(ts, id, other) {
        assert other != x ==> other in ids - {x} && NotAfter(ts, y, other);
      }
      assert First(ts, ids, id);
    }
  }

  /** ORDER BY step_key LIMIT 1 */
  ghost function Pick(ts: Tasks, ids: set<Id>): (r: Option<Id>)
    requires ids <= ts.Keys
    ensures r.Some? ==> First(ts, ids, r.value)
    ensures r.None? <==> ids == {}
  {
    if ids == {} then None
    else
      FirstExists(ts, ids);
      var id :| First(ts, ids, id);
      Some(id)
  }

  ghost function Decide(s: Db, ep: Id, limit: int, worker: string, n: Time, until: Time): (Db, Claimed) {
    var choice := if |Leased(s.tasks, ep, n)| < limit then Pick(s.tasks, Ready(s, ep, n)) else None;
    if choice.Some? then HandOut(s, choice.value, worker, until) else (s, NoTask)
  }

  ghost function Claim(
      db: Db, ep: Id, worker: string, seconds: int, n: Time, n1: Time, n2: Time): (Db, Outcome<Claimed>) {
    if !Trimmed(worker) || seconds < 1 || seconds > 3600 || !Materialized(db, ep) then (db, Raised)
    else
      var s := Swept(db, ep, n, n1, n2);
      if AmbiguousFanIn(s, ep, n) then (db, Raised)
      else
        var r := Decide(s, ep, db.executions[ep].plan.budget.parallel, worker, n, LeaseEnd(n, seconds));
        (r.0, Done(r.1))
  }

  /** What a claim answers, for proofs that need nothing else of it. */
  lemma ClaimFrom(db: Db, ep: Id, worker: string, seconds: int, n: Time, n1: Time, n2: Time, limit: int, until: Time)
    requires Trimmed(worker) && 1 <= seconds <= 3600 && Materialized(db, ep) && ep in db.executions
    requires limit == db.executions[ep].plan.budget.parallel && until == LeaseEnd(n, seconds)
    ensures Claim(db, ep, worker, seconds, n, n1, n2) ==
              if AmbiguousFanIn(Swept(db, ep, n, n1, n2), ep, n) then (db, Raised)
              else (Decide(Swept(db, ep, n, n1, n2), ep, limit, worker, n, until).0,
                    Done(Decide(Swept(db, ep, n, n1, n2), ep, limit, worker, n, until).1))
  {
  }

  lemma ClaimDone(db: Db, ep: Id, worker: string, seconds: int, n: Time, n1: Time, n2: Time, until: Time)
    requires Claim(db, ep, worker, seconds, n, n1, n2).1.Done? && until == LeaseEnd(n, seconds)
    ensures Materialized(db, ep) && ep in db.executions && !AmbiguousFanIn(Swept(db, ep, n, n1, n2), ep, n)
    ensures (Claim(db, ep, worker, seconds, n, n1, n2).0, Claim(db, ep, worker, seconds, n, n1, n2).1.value) ==
              Decide(Swept(db, ep, n, n1, n2), ep, db.executions[ep].plan.budget.parallel, worker, n, until)
  {
  }

  // ---- Completing ----------------------------------------------------------

  /** The lease the caller claims to hold is the current one and still runs. */
  predicate HoldsLease(db: Db, t: Task, version: int, fencing: int, n: Time) {
    && t.status.Running? && t.version == version && t.fencing == fencing
    && !(t.lease.Some? && t.lease.value <= n) && t.def.deadline > n
    && Open(db, t.def.episode, n)
  }

  function Report(t: Task, doc: ResultDoc): Task {
    t.(status := doc.result.status, doc := Some(doc), version := t.version + 1, lease := None)
  }

  ghost function CompleteLegacy(
      db: Db, id: Id, version: int, fencing: int, doc: ResultDoc, canonicalOk: bool, n: Time, n1: Time): (Db, bool) {
    if id !in db.tasks || !canonicalOk || !ValidDoc(db.tasks[id].def, doc.result) then (db, false)
    else
      var t := db.tasks[id];
      if t.status.Reported() then
        (db, t.version == version + 1 && t.fencing == fencing && t.doc.Some? && ValidDoc(t.def,
            t.doc.value.result) && t.doc.value == doc)
      else if !HoldsLease(db, t, version, fencing, n) then (db, false)
      else
        var ts := db.tasks[id := Report(t, doc)];
        (CloseEpisode(db.(tasks := SkipBlocked(ts, {t.def.episode})), t.def.episode, n1), true)
  }

  predicate IsCritic(db: Db, id: Id) {
    id in db.tasks && db.tasks[id].def.step.role.PreTradeCritic?
  }

  ghost function Complete(
      db: Db, id: Id, version: int, fencing: int, doc: ResultDoc, canonicalOk: bool, n: Time, n1: Time): (Db, bool) {
    if IsCritic(db, id) then (db, false)
    else CompleteLegacy(db, id, version, fencing, doc, canonicalOk, n, n1)
  }

  /** The generic result a Critic task is closed with; it does not depend on
      the critique, only on the task, and so do its text and digest. */
  function CriticResult(id: Id): ResultDoc {
    ResultDoc(TaskResult(id, Deferred, [], ["critique:DEFER"], []), id, id)
  }

  /** The task is closed with the generic result, then the critique is stored. */
  ghost function FileCritique(
      db: Db, id: Id, version: int, fencing: int, row: CritiqueRow, n: Time, n1: Time): (Db, bool) {
    var r := CompleteLegacy(db, id, version, fencing, CriticResult(id), true, n, n1);
    if !r.1 || (id in db.critiques && db.critiques[id] != row) then (db, false)
    else (r.0.(critiques := r.0.critiques[id := row]), true)
  }

  /** Whether the fields of a critique payload are in order, and the clock reading
      its two times are compared with. */
  datatype PayloadCheck = PayloadCheck(ok: bool, at: Time)

  /** The times of a critique fit each other and the deadline of its task. */
  predicate Dated(row: CritiqueRow, deadline: Time) {
    row.evaluatedAt < row.expiresAt <= deadline
  }

  ghost function CompleteCritic(
      db: Db, id: Id, version: int, fencing: int, row: CritiqueRow, hypothesis: Id, check: PayloadCheck,
      n: Time, n1: Time): (Db, bool) {
    if !IsCritic(db, id) || !check.ok || !Dated(row, db.tasks[id].def.deadline) ||
       !(row.evaluatedAt <= check.at < row.expiresAt) ||
       |Upstream(db.tasks, db.tasks[id].def.episode, db.tasks[id].def.step.dependsOn)| != 3 ||
       Revision(db.tasks[id].def.episode, hypothesis, row.sha256, 1) !in db.revisions
    then (db, false)
    else FileCritique(db, id, version, fencing, row, n, n1)
  }

  /** The pinned policy allows MAX_ITERATIONS per episode. */
  const MAX_ITERATIONS := 1

  ghost function ReserveRevision(db: Db, ep: Id, hypothesis: Id, evaluation: Id, policyOk: bool): (Db, Outcome<nat>) {
    if !policyOk then (db, Raised)
    else if r :| r in db.revisions && r.episode == ep && r.evaluation == evaluation then
      (db, if r.hypothesis == hypothesis then Done(r.iteration) else Raised)
    else if (exists r :: r in db.revisions && r.episode == ep && r.iteration >= MAX_ITERATIONS) ||
    ep !in db.episodes then
      (db, Raised)
    else (db.(revisions := db.revisions + {Revision(ep, hypothesis, evaluation, 1)}), Done(1))
  }

  // ---- Cancelling and recovering -------------------------------------------

  function DeferCycle(db: Db, cy: Id): Db {
    if cy in db.cycles && db.cycles[cy].state.Live? && LiveEpisodesOf(db, cy) == {}
    then EndCycle(db, cy, SomeDeferred, "all_episodes_terminal") else db
  }

  function StopEpisode(db: Db, ep: Id, status: TaskStatus, ending: Ending, reason: string): Db
    requires ep in db.episodes
  {
    var d := if db.episodes[ep].state.Live? then EndEpisode(db, ep, ending, reason) else db;
    d.(tasks := Finish(db.tasks, UnfinishedOf(db.tasks, ep), status))
  }

  function Cancel(db: Db, ep: Id, reason: string, n: Time): (Db, bool) {
    if ep !in db.episodes || !Trimmed(reason) || reason == "" then (db, false)
    else
      var e := db.episodes[ep];
      var d := if e.expiresAt <= n then StopEpisode(db, ep, TimedOut, ByDeadline, "deadline_exceeded")
               else StopEpisode(db, ep, Cancelled, ByCancel, reason);
      (DeferCycle(d, e.cycle), e.state.Live?)
  }

  /** One iteration of a recovery loop: the row and the clock its closing step reads. */
  datatype Visit = Visit(ep: Id, at: Time)

  function CloseAll(db: Db, visits: seq<Visit>, picked: set<Id>): Db {
    if visits == [] then db
    else
      var v := visits[|visits| - 1];
      var d := CloseAll(db, visits[..|visits| - 1], picked);
      if v.ep in picked then CloseEpisode(d, v.ep, v.at) else d
  }

  function Overdue(db: Db, n: Time): set<Id> {
    set ep | ep in db.episodes && Due(db, ep, n)
  }

  /** Episodes with task rows, all of them terminal. */
  function Settled(ts: Tasks): set<Id> {
    set id | id in ts && UnfinishedOf(ts, ts[id].def.episode) == {} :: ts[id].def.episode
  }

  function Stale(db: Db, n: Time): set<Id> {
    set cy | cy in db.cycles && db.cycles[cy].state.Live? &&
             (db.cycles[cy].expiresAt <= n || (EpisodesOf(db.episodes, cy) != {} && LiveEpisodesOf(db, cy) == {}))
  }

  function ExpireCycles(db: Db, n: Time): Db {
    var gone := Stale(db, n);
    db.(cycles := map cy | cy in db.cycles ::
      var c := db.cycles[cy];
      if cy in gone then
        c.(version := c.version + 1,
           state := if c.expiresAt <= n
               then Ended(ByDeadline, "deadline_exceeded") else Ended(SomeDeferred, "all_episodes_terminal"))
      else c)
  }

  /** A scan visits every episode, in any order, at readings not before n. */
  ghost predicate FullScan(db: Db, visits: seq<Visit>, n: Time) {
    (forall v <- visits :: v.at >= n) && forall ep :: ep in db.episodes ==> Visited(visits, ep)
  }

  ghost predicate Visited(visits: seq<Visit>, ep: Id) {
    exists v :: v in visits && v.ep == ep
  }

  ghost function RecoverTasks(ts: Tasks, n: Time): Tasks {
    SkipBlocked(Finish(ts, Late(ts, AllEpisodes(ts), n), TimedOut), AllEpisodes(ts))
  }

  ghost function Recover(db: Db, n: Time, first: seq<Visit>, second: seq<Visit>): Db {
    var d1 := CloseAll(db, first, Overdue(db, n));
    var t2 := RecoverTasks(d1.tasks, n);
    ExpireCycles(CloseAll(d1.(tasks := t2), second, Settled(t2)), n)
  }

  // ---- Runs ----------------------------------------------------------------

  datatype Command =
    | DoStartCycle(id: Id, trigger: Trigger, triggerOk: bool, expiresAt: Time, n: Time)
    | DoStartEpisode(id: Id, cycle: Id, candidate: string, expiresAt: Time, n: Time)
    | DoPersist(ep: Id, expected: nat, x: Execution, canonicalOk: bool, n: Time)
    | DoClaim(ep: Id, worker: string, seconds: int, n: Time, n1: Time, n2: Time)
    | DoComplete(id: Id, version: int, fencing: int, doc: ResultDoc, canonicalOk: bool, n: Time, n1: Time)
    | DoCritic(id: Id, version: int, fencing: int, row: CritiqueRow, hypothesis: Id, check: PayloadCheck,
               n: Time, n1: Time)
    | DoReserve(ep: Id, hypothesis: Id, evaluation: Id, policyOk: bool)
    | DoCancel(ep: Id, reason: string, n: Time)
    | DoRecover(n: Time, first: seq<Visit>, second: seq<Visit>)

  ghost function Apply(db: Db, c: Command): Db {
    match c
    case DoStartCycle(id, trigger, ok, expiresAt, n) => StartCycle(db, id, trigger, ok, expiresAt, n).0
    case DoStartEpisode(id, cycle, candidate, expiresAt, n) => StartEpisode(db, id, cycle, candidate, expiresAt, n).0
    case DoPersist(ep, expected, x, ok, n) => Persist(db, ep, expected, x, ok, n).0
    case DoClaim(ep, worker, seconds, n, n1, n2) => Claim(db, ep, worker, seconds, n, n1, n2).0
    case DoComplete(id, version, fencing, doc, ok, n, n1) => Complete(db, id, version, fencing, doc, ok, n, n1).0
    case DoCritic(id, version, fencing, row, h, ok, n, n1) =>
      CompleteCritic(db, id, version, fencing, row, h, ok, n, n1).0
    case DoReserve(ep, h, evaluation, ok) => ReserveRevision(db, ep, h, evaluation, ok).0
    case DoCancel(ep, reason, n) => Cancel(db, ep, reason, n).0
    case DoRecover(n, first, second) =>
      if FullScan(db, first, n) && FullScan(db, second, n) then Recover(db, n, first, second) else db
  }

  ghost function Run(db: Db, cs: seq<Command>): Db {
    if cs == [] then db else Apply(Run(db, cs[..|cs| - 1]), cs[|cs| - 1])
  }
}
