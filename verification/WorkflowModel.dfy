/** Rows of the observe workflow: cycles own episodes, episodes own a graph of
    tasks.  Payload fields that no decision reads are left out. */
module WorkflowModel {
  import opened Common

  /** Step keys are only compared and sorted, so they are numbered by their
      place in the database collation. */
  type StepKey = nat

  datatype Role = MarketRegime | Research | PreTradeCritic

  datatype Kind =
    | ResearchBrief | MarketSnapshot | FeatureObservation | RegimeAssessment
    | MarketStateAssessment | Hypothesis | EvidenceSynthesis | ExperimentRequest
    | Critique

  datatype Artifact = Artifact(id: Id, kind: Kind, hash: Id, createdAt: Time, asOf: Time)

  datatype Budget = Budget(turns: int, toolCalls: int, tokens: int, seconds: int, parallel: int)

  datatype Step = Step(
    key: StepKey, role: Role, inputs: seq<Artifact>, outputs: seq<Kind>,
    budget: Budget, dependsOn: seq<StepKey>)

  datatype Plan = Plan(
    cycle: Id, episode: Id, asOf: Time, expiresAt: Time, budget: Budget, steps: seq<Step>)

  /** A task payload repeats every field of its step. */
  datatype TaskDef = TaskDef(taskId: Id, episode: Id, step: Step, deadline: Time)

  /** The accepted plan and task set, with the texts they were submitted under. */
  datatype Execution = Execution(plan: Plan, defs: seq<TaskDef>, planText: Id, defsText: Id)

  datatype TaskStatus =
    | Pending | Running | Completed | Deferred | Failed | Skipped | Cancelled | TimedOut
  {
    predicate Unfinished() { Pending? || Running? }

    /** The statuses that block every dependent task. */
    predicate Blocking() { Deferred? || Failed? || TimedOut? || Cancelled? || Skipped? }

    /** The statuses a worker can report. */
    predicate Reported() { Completed? || Deferred? || Failed? }
  }

  datatype TaskResult = TaskResult(
    taskId: Id, status: TaskStatus, artifacts: seq<Artifact>,
    unknowns: seq<string>, warnings: seq<string>)

  /** A result together with the text and digest it was submitted under. */
  datatype ResultDoc = ResultDoc(result: TaskResult, canonical: Id, sha256: Id)

  datatype Task = Task(
    def: TaskDef, status: TaskStatus, doc: Option<ResultDoc>, version: nat,
    worker: Option<string>, fencing: nat, lease: Option<Time>)

  type Tasks = map<Id, Task>

  /** RUNNING, or one of the terminal statuses with its mandatory reason. */
  datatype Ending = AllCompleted | SomeDeferred | ByCancel | ByDeadline
  datatype RowState = Live | Ended(ending: Ending, reason: string)

  datatype Trigger = Trigger(source: Id, key: string, payload: Id, correlation: Id)

  datatype Cycle = Cycle(trigger: Trigger, startedAt: Time, expiresAt: Time, version: nat, state: RowState)

  datatype Episode = Episode(
    cycle: Id, candidate: string, correlation: Id, startedAt: Time, cutoff: Time,
    expiresAt: Time, version: nat, state: RowState)

  datatype CritiqueRow = CritiqueRow(
    artifact: Artifact, critique: Id, evaluatedAt: Time, expiresAt: Time, canonical: Id, sha256: Id)

  /** A reserved Critic evaluation; the pinned policy allows one iteration. */
  datatype Revision = Revision(episode: Id, hypothesis: Id, evaluation: Id, iteration: nat)

  datatype Db = Db(
    cycles: map<Id, Cycle>, episodes: map<Id, Episode>, executions: map<Id, Execution>,
    tasks: Tasks, critiques: map<Id, CritiqueRow>, revisions: set<Revision>)

  const EMPTY_DB := Db(map[], map[], map[], map[], map[], {})

  /** btrim(s) == s: the function strips blanks only. */
  predicate Trimmed(s: string) {
    s != "" ==> s[0] != ' ' && s[|s| - 1] != ' '
  }

  /** Row u is a dependency of row d. */
  predicate DependsOn(ts: Tasks, d: Id, u: Id) {
    d in ts && u in ts && ts[u].def.episode == ts[d].def.episode &&
    ts[u].def.step.key in ts[d].def.step.dependsOn
  }

  function TasksOf(ts: Tasks, ep: Id): (ids: set<Id>) {
    set id | id in ts && ts[id].def.episode == ep
  }

  function UnfinishedOf(ts: Tasks, ep: Id): (ids: set<Id>) {
    set id | id in ts && ts[id].def.episode == ep && ts[id].status.Unfinished()
  }

  function RunningOf(ts: Tasks, ep: Id): (ids: set<Id>) {
    set id | id in ts && ts[id].def.episode == ep && ts[id].status.Running?
  }

  /** UPDATE ... SET task_status=status, version=version+1, lease_expires_at=NULL
      on the picked rows.  Statements that leave the lease alone pick PENDING
      rows only, whose lease is already NULL. */
  function Finish(ts: Tasks, picked: set<Id>, status: TaskStatus): Tasks {
    map id | id in ts ::
      if id in picked then ts[id].(status := status, version := ts[id].version + 1, lease := None)
      else ts[id]
  }

  /** Expired leases go back to the queue. */
  function Expired(ts: Tasks, ep: Id, n: Time): set<Id> {
    set id | id in ts && ts[id].def.episode == ep && ts[id].status.Running? &&
             ts[id].lease.Some? && ts[id].lease.value <= n
  }

  function Requeue(ts: Tasks, picked: set<Id>): Tasks {
    map id | id in ts ::
      if id in picked
      then ts[id].(status := Pending, worker := None, lease := None, version := ts[id].version + 1)
      else ts[id]
  }

  /** Unfinished rows of the given episodes whose deadline has passed. */
  function Late(ts: Tasks, scope: set<Id>, n: Time): set<Id> {
    set id | id in ts && ts[id].def.episode in scope && ts[id].status.Unfinished() &&
             ts[id].def.deadline <= n
  }

  function EpisodesOf(episodes: map<Id, Episode>, cycle: Id): set<Id> {
    set ep | ep in episodes && episodes[ep].cycle == cycle
  }

  function AllEpisodes(ts: Tasks): set<Id> {
    set id | id in ts :: ts[id].def.episode
  }
}
