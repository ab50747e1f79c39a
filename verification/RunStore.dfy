/** The Run tables and, as functions on them, the transactions of the Run store. A transaction that
    fails leaves the tables as they were. */
module RunStore {
  import opened Wrappers
  import opened RunStatuses
  import opened RunTypes
  import D = ProviderDomain

  type CommandId = nat

  datatype Task = Task(id: TaskId, workspaceId: WorkspaceId)

  /** A row of the Run table: two columns, and the snapshot document unless it is unreadable. */
  datatype RunRow = RunRow(status: RunStatus, version: nat, cached: Option<Snapshot>)

  datatype Receipt = Receipt(commandId: CommandId, fingerprint: string, result: string)

  datatype Artifact = Artifact(id: ArtifactId, runId: RunId, taskId: TaskId)

  /** The provider snapshot a Run is bound to for good. */
  datatype Binding = Binding(runId: RunId, fingerprint: string, activation: D.Activation)

  datatype Db = Db(
    tasks: map<TaskId, Task>,
    sessions: set<nat>,
    runs: map<RunId, RunRow>,
    bindings: map<RunId, Binding>,
    artifacts: map<ArtifactId, Artifact>,
    logs: map<RunId, seq<Envelope>>,
    receipts: map<CommandId, Receipt>,
    active: Option<D.Activation>)

  const EmptyDb := Db(map[], {}, map[], map[], map[], map[], map[], None)

  datatype StoreError =
    | Validation(code: string) | ConcurrencyConflict(run: RunId) | IdempotencyConflict(command: CommandId)
    | NotFound(entity: string) | Storage | CorruptRunHistory(corrupt: RunId)

  datatype Tx<T> = Tx(db: Db, result: Result<T, StoreError>)

  // ---------- events ----------

  function Log(db: Db, run: RunId): seq<Envelope> {
    if run in db.logs then db.logs[run] else []
  }

  /** The greatest stored sequence number; rows are inserted in increasing order. */
  function LastSequence(log: seq<Envelope>): nat {
    if log == [] then 0 else log[|log| - 1].sequence
  }

  /** The envelopes of consecutive events after the given sequence number. */
  function Sealed(task: Task, run: RunId, last: nat, kinds: seq<EventKind>): (r: seq<Envelope>)
    ensures |r| == |kinds|
    decreases |kinds|
    ensures forall i | 0 <= i < |kinds| :: r[i] == Envelope(task.workspaceId, task.id, run, last + 1 + i, V1, kinds[i])
  {
    if kinds == [] then []
    else [Envelope(task.workspaceId, task.id, run, last + 1, V1, kinds[0])] + Sealed(task, run, last + 1, kinds[1..])
  }

  function InsertEvents(db: Db, run: RunId, kinds: seq<EventKind>): Result<Db, StoreError> {
    if run !in db.runs then Err(NotFound("run"))
    else if db.runs[run].cached.None? then Err(Storage)
    else if db.runs[run].cached.value.taskId !in db.tasks then Err(NotFound("task"))
    else
      var task := db.tasks[db.runs[run].cached.value.taskId];
      Ok(db.(logs := db.logs[run := Log(db, run) + Sealed(task, run, LastSequence(Log(db, run)), kinds)]))
  }

  // ---------- appending ----------

  function UpdateSnapshot(db: Db, expected: nat, snapshot: Snapshot): Result<Db, StoreError> {
    if snapshot.runId !in db.runs || db.runs[snapshot.runId].version != expected
    then Err(ConcurrencyConflict(snapshot.runId))
    else Ok(db.(runs := db.runs[snapshot.runId := RunRow(snapshot.status, snapshot.version, Some(snapshot))]))
  }

  function InsertArtifacts(db: Db, run: RunId, task: TaskId, artifacts: seq<Artifact>): Result<Db, StoreError>
    decreases |artifacts|
  {
    if artifacts == [] then Ok(db)
    else
      var artifact := artifacts[0];
      if artifact.runId != run || artifact.taskId != task then Err(Validation("artifact_run_mismatch"))
      else if artifact.id in db.artifacts then Err(Storage)
      else InsertArtifacts(db.(artifacts := db.artifacts[artifact.id := artifact]), run, task, artifacts[1..])
  }

  function AppendRows(db: Db, run: RunId, expected: nat, artifacts: seq<Artifact>, events: seq<EventKind>,
                      snapshot: Snapshot): Result<Db, StoreError>
  {
    if snapshot.runId != run || snapshot.version != expected + 1 then Err(Validation("invalid_snapshot_version"))
    else if run !in db.runs then Err(NotFound("run"))
    else if db.runs[run].version != expected then Err(ConcurrencyConflict(run))
    else
      var stored := InsertArtifacts(db, run, snapshot.taskId, artifacts);
      if stored.Err? then stored
      else
        var logged := InsertEvents(stored.value, run, events + [RunStateProjected(snapshot)]);
        if logged.Err? then logged else UpdateSnapshot(logged.value, expected, snapshot)
  }

  function Append(db: Db, run: RunId, expected: nat, artifacts: seq<Artifact>, events: seq<EventKind>,
                  snapshot: Snapshot): Tx<()>
  {
    var rows := AppendRows(db, run, expected, artifacts, events, snapshot);
    if rows.Err? then Tx(db, Err(rows.error)) else Tx(rows.value, Ok(()))
  }

  // ---------- commands ----------

  datatype CreateRunFields = CreateRunFields(snapshot: Snapshot, binding: Binding, initialEvents: seq<EventKind>)

  /** A creation command that its constructor would return: the binding is the Run's own, and the
      generated first event is the only one that announces it. */
  type CreateRun = c: CreateRunFields |
    && c.binding.runId == c.snapshot.runId
    && |c.initialEvents| > 0
    && c.initialEvents[0] == ProviderBound(c.binding.fingerprint)
    && (forall i | 1 <= i < |c.initialEvents| :: !c.initialEvents[i].ProviderBound?)
    witness CreateRunFields(
              Snapshot(0, 0, Queued, 1, None, 1, WorkflowState(None, None, false, None, ""), None, None),
              Binding(0, "", D.Activation(0, 0, 0, 0,
                                          D.Digest(0, 0, D.Config(D.ChatGptSubscription, "", ""), None, ""), 0)),
              [ProviderBound("")])

  datatype Batch = Batch(
    commandId: CommandId, fingerprint: string, receipt: Receipt,
    session: Option<nat>, task: Option<Task>, create: Option<CreateRun>, artifact: Option<Artifact>,
    events: seq<EventKind>, update: Option<Snapshot>)

  function InsertSession(db: Db, session: Option<nat>): Result<Db, StoreError> {
    if session.None? then Ok(db)
    else if session.value in db.sessions then Err(Storage)
    else Ok(db.(sessions := db.sessions + {session.value}))
  }

  function InsertTask(db: Db, task: Option<Task>): Result<Db, StoreError> {
    if task.None? then Ok(db)
    else if task.value.id in db.tasks then Err(Storage)
    else Ok(db.(tasks := db.tasks[task.value.id := task.value]))
  }

  function InsertRun(db: Db, create: Option<CreateRun>): Result<Db, StoreError> {
    if create.None? then Ok(db)
    else
      var snapshot, binding := create.value.snapshot, create.value.binding;
      if snapshot.runId in db.runs || snapshot.taskId !in db.tasks then Err(Storage)
      else if db.active != Some(binding.activation) then Err(Validation("active_provider_snapshot_changed"))
      else if binding.runId in db.bindings then Err(Storage)
      else Ok(db.(runs := db.runs[snapshot.runId := RunRow(snapshot.status, snapshot.version, Some(snapshot))],
                  bindings := db.bindings[binding.runId := binding]))
  }

  function InsertArtifact(db: Db, artifact: Option<Artifact>): Result<Db, StoreError> {
    if artifact.None? then Ok(db)
    else if artifact.value.id in db.artifacts then Err(Storage)
    else Ok(db.(artifacts := db.artifacts[artifact.value.id := artifact.value]))
  }

  function Mutate(db: Db, batch: Batch): Result<Db, StoreError> {
    match (batch.create, batch.update)
    case (Some(create), None) =>
      InsertEvents(db, create.snapshot.runId, create.initialEvents + [RunStateProjected(create.snapshot)])
    case (None, Some(snapshot)) =>
      if snapshot.version == 0 then Err(Validation("invalid_snapshot_version"))
      else AppendRows(db, snapshot.runId, snapshot.version - 1, [], batch.events, snapshot)
    case _ =>
      if batch.events != [] then Err(Validation("events_without_run")) else Ok(db)
  }

  /** The rows a batch writes, in the order they are written. */
  function BatchRows(db: Db, batch: Batch): Result<Db, StoreError> {
    if batch.create.Some? && batch.update.Some? then Err(Validation("ambiguous_snapshot_mutation"))
    else if batch.create.Some? && batch.events != [] then Err(Validation("run_creation_events_outside_command"))
    else
      var withSession := InsertSession(db, batch.session);
      if withSession.Err? then withSession
      else
        var withTask := InsertTask(withSession.value, batch.task);
        if withTask.Err? then withTask
        else
          var withRun := InsertRun(withTask.value, batch.create);
          if withRun.Err? then withRun
          else
            var withArtifact := InsertArtifact(withRun.value, batch.artifact);
            if withArtifact.Err? then withArtifact else Mutate(withArtifact.value, batch)
  }

  function CommitCommand(db: Db, batch: Batch): Tx<Receipt> {
    if batch.receipt.commandId != batch.commandId || batch.receipt.fingerprint != batch.fingerprint
    then Tx(db, Err(Validation("invalid_command_batch")))
    else if batch.commandId in db.receipts then
      Tx(db, if db.receipts[batch.commandId].fingerprint == batch.fingerprint
             then Ok(db.receipts[batch.commandId]) else Err(IdempotencyConflict(batch.commandId)))
    else
      var rows := BatchRows(db, batch);
      if rows.Err? then Tx(db, Err(rows.error))
      else Tx(rows.value.(receipts := rows.value.receipts[batch.commandId := batch.receipt]), Ok(batch.receipt))
  }

  // ---------- reading back ----------

  function ReplaceSnapshotCache(db: Db, snapshot: Snapshot): Tx<()> {
    if snapshot.runId !in db.runs then Tx(db, Err(NotFound("run")))
    else Tx(db.(runs := db.runs[snapshot.runId := RunRow(snapshot.status, snapshot.version, Some(snapshot))]), Ok(()))
  }
}
