/** Commands are carried out exactly once, whatever is retried and whatever happens in between. */
module RunCommands {
  import opened Wrappers
  import opened RunTypes
  import opened RunStore
  import opened RunLog

  /** The transaction does something: a command succeeds for the first time, an append succeeds, or the
      provider slot is set. */
  predicate Wins(db: Db, op: Op) {
    match op
    case Command(batch) => CommitCommand(db, batch).result.Ok? && batch.commandId !in db.receipts
    case Appending(run, expected, artifacts, events, snapshot) =>
      Append(db, run, expected, artifacts, events, snapshot).result.Ok?
    case Activated(_) => true
  }

  /** The transactions of a history that do something, in order. */
  function Winners(db: Db, ops: seq<Op>): seq<Op>
    decreases |ops|
  {
    if ops == [] then []
    else (if Wins(db, ops[0]) then [ops[0]] else []) + Winners(Step(db, ops[0]), ops[1..])
  }

  /** A transaction that fails, or repeats a stored command, changes nothing. */
  lemma OnlyWinnersWrite(db: Db, op: Op)
    ensures !Wins(db, op) ==> Step(db, op) == db
  {
  }

  /** Inserting rows never touches the receipts. */
  lemma {:induction false} ArtifactsKeepReceipts(db: Db, run: RunId, task: TaskId, artifacts: seq<Artifact>)
    ensures var stored := InsertArtifacts(db, run, task, artifacts); stored.Ok? ==> stored.value.receipts == db.receipts
    decreases |artifacts|
  {
    if artifacts != [] && artifacts[0].runId == run && artifacts[0].taskId == task && artifacts[0].id !in db.artifacts {
      ArtifactsKeepReceipts(db.(artifacts := db.artifacts[artifacts[0].id := artifacts[0]]), run, task, artifacts[1..]);
    }
  }

  lemma MutateKeepsReceipts(db: Db, batch: Batch)
    ensures Mutate(db, batch).Ok? ==> Mutate(db, batch).value.receipts == db.receipts
  {
    if batch.update.Some? && batch.create.None? {
      ArtifactsKeepReceipts(db, batch.update.value.runId, batch.update.value.taskId, []);
    }
  }

  lemma RowsKeepReceipts(db: Db, batch: Batch)
    ensures BatchRows(db, batch).Ok? ==> BatchRows(db, batch).value.receipts == db.receipts
  {
    if BatchRows(db, batch).Ok? {
      var withTask := InsertTask(InsertSession(db, batch.session).value, batch.task).value;
      RunKeepsReceipts(withTask, batch.create, batch.artifact);
      MutateKeepsReceipts(InsertArtifact(InsertRun(withTask, batch.create).value, batch.artifact).value, batch);
    }
  }

  lemma RunKeepsReceipts(db: Db, create: Option<CreateRun>, artifact: Option<Artifact>)
    ensures InsertRun(db, create).Ok? && InsertArtifact(InsertRun(db, create).value, artifact).Ok? ==>
              InsertArtifact(InsertRun(db, create).value, artifact).value.receipts == db.receipts
  {
  }

  lemma AppendKeepsReceipts(db: Db, run: RunId, expected: nat, artifacts: seq<Artifact>, events: seq<EventKind>,
                            snapshot: Snapshot)
    ensures Append(db, run, expected, artifacts, events, snapshot).db.receipts == db.receipts
  {
    ArtifactsKeepReceipts(db, run, snapshot.taskId, artifacts);
  }

  /** A transaction adds at most the receipt of a command that wins. */
  lemma StepReceipts(db: Db, op: Op)
    ensures Step(db, op).receipts
            == if op.Command? && Wins(db, op) then db.receipts[op.batch.commandId := op.batch.receipt] else db.receipts
  {
    match op
    case Command(batch) => RowsKeepReceipts(db, batch);
    case Appending(run, expected, artifacts, events, snapshot) =>
      AppendKeepsReceipts(db, run, expected, artifacts, events, snapshot);
    case Activated(_) =>
  }

  /** A stored receipt never changes, whatever commands, appends and activations follow. */
  lemma {:induction false} ReceiptsAreImmutable(db: Db, ops: seq<Op>, id: CommandId)
    requires id in db.receipts
    ensures id in After(db, ops).receipts && After(db, ops).receipts[id] == db.receipts[id]
    decreases |ops|
  {
    if ops != [] {
      StepReceipts(db, ops[0]);
      ReceiptsAreImmutable(Step(db, ops[0]), ops[1..], id);
    }
  }

  /** However commands are repeated, reordered in time or fail among appends and activations, the tables
      are those of the transactions that do something: each command's first success is all it does. */
  lemma {:induction false} ExactlyOnce(db: Db, ops: seq<Op>)
    ensures After(db, ops) == After(db, Winners(db, ops))
    decreases |ops|
  {
    if ops != [] {
      var next := Step(db, ops[0]);
      ExactlyOnce(next, ops[1..]);
      if Wins(db, ops[0]) {
        assert Winners(db, ops)[1..] == Winners(next, ops[1..]);
      } else {
        OnlyWinnersWrite(db, ops[0]);
        assert Winners(db, ops) == Winners(next, ops[1..]);
      }
    }
  }

  /** No command id wins twice, and none that was stored before wins at all. */
  lemma {:induction false} WinnersAreDistinct(db: Db, ops: seq<Op>)
    ensures forall i | 0 <= i < |Winners(db, ops)| && Winners(db, ops)[i].Command? ::
              Winners(db, ops)[i].batch.commandId !in db.receipts
    ensures forall i, j
              | 0 <= i < j < |Winners(db, ops)| && Winners(db, ops)[i].Command? && Winners(db, ops)[j].Command? ::
              Winners(db, ops)[i].batch.commandId != Winners(db, ops)[j].batch.commandId
    decreases |ops|
  {
    if ops != [] {
      StepReceipts(db, ops[0]);
      WinnersAreDistinct(Step(db, ops[0]), ops[1..]);
      var rest := Winners(Step(db, ops[0]), ops[1..]);
      if Wins(db, ops[0]) {
        assert Winners(db, ops) == [ops[0]] + rest;
      } else {
        assert Winners(db, ops) == rest;
      }
    }
  }

  /** After a command succeeded, repeating it after any later commands, appends and activations returns
      the original receipt, the same id with a changed fingerprint is refused, and neither writes anything. */
  lemma RepeatsReturnTheReceipt(db: Db, batch: Batch, between: seq<Op>, again: Batch)
    requires CommitCommand(db, batch).result.Ok? && batch.commandId !in db.receipts
    requires again.commandId == batch.commandId
    requires again.receipt.commandId == again.commandId && again.receipt.fingerprint == again.fingerprint
    ensures var later := After(CommitCommand(db, batch).db, between);
            CommitCommand(later, again)
            == Tx(later, if again.fingerprint == batch.fingerprint then Ok(batch.receipt)
                         else Err(IdempotencyConflict(batch.commandId)))
  {
    RowsKeepReceipts(db, batch);
    ReceiptsAreImmutable(CommitCommand(db, batch).db, between, batch.commandId);
  }

  // ---------- what a command stores ----------

  ghost predicate NewArtifacts(db: Db, run: RunId, task: TaskId, artifacts: seq<Artifact>) {
    && (forall i | 0 <= i < |artifacts| ::
          artifacts[i].runId == run && artifacts[i].taskId == task && artifacts[i].id !in db.artifacts)
    && (forall i, j | 0 <= i < j < |artifacts| :: artifacts[i].id != artifacts[j].id)
  }

  lemma NewArtifactsSplit(db: Db, run: RunId, task: TaskId, artifacts: seq<Artifact>)
    requires artifacts != []
    ensures var first := artifacts[0];
            NewArtifacts(db, run, task, artifacts)
            <==> first.runId == run && first.taskId == task && first.id !in db.artifacts
                 && NewArtifacts(db.(artifacts := db.artifacts[first.id := first]), run, task, artifacts[1..])
  {
    var rest := artifacts[1..];
    assert forall i | 1 <= i < |artifacts| :: artifacts[i] == rest[i - 1];
    assert forall i | 0 <= i < |rest| :: rest[i] == artifacts[i + 1];
  }

  /** The artifacts of an append are stored exactly when each is of its Run and task and new. */
  lemma {:induction false} ArtifactsAccepted(db: Db, run: RunId, task: TaskId, artifacts: seq<Artifact>)
    ensures InsertArtifacts(db, run, task, artifacts).Ok? <==> NewArtifacts(db, run, task, artifacts)
    decreases |artifacts|
  {
    if artifacts != [] {
      NewArtifactsSplit(db, run, task, artifacts);
      ArtifactsAccepted(db.(artifacts := db.artifacts[artifacts[0].id := artifacts[0]]), run, task, artifacts[1..]);
    }
  }

  /** What is stored is what was there and the artifacts of the append. */
  lemma {:induction false} ArtifactsStored(db: Db, run: RunId, task: TaskId, artifacts: seq<Artifact>)
    requires InsertArtifacts(db, run, task, artifacts).Ok?
    ensures var stored := InsertArtifacts(db, run, task, artifacts).value.artifacts;
            && (forall i | 0 <= i < |artifacts| :: artifacts[i].id in stored && stored[artifacts[i].id] == artifacts[i])
            && (forall id | id in db.artifacts :: id in stored && stored[id] == db.artifacts[id])
            && (forall id | id in stored ::
                  id in db.artifacts || exists i :: 0 <= i < |artifacts| && artifacts[i].id == id)
    decreases |artifacts|
  {
    if artifacts != [] {
      var first, rest := artifacts[0], artifacts[1..];
      ArtifactsStored(db.(artifacts := db.artifacts[first.id := first]), run, task, rest);
      assert forall i | 1 <= i < |artifacts| :: artifacts[i] == rest[i - 1];
      assert forall i | 0 <= i < |rest| :: rest[i] == artifacts[i + 1];
    }
  }

  /** The row of a Run holds this snapshot and both its columns. */
  ghost predicate Caches(row: RunRow, snapshot: Snapshot) {
    row.status == snapshot.status && row.version == snapshot.version && row.cached == Some(snapshot)
  }

  /** One Run's row becomes that of this snapshot, and its log grows by these events and the snapshot's
      projection, numbered on from the last one; no other Run is touched. */
  ghost predicate Written(db: Db, after: Db, task: Task, snapshot: Snapshot, events: seq<EventKind>) {
    var run := snapshot.runId;
    && run in after.runs && Caches(after.runs[run], snapshot) && after.runs == db.runs[run := after.runs[run]]
    && run in after.logs && after.logs == db.logs[run := after.logs[run]]
    && var before := if run in db.logs then db.logs[run] else [];
       var kinds := events + [RunStateProjected(snapshot)];
       && |after.logs[run]| == |before| + |kinds| && after.logs[run][..|before|] == before
       && forall i | 0 <= i < |kinds| ::
            after.logs[run][|before| + i]
            == Envelope(task.workspaceId, task.id, run,
                        (if before == [] then 0 else before[|before| - 1].sequence) + 1 + i, V1, kinds[i])
  }

  /** The tables with the session, the task and the artifact that a batch carries. */
  ghost predicate Carried(db: Db, after: Db, batch: Batch) {
    && after.sessions == db.sessions + (if batch.session.Some? then {batch.session.value} else {})
    && after.tasks == (if batch.task.Some? then db.tasks[batch.task.value.id := batch.task.value] else db.tasks)
    && after.artifacts == (if batch.artifact.Some? then db.artifacts[batch.artifact.value.id := batch.artifact.value]
                           else db.artifacts)
  }

  ghost predicate AllNew(db: Db, batch: Batch) {
    && (batch.session.Some? ==> batch.session.value !in db.sessions)
    && (batch.task.Some? ==> batch.task.value.id !in db.tasks)
    && (batch.artifact.Some? ==> batch.artifact.value.id !in db.artifacts)
  }

  /** A task that is stored, or that the batch brings along. */
  ghost predicate Known(db: Db, batch: Batch, task: TaskId) {
    task in db.tasks || (batch.task.Some? && batch.task.value.id == task)
  }

  /** A created Run is new, its task is known, and it is bound to the snapshot that is active. */
  ghost predicate MayCreate(db: Db, batch: Batch) {
    batch.create.Some? ==>
      && var create := batch.create.value;
         && batch.update.None? && batch.events == []
         && create.snapshot.runId !in db.runs && create.snapshot.runId !in db.bindings
         && Known(db, batch, create.snapshot.taskId) && db.active == Some(create.binding.activation)
  }

  /** An updated Run follows its stored version. */
  ghost predicate MayUpdate(db: Db, batch: Batch) {
    batch.update.Some? ==>
      && var run := batch.update.value.runId;
         && run in db.runs && batch.update.value.version == db.runs[run].version + 1
         && db.runs[run].cached.Some? && Known(db, batch, db.runs[run].cached.value.taskId)
  }

  /** A new command succeeds exactly when its receipt is its own, every row it carries is new, and the Run it
      creates or updates, if any, is one that it may; otherwise nothing is written. */
  lemma CommandSucceedsExactly(db: Db, batch: Batch)
    requires batch.commandId !in db.receipts
    ensures CommitCommand(db, batch).result.Ok?
            <==> && batch.receipt.commandId == batch.commandId && batch.receipt.fingerprint == batch.fingerprint
                 && AllNew(db, batch) && MayCreate(db, batch) && MayUpdate(db, batch)
                 && (batch.create.None? && batch.update.None? ==> batch.events == [])
    ensures CommitCommand(db, batch).result.Err? ==> CommitCommand(db, batch).db == db
  {
    RowsExactly(db, batch);
  }

  /** What a new command that succeeds leaves behind: its receipt and each row it carries; a Run created with its
      binding, or one Run updated; and nothing else. */
  lemma CommandStores(db: Db, batch: Batch)
    requires CommitCommand(db, batch).result.Ok? && batch.commandId !in db.receipts
    ensures var after := CommitCommand(db, batch).db;
            && after.receipts == db.receipts[batch.commandId := batch.receipt]
            && Stored(db, after.(receipts := db.receipts), batch)
  {
    RowsExactly(db, batch);
  }

  /** The rows that a batch stores. */
  ghost predicate Stored(db: Db, after: Db, batch: Batch) {
    && Carried(db, after, batch) && after.active == db.active && after.receipts == db.receipts
    && after.bindings == (if batch.create.Some?
                          then db.bindings[batch.create.value.snapshot.runId := batch.create.value.binding]
                          else db.bindings)
    && (batch.create.Some? ==>
          && batch.create.value.snapshot.taskId in after.tasks
          && Written(db, after, after.tasks[batch.create.value.snapshot.taskId], batch.create.value.snapshot,
                     batch.create.value.initialEvents))
    && (batch.update.Some? ==>
          && var run := batch.update.value.runId;
             && run in db.runs && db.runs[run].cached.Some? && db.runs[run].cached.value.taskId in after.tasks
             && Written(db, after, after.tasks[db.runs[run].cached.value.taskId], batch.update.value, batch.events))
    && (batch.create.None? && batch.update.None? ==> after.runs == db.runs && after.logs == db.logs)
  }

  lemma RowsExactly(db: Db, batch: Batch)
    ensures BatchRows(db, batch).Ok?
            <==> && AllNew(db, batch) && MayCreate(db, batch) && MayUpdate(db, batch)
                 && (batch.create.None? && batch.update.None? ==> batch.events == [])
    ensures BatchRows(db, batch).Ok? ==> Stored(db, BatchRows(db, batch).value, batch)
  {
    RowsAreFilled(db, batch);
    FilledExactly(db, batch);
    if Filled(db, batch).Ok? && !(batch.create.Some? && batch.update.Some?) {
      var filled := Filled(db, batch).value;
      MutatesExactly(filled, batch);
      MutationUpdates(db, filled, batch);
      if Mutate(filled, batch).Ok? { FilledIsStored(db, filled, Mutate(filled, batch).value, batch); }
    }
  }

  /** The rows of a batch before any events are logged. */
  ghost function Filled(db: Db, batch: Batch): Result<Db, StoreError> {
    var prepared := Prepared(db, batch);
    if prepared.Err? then prepared
    else
      var withRun := InsertRun(prepared.value, batch.create);
      if withRun.Err? then withRun else InsertArtifact(withRun.value, batch.artifact)
  }

  lemma RowsAreFilled(db: Db, batch: Batch)
    ensures BatchRows(db, batch).Ok?
            <==> && !(batch.create.Some? && batch.update.Some?) && (batch.create.Some? ==> batch.events == [])
                 && Filled(db, batch).Ok? && Mutate(Filled(db, batch).value, batch).Ok?
    ensures BatchRows(db, batch).Ok? ==> BatchRows(db, batch) == Mutate(Filled(db, batch).value, batch)
  {
  }

  ghost predicate IsFilled(db: Db, filled: Db, batch: Batch) {
    && Carried(db, filled, batch)
    && filled == db.(sessions := filled.sessions, tasks := filled.tasks, artifacts := filled.artifacts,
                     runs := filled.runs, bindings := filled.bindings)
    && (batch.create.None? ==> filled.runs == db.runs && filled.bindings == db.bindings)
    && (batch.create.Some? ==>
          && var create := batch.create.value;
             && create.snapshot.runId in filled.runs && create.snapshot.taskId in filled.tasks
             && create.snapshot.runId !in db.runs
             && Caches(filled.runs[create.snapshot.runId], create.snapshot)
             && filled.runs == db.runs[create.snapshot.runId := filled.runs[create.snapshot.runId]]
             && filled.bindings == db.bindings[create.snapshot.runId := create.binding])
  }

  /** A Run may be inserted. */
  ghost predicate Insertable(db: Db, create: Option<CreateRun>) {
    create.Some? ==>
      && create.value.snapshot.runId !in db.runs && create.value.snapshot.runId !in db.bindings
      && create.value.snapshot.taskId in db.tasks && db.active == Some(create.value.binding.activation)
  }

  lemma PreparedExactly(db: Db, batch: Batch)
    ensures Prepared(db, batch).Ok?
            <==> && (batch.session.Some? ==> batch.session.value !in db.sessions)
                 && (batch.task.Some? ==> batch.task.value.id !in db.tasks)
    ensures Prepared(db, batch).Ok? ==>
              Prepared(db, batch).value
              == db.(sessions := db.sessions + (if batch.session.Some? then {batch.session.value} else {}),
                     tasks := if batch.task.Some? then db.tasks[batch.task.value.id := batch.task.value] else db.tasks)
  {
    assert db.sessions + {} == db.sessions;
  }

  lemma RunInsertedExactly(db: Db, create: Option<CreateRun>)
    ensures InsertRun(db, create).Ok? <==> Insertable(db, create)
    ensures InsertRun(db, create).Ok? ==>
              && var after := InsertRun(db, create).value;
                 && after == db.(runs := after.runs, bindings := after.bindings)
                 && (create.None? ==> after == db)
                 && (create.Some? ==>
                       && create.value.snapshot.runId in after.runs
                       && Caches(after.runs[create.value.snapshot.runId], create.value.snapshot)
                       && after.runs
                          == db.runs[create.value.snapshot.runId := after.runs[create.value.snapshot.runId]]
                       && after.bindings == db.bindings[create.value.snapshot.runId := create.value.binding])
  {
  }

  lemma ArtifactInsertedExactly(db: Db, artifact: Option<Artifact>)
    ensures InsertArtifact(db, artifact).Ok? <==> (artifact.Some? ==> artifact.value.id !in db.artifacts)
    ensures InsertArtifact(db, artifact).Ok? ==>
              InsertArtifact(db, artifact).value
              == db.(artifacts := if artifact.Some? then db.artifacts[artifact.value.id := artifact.value]
                                  else db.artifacts)
  {
  }

  lemma FilledExactly(db: Db, batch: Batch)
    ensures Filled(db, batch).Ok?
            <==> AllNew(db, batch) && (batch.create.Some? ==>
                   && var create := batch.create.value;
                      && create.snapshot.runId !in db.runs && create.snapshot.runId !in db.bindings
                      && Known(db, batch, create.snapshot.taskId) && db.active == Some(create.binding.activation))
    ensures Filled(db, batch).Ok? ==> IsFilled(db, Filled(db, batch).value, batch)
  {
    PreparedExactly(db, batch);
    if Prepared(db, batch).Ok? {
      var prepared := Prepared(db, batch).value;
      RunInsertedExactly(prepared, batch.create);
      assert batch.create.Some? ==> (batch.create.value.snapshot.taskId in prepared.tasks
                                     <==> Known(db, batch, batch.create.value.snapshot.taskId));
      if InsertRun(prepared, batch.create).Ok? {
        ArtifactInsertedExactly(InsertRun(prepared, batch.create).value, batch.artifact);
      }
    }
  }

  /** Whether the events of a batch can be logged. */
  ghost predicate Loggable(db: Db, batch: Batch) {
    && (batch.create.None? && batch.update.None? ==> batch.events == [])
    && (batch.update.Some? ==>
          && var run := batch.update.value.runId;
             && run in db.runs && batch.update.value.version == db.runs[run].version + 1
             && db.runs[run].cached.Some? && db.runs[run].cached.value.taskId in db.tasks)
  }

  lemma MutationUpdates(db: Db, filled: Db, batch: Batch)
    requires IsFilled(db, filled, batch) && !(batch.create.Some? && batch.update.Some?)
    ensures Loggable(filled, batch)
            <==> MayUpdate(db, batch) && (batch.create.None? && batch.update.None? ==> batch.events == [])
  {
  }

  ghost predicate IsLogged(db: Db, after: Db, batch: Batch) {
    && after == db.(runs := after.runs, logs := after.logs)
    && (batch.create.None? && batch.update.None? ==> after == db)
    && (batch.create.Some? ==>
          && batch.create.value.snapshot.taskId in db.tasks
          && Written(db, after, db.tasks[batch.create.value.snapshot.taskId], batch.create.value.snapshot,
                     batch.create.value.initialEvents))
    && (batch.update.Some? ==>
          && var run := batch.update.value.runId;
             && run in db.runs && db.runs[run].cached.Some? && db.runs[run].cached.value.taskId in db.tasks
             && Written(db, after, db.tasks[db.runs[run].cached.value.taskId], batch.update.value, batch.events))
  }

  /** Logging the events of a batch whose rows are filled. */
  lemma MutatesExactly(db: Db, batch: Batch)
    requires !(batch.create.Some? && batch.update.Some?)
    requires batch.create.Some? ==>
               && batch.create.value.snapshot.runId in db.runs && batch.create.value.snapshot.taskId in db.tasks
               && Caches(db.runs[batch.create.value.snapshot.runId], batch.create.value.snapshot)
    ensures Mutate(db, batch).Ok? <==> Loggable(db, batch)
    ensures Mutate(db, batch).Ok? ==> IsLogged(db, Mutate(db, batch).value, batch)
  {
    if batch.create.Some? {
      var snapshot := batch.create.value.snapshot;
      LoggedIsWritten(db, snapshot, batch.create.value.initialEvents);
      assert db.runs[snapshot.runId := RunRow(snapshot.status, snapshot.version, Some(snapshot))] == db.runs;
    } else if batch.update.Some? && batch.update.value.version > 0 {
      AppendStores(db, batch.update.value.runId, batch.update.value.version - 1, [], batch.events, batch.update.value);
    }
  }

  lemma FilledIsStored(db: Db, filled: Db, after: Db, batch: Batch)
    requires IsFilled(db, filled, batch) && IsLogged(filled, after, batch)
    requires !(batch.create.Some? && batch.update.Some?)
    ensures Stored(db, after, batch)
  {
    if batch.create.Some? {
      assert after.runs == db.runs[batch.create.value.snapshot.runId := after.runs[batch.create.value.snapshot.runId]];
    }
  }

  lemma LoggedIsWritten(db: Db, snapshot: Snapshot, events: seq<EventKind>)
    requires snapshot.runId in db.runs && db.runs[snapshot.runId].cached.Some?
    ensures var logged := InsertEvents(db, snapshot.runId, events + [RunStateProjected(snapshot)]);
            var id := db.runs[snapshot.runId].cached.value.taskId;
            && (logged.Ok? <==> id in db.tasks)
            && (logged.Ok? ==>
                  var row := RunRow(snapshot.status, snapshot.version, Some(snapshot));
                  && logged.value == db.(logs := logged.value.logs)
                  && Written(db, logged.value.(runs := db.runs[snapshot.runId := row]), db.tasks[id], snapshot, events))
  {
    var run := snapshot.runId;
    var logged := InsertEvents(db, run, events + [RunStateProjected(snapshot)]);
    if logged.Ok? {
      assert logged.value.logs[run][..|Log(db, run)|] == Log(db, run);
    }
  }

  // ---------- what an append stores ----------

  /** What is stored is what was there and these artifacts. */
  ghost predicate Added(before: map<ArtifactId, Artifact>, after: map<ArtifactId, Artifact>, artifacts: seq<Artifact>) {
    && (forall i | 0 <= i < |artifacts| :: artifacts[i].id in after && after[artifacts[i].id] == artifacts[i])
    && (forall id | id in before :: id in after && after[id] == before[id])
    && (forall id | id in after :: id in before || exists i :: 0 <= i < |artifacts| && artifacts[i].id == id)
  }

  /** In any tables an append succeeds exactly when its snapshot is of the Run and follows the stored version,
      its artifacts are new and of the Run and the snapshot's task, and the stored row can be read; it then adds
      the artifacts, writes the row and the log, and nothing else; otherwise nothing is written, and a version
      that somebody else has passed is a conflict. */
  lemma AppendStores(db: Db, run: RunId, expected: nat, artifacts: seq<Artifact>, events: seq<EventKind>,
                     snapshot: Snapshot)
    ensures var tx := Append(db, run, expected, artifacts, events, snapshot);
            && (tx.result.Ok?
                <==> && snapshot.runId == run && snapshot.version == expected + 1
                     && run in db.runs && db.runs[run].version == expected
                     && NewArtifacts(db, run, snapshot.taskId, artifacts)
                     && db.runs[run].cached.Some? && db.runs[run].cached.value.taskId in db.tasks)
            && (tx.result.Err? ==> tx.db == db)
            && (snapshot.runId != run || snapshot.version != expected + 1
                ==> tx.result == Err(Validation("invalid_snapshot_version")))
            && (snapshot.runId == run && snapshot.version == expected + 1 && run in db.runs ==>
                  db.runs[run].version != expected ==> tx.result == Err(ConcurrencyConflict(run)))
            && (tx.result.Ok? ==>
                  && tx.db == db.(artifacts := tx.db.artifacts, runs := tx.db.runs, logs := tx.db.logs)
                  && Added(db.artifacts, tx.db.artifacts, artifacts)
                  && Written(db, tx.db, db.tasks[db.runs[run].cached.value.taskId], snapshot, events))
  {
    ArtifactsAccepted(db, run, snapshot.taskId, artifacts);
    ArtifactsKeepRows(db, run, snapshot.taskId, artifacts);
    if snapshot.runId == run && run in db.runs && InsertArtifacts(db, run, snapshot.taskId, artifacts).Ok? {
      ArtifactsStored(db, run, snapshot.taskId, artifacts);
      var stored := InsertArtifacts(db, run, snapshot.taskId, artifacts).value;
      if stored.runs[run].cached.Some? { LoggedIsWritten(stored, snapshot, events); }
    }
  }

  // ---------- when an append succeeds ----------

  /** Under the log invariant an append succeeds exactly when its snapshot is of the Run and follows the
      stored version, and its artifacts are new and of the Run and task; otherwise nothing is written. */
  lemma AppendSucceedsExactly(db: Db, run: RunId, expected: nat, artifacts: seq<Artifact>, events: seq<EventKind>,
                              snapshot: Snapshot)
    requires LogInv(db)
    ensures Append(db, run, expected, artifacts, events, snapshot).result.Ok?
            <==> && snapshot.runId == run && snapshot.version == expected + 1
                 && run in db.runs && db.runs[run].version == expected
                 && NewArtifacts(db, run, snapshot.taskId, artifacts)
    ensures Append(db, run, expected, artifacts, events, snapshot).result.Err? ==>
              Append(db, run, expected, artifacts, events, snapshot).db == db
  {
    ArtifactsAccepted(db, run, snapshot.taskId, artifacts);
    ArtifactsKeepRows(db, run, snapshot.taskId, artifacts);
    if run in db.runs { assert RunFits(db, run); }
  }
}
