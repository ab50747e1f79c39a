/** The log of a Run refines its cached row: what every transaction of the Run store keeps, when a
    caller can break it, and how the row is rebuilt from the log. */
module RunLog {
  import opened Wrappers
  import opened RunTypes
  import opened RunStore
  import D = ProviderDomain

  // ---------- projections ----------

  /** The snapshots a log projects, oldest first. */
  function Projections(log: seq<Envelope>): seq<Snapshot> {
    if log == [] then []
    else
      Projections(log[..|log| - 1])
      + (if log[|log| - 1].kind.RunStateProjected? then [log[|log| - 1].kind.snapshot] else [])
  }

  lemma {:induction false} ProjectionsAppend(a: seq<Envelope>, b: seq<Envelope>)
    ensures Projections(a + b) == Projections(a) + Projections(b)
  {
    if b == [] {
      assert a + b == a;
    } else {
      assert (a + b)[..|a + b| - 1] == a + b[..|b| - 1];
      ProjectionsAppend(a, b[..|b| - 1]);
    }
  }

  /** Nothing is projected exactly when no event is a projection. */
  lemma {:induction false} NothingProjected(log: seq<Envelope>)
    ensures Projections(log) == [] <==> forall i | 0 <= i < |log| :: !log[i].kind.RunStateProjected?
  {
    if log != [] {
      NothingProjected(log[..|log| - 1]);
      assert forall i | 0 <= i < |log| - 1 :: log[..|log| - 1][i] == log[i];
    }
  }

  ghost predicate Unprojected(kinds: seq<EventKind>) {
    forall i | 0 <= i < |kinds| :: !kinds[i].RunStateProjected?
  }

  ghost predicate Unbound(kinds: seq<EventKind>) {
    forall i | 0 <= i < |kinds| :: !kinds[i].ProviderBound?
  }

  /** The snapshots that events carry, in order. */
  function SnapshotsIn(kinds: seq<EventKind>): seq<Snapshot> {
    if kinds == [] then []
    else
      SnapshotsIn(kinds[..|kinds| - 1])
      + (if kinds[|kinds| - 1].RunStateProjected? then [kinds[|kinds| - 1].snapshot] else [])
  }

  lemma {:induction false} SealedSnapshots(task: Task, run: RunId, last: nat, kinds: seq<EventKind>)
    ensures Projections(Sealed(task, run, last, kinds)) == SnapshotsIn(kinds)
  {
    if kinds != [] {
      var sealed := Sealed(task, run, last, kinds);
      assert sealed[..|kinds| - 1] == Sealed(task, run, last, kinds[..|kinds| - 1]);
      SealedSnapshots(task, run, last, kinds[..|kinds| - 1]);
    }
  }

  /** Sealing events and their closing projection projects that snapshot last, and nothing else when
      the events project nothing. */
  lemma SealedProjects(task: Task, run: RunId, last: nat, kinds: seq<EventKind>, snapshot: Snapshot)
    ensures var sealed := Sealed(task, run, last, kinds + [RunStateProjected(snapshot)]);
            && Projections(sealed) == Projections(sealed[..|kinds|]) + [snapshot]
            && (Projections(sealed[..|kinds|]) == [] <==> Unprojected(kinds))
  {
    var sealed := Sealed(task, run, last, kinds + [RunStateProjected(snapshot)]);
    NothingProjected(sealed[..|kinds|]);
    assert forall i | 0 <= i < |kinds| :: sealed[..|kinds|][i].kind == kinds[i];
  }

  // ---------- the invariant ----------

  ghost predicate Stamped(task: Task, run: RunId, log: seq<Envelope>) {
    forall i | 0 <= i < |log| ::
      && log[i].workspaceId == task.workspaceId && log[i].taskId == task.id && log[i].runId == run
      && log[i].sequence == i + 1 && log[i].schemaVersion == V1
  }

  ghost predicate BoundFirst(log: seq<Envelope>) {
    && |log| > 0 && log[0].kind.ProviderBound?
    && (forall i | 1 <= i < |log| :: !log[i].kind.ProviderBound?)
  }

  ghost predicate Versioned(task: TaskId, run: RunId, snapshots: seq<Snapshot>) {
    forall i | 0 <= i < |snapshots| ::
      snapshots[i].version == i + 1 && snapshots[i].runId == run && snapshots[i].taskId == task
  }

  ghost predicate LogFits(task: Task, run: RunId, log: seq<Envelope>, row: RunRow) {
    && Stamped(task, run, log) && BoundFirst(log)
    && log[|log| - 1].kind.RunStateProjected?
    && |Projections(log)| > 0
    && Versioned(task.id, run, Projections(log))
    && row == RowOf(Latest(log))
  }

  function Latest(log: seq<Envelope>): Snapshot
    requires |Projections(log)| > 0
  {
    Projections(log)[|Projections(log)| - 1]
  }

  function RowOf(snapshot: Snapshot): RunRow {
    RunRow(snapshot.status, snapshot.version, Some(snapshot))
  }

  ghost predicate RunFits(db: Db, run: RunId) {
    && run in db.runs && run in db.logs
    && db.runs[run].cached.Some?
    && db.runs[run].cached.value.taskId in db.tasks
    && LogFits(db.tasks[db.runs[run].cached.value.taskId], run, db.logs[run], db.runs[run])
  }

  ghost predicate TasksKeyed(db: Db) {
    forall id | id in db.tasks :: db.tasks[id].id == id
  }

  /** The log of every Run refines its row. */
  ghost predicate LogInv(db: Db) {
    && TasksKeyed(db) && db.logs.Keys == db.runs.Keys
    && (forall run | run in db.runs :: RunFits(db, run))
  }

  lemma EmptyLogInv()
    ensures LogInv(EmptyDb)
  {
  }

  // ---------- appending ----------

  lemma {:induction false} ArtifactsKeepRows(db: Db, run: RunId, task: TaskId, artifacts: seq<Artifact>)
    ensures var stored := InsertArtifacts(db, run, task, artifacts);
            stored.Ok? ==> stored.value == db.(artifacts := stored.value.artifacts)
    decreases |artifacts|
  {
    if artifacts != [] && artifacts[0].runId == run && artifacts[0].taskId == task && artifacts[0].id !in db.artifacts {
      ArtifactsKeepRows(db.(artifacts := db.artifacts[artifacts[0].id := artifacts[0]]), run, task, artifacts[1..]);
    }
  }

  /** What a successful append leaves behind. */
  lemma AppendWrites(db: Db, run: RunId, expected: nat, artifacts: seq<Artifact>, events: seq<EventKind>,
                     snapshot: Snapshot)
    requires RunFits(db, run) && AppendRows(db, run, expected, artifacts, events, snapshot).Ok?
    ensures var after := AppendRows(db, run, expected, artifacts, events, snapshot).value;
            var task := db.tasks[db.runs[run].cached.value.taskId];
            && snapshot.runId == run && snapshot.version == expected + 1 && db.runs[run].version == expected
            && after.runs == db.runs[run := RowOf(snapshot)]
            && after.logs == db.logs[run := db.logs[run]
                                 + Sealed(task, run, |db.logs[run]|, events + [RunStateProjected(snapshot)])]
            && after == db.(artifacts := after.artifacts, runs := after.runs, logs := after.logs)
  {
    ArtifactsKeepRows(db, run, snapshot.taskId, artifacts);
  }

  /** What the caller of an append owes: the store adds the projection and the first event itself,
      and a Run never changes its task. */
  ghost predicate AppendHonest(db: Db, run: RunId, events: seq<EventKind>, snapshot: Snapshot) {
    && Unbound(events) && Unprojected(events)
    && run in db.runs && db.runs[run].cached.Some? && snapshot.taskId == db.runs[run].cached.value.taskId
  }

  lemma ExtendedFits(task: Task, run: RunId, log: seq<Envelope>, row: RunRow, events: seq<EventKind>,
                     snapshot: Snapshot)
    requires LogFits(task, run, log, row) && Unbound(events) && Unprojected(events)
    requires snapshot.taskId == task.id && snapshot.runId == run && snapshot.version == row.version + 1
    ensures var sealed := Sealed(task, run, |log|, events + [RunStateProjected(snapshot)]);
            && LogFits(task, run, log + sealed, RowOf(snapshot))
            && Projections(log + sealed) == Projections(log) + [snapshot]
  {
    var sealed := Sealed(task, run, |log|, events + [RunStateProjected(snapshot)]);
    SealedProjects(task, run, |log|, events, snapshot);
    ProjectionsAppend(log, sealed);
    assert (log + sealed)[|log + sealed| - 1] == sealed[|sealed| - 1];
  }

  /** An extended log that still fits its row got only events that project and bind nothing. */
  lemma ExtendedWasHonest(task: Task, run: RunId, log: seq<Envelope>, row: RunRow, events: seq<EventKind>,
                          snapshot: Snapshot, later: Task)
    requires LogFits(task, run, log, row) && snapshot.version == row.version + 1
    requires later.id == snapshot.taskId
    requires LogFits(later, run, log + Sealed(task, run, |log|, events + [RunStateProjected(snapshot)]),
                     RowOf(snapshot))
    ensures Unbound(events) && Unprojected(events) && snapshot.taskId == task.id
  {
    var sealed := Sealed(task, run, |log|, events + [RunStateProjected(snapshot)]);
    SealedProjects(task, run, |log|, events, snapshot);
    ProjectionsAppend(log, sealed);
    assert (log + sealed)[0].taskId == task.id;
    forall i | 0 <= i < |events| ensures !events[i].ProviderBound? {
      assert (log + sealed)[|log| + i].kind == events[i];
    }
  }

  /** For an append that succeeds, keeping the invariant and an honest caller are the same. */
  lemma AppendKeepsExactly(db: Db, run: RunId, expected: nat, artifacts: seq<Artifact>, events: seq<EventKind>,
                           snapshot: Snapshot)
    requires LogInv(db) && AppendRows(db, run, expected, artifacts, events, snapshot).Ok?
    ensures LogInv(AppendRows(db, run, expected, artifacts, events, snapshot).value)
            <==> AppendHonest(db, run, events, snapshot)
  {
    if AppendHonest(db, run, events, snapshot) {
      HonestAppendKeeps(db, run, expected, artifacts, events, snapshot);
    }
    if LogInv(AppendRows(db, run, expected, artifacts, events, snapshot).value) {
      KeptAppendWasHonest(db, run, expected, artifacts, events, snapshot);
    }
  }

  lemma HonestAppendKeeps(db: Db, run: RunId, expected: nat, artifacts: seq<Artifact>, events: seq<EventKind>,
                          snapshot: Snapshot)
    requires LogInv(db) && AppendRows(db, run, expected, artifacts, events, snapshot).Ok?
    requires AppendHonest(db, run, events, snapshot)
    ensures LogInv(AppendRows(db, run, expected, artifacts, events, snapshot).value)
  {
    assert RunFits(db, run);
    AppendWrites(db, run, expected, artifacts, events, snapshot);
    ExtendedFits(db.tasks[snapshot.taskId], run, db.logs[run], db.runs[run], events, snapshot);
    OneRunGrew(db, AppendRows(db, run, expected, artifacts, events, snapshot).value, run);
  }

  lemma OneRunGrew(db: Db, after: Db, run: RunId)
    requires LogInv(db) && after.tasks == db.tasks && run in db.runs && RunFits(after, run)
    requires after.runs == db.runs[run := after.runs[run]] && after.logs == db.logs[run := after.logs[run]]
    ensures LogInv(after)
  {
    forall r | r in after.runs ensures RunFits(after, r) {
      if r != run { OtherFits(db, after, r); }
    }
  }

  lemma OtherFits(db: Db, after: Db, r: RunId)
    requires RunFits(db, r) && after.tasks == db.tasks
    requires r in after.runs && after.runs[r] == db.runs[r] && r in after.logs && after.logs[r] == db.logs[r]
    ensures RunFits(after, r)
  {
  }

  lemma KeptAppendWasHonest(db: Db, run: RunId, expected: nat, artifacts: seq<Artifact>, events: seq<EventKind>,
                            snapshot: Snapshot)
    requires LogInv(db) && AppendRows(db, run, expected, artifacts, events, snapshot).Ok?
    requires LogInv(AppendRows(db, run, expected, artifacts, events, snapshot).value)
    ensures AppendHonest(db, run, events, snapshot)
  {
    var after := AppendRows(db, run, expected, artifacts, events, snapshot).value;
    assert RunFits(db, run);
    AppendWrites(db, run, expected, artifacts, events, snapshot);
    assert RunFits(after, run);
    ExtendedWasHonest(db.tasks[db.runs[run].cached.value.taskId], run, db.logs[run], db.runs[run], events, snapshot,
                      after.tasks[snapshot.taskId]);
  }

  // ---------- commands ----------

  /** What the caller of a command owes: the snapshots that a creation projects, the created one
      last, are of that Run and numbered from one; an update is an honest append. */
  ghost predicate BatchHonest(db: Db, batch: Batch) {
    && (batch.create.Some? ==> CreationHonest(batch.create.value))
    && (batch.update.Some? ==> AppendHonest(db, batch.update.value.runId, batch.events, batch.update.value))
  }

  ghost predicate CreationHonest(create: CreateRun) {
    Versioned(create.snapshot.taskId, create.snapshot.runId, SnapshotsIn(create.initialEvents) + [create.snapshot])
  }

  /** The harness and the service create Runs at version one with events that project nothing. */
  lemma PlainCreationIsHonest(create: CreateRun)
    requires create.snapshot.version == 1 && Unprojected(create.initialEvents)
    ensures CreationHonest(create)
  {
    UnprojectedSnapshots(create.initialEvents);
  }

  lemma {:induction false} UnprojectedSnapshots(kinds: seq<EventKind>)
    requires Unprojected(kinds)
    ensures SnapshotsIn(kinds) == []
  {
    if kinds != [] { UnprojectedSnapshots(kinds[..|kinds| - 1]); }
  }

  /** Adding a task, sessions, artifacts, bindings and receipts keeps every Run as it is. */
  ghost predicate Surrounds(db: Db, after: Db) {
    && after.runs == db.runs && after.logs == db.logs && after.receipts == db.receipts
    && (forall id | id in db.tasks :: id in after.tasks && after.tasks[id] == db.tasks[id])
    && TasksKeyed(after)
  }

  lemma SurroundsKeeps(db: Db, after: Db)
    requires Surrounds(db, after) && TasksKeyed(db)
    ensures LogInv(db) ==> LogInv(after)
    ensures forall run | run in db.runs && RunFits(db, run) :: RunFits(after, run)
  {
  }

  ghost function Prepared(db: Db, batch: Batch): Result<Db, StoreError> {
    var withSession := InsertSession(db, batch.session);
    if withSession.Err? then withSession else InsertTask(withSession.value, batch.task)
  }

  lemma PreparedSurrounds(db: Db, batch: Batch)
    requires TasksKeyed(db) && Prepared(db, batch).Ok?
    ensures Surrounds(db, Prepared(db, batch).value)
  {
  }

  lemma CreatedFits(task: Task, run: RunId, create: CreateRun)
    requires create.snapshot.runId == run && create.snapshot.taskId == task.id
    ensures LogFits(task, run, Sealed(task, run, 0, create.initialEvents + [RunStateProjected(create.snapshot)]),
                    RowOf(create.snapshot))
            <==> CreationHonest(create)
  {
    var kinds := create.initialEvents + [RunStateProjected(create.snapshot)];
    var sealed := Sealed(task, run, 0, kinds);
    SealedSnapshots(task, run, 0, kinds);
    assert kinds[..|kinds| - 1] == create.initialEvents;
    assert Projections(sealed) == SnapshotsIn(create.initialEvents) + [create.snapshot];
    assert Latest(sealed) == create.snapshot;
    assert Stamped(task, run, sealed) && BoundFirst(sealed);
  }

  lemma RunInserted(db: Db, create: CreateRun)
    requires InsertRun(db, Some(create)).Ok?
    ensures var after := InsertRun(db, Some(create)).value;
            && create.snapshot.runId !in db.runs && create.snapshot.taskId in db.tasks
            && after.runs == db.runs[create.snapshot.runId := RowOf(create.snapshot)]
            && after.tasks == db.tasks && after.logs == db.logs && after.receipts == db.receipts
  {
  }

  lemma CreationLogged(db: Db, create: CreateRun)
    requires create.snapshot.runId in db.runs && db.runs[create.snapshot.runId] == RowOf(create.snapshot)
    requires create.snapshot.runId !in db.logs && create.snapshot.taskId in db.tasks
    ensures var events := create.initialEvents + [RunStateProjected(create.snapshot)];
            InsertEvents(db, create.snapshot.runId, events)
            == Ok(db.(logs := db.logs[create.snapshot.runId :=
                        Sealed(db.tasks[create.snapshot.taskId], create.snapshot.runId, 0, events)]))
  {
    var events := create.initialEvents + [RunStateProjected(create.snapshot)];
    var sealed := Sealed(db.tasks[create.snapshot.taskId], create.snapshot.runId, 0, events);
    assert [] + sealed == sealed;
  }

  /** The rows of a batch that creates a Run. */
  lemma CreateWrites(db: Db, batch: Batch)
    requires LogInv(db) && batch.create.Some? && BatchRows(db, batch).Ok?
    ensures var after, create := BatchRows(db, batch).value, batch.create.value;
            var run := create.snapshot.runId;
            && batch.update.None? && Prepared(db, batch).Ok?
            && run !in db.runs && create.snapshot.taskId in after.tasks
            && after.tasks == Prepared(db, batch).value.tasks
            && after.runs == db.runs[run := RowOf(create.snapshot)]
            && after.logs == db.logs[run := Sealed(after.tasks[create.snapshot.taskId], run, 0,
                                                   create.initialEvents + [RunStateProjected(create.snapshot)])]
  {
    var create := batch.create.value;
    PreparedSurrounds(db, batch);
    var prepared := Prepared(db, batch).value;
    RunInserted(prepared, create);
    var inserted := InsertArtifact(InsertRun(prepared, Some(create)).value, batch.artifact).value;
    CreationLogged(inserted, create);
  }

  lemma CreateKeepsExactly(db: Db, batch: Batch)
    requires LogInv(db) && batch.create.Some? && BatchRows(db, batch).Ok?
    ensures LogInv(BatchRows(db, batch).value) <==> BatchHonest(db, batch)
  {
    var after, create := BatchRows(db, batch).value, batch.create.value;
    CreateWrites(db, batch);
    PreparedSurrounds(db, batch);
    CreatedKeeps(db, after, create);
  }

  lemma CreatedKeeps(db: Db, after: Db, create: CreateRun)
    requires LogInv(db) && TasksKeyed(after) && create.snapshot.taskId in after.tasks
    requires create.snapshot.runId !in db.runs
    requires forall id | id in db.tasks :: id in after.tasks && after.tasks[id] == db.tasks[id]
    requires after.runs == db.runs[create.snapshot.runId := RowOf(create.snapshot)]
    requires after.logs == db.logs[create.snapshot.runId :=
               Sealed(after.tasks[create.snapshot.taskId], create.snapshot.runId, 0,
                      create.initialEvents + [RunStateProjected(create.snapshot)])]
    ensures LogInv(after) <==> CreationHonest(create)
  {
    var run := create.snapshot.runId;
    CreatedFits(after.tasks[create.snapshot.taskId], run, create);
    assert RunFits(after, run) <==> CreationHonest(create);
    forall r | r in after.runs && r != run ensures RunFits(after, r) {
      assert RunFits(db, r);
    }
  }

  ghost function Stocked(db: Db, batch: Batch): Result<Db, StoreError> {
    var prepared := Prepared(db, batch);
    if prepared.Err? then prepared else InsertArtifact(prepared.value, batch.artifact)
  }

  lemma UpdateKeepsExactly(db: Db, batch: Batch)
    requires LogInv(db) && batch.create.None? && BatchRows(db, batch).Ok?
    ensures LogInv(BatchRows(db, batch).value) <==> BatchHonest(db, batch)
  {
    var stocked := Stocked(db, batch).value;
    PreparedSurrounds(db, batch);
    assert Surrounds(db, stocked);
    SurroundsKeeps(db, stocked);
    if batch.update.Some? {
      var snapshot := batch.update.value;
      assert RunFits(stocked, snapshot.runId);
      AppendKeepsExactly(stocked, snapshot.runId, snapshot.version - 1, [], batch.events, snapshot);
    }
  }

  /** For a new command that succeeds, keeping the invariant and an honest caller are the same. */
  lemma CommandKeepsExactly(db: Db, batch: Batch)
    requires LogInv(db) && batch.commandId !in db.receipts && CommitCommand(db, batch).result.Ok?
    ensures LogInv(CommitCommand(db, batch).db) <==> BatchHonest(db, batch)
  {
    var rows := BatchRows(db, batch).value;
    if batch.create.Some? { CreateKeepsExactly(db, batch); } else { UpdateKeepsExactly(db, batch); }
    ReceiptsIrrelevant(rows, CommitCommand(db, batch).db);
  }

  lemma ReceiptsIrrelevant(db: Db, after: Db)
    requires after == db.(receipts := after.receipts)
    ensures LogInv(db) <==> LogInv(after)
  {
    assert forall run | run in db.runs :: RunFits(db, run) <==> RunFits(after, run);
  }

  // ---------- every sequence of transactions ----------

  datatype Op =
    | Command(batch: Batch)
    | Appending(run: RunId, expected: nat, artifacts: seq<Artifact>, events: seq<EventKind>, snapshot: Snapshot)
    | Activated(active: Option<D.Activation>)

  function Step(db: Db, op: Op): Db {
    match op
    case Command(batch) => CommitCommand(db, batch).db
    case Appending(run, expected, artifacts, events, snapshot) =>
      Append(db, run, expected, artifacts, events, snapshot).db
    case Activated(active) => db.(active := active)
  }

  function After(db: Db, ops: seq<Op>): Db
    decreases |ops|
  {
    if ops == [] then db else After(Step(db, ops[0]), ops[1..])
  }

  ghost predicate Honest(db: Db, op: Op) {
    match op
    case Command(batch) => BatchHonest(db, batch)
    case Appending(run, _, _, events, snapshot) => AppendHonest(db, run, events, snapshot)
    case Activated(_) => true
  }

  ghost predicate AllHonest(db: Db, ops: seq<Op>)
    decreases |ops|
  {
    ops == [] || (Honest(db, ops[0]) && AllHonest(Step(db, ops[0]), ops[1..]))
  }

  lemma StepKeepsLog(db: Db, op: Op)
    requires LogInv(db) && Honest(db, op)
    ensures LogInv(Step(db, op))
  {
    match op
    case Command(batch) =>
      if batch.commandId !in db.receipts && CommitCommand(db, batch).result.Ok? { CommandKeepsExactly(db, batch); }
    case Appending(run, expected, artifacts, events, snapshot) =>
      if AppendRows(db, run, expected, artifacts, events, snapshot).Ok? {
        AppendKeepsExactly(db, run, expected, artifacts, events, snapshot);
      }
    case Activated(active) =>
      assert forall run | run in db.runs :: RunFits(db, run) ==> RunFits(db.(active := active), run);
  }

  /** After any sequence of commands and appends by honest callers every log refines its row. */
  lemma {:induction false} LogRefinesRow(db: Db, ops: seq<Op>)
    requires LogInv(db) && AllHonest(db, ops)
    ensures LogInv(After(db, ops))
    decreases |ops|
  {
    if ops != [] {
      StepKeepsLog(db, ops[0]);
      LogRefinesRow(Step(db, ops[0]), ops[1..]);
    }
  }

  /** The same from the empty store. */
  lemma LogRefinesRowFromStart(ops: seq<Op>)
    requires AllHonest(EmptyDb, ops)
    ensures LogInv(After(EmptyDb, ops))
  {
    EmptyLogInv();
    LogRefinesRow(EmptyDb, ops);
  }

  // ---------- rebuilding the row ----------

  /** The history can be replayed: contiguous, of one identity, and projected version by version. */
  ghost predicate Replayable(run: RunId, log: seq<Envelope>) {
    && |log| > 0
    && (forall i | 0 <= i < |log| ::
          && log[i].runId == run && log[i].sequence == i + 1 && log[i].schemaVersion == V1
          && log[i].workspaceId == log[0].workspaceId && log[i].taskId == log[0].taskId)
    && |Projections(log)| > 0
    && Versioned(log[0].taskId, run, Projections(log))
    && log[|log| - 1].kind.RunStateProjected?
  }

  /** Rebuilds the cached row from the log; the row is written only when its document differs. */
  ghost function Reconstruct(db: Db, run: RunId): Tx<Snapshot> {
    var log := Log(db, run);
    if !Replayable(run, log) then Tx(db, Err(CorruptRunHistory(run)))
    else
      var snapshot := Latest(log);
      if run in db.runs && db.runs[run].cached == Some(snapshot) then Tx(db, Ok(snapshot))
      else
        var replaced := ReplaceSnapshotCache(db, snapshot);
        if replaced.result.Err? then Tx(db, Err(replaced.result.error)) else Tx(replaced.db, Ok(snapshot))
  }

  lemma FitsReplays(db: Db, run: RunId)
    requires LogInv(db) && run in db.runs
    ensures Replayable(run, Log(db, run)) && db.runs[run] == RowOf(Latest(Log(db, run)))
  {
    assert RunFits(db, run);
  }

  /** Rebuilding returns exactly the cached row and writes nothing. Whatever one row has been
      replaced by, rebuilding still returns it, and restores the tables exactly when the damage
      touched the snapshot document or nothing at all: a damaged column beside an intact document is
      not repaired. Rebuilding a second time changes nothing. */
  lemma ReconstructRestores(db: Db, run: RunId, damaged: RunRow)
    requires LogInv(db) && run in db.runs
    ensures Reconstruct(db, run) == Tx(db, Ok(db.runs[run].cached.value))
    ensures var broken := db.(runs := db.runs[run := damaged]);
            && Reconstruct(broken, run).result == Ok(db.runs[run].cached.value)
            && (Reconstruct(broken, run).db == db <==> damaged.cached != db.runs[run].cached || damaged == db.runs[run])
            && Reconstruct(Reconstruct(broken, run).db, run) == Reconstruct(broken, run)
  {
    assert RunFits(db, run);
    RebuildDamaged(db, run, damaged);
    RebuildDamaged(db, run, db.runs[run]);
    assert db.(runs := db.runs[run := db.runs[run]]) == db;
    assert db.(runs := db.runs[run := damaged]).runs[run] == damaged;
  }

  lemma RebuildDamaged(db: Db, run: RunId, damaged: RunRow)
    requires LogInv(db) && run in db.runs && RunFits(db, run)
    ensures var broken := db.(runs := db.runs[run := damaged]);
            Reconstruct(broken, run)
            == Tx(if damaged.cached == db.runs[run].cached then broken else db, Ok(db.runs[run].cached.value))
  {
    FitsReplays(db, run);
    var broken := db.(runs := db.runs[run := damaged]);
    assert Log(broken, run) == Log(db, run);
    assert broken.runs[run := db.runs[run]] == db.runs;
  }

  /** After any sequence of commands and appends by honest callers from the empty store, every Run can be
      rebuilt, and rebuilding it returns exactly its row. */
  lemma EveryRunReplays(ops: seq<Op>, run: RunId)
    requires AllHonest(EmptyDb, ops) && run in After(EmptyDb, ops).runs
    ensures After(EmptyDb, ops).runs[run].cached.Some?
    ensures Reconstruct(After(EmptyDb, ops), run)
            == Tx(After(EmptyDb, ops), Ok(After(EmptyDb, ops).runs[run].cached.value))
  {
    LogRefinesRowFromStart(ops);
    var db := After(EmptyDb, ops);
    assert RunFits(db, run);
    ReconstructRestores(db, run, db.runs[run]);
  }
}
