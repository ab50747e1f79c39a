/** The Run store over its tables, and the rebuilding of a cached row. Each store method is one
    transaction in place; its contract ties the tables it leaves, and what it returns, to the
    transaction functions whose properties are proved. */
module RunRepository {
  import opened Wrappers
  import opened RunTypes
  import opened S = RunStore
  import opened RunLog
  import D = ProviderDomain

  // ---------- replaying a log ----------

  /** Whether the events are contiguous, of this Run and of a supported version. */
  ghost predicate Contiguous(run: RunId, events: seq<Envelope>) {
    forall i | 0 <= i < |events| ::
      events[i].runId == run && events[i].sequence == i + 1 && events[i].schemaVersion == V1
  }

  method ValidateEventSequence(run: RunId, events: seq<Envelope>) returns (valid: bool)
    ensures valid <==> Contiguous(run, events)
  {
    var expected := 1;
    for i := 0 to |events|
      invariant expected == i + 1
      invariant forall k | 0 <= k < i ::
                  events[k].runId == run && events[k].sequence == k + 1 && events[k].schemaVersion == V1
    {
      if events[i].runId != run || events[i].sequence != expected || events[i].schemaVersion != V1 { return false; }
      expected := expected + 1;
    }
    return true;
  }

  lemma ProjectionsPrefix(log: seq<Envelope>, i: nat)
    requires i <= |log|
    ensures Projections(log[..i]) <= Projections(log)
  {
    assert log == log[..i] + log[i..];
    ProjectionsAppend(log[..i], log[i..]);
  }

  /** The next event adds its snapshot, if it has one, and what is added stays. */
  lemma ProjectionsGrow(log: seq<Envelope>, i: nat)
    requires i < |log|
    ensures Projections(log[..i + 1])
            == Projections(log[..i]) + if log[i].kind.RunStateProjected? then [log[i].kind.snapshot] else []
    ensures log[i].kind.RunStateProjected? ==>
              |Projections(log[..i])| < |Projections(log)|
              && Projections(log)[|Projections(log[..i])|] == log[i].kind.snapshot
  {
    ProjectionsPrefix(log, i + 1);
    assert log[..i + 1][..i] == log[..i];
  }

  /** A projection out of order, or of another Run, makes a log unreadable. */
  lemma MisprojectedIsCorrupt(run: RunId, events: seq<Envelope>, i: nat)
    requires i < |events| && events[i].kind.RunStateProjected?
    requires var snapshot := events[i].kind.snapshot;
             || snapshot.runId != run || snapshot.taskId != events[0].taskId
             || snapshot.version != |Projections(events[..i])| + 1
    ensures !Replayable(run, events)
  {
    ProjectionsGrow(events, i);
  }

  /** Folds a log into its latest snapshot; it succeeds on exactly the replayable logs. */
  method Project(run: RunId, events: seq<Envelope>) returns (result: Result<Snapshot, StoreError>)
    ensures result == if Replayable(run, events) then Ok(Latest(events)) else Err(CorruptRunHistory(run))
  {
    var valid := ValidateEventSequence(run, events);
    if !valid || |events| == 0 { return Err(CorruptRunHistory(run)); }
    var workspace, task := events[0].workspaceId, events[0].taskId;
    var projected: Option<Snapshot> := None;
    for i := 0 to |events|
      invariant forall k | 0 <= k < i :: events[k].workspaceId == workspace && events[k].taskId == task
      invariant Versioned(task, run, Projections(events[..i]))
      invariant projected == (if Projections(events[..i]) == [] then None else Some(Latest(events[..i])))
    {
      var event := events[i];
      ProjectionsGrow(events, i);
      if event.workspaceId != workspace || event.taskId != task { return Err(CorruptRunHistory(run)); }
      if event.kind.RunStateProjected? {
        var snapshot := event.kind.snapshot;
        if snapshot.runId != run || snapshot.taskId != task {
          MisprojectedIsCorrupt(run, events, i);
          return Err(CorruptRunHistory(run));
        }
        var previous := if projected.Some? then projected.value.version else 0;
        assert previous == |Projections(events[..i])|;
        if snapshot.version != previous + 1 {
          MisprojectedIsCorrupt(run, events, i);
          return Err(CorruptRunHistory(run));
        }
        projected := Some(snapshot);
      }
    }
    assert events[..|events|] == events;
    if projected.None? { return Err(CorruptRunHistory(run)); }
    if !events[|events| - 1].kind.RunStateProjected? { return Err(CorruptRunHistory(run)); }
    return Ok(projected.value);
  }

  lemma SealedGrows(task: Task, run: RunId, last: nat, kinds: seq<EventKind>, i: nat)
    requires i < |kinds|
    ensures Sealed(task, run, last, kinds[..i + 1])
            == Sealed(task, run, last, kinds[..i])
            + [Envelope(task.workspaceId, task.id, run, last + 1 + i, V1, kinds[i])]
  {
  }

  // ---------- the store ----------

  class SqliteRuntimeStore {
    var tasks: map<TaskId, Task>
    var sessions: set<nat>
    var runs: map<RunId, RunRow>
    var bindings: map<RunId, Binding>
    var artifacts: map<ArtifactId, Artifact>
    var logs: map<RunId, seq<Envelope>>
    var receipts: map<CommandId, Receipt>
    var active: Option<D.Activation>

    constructor ()
      ensures Tables() == S.EmptyDb
    {
      tasks, sessions, runs, bindings, artifacts := map[], {}, map[], map[], map[];
      logs, receipts, active := map[], map[], None;
    }

    function Tables(): S.Db
      reads this
    {
      S.Db(tasks, sessions, runs, bindings, artifacts, logs, receipts, active)
    }

    /** Abandons the transaction: the tables are as they were at its start. */
    method Undo(start: S.Db)
      modifies this
      ensures Tables() == start
    {
      tasks, sessions, runs, bindings := start.tasks, start.sessions, start.runs, start.bindings;
      artifacts, logs, receipts, active := start.artifacts, start.logs, start.receipts, start.active;
    }

    method InsertEvents(run: RunId, kinds: seq<EventKind>) returns (error: Option<StoreError>)
      modifies this`logs
      ensures match S.InsertEvents(old(Tables()), run, kinds)
              case Ok(rows) => error.None? && Tables() == rows
              case Err(e) => error == Some(e)
    {
      if run !in runs { return Some(NotFound("run")); }
      if runs[run].cached.None? { return Some(Storage); }
      if runs[run].cached.value.taskId !in tasks { return Some(NotFound("task")); }
      var task := tasks[runs[run].cached.value.taskId];
      var before := S.Log(Tables(), run);
      var sequence := S.LastSequence(before);
      ghost var last := sequence;
      var log := before;
      for i := 0 to |kinds|
        invariant sequence == last + i && Tables() == old(Tables())
        invariant log == before + Sealed(task, run, last, kinds[..i])
      {
        sequence := sequence + 1;
        var envelope := Envelope(task.workspaceId, task.id, run, sequence, V1, kinds[i]);
        SealedGrows(task, run, last, kinds, i);
        log := log + [envelope];
      }
      assert kinds[..|kinds|] == kinds;
      assert log == before + Sealed(task, run, last, kinds);
      logs := logs[run := log];
      return None;
    }

    method UpdateSnapshot(expected: nat, snapshot: Snapshot) returns (error: Option<StoreError>)
      modifies this`runs
      ensures match S.UpdateSnapshot(old(Tables()), expected, snapshot)
              case Ok(rows) => error.None? && Tables() == rows
              case Err(e) => error == Some(e)
    {
      if snapshot.runId !in runs || runs[snapshot.runId].version != expected {
        return Some(ConcurrencyConflict(snapshot.runId));
      }
      runs := runs[snapshot.runId := RunRow(snapshot.status, snapshot.version, Some(snapshot))];
      return None;
    }

    /** The part of a transaction that appends to one Run; the caller abandons it on an error. */
    method AppendInTransaction(run: RunId, expected: nat, added: seq<Artifact>, events: seq<EventKind>,
                               snapshot: Snapshot) returns (error: Option<StoreError>)
      modifies this
      ensures match S.AppendRows(old(Tables()), run, expected, added, events, snapshot)
              case Ok(rows) => error.None? && Tables() == rows
              case Err(e) => error == Some(e)
    {
      if snapshot.runId != run || snapshot.version != expected + 1 {
        return Some(Validation("invalid_snapshot_version"));
      }
      if run !in runs { return Some(NotFound("run")); }
      if runs[run].version != expected { return Some(ConcurrencyConflict(run)); }
      ghost var start := Tables();
      for i := 0 to |added|
        invariant S.InsertArtifacts(start, run, snapshot.taskId, added)
                  == S.InsertArtifacts(Tables(), run, snapshot.taskId, added[i..])
      {
        var artifact := added[i];
        assert added[i..][1..] == added[i + 1..];
        if artifact.runId != run || artifact.taskId != snapshot.taskId {
          return Some(Validation("artifact_run_mismatch"));
        }
        if artifact.id in artifacts { return Some(Storage); }
        artifacts := artifacts[artifact.id := artifact];
      }
      error := InsertEvents(run, events + [RunStateProjected(snapshot)]);
      if error.Some? { return; }
      error := UpdateSnapshot(expected, snapshot);
    }

    method Append(run: RunId, expected: nat, added: seq<Artifact>, events: seq<EventKind>, snapshot: Snapshot)
      returns (result: Result<(), StoreError>)
      modifies this
      ensures S.Tx(Tables(), result) == S.Append(old(Tables()), run, expected, added, events, snapshot)
    {
      var start := Tables();
      var error := AppendInTransaction(run, expected, added, events, snapshot);
      if error.Some? {
        Undo(start);
        return Err(error.value);
      }
      return Ok(());
    }

    method InsertRun(create: Option<CreateRun>) returns (error: Option<StoreError>)
      modifies this`runs, this`bindings
      ensures match S.InsertRun(old(Tables()), create)
              case Ok(rows) => error.None? && Tables() == rows
              case Err(e) => error == Some(e)
    {
      if create.None? { return None; }
      var snapshot, binding := create.value.snapshot, create.value.binding;
      if snapshot.runId in runs || snapshot.taskId !in tasks { return Some(Storage); }
      runs := runs[snapshot.runId := RunRow(snapshot.status, snapshot.version, Some(snapshot))];
      if active != Some(binding.activation) { return Some(Validation("active_provider_snapshot_changed")); }
      if binding.runId in bindings { return Some(Storage); }
      bindings := bindings[binding.runId := binding];
      return None;
    }

    /** Logs the events of a created or updated Run. */
    method Mutate(batch: Batch) returns (error: Option<StoreError>)
      modifies this
      ensures match S.Mutate(old(Tables()), batch)
              case Ok(rows) => error.None? && Tables() == rows
              case Err(e) => error == Some(e)
    {
      match (batch.create, batch.update)
      case (Some(create), None) =>
        error := InsertEvents(create.snapshot.runId, create.initialEvents + [RunStateProjected(create.snapshot)]);
      case (None, Some(snapshot)) =>
        if snapshot.version == 0 { return Some(Validation("invalid_snapshot_version")); }
        error := AppendInTransaction(snapshot.runId, snapshot.version - 1, [], batch.events, snapshot);
      case _ =>
        return if batch.events != [] then Some(Validation("events_without_run")) else None;
    }

    /** The rows of a new command; the caller abandons the transaction on an error. */
    method WriteBatch(batch: Batch) returns (error: Option<StoreError>)
      modifies this
      ensures match S.BatchRows(old(Tables()), batch)
              case Ok(rows) => error.None? && Tables() == rows
              case Err(e) => error == Some(e)
    {
      if batch.create.Some? && batch.update.Some? { return Some(Validation("ambiguous_snapshot_mutation")); }
      if batch.create.Some? && batch.events != [] { return Some(Validation("run_creation_events_outside_command")); }
      if batch.session.Some? {
        if batch.session.value in sessions { return Some(Storage); }
        sessions := sessions + {batch.session.value};
      }
      if batch.task.Some? {
        if batch.task.value.id in tasks { return Some(Storage); }
        tasks := tasks[batch.task.value.id := batch.task.value];
      }
      error := InsertRun(batch.create);
      if error.Some? { return; }
      if batch.artifact.Some? {
        if batch.artifact.value.id in artifacts { return Some(Storage); }
        artifacts := artifacts[batch.artifact.value.id := batch.artifact.value];
      }
      error := Mutate(batch);
    }

    method CommitCommand(batch: Batch) returns (result: Result<Receipt, StoreError>)
      modifies this
      ensures S.Tx(Tables(), result) == S.CommitCommand(old(Tables()), batch)
    {
      if batch.receipt.commandId != batch.commandId || batch.receipt.fingerprint != batch.fingerprint {
        return Err(Validation("invalid_command_batch"));
      }
      var start := Tables();
      if batch.commandId in receipts {
        var stored := receipts[batch.commandId];
        return if stored.fingerprint == batch.fingerprint then Ok(stored)
               else Err(IdempotencyConflict(batch.commandId));
      }
      var error := WriteBatch(batch);
      if error.Some? {
        Undo(start);
        return Err(error.value);
      }
      receipts := receipts[batch.commandId := batch.receipt];
      return Ok(batch.receipt);
    }

    method ReplaceSnapshotCache(snapshot: Snapshot) returns (result: Result<(), StoreError>)
      modifies this`runs
      ensures S.Tx(Tables(), result) == S.ReplaceSnapshotCache(old(Tables()), snapshot)
    {
      if snapshot.runId !in runs { return Err(NotFound("run")); }
      runs := runs[snapshot.runId := RunRow(snapshot.status, snapshot.version, Some(snapshot))];
      return Ok(());
    }

    /** Rebuilds the cached row of a Run from its log. */
    method Reconstruct(run: RunId) returns (result: Result<Snapshot, StoreError>)
      modifies this`runs
      ensures S.Tx(Tables(), result) == RunLog.Reconstruct(old(Tables()), run)
    {
      result := Project(run, S.Log(Tables(), run));
      if result.Err? { return; }
      if run in runs && runs[run].cached == Some(result.value) { return; }
      var replaced := ReplaceSnapshotCache(result.value);
      if replaced.Err? { return Err(replaced.error); }
    }
  }
}
