/** Why the callers of an append owe it honest events: the store takes a projection that it did not write
    itself, and then the history of the Run can no longer be replayed. */
module RunForgery {
  import opened Wrappers
  import opened RunStatuses
  import opened RunTypes
  import opened RunStore
  import opened RunLog
  import D = ProviderDomain

  /** An append that succeeds and carries the current snapshot as one of its own events. */
  function Forged(db: Db, run: RunId): Tx<()>
    requires run in db.runs && db.runs[run].cached.Some?
  {
    var current := db.runs[run].cached.value;
    Append(db, run, current.version, [], [RunStateProjected(current)], current.(version := current.version + 1))
  }

  lemma ForgedSnapshots(current: Snapshot, next: Snapshot)
    ensures SnapshotsIn([RunStateProjected(current)] + [RunStateProjected(next)]) == [current, next]
  {
    var kinds := [RunStateProjected(current)] + [RunStateProjected(next)];
    assert kinds[..1] == [RunStateProjected(current)] && kinds[..1][..0] == [];
    assert SnapshotsIn(kinds[..1]) == SnapshotsIn(kinds[..1][..0]) + [current];
  }

  lemma ForgedLog(db: Db, run: RunId)
    requires LogInv(db) && run in db.runs && RunFits(db, run)
    ensures var current := db.runs[run].cached.value;
            && Forged(db, run).result.Ok?
            && Projections(Log(Forged(db, run).db, run))
               == Projections(Log(db, run)) + [current, current.(version := current.version + 1)]
  {
    var current := db.runs[run].cached.value;
    var next := current.(version := current.version + 1);
    var kinds := [RunStateProjected(current)] + [RunStateProjected(next)];
    AppendWrites(db, run, current.version, [], [RunStateProjected(current)], next);
    var sealed := Sealed(db.tasks[current.taskId], run, |db.logs[run]|, kinds);
    ProjectionsAppend(db.logs[run], sealed);
    SealedSnapshots(db.tasks[current.taskId], run, |db.logs[run]|, kinds);
    ForgedSnapshots(current, next);
  }

  /** For every Run of a store whose logs refine their rows: the forged append succeeds, and from then on
      rebuilding the Run reports a corrupt history. */
  lemma ForgeryCorrupts(db: Db, run: RunId)
    requires LogInv(db) && run in db.runs
    ensures db.runs[run].cached.Some? && Forged(db, run).result.Ok?
    ensures !LogInv(Forged(db, run).db)
    ensures Reconstruct(Forged(db, run).db, run).result == Err(CorruptRunHistory(run))
  {
    assert RunFits(db, run);
    ForgedLog(db, run);
    var after := Forged(db, run).db;
    var before := Projections(Log(db, run));
    assert Projections(Log(after, run))[|before|].version == |before|;
    assert !Versioned(Log(after, run)[0].taskId, run, Projections(Log(after, run)));
    if LogInv(after) { FitsReplays(after, run); }
  }

  // ---------- a store with one Run ----------

  const Active := D.Activation(0, 2, 3, 1, D.Digest(0, 2, D.Config(D.KeyedProvider("p"), "m", ""), None, ""), 1)
  const Fresh := Snapshot(1, 1, Running, 1, None, 1, WorkflowState(None, None, false, None, ""), None, None)
  const Creation: CreateRun := CreateRunFields(Fresh, Binding(1, "f", Active), [ProviderBound("f"), RunStarted])
  const Creating := Batch(0, "", Receipt(0, "", ""), None, Some(Task(1, 1)), Some(Creation), None, [], None)
  const Beginning := [Activated(Some(Active)), Command(Creating)]

  lemma CreationIsStored()
    ensures var ready := EmptyDb.(active := Some(Active));
            1 in CommitCommand(ready, Creating).db.runs && LogInv(CommitCommand(ready, Creating).db)
  {
    var ready := EmptyDb.(active := Some(Active));
    PlainCreationIsHonest(Creation);
    assert CommitCommand(ready, Creating).result.Ok?;
    assert LogInv(ready);
    StepKeepsLog(ready, Command(Creating));
    assert 1 in CommitCommand(ready, Creating).db.runs;
  }

  /** The failing input: activate a provider, create a Run, and append its own snapshot to it. */
  lemma AppendTakesAForgery()
    ensures var db := After(EmptyDb, Beginning);
            && LogInv(db) && 1 in db.runs && db.runs[1].cached.Some?
            && Forged(db, 1).result.Ok? && Reconstruct(Forged(db, 1).db, 1).result == Err(CorruptRunHistory(1))
  {
    BeginningStores();
    ForgeryCorrupts(After(EmptyDb, Beginning), 1);
  }

  lemma BeginningStores()
    ensures LogInv(After(EmptyDb, Beginning)) && 1 in After(EmptyDb, Beginning).runs
  {
    CreationIsStored();
    BeginningIs();
  }

  lemma BeginningIs()
    ensures After(EmptyDb, Beginning) == CommitCommand(EmptyDb.(active := Some(Active)), Creating).db
  {
    assert Beginning[1..] == [Command(Creating)] && Beginning[1..][1..] == [];
    assert After(EmptyDb, Beginning) == After(EmptyDb.(active := Some(Active)), [Command(Creating)]);
  }
}
