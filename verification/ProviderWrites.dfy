/** What each transaction of the provider repository may write, whatever the state of the tables. */
module ProviderWrites {
  import opened Wrappers
  import opened ProviderDomain
  import opened ProviderStore
  import opened RunStatuses

  ghost predicate Existing(db: Db, p: ProfileId) {
    p in db.profiles && !db.profiles[p].deleted
  }

  ghost predicate HasStatus(db: Db, p: ProfileId, g: nat, status: GenerationStatus) {
    (p, g) in db.generations && db.generations[(p, g)].status == status
  }

  // ---------- the journal ----------

  lemma VaultWrites(db: Db, id: OperationId)
    ensures var later := RecordVaultWrite(db, id).db;
            || later == db
            || (&& id in db.journal && db.journal[id].phase.IntentRecorded? && db.journal[id].Staged().Some?
                && ErrorFits(db.journal[id].phase, db.journal[id].error)
                && HasStatus(db, db.journal[id].profileId, db.journal[id].Staged().value, Retained)
                && later == WithMutation(WithStatus(db, db.journal[id].profileId, db.journal[id].Staged().value,
                                                    Available),
                                         id, db.journal[id].(phase := VaultWritten)))
  {
  }

  lemma RollbackWrites(db: Db, id: OperationId)
    ensures var later := RollbackMutation(db, id).db;
            || later == db
            || (&& id in db.journal && db.journal[id].Staged().Some?
                && ErrorFits(db.journal[id].phase, db.journal[id].error)
                && (db.journal[id].phase.IntentRecorded? || db.journal[id].phase.VaultWritten?
                    || db.journal[id].phase.CleanupPending?)
                && later == WithMutation(WithStatus(db, db.journal[id].profileId, db.journal[id].Staged().value,
                                                    Deleted),
                                         id, db.journal[id].(phase := RolledBack)))
  {
  }

  lemma BlockWrites(db: Db, id: OperationId, code: ErrorCode)
    ensures var later := BlockMutation(db, id, code).db;
            || later == db
            || (&& id in db.journal && !db.journal[id].phase.Terminal() && db.journal[id].Staged().Some?
                && var m := db.journal[id];
                   var revoked := WithStatus(WithMutation(db, id, m.(phase := Blocked, error := Some(code))),
                                             m.profileId, m.Staged().value, Revoked);
                   later == revoked || later == revoked.(active := None))
  {
    if id in db.journal && LoadMutation(db, id).Ok? && !db.journal[id].phase.Terminal() {
      var m := db.journal[id];
      StatusAndPhaseCommute(db, m.profileId, m.Staged().value, Revoked, id, m.(phase := Blocked, error := Some(code)));
    }
  }

  lemma StatusAndPhaseCommute(db: Db, p: ProfileId, g: nat, status: GenerationStatus, id: OperationId, next: Mutation)
    ensures WithMutation(WithStatus(db, p, g, status), id, next) == WithStatus(WithMutation(db, id, next), p, g, status)
    ensures WithMutation(WithStatus(db, p, g, status).(active := None), id, next)
            == WithStatus(WithMutation(db, id, next), p, g, status).(active := None)
  {
  }

  ghost function OldKept(db: Db, m: Mutation): Db {
    if m.oldGen.Some? then WithStatus(db, m.profileId, m.oldGen.value, Retained) else db
  }

  ghost function CopyDropped(db: Db, m: Mutation): Db {
    if m.rollbackGen.Some? then WithStatus(db, m.profileId, m.rollbackGen.value, Deleted) else db
  }

  lemma CompleteWrites(db: Db, id: OperationId)
    ensures var later := CompleteMutation(db, id).db;
            || later == db
            || (&& id in db.journal && db.journal[id].phase.PointerCommitted?
                && later == WithMutation(CopyDropped(OldKept(db, db.journal[id]), db.journal[id]), id,
                                         db.journal[id].(phase := Completed)))
  {
  }

  lemma OldKeptStatuses(db: Db, m: Mutation)
    requires m.oldGen.Some? ==> (m.profileId, m.oldGen.value) in db.generations
    ensures var after := OldKept(db, m);
            && after == db.(generations := after.generations) && after.generations.Keys == db.generations.Keys
            && (m.oldGen.Some? ==> HasStatus(after, m.profileId, m.oldGen.value, Retained))
            && (forall key | key in db.generations && (key.0 != m.profileId || Some(key.1) != m.oldGen) ::
                  after.generations[key] == db.generations[key])
  {
  }

  lemma CopyDroppedStatuses(db: Db, m: Mutation)
    requires m.rollbackGen.Some? ==> (m.profileId, m.rollbackGen.value) in db.generations
    ensures var after := CopyDropped(db, m);
            && after == db.(generations := after.generations) && after.generations.Keys == db.generations.Keys
            && (m.rollbackGen.Some? ==> HasStatus(after, m.profileId, m.rollbackGen.value, Deleted))
            && (forall key | key in db.generations && (key.0 != m.profileId || Some(key.1) != m.rollbackGen) ::
                  after.generations[key] == db.generations[key])
  {
  }

  lemma OldKeptJournal(db: Db, m: Mutation)
    ensures OldKept(db, m).journal == db.journal
  {
  }

  lemma CleanedJournal(db: Db, m: Mutation)
    ensures CopyDropped(OldKept(db, m), m).journal == db.journal
  {
    OldKeptJournal(db, m);
    assert CopyDropped(OldKept(db, m), m).journal == OldKept(db, m).journal;
  }

  // ---------- appending a revision ----------

  ghost function AppendRevision(db: Db, p: ProfileId, name: string, n: nat, row: RevisionRow): Db {
    db.(profiles := db.profiles[p := ProfileRow(name, n, false)],
        revisions := db.revisions[(p, n) := row])
  }

  ghost function PointerAppended(db: Db, commit: PointerCommit): Db
    requires commit.profileId in db.profiles
  {
    AppendRevision(db, commit.profileId, db.profiles[commit.profileId].name, commit.replacement.number,
                   DraftRow(commit.replacement))
  }

  lemma CommitWrites(db: Db, commit: PointerCommit)
    ensures var later, id := CommitPointer(db, commit).db, commit.mutationId;
            || later == db
            || (&& id in db.journal && db.journal[id].phase.VaultWritten? && db.journal[id].error.None?
                && later == WithMutation(db, id, db.journal[id].(phase := CleanupPending)))
            || (&& id in db.journal && db.journal[id].phase.VaultWritten? && db.journal[id].error.None?
                && commit.profileId in db.profiles
                && !db.profiles[commit.profileId].deleted
                && db.profiles[commit.profileId].current + 1 == commit.replacement.number
                && NextRevision(db, commit.profileId, commit.replacement.number)
                && var moved := WithMutation(PointerAppended(db, commit), id,
                                             db.journal[id].(phase := PointerCommitted));
                   exists g, status ::
                     later == WithStatus(moved, db.journal[id].profileId, g, status) || later == moved)
  {
    var id := commit.mutationId;
    if id in db.journal && db.journal[id].phase.VaultWritten? && CommitPointer(db, commit).result.Ok? {
      var m := db.journal[id];
      var moved := WithMutation(PointerAppended(db, commit), id, m.(phase := PointerCommitted));
      var g := if m.oldGen.Some? then m.oldGen.value else 0;
      assert CommitPointer(db, commit).db == WithStatus(moved, m.profileId, g, Retained)
             || CommitPointer(db, commit).db == moved;
    }
  }

  // ---------- validation and deletion ----------

  ghost predicate ValidationsExtend(db: Db, later: Db) {
    forall id | id in db.validations :: id in later.validations && later.validations[id] == db.validations[id]
  }

  lemma ValidationWrites(db: Db, commit: ValidationCommit)
    ensures var later, key, id :=
            SaveValidation(db, commit).db, (commit.profileId, commit.revision), commit.evidence.id;
            || later == db
            || (&& key in db.revisions && db.revisions[key].validation.None? && id !in db.validations
                && later == db.(validations := later.validations, revisions := later.revisions)
                && ValidationsExtend(db, later)
                && later.revisions.Keys == db.revisions.Keys
                && later.revisions[key]
                   == db.revisions[key].(state := later.revisions[key].state, validation := Some(id))
                && (forall k | k in db.revisions && k != key :: later.revisions[k] == db.revisions[k]))
  {
  }

  lemma DeleteKeepsKinds(db: Db, request: DeleteRequest)
    ensures var later := DeleteProfile(db, request).db;
            && later.generations.Keys == db.generations.Keys
            && (forall key | key in db.generations :: later.generations[key].kind == db.generations[key].kind)
  {
  }

  // ---------- Runs ----------

  lemma StartFrame(db: Db, run: RunId, status: RunStatus, binding: Activation)
    ensures var after := CreateRun(db, run, status, binding).db;
            || after == db
            || (&& run !in db.bindings && PassingValidation(db, binding) && db.active == Some(binding)
                && after == db.(runs := db.runs[run := status], bindings := db.bindings[run := binding]))
  {
  }

  lemma AdvanceFrame(db: Db, run: RunId, status: RunStatus)
    ensures var after := MoveRun(db, run, status).db;
            after == db || (run in db.runs && after == db.(runs := db.runs[run := status]))
  {
  }
}
