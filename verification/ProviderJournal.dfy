/** The credential-mutation journal keeps the invariant in each of its transactions. */
module ProviderJournal {
  import opened Wrappers
  import opened ProviderDomain
  import opened ProviderStore
  import opened ProviderWrites
  import opened ProviderTables
  import opened ProviderInvariants

  lemma BeginKeeps(db: Db, intent: Intent)
    requires Inv(db)
    ensures Inv(BeginMutation(db, intent).db)
  {
    if BeginMutation(db, intent).result.Ok? {
      BeginTables(db, intent);
      BeginKeepsHidden(db, intent);
      BeginKeepsStatuses(db, intent);
    } else {
      BeginRefused(db, intent);
    }
  }

  lemma BeginRefused(db: Db, intent: Intent)
    requires BeginMutation(db, intent).result.Err?
    ensures BeginMutation(db, intent).db == db
  {
  }

  lemma BeginKeepsStatuses(db: Db, intent: Intent)
    requires RevisionTables(db) && Statuses(db) && BeginMutation(db, intent).result.Ok?
    ensures Statuses(BeginMutation(db, intent).db)
  {
    BeginKeepsPhases(db, intent);
    BeginKeepsCurrents(db, intent);
    BeginKeepsLive(db, intent);
  }

  /** No revision names a generation that is not stored. */
  lemma UnstoredUnreferenced(db: Db, p: ProfileId, g: nat)
    requires RevisionsFit(db) && (p, g) !in db.generations
    ensures Unreferenced(db, p, g)
  {
    forall key | key in db.revisions && key.0 == p ensures db.revisions[key].generation != Some(g) {
      assert CredentialFits(db, key.0, db.revisions[key].config, db.revisions[key].generation);
    }
  }

  lemma BeginKeepsHidden(db: Db, intent: Intent)
    requires RevisionTables(db) && JournalHidden(db) && BeginMutation(db, intent).result.Ok?
    ensures JournalHidden(BeginMutation(db, intent).db)
  {
    var after, m := BeginMutation(db, intent).db, Record(intent);
    BeginFacts(db, intent);
    UnstoredUnreferenced(db, m.profileId, m.Staged().value);
    forall id | id in after.journal ensures StagedHidden(after, after.journal[id]) {
      if id != intent.operationId { assert StagedHidden(db, db.journal[id]); }
    }
  }

  lemma BeginKeepsLive(db: Db, intent: Intent)
    requires RevisionTables(db) && LiveCredentialsKept(db) && BeginMutation(db, intent).result.Ok?
    ensures LiveCredentialsKept(BeginMutation(db, intent).db)
  {
    BeginFacts(db, intent);
  }

  lemma BeginKeepsPhases(db: Db, intent: Intent)
    requires RevisionTables(db) && PhasesHeld(db) && BeginMutation(db, intent).result.Ok?
    ensures PhasesHeld(BeginMutation(db, intent).db)
  {
    var after := BeginMutation(db, intent).db;
    BeginFacts(db, intent);
    forall id | id in after.journal ensures PhaseStatus(after, after.journal[id]) {
      if id != intent.operationId {
        assert PhaseStatus(db, db.journal[id]);
        assert CurrentGeneration(after, db.journal[id].profileId) == CurrentGeneration(db, db.journal[id].profileId);
      }
    }
  }

  lemma BeginKeepsCurrents(db: Db, intent: Intent)
    requires RevisionTables(db) && CurrentsUsable(db) && BeginMutation(db, intent).result.Ok?
    ensures CurrentsUsable(BeginMutation(db, intent).db)
  {
    var after := BeginMutation(db, intent).db;
    BeginFacts(db, intent);
    forall p | p in after.profiles ensures CurrentUsable(after, p) {
      assert CurrentUsable(db, p);
      var key := (p, db.profiles[p].current);
      assert CurrentGeneration(after, p) == db.revisions[key].generation;
      assert CredentialFits(db, key.0, db.revisions[key].config, db.revisions[key].generation);
    }
  }

  // ---------- closing a mutation ----------

  /** What no revision names is neither current, nor active, nor bound. */
  lemma UnreferencedIdle(db: Db, p: ProfileId, g: nat)
    requires RevisionsNumbered(db) && RevisionsFit(db) && ActiveFits(db) && BindingsFit(db)
    requires Unreferenced(db, p, g)
    ensures CurrentGeneration(db, p) != Some(g) && NotInUse(db, p, g)
  {
    if db.active.Some? { PassingNames(db, db.active.value); }
    forall run | run in db.bindings ensures db.bindings[run].profileId != p || db.bindings[run].generation != g {
      PassingNames(db, db.bindings[run]);
    }
  }

  /** While a mutation is open no other one of its profile waits on a staged generation. */
  lemma OthersClosed(db: Db, id: OperationId, g: nat)
    requires OneOpen(db) && id in db.journal && db.journal[id].phase.Open()
    requires !db.journal[id].phase.VaultWritten?
    ensures NotAwaited(db, db.journal[id].profileId, g)
  {
  }

  lemma VaultWriteKeeps(db: Db, id: OperationId)
    requires Inv(db)
    ensures Inv(RecordVaultWrite(db, id).db)
  {
    VaultWrites(db, id);
    if RecordVaultWrite(db, id).db != db {
      var m := db.journal[id];
      StatusWritten(db, m.profileId, m.Staged().value, Available);
      PhaseAdvanced(WithStatus(db, m.profileId, m.Staged().value, Available), id, m.(phase := VaultWritten));
    }
  }

  lemma RollbackKeeps(db: Db, id: OperationId)
    requires Inv(db)
    ensures Inv(RollbackMutation(db, id).db)
  {
    RollbackWrites(db, id);
    if RollbackMutation(db, id).db != db {
      var m := db.journal[id];
      assert StagedHidden(db, m);
      StatusAndPhaseCommute(db, m.profileId, m.Staged().value, Deleted, id, m.(phase := RolledBack));
      ClosedKeeps(db, id, m.(phase := RolledBack), m.Staged().value);
    }
  }

  /** Closing a mutation and tombstoning a generation that nothing names. */
  lemma ClosedKeeps(db: Db, id: OperationId, next: Mutation, g: nat)
    requires Inv(db) && id in db.journal && Advances(db.journal[id], next) && next.phase.Terminal()
    requires db.journal[id].phase.Open() && Unreferenced(db, next.profileId, g)
    ensures Inv(WithStatus(WithMutation(db, id, next), next.profileId, g, Deleted))
  {
    var closed := WithMutation(db, id, next);
    PhaseAdvanced(db, id, next);
    ClosedFree(db, id, next, g);
    UnreferencedIdle(closed, next.profileId, g);
    StatusWritten(closed, next.profileId, g, Deleted);
  }

  /** Once the open mutation has left the vault-written phase nobody waits on a generation. */
  lemma ClosedFree(db: Db, id: OperationId, next: Mutation, g: nat)
    requires OneOpen(db) && id in db.journal && db.journal[id].phase.Open() && !next.phase.VaultWritten?
    ensures NotAwaited(WithMutation(db, id, next), db.journal[id].profileId, g)
  {
  }

  lemma BlockKeeps(db: Db, id: OperationId, code: ErrorCode)
    requires Inv(db)
    ensures Inv(BlockMutation(db, id, code).db)
  {
    BlockWrites(db, id, code);
    if BlockMutation(db, id, code).db != db {
      var m := db.journal[id];
      var next := m.(phase := Blocked, error := Some(code));
      PhaseAdvanced(db, id, next);
      ClosedFree(db, id, next, m.Staged().value);
      StatusWritten(WithMutation(db, id, next), m.profileId, m.Staged().value, Revoked);
      ActiveClearedKeeps(WithStatus(WithMutation(db, id, next), m.profileId, m.Staged().value, Revoked));
    }
  }

  lemma ActiveClearedKeeps(db: Db)
    requires Inv(db)
    ensures Inv(db.(active := None))
  {
    ActiveTables(db, None);
    SameHidden(db, db.(active := None));
    SameStatuses(db, db.(active := None));
  }

  lemma OldKeptKeeps(db: Db, id: OperationId)
    requires Inv(db) && id in db.journal && db.journal[id].phase.PointerCommitted?
    ensures Inv(OldKept(db, db.journal[id]))
  {
    var m := db.journal[id];
    assert PhaseStatus(db, m);
    if m.oldGen.Some? {
      OthersClosed(db, id, m.oldGen.value);
      StatusWritten(db, m.profileId, m.oldGen.value, Retained);
    }
  }

  lemma CompleteKeeps(db: Db, id: OperationId)
    requires Inv(db)
    ensures Inv(CompleteMutation(db, id).db)
  {
    CompleteWrites(db, id);
    if CompleteMutation(db, id).db != db {
      var m := db.journal[id];
      OldKeptKeeps(db, id);
      OldKeptJournal(db, m);
      CompletedKeeps(OldKept(db, m), id);
    }
  }

  /** Closing a committed mutation and dropping its rollback copy. */
  lemma CompletedKeeps(kept: Db, id: OperationId)
    requires Inv(kept) && id in kept.journal && kept.journal[id].phase.PointerCommitted?
    ensures Inv(WithMutation(CopyDropped(kept, kept.journal[id]), id, kept.journal[id].(phase := Completed)))
  {
    var m := kept.journal[id];
    var next := m.(phase := Completed);
    assert MutationFits(kept, m);
    if m.rollbackGen.Some? {
      assert StagedHidden(kept, m) && m.Staged() == m.rollbackGen;
      StatusAndPhaseCommute(kept, m.profileId, m.rollbackGen.value, Deleted, id, next);
      ClosedKeeps(kept, id, next, m.rollbackGen.value);
    } else {
      PhaseAdvanced(kept, id, next);
    }
  }

  // ---------- the pointer commit ----------

  lemma CommitNameable(db: Db, commit: PointerCommit)
    requires Tables(db) && PointerMoves(db, commit)
    ensures var m := db.journal[commit.mutationId];
            Nameable(WithMutation(db, commit.mutationId, m.(phase := PointerCommitted)), m.profileId, m.newGen)
  {
    var id := commit.mutationId;
    var m := db.journal[id];
    if m.newGen.Some? {
      assert MutationFits(db, m);
      assert m.Staged() == m.newGen && m.rollbackGen.None?;
    }
  }

  lemma MovedHides(db: Db, commit: PointerCommit)
    requires Tables(db) && JournalHidden(db) && PointerMoves(db, commit) && commit.profileId in db.profiles
    ensures JournalHidden(WithMutation(PointerAppended(db, commit), commit.mutationId,
                                       db.journal[commit.mutationId].(phase := PointerCommitted)))
  {
    var id, m := commit.mutationId, db.journal[commit.mutationId];
    var advanced := WithMutation(db, id, m.(phase := PointerCommitted));
    CommitCases(db, commit);
    assert MutationFits(db, m);
    CommitNameable(db, commit);
    PhaseKeepsHidden(db, id, m.(phase := PointerCommitted));
    AppendKeepsHidden(advanced, m.profileId, db.profiles[m.profileId].name, commit.replacement.number,
                      DraftRow(commit.replacement));
  }

  lemma MovedStatuses(db: Db, commit: PointerCommit)
    requires Tables(db) && Statuses(db) && PointerMoves(db, commit) && commit.profileId in db.profiles
    ensures Statuses(WithMutation(PointerAppended(db, commit), commit.mutationId,
                                  db.journal[commit.mutationId].(phase := PointerCommitted)))
  {
    var id, m := commit.mutationId, db.journal[commit.mutationId];
    AppendedStatuses(db, commit);
    PhaseKeepsStatuses(PointerAppended(db, commit), id, m.(phase := PointerCommitted));
  }

  /** The staged credential is available when its pointer commit goes through. */
  lemma CommitUsable(db: Db, commit: PointerCommit)
    requires Tables(db) && PhasesHeld(db) && PointerMoves(db, commit)
    ensures var m := db.journal[commit.mutationId];
            && m.newGen != m.oldGen
            && (m.newGen.Some? ==> HasStatus(db, m.profileId, m.newGen.value, Available))
  {
    var m := db.journal[commit.mutationId];
    assert MutationFits(db, m) && PhaseStatus(db, m);
    CommitCases(db, commit);
  }

  lemma AppendedStatuses(db: Db, commit: PointerCommit)
    requires Tables(db) && Statuses(db) && PointerMoves(db, commit) && commit.profileId in db.profiles
    ensures var m := db.journal[commit.mutationId];
            Statuses(PointerAppended(db, commit))
            && PhaseStatus(PointerAppended(db, commit), m.(phase := PointerCommitted))
  {
    var m := db.journal[commit.mutationId];
    CommitCases(db, commit);
    CommitUsable(db, commit);
    JournalOwned(db);
    OthersCommitted(db, commit.mutationId);
    AppendKeepsStatuses(db, m.profileId, db.profiles[m.profileId].name, commit.replacement.number,
                        DraftRow(commit.replacement));
    assert CurrentGeneration(PointerAppended(db, commit), m.profileId) == m.newGen;
  }

  /** While a mutation waits for its pointer commit no other one of its profile has committed its own. */
  lemma OthersCommitted(db: Db, id: OperationId)
    requires OneOpen(db) && id in db.journal && db.journal[id].phase.VaultWritten?
    ensures forall i | i in db.journal && db.journal[i].profileId == db.journal[id].profileId ::
              !db.journal[i].phase.PointerCommitted?
  {
  }

  lemma CommitMovedKeeps(db: Db, commit: PointerCommit)
    requires Inv(db) && PointerMoves(db, commit)
    ensures Inv(CommitPointer(db, commit).db)
  {
    var id, m := commit.mutationId, db.journal[commit.mutationId];
    MovedTables(db, commit);
    MovedHides(db, commit);
    MovedStatuses(db, commit);
    OldKeptKeeps(WithMutation(PointerAppended(db, commit), id, m.(phase := PointerCommitted)), id);
    CommitCases(db, commit);
  }

  lemma CommitStaleKeeps(db: Db, commit: PointerCommit)
    requires Inv(db) && commit.mutationId in db.journal && db.journal[commit.mutationId].phase.VaultWritten?
    requires CommitStale(db, db.journal[commit.mutationId], commit)
    ensures Inv(CommitPointer(db, commit).db)
  {
    var m := db.journal[commit.mutationId];
    assert MutationFits(db, m);
    CommitCases(db, commit);
    PhaseAdvanced(db, commit.mutationId, m.(phase := CleanupPending));
  }

  lemma CommitKeeps(db: Db, commit: PointerCommit)
    requires Inv(db)
    ensures Inv(CommitPointer(db, commit).db)
  {
    if commit.mutationId !in db.journal || !db.journal[commit.mutationId].phase.VaultWritten? {
      CommitIdle(db, commit);
    } else if CommitStale(db, db.journal[commit.mutationId], commit) {
      CommitStaleKeeps(db, commit);
    } else if PointerMoves(db, commit) {
      CommitMovedKeeps(db, commit);
    } else {
      CommitCases(db, commit);
    }
  }
}
