/** When each transaction of the credential-mutation journal succeeds, and what it then writes, told of the
    rows of the tables. */
module ProviderJournalOutcomes {
  import opened Wrappers
  import opened ProviderDomain
  import opened ProviderStore
  import opened ProviderWrites
  import opened ProviderTables
  import opened RunStatuses

  /** The generation that a mutation brings: the new credential, or the copy of the old one that a deletion keeps
      until it is completed. */
  ghost predicate Brings(m: Mutation, g: nat) {
    m.newGen == Some(g) || m.rollbackGen == Some(g)
  }

  /** A mutation brings exactly one generation, and it is stored. */
  lemma BringsOne(db: Db, m: Mutation)
    requires MutationFits(db, m)
    ensures m.Staged().Some? && (m.profileId, m.Staged().value) in db.generations
    ensures forall g: nat :: Brings(m, g) <==> Some(g) == m.Staged()
  {
    StagedStored(db, m);
  }

  /** The record moves to this phase, and one generation to this status; nothing else changes. */
  ghost predicate MovesOne(db: Db, after: Db, id: OperationId, phase: Phase, g: nat, status: GenerationStatus) {
    && id in db.journal && (db.journal[id].profileId, g) in db.generations
    && var key := (db.journal[id].profileId, g);
       after == db.(journal := db.journal[id := db.journal[id].(phase := phase)],
                    generations := db.generations[key := db.generations[key].(status := status)])
  }

  // ---------- the vault write ----------

  /** A vault write can be recorded exactly when the intent was recorded and its generation is still retained; that
      generation is then available. Recording it again changes nothing. */
  lemma VaultWriteExactly(db: Db, id: OperationId)
    requires Tables(db)
    ensures var tx := RecordVaultWrite(db, id);
            && (tx.result.Ok?
                <==> && id in db.journal
                     && var m := db.journal[id];
                        || m.phase.VaultWritten?
                        || (&& m.phase.IntentRecorded?
                            && forall g | Brings(m, g) :: HasStatus(db, m.profileId, g, Retained)))
            && (tx.result.Ok? ==> tx.result == Ok(db.journal[id].(phase := VaultWritten)))
            && (tx.result.Ok? && db.journal[id].phase.IntentRecorded? ==>
                  exists g :: Brings(db.journal[id], g) && MovesOne(db, tx.db, id, VaultWritten, g, Available))
            && (tx.result.Err? || db.journal[id].phase.VaultWritten? ==> tx.db == db)
  {
    if id in db.journal {
      var m := db.journal[id];
      MutationLoads(db, id);
      BringsOne(db, m);
      assert Brings(m, m.Staged().value);
    }
  }

  // ---------- the pointer commit ----------

  /** The commit is the one that its mutation announced, and the profile is as the mutation found it. */
  ghost predicate Fulfils(db: Db, m: Mutation, commit: PointerCommit) {
    var p, n, next := commit.profileId, commit.expectedRevision, commit.replacement;
    && m.profileId == p && m.expectedRevision == n
    && m.newGen == (if next.generation.Some? then Some(next.generation.value.number) else None)
    && (next.generation.Some? && (p, next.generation.value.number) in db.generations ==>
          next.generation.value.kind == db.generations[(p, next.generation.value.number)].kind)
    && Existing(db, p) && db.profiles[p].current == n
    && (p, n) in db.revisions && db.revisions[(p, n)].config == next.config
  }

  lemma FulfilsIsNotStale(db: Db, id: OperationId, commit: PointerCommit)
    requires Tables(db) && id in db.journal
    ensures Fulfils(db, db.journal[id], commit) <==> !CommitStale(db, db.journal[id], commit)
  {
    var m := db.journal[id];
    assert MutationFits(db, m);
    if Existing(db, commit.profileId) && db.profiles[commit.profileId].current == commit.expectedRevision {
      RevisionLoads(db, commit.profileId, commit.expectedRevision);
    }
    if m.newGen.Some? { assert m.newGen.value in References(m); }
  }

  /** What the pointer commit writes: the next revision, with the new credential and no validation, is current,
      and the old credential is retained unless it is a tombstone. */
  ghost predicate Points(db: Db, after: Db, id: OperationId) {
    && id in db.journal
    && var m := db.journal[id];
       var p, n := m.profileId, m.expectedRevision;
       && p in db.profiles && (p, n) in db.revisions
       && after == db.(profiles := db.profiles[p := db.profiles[p].(current := n + 1)],
                       revisions := db.revisions[(p, n + 1) :=
                         RevisionRow(db.revisions[(p, n)].config, m.newGen, Draft, None)],
                       journal := db.journal[id := m.(phase := PointerCommitted)],
                       generations := after.generations)
       && (if m.oldGen.None? || HasStatus(db, p, m.oldGen.value, Deleted) then after.generations == db.generations
           else && (p, m.oldGen.value) in db.generations
                && after.generations == db.generations[(p, m.oldGen.value) :=
                                                       db.generations[(p, m.oldGen.value)].(status := Retained)])
  }

  /** After the vault write a pointer commit succeeds exactly when it is the one announced and the profile is as
      the mutation found it; otherwise it is refused, and all it leaves is the record that asks for cleanup.
      Before the vault write, and after the mutation was closed, it is refused and nothing changes. */
  lemma CommitExactly(db: Db, commit: PointerCommit)
    requires Tables(db)
    ensures var tx, id := CommitPointer(db, commit), commit.mutationId;
            && (id in db.journal && db.journal[id].phase.VaultWritten? ==>
                  if Fulfils(db, db.journal[id], commit)
                  then tx.result == Ok(db.journal[id].(phase := PointerCommitted)) && Points(db, tx.db, id)
                  else && tx.result == Err(StorageConflict)
                       && tx.db == db.(journal := db.journal[id := db.journal[id].(phase := CleanupPending)]))
            && (id in db.journal && !db.journal[id].phase.VaultWritten? && !db.journal[id].phase.PointerCommitted? ==>
                  tx == Tx(db, Err(OperationStale)))
            && (id !in db.journal ==> tx == Tx(db, Err(OperationStale)))
  {
    var id := commit.mutationId;
    if id in db.journal {
      MutationLoads(db, id);
      FulfilsIsNotStale(db, id, commit);
      if db.journal[id].phase.VaultWritten? {
        CommitCases(db, commit);
        if Fulfils(db, db.journal[id], commit) { FulfilledPoints(db, commit); }
      }
    }
  }

  lemma FulfilledPoints(db: Db, commit: PointerCommit)
    requires Tables(db) && commit.mutationId in db.journal && db.journal[commit.mutationId].phase.VaultWritten?
    requires Fulfils(db, db.journal[commit.mutationId], commit)
    ensures CommitPointer(db, commit).result == Ok(db.journal[commit.mutationId].(phase := PointerCommitted))
    ensures Points(db, CommitPointer(db, commit).db, commit.mutationId)
  {
    FulfilsIsNotStale(db, commit.mutationId, commit);
    FulfilledMoves(db, commit);
    CommitCases(db, commit);
    AppendedPoints(db, CommitPointer(db, commit).db, commit);
  }

  lemma FulfilledMoves(db: Db, commit: PointerCommit)
    requires JournalFits(db) && commit.mutationId in db.journal && Fulfils(db, db.journal[commit.mutationId], commit)
    ensures CredentialFits(db, commit.profileId, commit.replacement.config, Number(commit.replacement.generation))
    ensures var m := db.journal[commit.mutationId]; m.oldGen.Some? ==> (m.profileId, m.oldGen.value) in db.generations
  {
    var m := db.journal[commit.mutationId];
    assert MutationFits(db, m);
    if m.newGen.Some? { assert m.newGen.value in References(m); }
    if m.oldGen.Some? { assert m.oldGen.value in References(m); }
  }

  lemma AppendedPoints(db: Db, after: Db, commit: PointerCommit)
    requires commit.mutationId in db.journal && Fulfils(db, db.journal[commit.mutationId], commit)
    requires var m := db.journal[commit.mutationId]; m.oldGen.Some? ==> (m.profileId, m.oldGen.value) in db.generations
    requires var m := db.journal[commit.mutationId];
             var moved := WithMutation(PointerAppended(db, commit), commit.mutationId, m.(phase := PointerCommitted));
             after == (if m.oldGen.Some? && !HasStatus(db, m.profileId, m.oldGen.value, Deleted)
                       then WithStatus(moved, m.profileId, m.oldGen.value, Retained) else moved)
    ensures Points(db, after, commit.mutationId)
  {
  }

  // ---------- closing ----------

  /** What completion writes: the old credential is retained, the copy of a deletion is deleted, and no other
      generation has changed. */
  ghost predicate Closes(db: Db, after: Db, id: OperationId) {
    && id in db.journal
    && var m := db.journal[id];
       && after == db.(journal := db.journal[id := m.(phase := Completed)], generations := after.generations)
       && after.generations.Keys == db.generations.Keys
       && (m.oldGen.Some? ==> HasStatus(after, m.profileId, m.oldGen.value, Retained))
       && (m.rollbackGen.Some? ==> HasStatus(after, m.profileId, m.rollbackGen.value, Deleted))
       && KindsKept(db.generations, after.generations)
       && (forall key | && key in db.generations
                        && (key.0 != m.profileId || (Some(key.1) != m.oldGen && Some(key.1) != m.rollbackGen)) ::
             after.generations[key] == db.generations[key])
  }

  /** A mutation is completed exactly when its pointer was committed. Completing it again changes nothing. */
  lemma CompleteExactly(db: Db, id: OperationId)
    requires Tables(db)
    ensures var tx := CompleteMutation(db, id);
            && (tx.result.Ok? <==> id in db.journal && (db.journal[id].phase.Completed?
                                                        || db.journal[id].phase.PointerCommitted?))
            && (tx.result.Ok? ==> tx.result == Ok(db.journal[id].(phase := Completed)))
            && (tx.result.Err? || db.journal[id].phase.Completed? ==> tx.db == db)
            && (tx.result.Ok? && db.journal[id].phase.PointerCommitted? ==>
                  Closes(db, tx.db, id))
  {
    if id in db.journal {
      MutationLoads(db, id);
      if db.journal[id].phase.PointerCommitted? { CompletionExactly(db, id); }
    }
  }

  lemma CompletionExactly(db: Db, id: OperationId)
    requires JournalFits(db) && id in db.journal && db.journal[id].phase.PointerCommitted?
    ensures CompleteMutation(db, id).result == Ok(db.journal[id].(phase := Completed))
    ensures Closes(db, CompleteMutation(db, id).db, id)
  {
    assert MutationFits(db, db.journal[id]);
    CompletionOf(db, id);
    CompletionKeepsKinds(db, id);
  }

  ghost predicate KindsKept(before: map<(ProfileId, nat), GenerationRow>, after: map<(ProfileId, nat), GenerationRow>) {
    forall key | key in before :: key in after && after[key].kind == before[key].kind
  }

  lemma CompletionKeepsKinds(db: Db, id: OperationId)
    requires JournalFits(db) && id in db.journal && db.journal[id].phase.PointerCommitted?
    ensures KindsKept(db.generations, CompleteMutation(db, id).db.generations)
  {
    var m := db.journal[id];
    CompletionShape(db, id);
    assert KindsKept(db.generations, OldKept(db, m).generations);
    assert KindsKept(OldKept(db, m).generations, CopyDropped(OldKept(db, m), m).generations);
  }

  /** A mutation is rolled back exactly when its pointer was not committed: the generation it brought is then
      deleted. Rolling it back again changes nothing. */
  lemma RollbackExactly(db: Db, id: OperationId)
    requires Tables(db)
    ensures var tx := RollbackMutation(db, id);
            && (tx.result.Ok?
                <==> id in db.journal && var phase := db.journal[id].phase;
                       phase.RolledBack? || phase.IntentRecorded? || phase.VaultWritten? || phase.CleanupPending?)
            && (tx.result.Ok? ==> tx.result == Ok(db.journal[id].(phase := RolledBack)))
            && (tx.result.Err? || db.journal[id].phase.RolledBack? ==> tx.db == db)
            && (tx.result.Ok? && !db.journal[id].phase.RolledBack? ==>
                  exists g :: Brings(db.journal[id], g) && MovesOne(db, tx.db, id, RolledBack, g, Deleted))
  {
    if id in db.journal {
      MutationLoads(db, id);
      BringsOne(db, db.journal[id]);
      assert Brings(db.journal[id], db.journal[id].Staged().value);
    }
  }

  /** What blocking writes: the generation the mutation brought is revoked, and the active slot is emptied if its
      profile had it. */
  ghost predicate Blocks(db: Db, after: Db, id: OperationId, code: ErrorCode, g: nat) {
    && id in db.journal && Brings(db.journal[id], g) && (db.journal[id].profileId, g) in db.generations
    && var key := (db.journal[id].profileId, g);
       after == db.(journal := db.journal[id := db.journal[id].(phase := Blocked, error := Some(code))],
                    generations := db.generations[key := db.generations[key].(status := Revoked)],
                    active := if db.active.Some? && db.active.value.profileId == key.0 then None else db.active)
  }

  /** An open mutation can be blocked, and again with the same code, which changes nothing. */
  lemma BlockExactly(db: Db, id: OperationId, code: ErrorCode)
    requires Tables(db)
    ensures var tx := BlockMutation(db, id, code);
            && (tx.result.Ok?
                <==> && id in db.journal && !db.journal[id].phase.Completed? && !db.journal[id].phase.RolledBack?
                     && (db.journal[id].phase.Blocked? ==> db.journal[id].error == Some(code)))
            && (tx.result.Ok? ==> tx.result == Ok(db.journal[id].(phase := Blocked, error := Some(code))))
            && (tx.result.Err? || db.journal[id].phase.Blocked? ==> tx.db == db)
            && (tx.result.Ok? && !db.journal[id].phase.Blocked? ==> exists g :: Blocks(db, tx.db, id, code, g))
  {
    if id in db.journal {
      MutationLoads(db, id);
      if !db.journal[id].phase.Terminal() { OpenBlocks(db, id, code); }
    }
  }

  lemma OpenBlocks(db: Db, id: OperationId, code: ErrorCode)
    requires JournalFits(db) && id in db.journal && !db.journal[id].phase.Terminal()
    ensures BlockMutation(db, id, code).result == Ok(db.journal[id].(phase := Blocked, error := Some(code)))
    ensures exists g :: Blocks(db, BlockMutation(db, id, code).db, id, code, g)
  {
    MutationLoads(db, id);
    assert MutationFits(db, db.journal[id]);
    BringsOne(db, db.journal[id]);
    assert Blocks(db, BlockMutation(db, id, code).db, id, code, db.journal[id].Staged().value);
  }

  /** A retained credential is retired exactly when it is not the active one and no unfinished Run holds it. */
  lemma RetireExactly(db: Db, generation: Generation)
    ensures var tx, key := RetireGeneration(db, generation), (generation.profileId, generation.number);
            && (tx.result.Ok?
                <==> && HasStatus(db, key.0, key.1, Retained)
                     && (db.active.Some? ==> (db.active.value.profileId, db.active.value.generation) != key)
                     && (forall run | run in db.bindings && run in db.runs
                                      && (db.bindings[run].profileId, db.bindings[run].generation) == key ::
                           db.runs[run].Succeeded? || db.runs[run].Failed? || db.runs[run].Cancelled?))
            && (tx.result.Ok? ==>
                  tx.db == db.(generations := db.generations[key := db.generations[key].(status := Deleted)]))
            && (tx.result.Err? ==> tx.db == db)
  {
  }

  /** A Run that is stored takes any status, except that one that has ended takes no status that has not. */
  lemma MoveRunExactly(db: Db, run: RunId, status: RunStatus)
    ensures var tx := MoveRun(db, run, status);
            && (tx.result.Ok?
                <==> && run in db.runs
                     && (db.runs[run].Succeeded? || db.runs[run].Failed? || db.runs[run].Cancelled? ==>
                           status.Succeeded? || status.Failed? || status.Cancelled?))
            && tx.db == if tx.result.Ok? then db.(runs := db.runs[run := status]) else db
  {
  }
}
