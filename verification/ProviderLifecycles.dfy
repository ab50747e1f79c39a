/** Transactions of the provider repository in sequence: what one stores another finds, what one
    begins another completes or undoes. */
module ProviderLifecycles {
  import opened Wrappers
  import opened ProviderDomain
  import opened ProviderStore
  import opened ProviderSteps
  import opened ProviderWrites
  import opened ProviderTables
  import opened ProviderHistory
  import opened ProviderTheorems

  // ---------- save, validate, activate ----------

  /** A saved revision loads back as it was saved. */
  lemma SaveThenLoad(db: Db, request: SaveRequest)
    requires SaveRevision(db, request).result.Ok?
    requires DraftAccepted(request.profileId, request.revision.number, request.revision.config,
                           request.revision.generation)
    ensures var after := SaveRevision(db, request).db;
            && LoadRevision(after, request.profileId, request.revision.number) == Ok(request.revision)
            && CurrentRevision(after, request.profileId) == Some(request.revision.number)
  {
  }

  /** A validated revision loads back with its evidence, ready exactly when the evidence passed. */
  lemma ValidateThenLoad(db: Db, commit: ValidationCommit)
    requires Tables(db) && SaveValidation(db, commit).result.Ok?
    ensures var after := SaveValidation(db, commit).db;
            var loaded := LoadRevision(after, commit.profileId, commit.revision);
            && loaded == SaveValidation(db, commit).result
            && loaded.value.validation == Some(commit.evidence)
            && (loaded.value.state.Ready? <==> commit.evidence.passed)
  {
    RevisionLoads(db, commit.profileId, commit.revision);
    ValidationTables(db, commit);
    RevisionLoads(SaveValidation(db, commit).db, commit.profileId, commit.revision);
  }

  /** Passing evidence can be activated at once, and a reader then gets that activation unless the
      profile has a blocked mutation. */
  lemma ValidateThenActivate(db: Db, commit: ValidationCommit)
    requires Tables(db) && SaveValidation(db, commit).result.Ok? && commit.evidence.passed
    ensures var ready := SaveValidation(db, commit).db;
            var request := ActivateRequest(commit.profileId, commit.revision, commit.evidence.id, commit.digest,
                                           ActivationNumber(ready.active));
            var activated := Activate(ready, request);
            && activated.result.Ok? && activated.db.active == Some(activated.result.value)
            && activated.result.value.validationId == commit.evidence.id
            && activated.result.value.generation == commit.generation.number
            && (ready.active.Some? ==> activated.result.value.activation == ready.active.value.activation + 1)
            && Active(activated.db) == (if BlockedProfile(db, commit.profileId) then Err(CredentialBlocked)
                                        else Ok(Some(activated.result.value)))
  {
    var ready := SaveValidation(db, commit).db;
    ValidatedIsReady(db, commit);
    ValidateThenLoad(db, commit);
    ValidationTables(db, commit);
    ActivateReady(ready, commit.profileId, commit.revision, commit.evidence);
    assert BlockedProfile(ready, commit.profileId) == BlockedProfile(db, commit.profileId);
  }

  /** A ready current revision activates, and is then read back. */
  lemma ActivateReady(db: Db, p: ProfileId, n: nat, evidence: Evidence)
    requires Tables(db) && CurrentRevision(db, p) == Some(n) && n >= 1 && LoadRevision(db, p, n).Ok?
    requires (p, n) in db.revisions && db.revisions[(p, n)].state.Ready?
    requires LoadRevision(db, p, n).value.validation == Some(evidence)
    ensures var activated :=
            Activate(db, ActivateRequest(p, n, evidence.id, evidence.digest, ActivationNumber(db.active)));
            && activated.result.Ok? && activated.db.active == Some(activated.result.value)
            && activated.result.value.validationId == evidence.id
            && db.revisions[(p, n)].generation == Some(activated.result.value.generation)
            && activated.result.value.activation == (if db.active.Some? then db.active.value.activation + 1 else 1)
            && Active(activated.db) == (if BlockedProfile(db, p) then Err(CredentialBlocked)
                                        else Ok(Some(activated.result.value)))
  {
    ActivateSucceeds(db, p, n, evidence);
    var request := ActivateRequest(p, n, evidence.id, evidence.digest, ActivationNumber(db.active));
    ActivateTables(db, request);
    var after := Activate(db, request).db;
    TablesFailClosed(after);
    assert BlockedProfile(after, p) == BlockedProfile(db, p);
  }

  lemma ActivateSucceeds(db: Db, p: ProfileId, n: nat, evidence: Evidence)
    requires RevisionsFit(db) && CurrentRevision(db, p) == Some(n) && n >= 1 && LoadRevision(db, p, n).Ok?
    requires (p, n) in db.revisions && db.revisions[(p, n)].state.Ready?
    requires LoadRevision(db, p, n).value.validation == Some(evidence)
    ensures var activated :=
            Activate(db, ActivateRequest(p, n, evidence.id, evidence.digest, ActivationNumber(db.active)));
            && activated.result.Ok? && activated.db == db.(active := Some(activated.result.value))
            && activated.result.value.profileId == p
            && activated.result.value.validationId == evidence.id
            && db.revisions[(p, n)].generation == Some(activated.result.value.generation)
            && activated.result.value.activation == (if db.active.Some? then db.active.value.activation + 1 else 1)
  {
    RevisionLoads(db, p, n);
    ReadyPasses(db, p, n, if db.active.Some? then db.active.value.activation + 1 else 1);
  }

  lemma ValidatedIsReady(db: Db, commit: ValidationCommit)
    requires Tables(db) && SaveValidation(db, commit).result.Ok? && commit.evidence.passed
    ensures var ready := SaveValidation(db, commit).db; var key := (commit.profileId, commit.revision);
            && CurrentRevision(ready, commit.profileId) == Some(commit.revision) && commit.revision >= 1
            && key in ready.revisions && ready.revisions[key].state.Ready?
            && ready.revisions[key].generation == Some(commit.generation.number)
            && ready.active == db.active && ready.journal == db.journal
  {
    RevisionLoads(db, commit.profileId, commit.revision);
  }

  // ---------- a mutation from beginning to end ----------

  /** The commit that a begun mutation announces: the current configuration with the new credential. */
  ghost predicate Announces(db: Db, intent: Intent, commit: PointerCommit) {
    && commit.mutationId == intent.operationId && commit.profileId == intent.profileId
    && commit.expectedRevision == intent.expectedRevision
    && (commit.profileId, commit.expectedRevision) in db.revisions
    && commit.replacement.config == db.revisions[(commit.profileId, commit.expectedRevision)].config
    && commit.replacement.generation
       == (if intent.newGen.Some? then Some(Generation(intent.profileId, intent.newGen.value, intent.kind)) else None)
  }

  ghost function Begun(db: Db, intent: Intent): Db { BeginMutation(db, intent).db }

  ghost function Written(db: Db, intent: Intent): Db { RecordVaultWrite(Begun(db, intent), intent.operationId).db }

  ghost function Pointed(db: Db, intent: Intent, commit: PointerCommit): Db {
    CommitPointer(Written(db, intent), commit).db
  }

  /** After the vault write the staged credential is available and nothing else has changed. */
  lemma WrittenIs(db: Db, intent: Intent)
    requires Tables(db) && BeginMutation(db, intent).result.Ok?
    ensures var m, staged := Record(intent), (intent.profileId, Record(intent).Staged().value);
            && m.Staged().Some? && staged !in db.generations && intent.operationId !in db.journal
            && RecordVaultWrite(Begun(db, intent), intent.operationId).result == Ok(m.(phase := VaultWritten))
            && Written(db, intent) == db.(
                 generations := Begun(db, intent).generations[staged := GenerationRow(intent.kind, Available)],
                 journal := Begun(db, intent).journal[intent.operationId := m.(phase := VaultWritten)])
            && Begun(db, intent).generations == db.generations[staged := GenerationRow(intent.kind, Retained)]
            && Begun(db, intent).journal == db.journal[intent.operationId := m]
  {
    BeginFacts(db, intent);
    BeginLoads(db, intent);
  }

  lemma BeginLoads(db: Db, intent: Intent)
    requires Tables(db) && BeginMutation(db, intent).result.Ok?
    ensures intent.operationId in Begun(db, intent).journal
    ensures LoadMutation(Begun(db, intent), intent.operationId) == Ok(Record(intent))
  {
    BeginTables(db, intent);
    BeginFacts(db, intent);
    MutationLoads(Begun(db, intent), intent.operationId);
  }

  lemma WrittenMatches(db: Db, intent: Intent, commit: PointerCommit)
    requires Tables(db) && BeginMutation(db, intent).result.Ok? && Announces(db, intent, commit)
    ensures CommitMatches(Written(db, intent), Record(intent).(phase := VaultWritten), commit)
  {
    var m := Record(intent).(phase := VaultWritten);
    WrittenIs(db, intent);
    WrittenIsSound(db, intent);
    BeginFacts(db, intent);
    if intent.newGen.Some? {
      assert MutationFits(Written(db, intent), Written(db, intent).journal[intent.operationId]);
      assert intent.newGen.value in References(m);
      assert m.Staged() == intent.newGen;
      assert Written(db, intent).generations[(intent.profileId, intent.newGen.value)].kind == intent.kind;
    }
  }

  lemma WrittenMoves(db: Db, intent: Intent, commit: PointerCommit)
    requires Tables(db) && BeginMutation(db, intent).result.Ok? && Announces(db, intent, commit)
    ensures PointerMoves(Written(db, intent), commit)
    ensures intent.operationId in Written(db, intent).journal
    ensures Written(db, intent).journal[intent.operationId] == Record(intent).(phase := VaultWritten)
  {
    WrittenIs(db, intent);
    WrittenIsSound(db, intent);
    WrittenMatches(db, intent, commit);
    RevisionLoads(Written(db, intent), commit.profileId, commit.expectedRevision);
    if intent.newGen.Some? { BeginFits(db, intent); }
  }

  lemma BeginFits(db: Db, intent: Intent)
    requires Tables(db) && BeginMutation(db, intent).result.Ok?
    ensures (intent.profileId, intent.expectedRevision) in db.revisions
    ensures intent.newGen.Some? ==>
              intent.kind == RequiredKind(db.revisions[(intent.profileId, intent.expectedRevision)].config.provider)
  {
    RevisionLoads(db, intent.profileId, intent.expectedRevision);
  }

  /** Left alone, a begun mutation goes through: vault write, pointer commit and completion all succeed;
      the profile then has one more revision, which differs in its credential; the new credential is
      available, the old one retained, and no generation of another profile has changed. */
  lemma MutationRunsThrough(db: Db, intent: Intent, commit: PointerCommit)
    requires Tables(db) && BeginMutation(db, intent).result.Ok? && Announces(db, intent, commit)
    ensures var p, n := intent.profileId, intent.expectedRevision;
            var pointed := Pointed(db, intent, commit);
            var done := CompleteMutation(pointed, intent.operationId);
            && CommitPointer(Written(db, intent), commit).result == Ok(Record(intent).(phase := PointerCommitted))
            && done.result == Ok(Record(intent).(phase := Completed))
            && OneMoreRevision(db.revisions, p, n, intent.newGen, done.db)
            && (intent.newGen.Some? ==> HasStatus(done.db, p, intent.newGen.value, Available))
            && (intent.oldGen.Some? ==> HasStatus(done.db, p, intent.oldGen.value, Retained))
            && (intent.rollbackGen.Some? ==> HasStatus(done.db, p, intent.rollbackGen.value, Deleted))
            && done.db.active == db.active && !BusyProfile(done.db, p)
  {
    var id, pointed := intent.operationId, Pointed(db, intent, commit);
    PointedRecord(db, intent, commit);
    PointedRevision(db, intent, commit);
    CompletionShape(pointed, id);
    CompletionKeepsRevision(pointed, id, db.revisions, intent);
    DoneStatuses(db, intent, commit);
    ClosedIsFree(pointed, CompleteMutation(pointed, id).db, id, Record(intent).(phase := Completed));
  }

  lemma CompletionKeepsRevision(pointed: Db, id: OperationId, revisions: map<(ProfileId, nat), RevisionRow>,
                                intent: Intent)
    requires Tables(pointed) && id in pointed.journal && pointed.journal[id].phase.PointerCommitted?
    requires OneMoreRevision(revisions, intent.profileId, intent.expectedRevision, intent.newGen, pointed)
    ensures var done := CompleteMutation(pointed, id).db;
            && OneMoreRevision(revisions, intent.profileId, intent.expectedRevision, intent.newGen, done)
            && done.active == pointed.active
            && done.journal == pointed.journal[id := pointed.journal[id].(phase := Completed)]
  {
    CompletionOf(pointed, id);
  }

  lemma DoneStatuses(db: Db, intent: Intent, commit: PointerCommit)
    requires Tables(db) && BeginMutation(db, intent).result.Ok? && Announces(db, intent, commit)
    ensures var p, done := intent.profileId, CompleteMutation(Pointed(db, intent, commit), intent.operationId).db;
            && (intent.newGen.Some? ==> HasStatus(done, p, intent.newGen.value, Available))
            && (intent.oldGen.Some? ==> HasStatus(done, p, intent.oldGen.value, Retained))
            && (intent.rollbackGen.Some? ==> HasStatus(done, p, intent.rollbackGen.value, Deleted))
  {
    PointedRecord(db, intent, commit);
    CompletionOf(Pointed(db, intent, commit), intent.operationId);
    PointedStatuses(db, intent, commit);
  }

  lemma PointedRecord(db: Db, intent: Intent, commit: PointerCommit)
    requires Tables(db) && BeginMutation(db, intent).result.Ok? && Announces(db, intent, commit)
    ensures var pointed := Pointed(db, intent, commit);
            && CommitPointer(Written(db, intent), commit).result == Ok(Record(intent).(phase := PointerCommitted))
            && intent.operationId in pointed.journal
            && pointed.journal[intent.operationId] == Record(intent).(phase := PointerCommitted)
            && Tables(pointed)
  {
    WrittenIsSound(db, intent);
    WrittenMoves(db, intent, commit);
    CommitRecords(Written(db, intent), commit);
    CommitTables(Written(db, intent), commit);
  }

  /** The profile has one more revision, which differs from its predecessor in its credential. */
  ghost predicate OneMoreRevision(revisions: map<(ProfileId, nat), RevisionRow>, p: ProfileId, n: nat,
                                  newGen: Option<nat>,
                                  after: Db)
  {
    && (p, n) in revisions && CurrentRevision(after, p) == Some(n + 1)
    && after.revisions == revisions[(p, n + 1) :=
                                    revisions[(p, n)].(generation := newGen, state := Draft, validation := None)]
  }

  lemma PointedRevision(db: Db, intent: Intent, commit: PointerCommit)
    requires Tables(db) && BeginMutation(db, intent).result.Ok? && Announces(db, intent, commit)
    ensures OneMoreRevision(db.revisions, intent.profileId, intent.expectedRevision, intent.newGen,
                            Pointed(db, intent, commit))
    ensures Pointed(db, intent, commit).active == db.active
  {
    WrittenIsSound(db, intent);
    WrittenMoves(db, intent, commit);
    CommitMoves(Written(db, intent), commit);
  }

  lemma WrittenIsSound(db: Db, intent: Intent)
    requires Tables(db) && BeginMutation(db, intent).result.Ok?
    ensures Tables(Written(db, intent))
    ensures Written(db, intent).revisions == db.revisions && Written(db, intent).active == db.active
  {
    BeginTables(db, intent);
    VaultWriteTables(Begun(db, intent), intent.operationId);
    WrittenIs(db, intent);
  }

  lemma CommitMoves(db: Db, commit: PointerCommit)
    requires Tables(db) && PointerMoves(db, commit)
    ensures OneMoreRevision(db.revisions, commit.profileId, commit.expectedRevision,
                            db.journal[commit.mutationId].newGen,
                            CommitPointer(db, commit).db)
    ensures CommitPointer(db, commit).db.active == db.active
  {
    CommitAppendsRevision(db, commit);
    CommitMovesThePointer(db, commit);
    CommitNeedsProfile(db, commit);
  }

  lemma CommitNeedsProfile(db: Db, commit: PointerCommit)
    requires PointerMoves(db, commit)
    ensures Existing(db, commit.profileId)
  {
  }

  lemma CommitRecords(db: Db, commit: PointerCommit)
    requires Tables(db) && PointerMoves(db, commit)
    ensures var m := db.journal[commit.mutationId];
            && CommitPointer(db, commit).result == Ok(m.(phase := PointerCommitted))
            && CommitPointer(db, commit).db.journal == db.journal[commit.mutationId := m.(phase := PointerCommitted)]
  {
    CommitCases(db, commit);
  }

  /** The new credential is untouched by the pointer commit; the old one stays stored. */
  lemma PointedStatuses(db: Db, intent: Intent, commit: PointerCommit)
    requires Tables(db) && BeginMutation(db, intent).result.Ok? && Announces(db, intent, commit)
    ensures var pointed := Pointed(db, intent, commit);
            && (intent.newGen.Some? ==> HasStatus(pointed, intent.profileId, intent.newGen.value, Available)
                                        && intent.newGen != intent.oldGen && intent.rollbackGen.None?)
            && (intent.oldGen.Some? ==> intent.oldGen != intent.rollbackGen)
  {
    WrittenIs(db, intent);
    WrittenIsSound(db, intent);
    WrittenMoves(db, intent, commit);
    IntentShape(intent);
    CommitRetires(Written(db, intent), commit);
  }

  lemma IntentShape(intent: Intent)
    ensures intent.newGen.Some? ==> intent.newGen != intent.oldGen && intent.rollbackGen.None?
    ensures intent.oldGen.Some? ==> intent.oldGen != intent.rollbackGen
  {
  }

  lemma LastUpdateWins<K, V>(m: map<K, V>, k: K, x: V, y: V)
    ensures m[k := x][k := y] == m[k := y]
  {
  }

  /** What is left of a mutation that was rolled back. */
  ghost function Undone(db: Db, intent: Intent): Db
    requires Record(intent).Staged().Some?
  {
    db.(generations := db.generations[(intent.profileId, Record(intent).Staged().value) :=
                                      GenerationRow(intent.kind, Deleted)],
        journal := db.journal[intent.operationId := Record(intent).(phase := RolledBack)])
  }

  /** Rolling a mutation back, before or after the vault write, undoes it: what is left of it is a
      tombstone for a generation that did not exist before, and its closed record. */
  lemma RollbackUndoes(db: Db, intent: Intent)
    requires Tables(db) && BeginMutation(db, intent).result.Ok?
    ensures Record(intent).Staged().Some?
    ensures RollbackMutation(Begun(db, intent), intent.operationId)
            == Tx(Undone(db, intent), Ok(Record(intent).(phase := RolledBack)))
    ensures RollbackMutation(Written(db, intent), intent.operationId)
            == Tx(Undone(db, intent), Ok(Record(intent).(phase := RolledBack)))
  {
    BegunUndone(db, intent);
    WrittenUndone(db, intent);
  }

  lemma BegunUndone(db: Db, intent: Intent)
    requires Tables(db) && BeginMutation(db, intent).result.Ok?
    ensures Record(intent).Staged().Some?
    ensures RollbackMutation(Begun(db, intent), intent.operationId)
            == Tx(Undone(db, intent), Ok(Record(intent).(phase := RolledBack)))
  {
    var m, staged := Record(intent), (intent.profileId, Record(intent).Staged().value);
    WrittenIs(db, intent);
    BeginTables(db, intent);
    RollbackOutcome(Begun(db, intent), intent.operationId);
    LastUpdateWins(db.generations, staged, GenerationRow(intent.kind, Retained), GenerationRow(intent.kind, Deleted));
    LastUpdateWins(db.journal, intent.operationId, m, m.(phase := RolledBack));
    BeginFacts(db, intent);
  }

  lemma WrittenUndone(db: Db, intent: Intent)
    requires Tables(db) && BeginMutation(db, intent).result.Ok?
    ensures Record(intent).Staged().Some?
    ensures RollbackMutation(Written(db, intent), intent.operationId)
            == Tx(Undone(db, intent), Ok(Record(intent).(phase := RolledBack)))
  {
    var m, staged := Record(intent), (intent.profileId, Record(intent).Staged().value);
    WrittenIs(db, intent);
    WrittenIsSound(db, intent);
    RollbackOutcome(Written(db, intent), intent.operationId);
    LastUpdateWins(db.generations, staged, GenerationRow(intent.kind, Retained), GenerationRow(intent.kind, Available));
    LastUpdateWins(db.generations, staged, GenerationRow(intent.kind, Available), GenerationRow(intent.kind, Deleted));
    LastUpdateWins(db.journal, intent.operationId, m, m.(phase := VaultWritten));
    LastUpdateWins(db.journal, intent.operationId, m.(phase := VaultWritten), m.(phase := RolledBack));
  }

  // ---------- closing doors ----------

  /** Blocking an open mutation revokes what it staged and empties the active slot if its profile had
      it; nothing else changes. */
  lemma BlockCloses(db: Db, id: OperationId, code: ErrorCode)
    requires Tables(db) && id in db.journal && !db.journal[id].phase.Terminal()
    ensures var m, tx := db.journal[id], BlockMutation(db, id, code);
            && tx.result == Ok(m.(phase := Blocked, error := Some(code)))
            && HasStatus(tx.db, m.profileId, m.Staged().value, Revoked)
            && tx.db.active == (if db.active.Some? && db.active.value.profileId == m.profileId then None else db.active)
            && tx.db == db.(active := tx.db.active, journal := tx.db.journal, generations :=
                 db.generations[(m.profileId, m.Staged().value) := tx.db.generations[(m.profileId, m.Staged().value)]])
            && BlockedProfile(tx.db, m.profileId)
  {
    MutationLoads(db, id);
    assert MutationFits(db, db.journal[id]);
    StagedStored(db, db.journal[id]);
    assert BlockMutation(db, id, code).db.journal[id].phase.Blocked?;
  }

  /** A profile that was deleted and has no unfinished Run. */
  ghost predicate Gone(db: Db, p: ProfileId) {
    && p in db.profiles && db.profiles[p].deleted
    && (forall run | run in db.bindings && db.bindings[run].profileId == p :: run in db.runs && db.runs[run].Terminal())
  }

  lemma DeleteLeavesGone(db: Db, request: DeleteRequest)
    requires BindingsFit(db) && DeleteProfile(db, request).result.Ok?
    ensures Gone(DeleteProfile(db, request).db, request.profileId)
  {
  }

  lemma StepKeepsGone(db: Db, op: Op, p: ProfileId)
    requires Tables(db) && Gone(db, p)
    ensures Gone(Step(db, op), p)
  {
    StepExtends(db, op);
    if op.StartRun? { StartFrame(db, op.run, op.initial, op.binding); } else { OthersKeepBindings(db, op); }
  }

  lemma PointerKeepsBindings(db: Db, commit: PointerCommit)
    ensures CommitPointer(db, commit).db.bindings == db.bindings
  {
  }

  lemma CompleteKeepsBindings(db: Db, id: OperationId)
    ensures CompleteMutation(db, id).db.bindings == db.bindings
  {
  }

  lemma BlockKeepsBindings(db: Db, id: OperationId, code: ErrorCode)
    ensures BlockMutation(db, id, code).db.bindings == db.bindings
  {
  }

  lemma JournalKeepsBindings(db: Db, op: Op)
    requires op.Begin? || op.VaultWrite? || op.Rollback? || op.Retire?
    ensures Step(db, op).bindings == db.bindings
  {
  }

  lemma OthersKeepBindings(db: Db, op: Op)
    requires !op.StartRun?
    ensures Step(db, op).bindings == db.bindings
  {
    match op
    case Save(_) =>
    case Validate(_) =>
    case Select(_) =>
    case Remove(_) =>
    case AdvanceRun(_, _) =>
    case PointTo(commit) => PointerKeepsBindings(db, commit);
    case Complete(id) => CompleteKeepsBindings(db, id);
    case Block(id, code) => BlockKeepsBindings(db, id, code);
    case _ => JournalKeepsBindings(db, op);
  }

  lemma {:induction false} RunKeepsGone(db: Db, ops: seq<Op>, p: ProfileId)
    requires Tables(db) && Gone(db, p)
    ensures Tables(After(db, ops)) && Gone(After(db, ops), p)
    decreases |ops|
  {
    if ops != [] {
      StepTables(db, ops[0]);
      StepKeepsGone(db, ops[0], p);
      RunKeepsGone(Step(db, ops[0]), ops[1..], p);
    }
  }

  /** Nothing can be saved, validated, activated or begun on the profile, and trying changes nothing. */
  ghost predicate Closed(db: Db, p: ProfileId) {
    && CurrentRevision(db, p).None?
    && (db.active.Some? ==> db.active.value.profileId != p)
    && !LiveProfile(db, p)
    && (forall request: SaveRequest | request.profileId == p ::
        SaveRevision(db, request) == Tx(db, Err(StorageConflict)))
    && (forall commit: ValidationCommit | commit.profileId == p ::
          SaveValidation(db, commit) == Tx(db, Err(ValidationStale)))
    && (forall request: ActivateRequest | request.profileId == p ::
        Activate(db, request) == Tx(db, Err(ActivationFailed)))
    && (forall intent: Intent | intent.profileId == p ::
          BeginMutation(db, intent).result.Err? && BeginMutation(db, intent).db == db)
    && (forall run, status, binding: Activation | binding.profileId == p ::
          CreateRun(db, run, status, binding).result.Err? && CreateRun(db, run, status, binding).db == db)
  }

  lemma GoneIsClosed(db: Db, p: ProfileId)
    requires Tables(db) && Gone(db, p)
    ensures Closed(db, p)
  {
  }

  /** A deleted profile is gone for good. After every run that follows its deletion it is not active, no
      unfinished Run holds one of its credentials, and nothing can be saved, validated, activated, begun
      or run on it. */
  lemma DeletedForever(db: Db, request: DeleteRequest, ops: seq<Op>)
    requires Reachable(db) && DeleteProfile(db, request).result.Ok?
    ensures Closed(After(DeleteProfile(db, request).db, ops), request.profileId)
  {
    var after := DeleteProfile(db, request).db;
    ReachableTables(db);
    DeleteTables(db, request);
    DeleteLeavesGone(db, request);
    RunKeepsGone(after, ops, request.profileId);
    GoneIsClosed(After(after, ops), request.profileId);
  }
}
