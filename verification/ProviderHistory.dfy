/** What no transaction of the provider repository ever takes back, and how far a credential
    mutation can travel. */
module ProviderHistory {
  import opened Wrappers
  import opened ProviderDomain
  import opened ProviderStore
  import opened ProviderSteps
  import opened ProviderWrites

  // ---------- what stays ----------

  ghost predicate RevisionsExtend(db: Db, later: Db) {
    forall key | key in db.revisions ::
      && key in later.revisions
      && later.revisions[key].config == db.revisions[key].config
      && later.revisions[key].generation == db.revisions[key].generation
      && (db.revisions[key].validation.Some? ==> later.revisions[key] == db.revisions[key])
  }

  ghost predicate ProfilesExtend(db: Db, later: Db) {
    forall p | p in db.profiles ::
      && p in later.profiles
      && db.profiles[p].current <= later.profiles[p].current
      && (db.profiles[p].deleted ==> later.profiles[p] == db.profiles[p])
  }

  /** Generations are never removed, never change their kind, and a new one has a greater number
      than every generation the profile ever had. */
  ghost predicate GenerationsExtend(db: Db, later: Db) {
    && (forall key | key in db.generations ::
          key in later.generations && later.generations[key].kind == db.generations[key].kind)
    && (forall key, before | key in later.generations && key !in db.generations && before in db.generations
                             && before.0 == key.0 :: before.1 < key.1)
  }

  /** A record keeps what it announced; a closed or blocked one keeps everything. A new record
      has staged a generation that did not exist. */
  ghost predicate JournalExtends(db: Db, later: Db) {
    && (forall id | id in db.journal ::
          && id in later.journal
          && later.journal[id] == db.journal[id].(phase := later.journal[id].phase, error := later.journal[id].error)
          && (db.journal[id].phase.Terminal() ==> later.journal[id] == db.journal[id]))
    && (forall id | id in later.journal && id !in db.journal ::
          && later.journal[id].Staged().Some?
          && (later.journal[id].profileId, later.journal[id].Staged().value) !in db.generations
          && (later.journal[id].profileId, later.journal[id].Staged().value) in later.generations)
  }

  ghost predicate RunsExtend(db: Db, later: Db) {
    && (forall run | run in db.bindings :: run in later.bindings && later.bindings[run] == db.bindings[run])
    && (forall run | run in db.runs :: run in later.runs && (db.runs[run].Terminal() ==> later.runs[run].Terminal()))
  }

  ghost predicate Extends(db: Db, later: Db) {
    && RevisionsExtend(db, later) && ValidationsExtend(db, later) && ProfilesExtend(db, later)
    && GenerationsExtend(db, later) && JournalExtends(db, later) && RunsExtend(db, later)
  }

  lemma ExtendsTransitive(a: Db, b: Db, c: Db)
    requires Extends(a, b) && Extends(b, c)
    ensures Extends(a, c)
  {
    TablesTransitive(a, b, c);
    GenerationsTransitive(a, b, c);
    JournalTransitive(a, b, c);
  }

  lemma TablesTransitive(a: Db, b: Db, c: Db)
    requires RevisionsExtend(a, b) && RevisionsExtend(b, c) && ValidationsExtend(a, b) && ValidationsExtend(b, c)
    requires ProfilesExtend(a, b) && ProfilesExtend(b, c) && RunsExtend(a, b) && RunsExtend(b, c)
    ensures RevisionsExtend(a, c) && ValidationsExtend(a, c) && ProfilesExtend(a, c) && RunsExtend(a, c)
  {
  }

  lemma GenerationsTransitive(a: Db, b: Db, c: Db)
    requires GenerationsExtend(a, b) && GenerationsExtend(b, c)
    ensures GenerationsExtend(a, c)
  {
    forall key, before | key in c.generations && key !in a.generations && before in a.generations && before.0 == key.0
      ensures before.1 < key.1
    {
      assert before in b.generations;
    }
  }

  lemma JournalTransitive(a: Db, b: Db, c: Db)
    requires JournalExtends(a, b) && JournalExtends(b, c) && GenerationsExtend(a, b) && GenerationsExtend(b, c)
    ensures JournalExtends(a, c)
  {
    forall id | id in c.journal && id !in a.journal
      ensures c.journal[id].Staged().Some?
      ensures (c.journal[id].profileId, c.journal[id].Staged().value) !in a.generations
      ensures (c.journal[id].profileId, c.journal[id].Staged().value) in c.generations
    {
      if id in b.journal {
        assert c.journal[id].Staged() == b.journal[id].Staged();
      }
    }
  }

  // ---------- one transaction ----------

  /** One mutation moves, and only along the phases the store uses. */
  ghost predicate JournalMovesOnce(db: Db, later: Db) {
    forall id | id in db.journal ::
      && id in later.journal
      && (later.journal[id] == db.journal[id] || StoreMove(db.journal[id], later.journal[id]))
  }

  ghost predicate StoreMove(m: Mutation, next: Mutation) {
    && Transition(m, next.phase, next.error) == Ok(next)
    && !(m.phase.PointerCommitted? && next.phase.CleanupPending?)
  }

  lemma BeginExtends(db: Db, intent: Intent)
    ensures Extends(db, BeginMutation(db, intent).db)
  {
    var later := BeginMutation(db, intent).db;
    if BeginMutation(db, intent).result.Ok? {
      var m := Record(intent);
      assert m.Staged().Some?;
      assert m.Staged() == intent.newGen || m.Staged() == intent.rollbackGen;
    }
  }

  lemma AppendExtends(db: Db, p: ProfileId, name: string, n: nat, row: RevisionRow)
    requires NextRevision(db, p, n) && (p in db.profiles ==> !db.profiles[p].deleted && db.profiles[p].current <= n)
    ensures Extends(db, AppendRevision(db, p, name, n, row))
  {
    assert (p, n) !in db.revisions;
  }

  lemma StatusExtends(db: Db, p: ProfileId, g: nat, status: GenerationStatus)
    ensures Extends(db, WithStatus(db, p, g, status))
  {
    StatusExtendsGenerations(db, p, g, status);
    assert WithStatus(db, p, g, status).journal == db.journal;
  }

  lemma StatusExtendsGenerations(db: Db, p: ProfileId, g: nat, status: GenerationStatus)
    ensures GenerationsExtend(db, WithStatus(db, p, g, status))
  {
  }

  lemma MutationExtends(db: Db, id: OperationId, next: Mutation)
    requires id in db.journal && !db.journal[id].phase.Terminal()
    requires next == db.journal[id].(phase := next.phase, error := next.error)
    ensures Extends(db, WithMutation(db, id, next))
  {
  }

  lemma CommitExtends(db: Db, commit: PointerCommit)
    ensures Extends(db, CommitPointer(db, commit).db)
  {
    var later, id := CommitPointer(db, commit).db, commit.mutationId;
    CommitWrites(db, commit);
    NothingExtends(db);
    if later != db {
      if later == WithMutation(db, id, db.journal[id].(phase := CleanupPending)) {
        MutationExtends(db, id, db.journal[id].(phase := CleanupPending));
      } else {
        var moved := WithMutation(PointerAppended(db, commit), id, db.journal[id].(phase := PointerCommitted));
        PointerExtends(db, commit);
        var g, status :| later == WithStatus(moved, db.journal[id].profileId, g, status) || later == moved;
        StatusExtends(moved, db.journal[id].profileId, g, status);
        ExtendsTransitive(db, moved, WithStatus(moved, db.journal[id].profileId, g, status));
      }
    }
  }

  lemma PointerExtends(db: Db, commit: PointerCommit)
    requires commit.mutationId in db.journal && db.journal[commit.mutationId].phase.VaultWritten?
    requires Existing(db, commit.profileId) && db.profiles[commit.profileId].current + 1 == commit.replacement.number
    requires NextRevision(db, commit.profileId, commit.replacement.number)
    ensures Extends(db, WithMutation(PointerAppended(db, commit), commit.mutationId,
                                     db.journal[commit.mutationId].(phase := PointerCommitted)))
  {
    var appended, next := PointerAppended(db, commit), db.journal[commit.mutationId].(phase := PointerCommitted);
    AppendExtends(db, commit.profileId, db.profiles[commit.profileId].name, commit.replacement.number,
                  DraftRow(commit.replacement));
    MutationExtends(appended, commit.mutationId, next);
    ExtendsTransitive(db, appended, WithMutation(appended, commit.mutationId, next));
  }

  lemma OldKeptExtends(db: Db, m: Mutation)
    ensures Extends(db, OldKept(db, m))
  {
    if m.oldGen.Some? { StatusExtends(db, m.profileId, m.oldGen.value, Retained); }
  }

  lemma CopyDroppedExtends(db: Db, m: Mutation)
    ensures Extends(db, CopyDropped(db, m))
  {
    if m.rollbackGen.Some? { StatusExtends(db, m.profileId, m.rollbackGen.value, Deleted); }
  }

  lemma CleanedExtends(db: Db, m: Mutation)
    ensures Extends(db, CopyDropped(OldKept(db, m), m))
  {
    OldKeptExtends(db, m);
    CopyDroppedExtends(OldKept(db, m), m);
    ExtendsTransitive(db, OldKept(db, m), CopyDropped(OldKept(db, m), m));
  }

  lemma ClosedExtends(db: Db, cleaned: Db, id: OperationId)
    requires Extends(db, cleaned) && cleaned.journal == db.journal
    requires id in db.journal && !db.journal[id].phase.Terminal()
    ensures Extends(db, WithMutation(cleaned, id, db.journal[id].(phase := Completed)))
  {
    MutationExtends(cleaned, id, db.journal[id].(phase := Completed));
    ExtendsTransitive(db, cleaned, WithMutation(cleaned, id, db.journal[id].(phase := Completed)));
  }

  lemma CompleteExtends(db: Db, id: OperationId)
    ensures Extends(db, CompleteMutation(db, id).db)
  {
    CompleteWrites(db, id);
    if CompleteMutation(db, id).db != db {
      CleanedExtends(db, db.journal[id]);
      CleanedJournal(db, db.journal[id]);
      ClosedExtends(db, CopyDropped(OldKept(db, db.journal[id]), db.journal[id]), id);
    }
  }

  lemma SaveExtends(db: Db, request: SaveRequest)
    ensures Extends(db, SaveRevision(db, request).db)
  {
    if SaveRevision(db, request).result.Ok? {
      AppendExtends(db, request.profileId, request.name, request.revision.number, DraftRow(request.revision));
    }
  }

  lemma ValidationExtends(db: Db, commit: ValidationCommit)
    ensures Extends(db, SaveValidation(db, commit).db)
  {
    ValidationWrites(db, commit);
    NothingExtends(db);
    var later := SaveValidation(db, commit).db;
    if later != db { ValidatedExtends(db, later, (commit.profileId, commit.revision)); }
  }

  lemma ValidatedExtends(db: Db, later: Db, key: (ProfileId, nat))
    requires later == db.(validations := later.validations, revisions := later.revisions)
    requires key in db.revisions && db.revisions[key].validation.None?
    requires later.revisions.Keys == db.revisions.Keys
    requires later.revisions[key].config == db.revisions[key].config
             && later.revisions[key].generation == db.revisions[key].generation
    requires forall k | k in db.revisions && k != key :: later.revisions[k] == db.revisions[k]
    requires ValidationsExtend(db, later)
    ensures Extends(db, later)
  {
    assert RunsExtend(db, later) && ProfilesExtend(db, later);
    assert GenerationsExtend(db, later) && JournalExtends(db, later);
  }

  /** Nothing but profiles, statuses, the active slot and Runs differs. */
  lemma RestExtends(db: Db, later: Db)
    requires later.revisions == db.revisions && later.validations == db.validations && later.journal == db.journal
    requires later.generations.Keys == db.generations.Keys
    requires forall key | key in db.generations :: later.generations[key].kind == db.generations[key].kind
    requires ProfilesExtend(db, later) && RunsExtend(db, later)
    ensures Extends(db, later)
  {
    assert GenerationsExtend(db, later);
  }

  lemma DeleteWrites(db: Db, request: DeleteRequest)
    ensures var later := DeleteProfile(db, request).db;
            && later == db.(active := later.active, generations := later.generations, profiles := later.profiles)
            && ProfilesExtend(db, later)
  {
  }

  lemma DeleteExtends(db: Db, request: DeleteRequest)
    ensures Extends(db, DeleteProfile(db, request).db)
  {
    DeleteWrites(db, request);
    DeleteKeepsKinds(db, request);
    RestExtends(db, DeleteProfile(db, request).db);
  }

  lemma ActivateExtends(db: Db, request: ActivateRequest)
    ensures Extends(db, Activate(db, request).db)
  {
    var later := Activate(db, request).db;
    assert later == db.(active := later.active);
    RestExtends(db, later);
  }

  lemma RunOpsExtend(db: Db, op: Op)
    requires op.StartRun? || op.AdvanceRun?
    ensures Extends(db, Step(db, op))
  {
    var later := Step(db, op);
    assert later == db.(runs := later.runs, bindings := later.bindings);
    if op.StartRun? { StartExtends(db, op); } else { AdvanceExtends(db, op); }
    RestExtends(db, later);
  }

  lemma StartExtends(db: Db, op: Op)
    requires op.StartRun?
    ensures RunsExtend(db, Step(db, op))
  {
  }

  lemma AdvanceExtends(db: Db, op: Op)
    requires op.AdvanceRun?
    ensures RunsExtend(db, Step(db, op))
  {
  }

  /** The journal operations write one status and one phase. */
  lemma StatusPhaseExtends(db: Db, p: ProfileId, g: nat, status: GenerationStatus, id: OperationId, next: Mutation)
    requires id in db.journal && !db.journal[id].phase.Terminal()
    requires next == db.journal[id].(phase := next.phase, error := next.error)
    ensures Extends(db, WithMutation(WithStatus(db, p, g, status), id, next))
  {
    var written := WithStatus(db, p, g, status);
    StatusExtends(db, p, g, status);
    MutationExtends(written, id, next);
    ExtendsTransitive(db, written, WithMutation(written, id, next));
  }

  lemma PhaseStatusExtends(db: Db, p: ProfileId, g: nat, status: GenerationStatus, id: OperationId, next: Mutation)
    requires id in db.journal && !db.journal[id].phase.Terminal()
    requires next == db.journal[id].(phase := next.phase, error := next.error)
    ensures Extends(db, WithStatus(WithMutation(db, id, next), p, g, status))
  {
    var advanced := WithMutation(db, id, next);
    MutationExtends(db, id, next);
    StatusExtends(advanced, p, g, status);
    ExtendsTransitive(db, advanced, WithStatus(advanced, p, g, status));
  }

  lemma BlockExtends(db: Db, id: OperationId, code: ErrorCode)
    ensures Extends(db, BlockMutation(db, id, code).db)
  {
    BlockWrites(db, id, code);
    var later := BlockMutation(db, id, code).db;
    if later != db {
      var m := db.journal[id];
      var next := m.(phase := Blocked, error := Some(code));
      PhaseStatusExtends(db, m.profileId, m.Staged().value, Revoked, id, next);
      ActiveIrrelevant(db, WithStatus(WithMutation(db, id, next), m.profileId, m.Staged().value, Revoked), None);
    }
  }

  lemma ActiveIrrelevant(db: Db, later: Db, active: Option<Activation>)
    requires Extends(db, later)
    ensures Extends(db, later.(active := active))
  {
  }

  lemma VaultWriteExtends(db: Db, id: OperationId)
    ensures Extends(db, RecordVaultWrite(db, id).db)
  {
    VaultWrites(db, id);
    NothingExtends(db);
    if RecordVaultWrite(db, id).db != db {
      var m := db.journal[id];
      StatusPhaseExtends(db, m.profileId, m.Staged().value, Available, id, m.(phase := VaultWritten));
    }
  }

  lemma RollbackExtends(db: Db, id: OperationId)
    ensures Extends(db, RollbackMutation(db, id).db)
  {
    RollbackWrites(db, id);
    NothingExtends(db);
    if RollbackMutation(db, id).db != db {
      var m := db.journal[id];
      StatusPhaseExtends(db, m.profileId, m.Staged().value, Deleted, id, m.(phase := RolledBack));
    }
  }

  lemma JournalStepExtends(db: Db, op: Op)
    requires op.Begin? || op.VaultWrite? || op.PointTo? || op.Complete? || op.Rollback? || op.Block?
    ensures Extends(db, Step(db, op))
  {
    match op
    case Begin(intent) => BeginExtends(db, intent);
    case PointTo(commit) => CommitExtends(db, commit);
    case Complete(id) => CompleteExtends(db, id);
    case Block(id, code) => BlockExtends(db, id, code);
    case VaultWrite(id) => VaultWriteExtends(db, id);
    case Rollback(id) => RollbackExtends(db, id);
  }

  lemma RetireExtends(db: Db, generation: Generation)
    ensures Extends(db, RetireGeneration(db, generation).db)
  {
    StatusExtends(db, generation.profileId, generation.number, Deleted);
    NothingExtends(db);
  }

  lemma NothingExtends(db: Db)
    ensures Extends(db, db)
  {
  }

  lemma RevisionStepExtends(db: Db, op: Op)
    requires op.Save? || op.Validate? || op.Select?
    ensures Extends(db, Step(db, op))
  {
    match op
    case Save(request) => SaveExtends(db, request);
    case Validate(commit) => ValidationExtends(db, commit);
    case Select(request) => ActivateExtends(db, request);
  }

  lemma TableStepExtends(db: Db, op: Op)
    requires op.Remove? || op.Retire? || op.StartRun? || op.AdvanceRun?
    ensures Extends(db, Step(db, op))
  {
    match op
    case Remove(request) => DeleteExtends(db, request);
    case Retire(generation) => RetireExtends(db, generation);
    case StartRun(_, _, _) => RunOpsExtend(db, op);
    case AdvanceRun(_, _) => RunOpsExtend(db, op);
  }

  /** Whatever a transaction does, it extends what was there. */
  lemma StepExtends(db: Db, op: Op)
    ensures Extends(db, Step(db, op))
  {
    if op.Begin? || op.VaultWrite? || op.PointTo? || op.Complete? || op.Rollback? || op.Block? {
      JournalStepExtends(db, op);
    } else if op.Save? || op.Validate? || op.Select? {
      RevisionStepExtends(db, op);
    } else {
      TableStepExtends(db, op);
    }
  }

  // ---------- every run ----------

  lemma {:induction false} RunExtends(db: Db, ops: seq<Op>)
    ensures Extends(db, After(db, ops))
    decreases |ops|
  {
    if ops != [] {
      StepExtends(db, ops[0]);
      RunExtends(Step(db, ops[0]), ops[1..]);
      ExtendsTransitive(db, Step(db, ops[0]), After(db, ops));
    }
  }
}
