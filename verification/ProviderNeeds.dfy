/** How one transaction of the provider tables changes which credentials are in use, which are current,
    and which no revision names. */
module ProviderNeeds {
  import opened Wrappers
  import opened ProviderDomain
  import opened ProviderStore
  import opened ProviderSteps
  import opened ProviderWrites
  import opened ProviderTables
  import opened ProviderInvariants
  import opened ProviderRuns
  import opened ProviderVault
  import opened RunStatuses

  // ---------- what the revisions name ----------

  /** The same revisions with the same credentials, and no profile comes back. */
  ghost predicate NamesKept(db: Db, after: Db) {
    && after.revisions.Keys == db.revisions.Keys
    && (forall key | key in db.revisions :: after.revisions[key].generation == db.revisions[key].generation)
    && after.profiles.Keys == db.profiles.Keys
    && (forall p | p in db.profiles ::
          after.profiles[p].current == db.profiles[p].current && (db.profiles[p].deleted ==> after.profiles[p].deleted))
  }

  lemma ValidateNames(db: Db, commit: ValidationCommit)
    ensures NamesKept(db, SaveValidation(db, commit).db)
  {
    ValidationWrites(db, commit);
  }

  lemma BlockNames(db: Db, id: OperationId, code: ErrorCode)
    ensures NamesKept(db, BlockMutation(db, id, code).db)
  {
    BlockWrites(db, id, code);
  }

  lemma CleanedFrame(db: Db, m: Mutation)
    ensures var after := CopyDropped(OldKept(db, m), m); after == db.(generations := after.generations)
  {
    var kept := OldKept(db, m);
    assert kept == db.(generations := kept.generations);
    assert CopyDropped(kept, m) == kept.(generations := CopyDropped(kept, m).generations);
  }

  /** Completing changes statuses and the record. */
  lemma CompleteFrame(db: Db, id: OperationId)
    ensures var after := CompleteMutation(db, id).db;
            after == db.(generations := after.generations, journal := after.journal)
  {
    CompleteWrites(db, id);
    if CompleteMutation(db, id).db != db { CleanedFrame(db, db.journal[id]); }
  }

  lemma CompleteNames(db: Db, id: OperationId)
    ensures NamesKept(db, CompleteMutation(db, id).db)
  {
    CompleteFrame(db, id);
  }

  lemma JournalNames(db: Db, id: OperationId)
    ensures NamesKept(db, RecordVaultWrite(db, id).db) && NamesKept(db, RollbackMutation(db, id).db)
  {
    VaultWrites(db, id);
    RollbackWrites(db, id);
  }

  lemma BeginNames(db: Db, intent: Intent)
    ensures NamesKept(db, BeginMutation(db, intent).db)
  {
    if BeginMutation(db, intent).result.Ok? { BeginWrites(db, intent); }
  }

  lemma SelectNames(db: Db, request: ActivateRequest)
    ensures NamesKept(db, Activate(db, request).db)
  {
  }

  lemma RetireFrame(db: Db, generation: Generation)
    ensures var after := RetireGeneration(db, generation).db; after == db.(generations := after.generations)
  {
  }

  lemma DeleteNames(db: Db, request: DeleteRequest)
    ensures NamesKept(db, DeleteProfile(db, request).db)
  {
  }

  lemma RunNames(db: Db, op: Op)
    requires op.StartRun? || op.AdvanceRun?
    ensures NamesKept(db, Step(db, op))
  {
    RunFrame(db, op);
  }

  /** Only saving and pointing to a credential add a revision. */
  lemma NamesSteps(db: Db, op: Op)
    requires !op.Save? && !op.PointTo?
    ensures NamesKept(db, Step(db, op))
  {
    match op
    case Validate(commit) => ValidateNames(db, commit);
    case Block(id, code) => BlockNames(db, id, code);
    case Complete(id) => CompleteNames(db, id);
    case Begin(intent) => BeginNames(db, intent);
    case VaultWrite(id) => JournalNames(db, id);
    case Rollback(id) => JournalNames(db, id);
    case Select(request) => SelectNames(db, request);
    case StartRun(_, _, _) => RunNames(db, op);
    case AdvanceRun(_, _) => RunNames(db, op);
    case Retire(generation) => RetireFrame(db, generation);
    case Remove(request) => DeleteNames(db, request);
  }

  /** One revision more, with this credential, which is current from now on. */
  ghost predicate NameAdded(db: Db, after: Db, p: ProfileId, generation: Option<nat>) {
    && p in after.profiles && !after.profiles[p].deleted && (p in db.profiles ==> !db.profiles[p].deleted)
    && after.profiles[p].current == (if p in db.profiles then db.profiles[p].current + 1 else 1)
    && (p, after.profiles[p].current) !in db.revisions
    && after.profiles == db.profiles[p := after.profiles[p]]
    && after.revisions.Keys == db.revisions.Keys + {(p, after.profiles[p].current)}
    && after.revisions[(p, after.profiles[p].current)].generation == generation
    && (forall key | key in db.revisions :: after.revisions[key].generation == db.revisions[key].generation)
  }

  lemma SaveNames(db: Db, request: SaveRequest)
    requires Tables(db)
    ensures var after := SaveRevision(db, request).db;
            after == db || NameAdded(db, after, request.profileId, Number(request.revision.generation))
  {
    if SaveRevision(db, request).result.Ok? { SaveAppends(db, request); }
  }

  lemma AppendedNames(db: Db, commit: PointerCommit, m: Mutation, g: nat)
    requires RevisionsNumbered(db) && Existing(db, commit.profileId)
    requires commit.replacement.number == db.profiles[commit.profileId].current + 1
    ensures var moved := WithMutation(PointerAppended(db, commit), commit.mutationId, m);
            && NameAdded(db, moved, commit.profileId, Number(commit.replacement.generation))
            && NameAdded(db, WithStatus(moved, m.profileId, g, Retained), commit.profileId,
                         Number(commit.replacement.generation))
  {
  }

  lemma PointNames(db: Db, commit: PointerCommit)
    requires Tables(db)
    ensures var after := CommitPointer(db, commit).db;
            if PointerMoves(db, commit)
            then NameAdded(db, after, commit.profileId, db.journal[commit.mutationId].newGen)
                 && db.journal[commit.mutationId].profileId == commit.profileId
            else NamesKept(db, after)
  {
    if commit.mutationId in db.journal && db.journal[commit.mutationId].phase.VaultWritten? {
      var m := db.journal[commit.mutationId];
      CommitCases(db, commit);
      if PointerMoves(db, commit) {
        AppendedNames(db, commit, m.(phase := PointerCommitted), if m.oldGen.Some? then m.oldGen.value else 0);
      }
    } else {
      CommitIdle(db, commit);
    }
  }

  lemma AddedCurrent(db: Db, after: Db, q: ProfileId, generation: Option<nat>, p: ProfileId, g: nat)
    requires RevisionTables(db) && NameAdded(db, after, q, generation) && Current(after, p, g)
    ensures Current(db, p, g) || (p == q && generation == Some(g))
  {
    if p != q { assert CurrentGeneration(after, p) == CurrentGeneration(db, p); }
  }

  lemma AddedUnreferenced(db: Db, after: Db, q: ProfileId, generation: Option<nat>, p: ProfileId, g: nat)
    requires NameAdded(db, after, q, generation) && Unreferenced(db, p, g)
    ensures Unreferenced(after, p, g) || (p == q && generation == Some(g))
  {
  }

  lemma SaveCurrent(db: Db, request: SaveRequest, p: ProfileId, g: nat)
    requires Tables(db) && Carries(db, request)
    ensures Current(SaveRevision(db, request).db, p, g) ==> Current(db, p, g)
    ensures Unreferenced(db, p, g) ==> Unreferenced(SaveRevision(db, request).db, p, g)
  {
    var after, generation := SaveRevision(db, request).db, Number(request.revision.generation);
    SaveNames(db, request);
    if after != db {
      if Current(after, p, g) { AddedCurrent(db, after, request.profileId, generation, p, g); }
      if Unreferenced(db, p, g) { AddedUnreferenced(db, after, request.profileId, generation, p, g); }
    }
  }

  /** The pointer moves to this credential. */
  ghost predicate PointsTo(db: Db, op: Op, p: ProfileId, g: nat) {
    && op.PointTo? && PointerMoves(db, op.pointer) && op.pointer.profileId == p
    && db.journal[op.pointer.mutationId].profileId == p && db.journal[op.pointer.mutationId].newGen == Some(g)
  }

  lemma PointCurrent(db: Db, commit: PointerCommit, p: ProfileId, g: nat)
    requires Tables(db) && !PointsTo(db, PointTo(commit), p, g)
    ensures Current(CommitPointer(db, commit).db, p, g) ==> Current(db, p, g)
    ensures Unreferenced(db, p, g) ==> Unreferenced(CommitPointer(db, commit).db, p, g)
  {
    var after := CommitPointer(db, commit).db;
    PointNames(db, commit);
    if PointerMoves(db, commit) {
      var generation := db.journal[commit.mutationId].newGen;
      if Current(after, p, g) { AddedCurrent(db, after, commit.profileId, generation, p, g); }
      if Unreferenced(db, p, g) { AddedUnreferenced(db, after, commit.profileId, generation, p, g); }
    }
  }

  lemma KeptCurrent(db: Db, after: Db, p: ProfileId, g: nat)
    requires NamesKept(db, after)
    ensures Current(after, p, g) ==> Current(db, p, g)
    ensures Unreferenced(db, p, g) ==> Unreferenced(after, p, g)
  {
  }

  /** A credential becomes current, or named by a revision at all, only by being carried over or pointed to. */
  lemma NamingSteps(db: Db, op: Op, p: ProfileId, g: nat)
    requires Tables(db) && (op.Save? ==> Carries(db, op.save)) && !PointsTo(db, op, p, g)
    ensures Current(Step(db, op), p, g) ==> Current(db, p, g)
    ensures Unreferenced(db, p, g) ==> Unreferenced(Step(db, op), p, g)
  {
    match op
    case Save(request) => SaveCurrent(db, request, p, g);
    case PointTo(commit) => PointCurrent(db, commit, p, g);
    case _ =>
      NamesSteps(db, op);
      KeptCurrent(db, Step(db, op), p, g);
  }

  // ---------- the active slot and the Runs ----------

  lemma SelectSteps(db: Db, request: ActivateRequest)
    requires RevisionTables(db)
    ensures var after := Activate(db, request).db;
            || after == db
            || (after.active.Some? && Current(db, after.active.value.profileId, after.active.value.generation)
                && after == db.(active := after.active))
  {
    if Activate(db, request).result.Ok? {
      RevisionLoads(db, request.profileId, request.revision);
      ReadyPasses(db, request.profileId, request.revision, Activate(db, request).result.value.activation);
    }
  }

  lemma BlockActive(db: Db, id: OperationId, code: ErrorCode)
    ensures Quiet(db, BlockMutation(db, id, code).db)
  {
    BlockWrites(db, id, code);
  }

  lemma PointActive(db: Db, commit: PointerCommit)
    ensures Quiet(db, CommitPointer(db, commit).db)
  {
    CommitWrites(db, commit);
  }

  lemma CompleteActive(db: Db, id: OperationId)
    ensures Quiet(db, CompleteMutation(db, id).db)
  {
    CompleteFrame(db, id);
  }

  /** The slot may be emptied, and the Runs are not touched. */
  ghost predicate Quiet(db: Db, after: Db) {
    (after.active == db.active || after.active.None?) && after.bindings == db.bindings && after.runs == db.runs
  }

  lemma JournalActive(db: Db, id: OperationId)
    ensures Quiet(db, RecordVaultWrite(db, id).db) && Quiet(db, RollbackMutation(db, id).db)
  {
    VaultWrites(db, id);
    RollbackWrites(db, id);
  }

  lemma BeginActive(db: Db, intent: Intent)
    ensures Quiet(db, BeginMutation(db, intent).db)
  {
    if BeginMutation(db, intent).result.Ok? { BeginWrites(db, intent); }
  }

  lemma ValidateActive(db: Db, commit: ValidationCommit)
    ensures Quiet(db, SaveValidation(db, commit).db)
  {
    ValidationWrites(db, commit);
  }

  lemma SaveActive(db: Db, request: SaveRequest)
    ensures Quiet(db, SaveRevision(db, request).db)
  {
  }

  lemma DeleteActive(db: Db, request: DeleteRequest)
    ensures Quiet(db, DeleteProfile(db, request).db)
  {
  }

  /** Nothing but activation fills the slot, and nothing but Runs changes the Runs. */
  lemma SlotSteps(db: Db, op: Op)
    requires RevisionTables(db)
    ensures var after := Step(db, op);
            && (|| after.active == db.active || after.active.None?
                || Current(db, after.active.value.profileId, after.active.value.generation))
            && (!op.StartRun? && !op.AdvanceRun? ==> after.bindings == db.bindings && after.runs == db.runs)
  {
    match op
    case Select(request) => SelectSteps(db, request);
    case PointTo(commit) => PointActive(db, commit);
    case Complete(id) => CompleteActive(db, id);
    case Block(id, code) => BlockActive(db, id, code);
    case Save(request) => SaveActive(db, request);
    case Validate(commit) => ValidateActive(db, commit);
    case Remove(request) => DeleteActive(db, request);
    case Begin(intent) => BeginActive(db, intent);
    case VaultWrite(id) => JournalActive(db, id);
    case Rollback(id) => JournalActive(db, id);
    case Retire(generation) => RetireFrame(db, generation);
    case StartRun(_, _, _) =>
    case AdvanceRun(_, _) =>
  }

  lemma StartSteps(db: Db, run: RunId, status: RunStatus, binding: Activation, p: ProfileId, g: nat)
    requires LiveCredential(CreateRun(db, run, status, binding).db, p, g)
    ensures Held(db, p, g)
  {
    var after := CreateRun(db, run, status, binding).db;
    StartFrame(db, run, status, binding);
    var r :| r in after.bindings && after.bindings[r].profileId == p && after.bindings[r].generation == g
             && r in after.runs && !after.runs[r].Terminal();
    if after == db || r != run { assert r in db.bindings; }
  }

  lemma AdvanceSteps(db: Db, run: RunId, status: RunStatus, p: ProfileId, g: nat)
    requires LiveCredential(MoveRun(db, run, status).db, p, g)
    ensures LiveCredential(db, p, g)
  {
    var after := MoveRun(db, run, status).db;
    var r :| r in after.bindings && after.bindings[r].profileId == p && after.bindings[r].generation == g
             && r in after.runs && !after.runs[r].Terminal();
    assert r in db.bindings && r in db.runs && !db.runs[r].Terminal();
  }

  /** What comes into use was in use or current before. */
  lemma HeldSteps(db: Db, op: Op, p: ProfileId, g: nat)
    requires RevisionTables(db) && Held(Step(db, op), p, g)
    ensures Held(db, p, g) || Current(db, p, g)
  {
    SlotSteps(db, op);
    if LiveCredential(Step(db, op), p, g) {
      match op
      case StartRun(run, status, binding) => StartSteps(db, run, status, binding, p, g);
      case AdvanceRun(run, status) => AdvanceSteps(db, run, status, p, g);
      case _ => assert LiveCredential(db, p, g);
    }
  }

  // ---------- the journal ----------

  /** The mutation that a transaction is about. */
  function Subject(op: Op): Option<OperationId> {
    match op
    case VaultWrite(id) => Some(id)
    case PointTo(commit) => Some(commit.mutationId)
    case Complete(id) => Some(id)
    case Rollback(id) => Some(id)
    case Block(id, _) => Some(id)
    case _ => None
  }

  ghost predicate Untouched(db: Db, after: Db, id: OperationId)
    requires id in db.journal
  {
    id in after.journal && after.journal[id] == db.journal[id]
  }

  lemma PointOthers(db: Db, commit: PointerCommit, id: OperationId)
    requires id in db.journal && id != commit.mutationId
    ensures Untouched(db, CommitPointer(db, commit).db, id)
  {
    CommitWrites(db, commit);
  }

  lemma CompleteOthers(db: Db, other: OperationId, id: OperationId)
    requires id in db.journal && id != other
    ensures Untouched(db, CompleteMutation(db, other).db, id)
  {
    CompleteWrites(db, other);
    if CompleteMutation(db, other).db != db { CleanedJournal(db, db.journal[other]); }
  }

  lemma BlockOthers(db: Db, other: OperationId, code: ErrorCode, id: OperationId)
    requires id in db.journal && id != other
    ensures Untouched(db, BlockMutation(db, other, code).db, id)
  {
    BlockWrites(db, other, code);
  }

  lemma JournalOthers(db: Db, other: OperationId, id: OperationId)
    requires id in db.journal && id != other
    ensures Untouched(db, RecordVaultWrite(db, other).db, id) && Untouched(db, RollbackMutation(db, other).db, id)
  {
    VaultWrites(db, other);
    RollbackWrites(db, other);
  }

  lemma BeginOthers(db: Db, intent: Intent, id: OperationId)
    requires id in db.journal
    ensures Untouched(db, BeginMutation(db, intent).db, id)
  {
    if BeginMutation(db, intent).result.Ok? { BeginWrites(db, intent); }
  }

  lemma TablesOthers(db: Db, op: Op, id: OperationId)
    requires id in db.journal && (op.Save? || op.Validate? || op.Select? || op.Remove? || op.Retire?)
    ensures Untouched(db, Step(db, op), id)
  {
    if op.Validate? { ValidationWrites(db, op.validation); }
  }

  lemma OthersStay(db: Db, op: Op, id: OperationId)
    requires id in db.journal && Subject(op) != Some(id)
    ensures Untouched(db, Step(db, op), id)
  {
    match op
    case PointTo(commit) => PointOthers(db, commit, id);
    case Complete(other) => CompleteOthers(db, other, id);
    case Block(other, code) => BlockOthers(db, other, code, id);
    case VaultWrite(other) => JournalOthers(db, other, id);
    case Rollback(other) => JournalOthers(db, other, id);
    case Begin(intent) => BeginOthers(db, intent, id);
    case StartRun(_, _, _) => RunFrame(db, op);
    case AdvanceRun(_, _) => RunFrame(db, op);
    case _ => TablesOthers(db, op, id);
  }

  lemma RollbackSteps(db: Db, id: OperationId)
    requires id in db.journal
    ensures var after := RollbackMutation(db, id).db;
            && id in after.journal
            && (after.journal[id] == db.journal[id]
                || (BeforePointer(db.journal[id].phase) && after.journal[id] == db.journal[id].(phase := RolledBack)))
  {
    RollbackWrites(db, id);
  }

  // ---------- a generation that is retained ----------

  /** Nothing retains this generation anew. */
  ghost predicate RetainsNot(db: Db, after: Db, p: ProfileId, g: nat) {
    HasStatus(after, p, g, Retained) ==> HasStatus(db, p, g, Retained)
  }

  lemma PointRetains(db: Db, commit: PointerCommit, p: ProfileId, g: nat)
    requires Tables(db) && (PointerMoves(db, commit) ==> db.journal[commit.mutationId].profileId != p)
    ensures RetainsNot(db, CommitPointer(db, commit).db, p, g)
  {
    if commit.mutationId in db.journal && db.journal[commit.mutationId].phase.VaultWritten? {
      CommitCases(db, commit);
    } else {
      CommitIdle(db, commit);
    }
  }

  lemma CompleteRetains(db: Db, id: OperationId, p: ProfileId, g: nat)
    requires JournalFits(db)
    requires id in db.journal && db.journal[id].phase.PointerCommitted? ==> db.journal[id].profileId != p
    ensures RetainsNot(db, CompleteMutation(db, id).db, p, g)
  {
    CompleteWrites(db, id);
    if CompleteMutation(db, id).db != db { CompletionOf(db, id); }
  }

  lemma BlockRetains(db: Db, id: OperationId, code: ErrorCode, p: ProfileId, g: nat)
    ensures RetainsNot(db, BlockMutation(db, id, code).db, p, g)
  {
    BlockWrites(db, id, code);
  }

  lemma JournalRetains(db: Db, id: OperationId, p: ProfileId, g: nat)
    ensures RetainsNot(db, RecordVaultWrite(db, id).db, p, g) && RetainsNot(db, RollbackMutation(db, id).db, p, g)
  {
    VaultWrites(db, id);
    RollbackWrites(db, id);
  }

  lemma BeginRetains(db: Db, intent: Intent, p: ProfileId, g: nat)
    requires RevisionTables(db) && (p, g) in db.generations
    ensures RetainsNot(db, BeginMutation(db, intent).db, p, g)
  {
    if BeginMutation(db, intent).result.Ok? { BeginFacts(db, intent); }
  }

  lemma RunsRetain(db: Db, op: Op, p: ProfileId, g: nat)
    requires op.StartRun? || op.AdvanceRun?
    ensures RetainsNot(db, Step(db, op), p, g)
  {
    RunFrame(db, op);
  }

  lemma ValidateRetains(db: Db, commit: ValidationCommit, p: ProfileId, g: nat)
    ensures RetainsNot(db, SaveValidation(db, commit).db, p, g)
  {
    ValidationWrites(db, commit);
  }

  lemma TablesRetain(db: Db, op: Op, p: ProfileId, g: nat)
    requires op.Save? || op.Select? || op.Remove? || op.Retire?
    ensures RetainsNot(db, Step(db, op), p, g)
  {
  }

  lemma OpenElsewhere(db: Db, id: OperationId, other: OperationId)
    requires OneOpen(db) && id in db.journal && other in db.journal && other != id
    requires db.journal[id].phase.Open() && db.journal[other].phase.Open()
    ensures db.journal[other].profileId != db.journal[id].profileId
  {
  }

  lemma PointRetainsNone(db: Db, commit: PointerCommit, id: OperationId, g: nat)
    requires Tables(db) && id in db.journal && db.journal[id].phase.IntentRecorded? && commit.mutationId != id
    ensures RetainsNot(db, CommitPointer(db, commit).db, db.journal[id].profileId, g)
  {
    if PointerMoves(db, commit) { OpenElsewhere(db, id, commit.mutationId); }
    PointRetains(db, commit, db.journal[id].profileId, g);
  }

  lemma CompleteRetainsNone(db: Db, other: OperationId, id: OperationId, g: nat)
    requires Tables(db) && id in db.journal && db.journal[id].phase.IntentRecorded? && other != id
    ensures RetainsNot(db, CompleteMutation(db, other).db, db.journal[id].profileId, g)
  {
    if other in db.journal && db.journal[other].phase.PointerCommitted? { OpenElsewhere(db, id, other); }
    CompleteRetains(db, other, db.journal[id].profileId, g);
  }

  lemma OthersRetain(db: Db, op: Op, p: ProfileId, g: nat)
    requires RevisionTables(db) && (p, g) in db.generations && Subject(op).None?
    ensures RetainsNot(db, Step(db, op), p, g)
  {
    match op
    case Begin(intent) => BeginRetains(db, intent, p, g);
    case Validate(commit) => ValidateRetains(db, commit, p, g);
    case StartRun(_, _, _) => RunsRetain(db, op, p, g);
    case AdvanceRun(_, _) => RunsRetain(db, op, p, g);
    case _ => TablesRetain(db, op, p, g);
  }

  lemma ClosesRetain(db: Db, op: Op, p: ProfileId, g: nat)
    requires op.VaultWrite? || op.Rollback? || op.Block?
    ensures RetainsNot(db, Step(db, op), p, g)
  {
    match op
    case Block(other, code) => BlockRetains(db, other, code, p, g);
    case VaultWrite(other) => JournalRetains(db, other, p, g);
    case Rollback(other) => JournalRetains(db, other, p, g);
  }

  /** While a mutation of the profile is open, only its own transactions retain a stored generation. */
  lemma RetainedSteps(db: Db, op: Op, id: OperationId, g: nat)
    requires Tables(db) && id in db.journal && db.journal[id].phase.IntentRecorded? && Subject(op) != Some(id)
    requires (db.journal[id].profileId, g) in db.generations
    ensures RetainsNot(db, Step(db, op), db.journal[id].profileId, g)
  {
    if op.PointTo? {
      PointRetainsNone(db, op.pointer, id, g);
    } else if op.Complete? {
      CompleteRetainsNone(db, op.completedId, id, g);
    } else if Subject(op).Some? {
      ClosesRetain(db, op, db.journal[id].profileId, g);
    } else {
      OthersRetain(db, op, db.journal[id].profileId, g);
    }
  }
}
