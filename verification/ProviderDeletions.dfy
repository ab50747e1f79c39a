/** Deleting a profile: when it succeeds, what it leaves of the profile's credentials, and that none of them
    comes back into use. */
module ProviderDeletions {
  import opened Wrappers
  import opened ProviderDomain
  import opened ProviderStore
  import opened ProviderSteps
  import opened ProviderWrites
  import opened ProviderTables
  import opened ProviderOutcomes
  import opened ProviderJournalOutcomes
  import opened ProviderLifecycles
  import opened RunStatuses

  // ---------- one deletion ----------

  /** The profile is marked as deleted, each of its credentials is, and it is not active; nothing else changed. */
  ghost predicate Deletes(db: Db, after: Db, p: ProfileId) {
    && p in db.profiles
    && after == db.(profiles := db.profiles[p := db.profiles[p].(deleted := true)],
                    active := if db.active.Some? && db.active.value.profileId == p then None else db.active,
                    generations := after.generations)
    && after.generations.Keys == db.generations.Keys
    && (forall key | key in db.generations && key.0 == p ::
          after.generations[key] == GenerationRow(db.generations[key].kind, GenerationStatus.Deleted))
    && (forall key | key in db.generations && key.0 != p :: after.generations[key] == db.generations[key])
  }

  /** Every Run that was bound to the profile has ended. */
  ghost predicate Unused(db: Db, p: ProfileId) {
    forall run | run in db.bindings && db.bindings[run].profileId == p && run in db.runs ::
      db.runs[run].Succeeded? || db.runs[run].Failed? || db.runs[run].Cancelled?
  }

  /** The active slot is as the author of the request saw it. */
  ghost predicate SawActive(db: Db, expected: Option<ExpectedActive>) {
    expected == if db.active.None? then None
                else Some(ExpectedActive(db.active.value.profileId, db.active.value.revision,
                                         db.active.value.activation))
  }

  /** A profile is deleted exactly when it is there, its author saw its current revision and the active slot, no
      unfinished Run is bound to it and, when it is the active one, being left without a provider was agreed to;
      otherwise nothing changes. */
  lemma DeleteExactly(db: Db, request: DeleteRequest)
    ensures var p, tx := request.profileId, DeleteProfile(db, request);
            && (tx.result.Ok?
                <==> && p in db.profiles && !db.profiles[p].deleted
                     && db.profiles[p].current == request.expectedRevision
                     && Unused(db, p) && SawActive(db, request.expectedActive)
                     && (db.active.Some? && db.active.value.profileId == p ==> request.enterNoActive))
            && (tx.result.Ok? ==> Deletes(db, tx.db, p))
            && (tx.result.Err? ==> tx.db == db)
  {
  }

  // ---------- whatever follows ----------

  /** None of the profile's credentials is available. */
  ghost predicate NoneAvailable(db: Db, p: ProfileId) {
    forall key | key in db.generations && key.0 == p :: !db.generations[key].status.Available?
  }

  /** A mutation that still waits for its vault write has lost the generation it would make available. */
  ghost predicate Lost(db: Db, m: Mutation) {
    m.phase.IntentRecorded? && m.Staged().Some? && (m.profileId, m.Staged().value) in db.generations ==>
      !db.generations[(m.profileId, m.Staged().value)].status.Retained?
  }

  ghost predicate AllLost(db: Db, p: ProfileId) {
    forall id | id in db.journal && db.journal[id].profileId == p :: Lost(db, db.journal[id])
  }

  ghost predicate Dead(db: Db, p: ProfileId) {
    NoneAvailable(db, p) && AllLost(db, p)
  }

  lemma DeleteLeavesDead(db: Db, request: DeleteRequest)
    requires DeleteProfile(db, request).result.Ok?
    ensures Dead(DeleteProfile(db, request).db, request.profileId)
  {
    DeleteExactly(db, request);
  }

  /** Only other profiles' credentials and records have changed. */
  lemma OthersKeepDead(db: Db, after: Db, p: ProfileId)
    requires Dead(db, p)
    requires forall key | key in after.generations && key.0 == p ::
               key in db.generations && after.generations[key] == db.generations[key]
    requires forall key | key in db.generations && key.0 == p :: key in after.generations
    requires forall id | id in after.journal && after.journal[id].profileId == p ::
               id in db.journal && db.journal[id].profileId == p
               && (after.journal[id].phase.IntentRecorded? ==> after.journal[id] == db.journal[id])
    ensures Dead(after, p)
  {
    forall id | id in after.journal && after.journal[id].profileId == p ensures Lost(after, after.journal[id]) {
      assert Lost(db, db.journal[id]);
    }
  }

  /** A record moves on, and one generation gets a status other than available and retained. */
  lemma StatusKeepsDead(db: Db, id: OperationId, next: Mutation, g: nat, status: GenerationStatus, p: ProfileId)
    requires Dead(db, p) && id in db.journal && next.profileId == db.journal[id].profileId
             && !next.phase.IntentRecorded?
    requires status.Deleted? || status.Revoked? || next.profileId != p
    ensures Dead(WithMutation(WithStatus(db, next.profileId, g, status), id, next), p)
  {
    var after := WithMutation(WithStatus(db, next.profileId, g, status), id, next);
    forall other | other in after.journal && after.journal[other].profileId == p
      ensures Lost(after, after.journal[other])
    {
      assert other != id ==> Lost(db, db.journal[other]);
    }
  }

  lemma VaultWriteKeepsDead(db: Db, id: OperationId, p: ProfileId)
    requires Dead(db, p)
    ensures Dead(RecordVaultWrite(db, id).db, p)
  {
    VaultWrites(db, id);
    if RecordVaultWrite(db, id).db != db {
      var m := db.journal[id];
      assert Lost(db, m) || m.profileId != p;
      StatusKeepsDead(db, id, m.(phase := VaultWritten), m.Staged().value, Available, p);
    }
  }

  lemma RollbackKeepsDead(db: Db, id: OperationId, p: ProfileId)
    requires Dead(db, p)
    ensures Dead(RollbackMutation(db, id).db, p)
  {
    RollbackWrites(db, id);
    if RollbackMutation(db, id).db != db {
      var m := db.journal[id];
      StatusKeepsDead(db, id, m.(phase := RolledBack), m.Staged().value, GenerationStatus.Deleted, p);
    }
  }

  lemma BlockKeepsDead(db: Db, id: OperationId, code: ErrorCode, p: ProfileId)
    requires Tables(db) && Dead(db, p)
    ensures Dead(BlockMutation(db, id, code).db, p)
  {
    BlockExactly(db, id, code);
    if BlockMutation(db, id, code).db != db {
      var m := db.journal[id];
      var g :| Blocks(db, BlockMutation(db, id, code).db, id, code, g);
      StatusKeepsDead(db, id, m.(phase := Blocked, error := Some(code)), g, Revoked, p);
      var after := WithMutation(WithStatus(db, m.profileId, g, Revoked), id, m.(phase := Blocked, error := Some(code)));
      SlotKeepsDead(after, BlockMutation(db, id, code).db, p);
    }
  }

  lemma SlotKeepsDead(db: Db, after: Db, p: ProfileId)
    requires Dead(db, p) && after == db.(active := after.active)
    ensures Dead(after, p)
  {
    OthersKeepDead(db, after, p);
  }

  /** Completing may lift a tombstone, but then no mutation of the profile is open. */
  lemma CompleteKeepsDead(db: Db, id: OperationId, p: ProfileId)
    requires Tables(db) && Dead(db, p)
    ensures Dead(CompleteMutation(db, id).db, p)
  {
    CompleteExactly(db, id);
    var after := CompleteMutation(db, id).db;
    if after != db { ClosingKeepsDead(db, after, id, p); }
  }

  lemma ClosingKeepsDead(db: Db, after: Db, id: OperationId, p: ProfileId)
    requires OneOpen(db) && Dead(db, p) && id in db.journal && db.journal[id].phase.PointerCommitted?
    requires Closes(db, after, id)
    ensures Dead(after, p)
  {
    var m := db.journal[id];
    forall key | key in after.generations && key.0 == p ensures !after.generations[key].status.Available? {
      assert key in db.generations;
    }
    forall other | other in after.journal && after.journal[other].profileId == p
      ensures Lost(after, after.journal[other])
    {
      if other != id {
        assert Lost(db, db.journal[other]);
        assert m.profileId == p ==> !db.journal[other].phase.Open();
      }
    }
  }

  /** The pointer of a deleted profile does not move. */
  lemma PointerKeepsDead(db: Db, commit: PointerCommit, p: ProfileId)
    requires Tables(db) && Gone(db, p) && Dead(db, p)
    ensures Dead(CommitPointer(db, commit).db, p)
  {
    CommitExactly(db, commit);
    var id, after := commit.mutationId, CommitPointer(db, commit).db;
    if id in db.journal && db.journal[id].phase.VaultWritten? {
      if Fulfils(db, db.journal[id], commit) {
        PointingKeepsDead(db, after, id, p);
      } else {
        OthersKeepDead(db, after, p);
      }
    } else if id in db.journal && db.journal[id].phase.PointerCommitted? {
      CommitRepeatsIdly(db, commit);
    }
  }

  lemma PointingKeepsDead(db: Db, after: Db, id: OperationId, p: ProfileId)
    requires Dead(db, p) && Points(db, after, id) && db.journal[id].profileId != p
    ensures Dead(after, p)
  {
    OthersKeepDead(db, after, p);
  }

  lemma CommitRepeatsIdly(db: Db, commit: PointerCommit)
    requires commit.mutationId in db.journal && db.journal[commit.mutationId].phase.PointerCommitted?
    ensures CommitPointer(db, commit).db == db
  {
  }

  lemma BeginKeepsDead(db: Db, intent: Intent, p: ProfileId)
    requires Tables(db) && Gone(db, p) && Dead(db, p)
    ensures Dead(BeginMutation(db, intent).db, p)
  {
    BeginExactly(db, intent);
    if BeginMutation(db, intent).result.Ok? { OthersKeepDead(db, BeginMutation(db, intent).db, p); }
  }

  lemma RemoveKeepsDead(db: Db, request: DeleteRequest, p: ProfileId)
    requires Gone(db, p) && Dead(db, p)
    ensures Dead(DeleteProfile(db, request).db, p)
  {
    DeleteExactly(db, request);
    if DeleteProfile(db, request).result.Ok? { OthersKeepDead(db, DeleteProfile(db, request).db, p); }
  }

  lemma RetireKeepsDead(db: Db, generation: Generation, p: ProfileId)
    requires Dead(db, p)
    ensures Dead(RetireGeneration(db, generation).db, p)
  {
    RetireExactly(db, generation);
    var after := RetireGeneration(db, generation).db;
    forall id | id in after.journal && after.journal[id].profileId == p ensures Lost(after, after.journal[id]) {
      assert Lost(db, db.journal[id]);
    }
  }

  lemma QuietSteps(db: Db, op: Op)
    requires op.Save? || op.Validate? || op.Select? || op.StartRun? || op.AdvanceRun?
    ensures Step(db, op).generations == db.generations && Step(db, op).journal == db.journal
  {
    if op.Validate? { ValidationWrites(db, op.validation); }
  }

  lemma SameKeepsDead(db: Db, after: Db, p: ProfileId)
    requires Dead(db, p) && after.generations == db.generations && after.journal == db.journal
    ensures Dead(after, p)
  {
    OthersKeepDead(db, after, p);
  }

  lemma StepKeepsDead(db: Db, op: Op, p: ProfileId)
    requires Tables(db) && Gone(db, p) && Dead(db, p)
    ensures Dead(Step(db, op), p)
  {
    match op
    case VaultWrite(id) => VaultWriteKeepsDead(db, id, p);
    case Rollback(id) => RollbackKeepsDead(db, id, p);
    case Block(id, code) => BlockKeepsDead(db, id, code, p);
    case Complete(id) => CompleteKeepsDead(db, id, p);
    case PointTo(commit) => PointerKeepsDead(db, commit, p);
    case Begin(intent) => BeginKeepsDead(db, intent, p);
    case Remove(request) => RemoveKeepsDead(db, request, p);
    case Retire(generation) => RetireKeepsDead(db, generation, p);
    case _ => QuietSteps(db, op); SameKeepsDead(db, Step(db, op), p);
  }

  lemma {:induction false} RunKeepsDead(db: Db, ops: seq<Op>, p: ProfileId)
    requires Tables(db) && Gone(db, p) && Dead(db, p)
    ensures Dead(After(db, ops), p)
    decreases |ops|
  {
    if ops != [] {
      StepTables(db, ops[0]);
      StepKeepsGone(db, ops[0], p);
      StepKeepsDead(db, ops[0], p);
      RunKeepsDead(Step(db, ops[0]), ops[1..], p);
    }
  }

  /** After a deletion, whatever transactions follow it, none of the profile's credentials is available: a mutation
      that was under way can no longer make one so, although completing it may retain a tombstone again. */
  lemma DeletedCredentialsStayUnavailable(db: Db, request: DeleteRequest, ops: seq<Op>)
    requires Reachable(db) && DeleteProfile(db, request).result.Ok?
    ensures var later := After(DeleteProfile(db, request).db, ops);
            forall key | key in later.generations && key.0 == request.profileId ::
              !later.generations[key].status.Available?
  {
    ReachableTables(db);
    DeleteTables(db, request);
    DeleteLeavesGone(db, request);
    DeleteLeavesDead(db, request);
    RunKeepsDead(DeleteProfile(db, request).db, ops, request.profileId);
  }
}
