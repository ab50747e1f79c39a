/** Validation, activation, deletion and Runs keep the invariant, so that none of them tombstones a
    credential that is in use. */
module ProviderSafety {
  import opened Wrappers
  import opened ProviderDomain
  import opened ProviderStore
  import opened ProviderWrites
  import opened ProviderSteps
  import opened ProviderTables
  import opened ProviderInvariants
  import opened RunStatuses

  lemma SaveValidationKeeps(db: Db, commit: ValidationCommit)
    requires Inv(db)
    ensures Inv(SaveValidation(db, commit).db)
  {
    var after := SaveValidation(db, commit).db;
    ValidationTables(db, commit);
    ValidationFrame(db, commit);
    SameHidden(db, after);
    SameStatuses(db, after);
  }

  lemma ActiveSetKeeps(db: Db, a: Activation)
    requires Inv(db) && PassingValidation(db, a) && Existing(db, a.profileId)
    requires !HasStatus(db, a.profileId, a.generation, Deleted)
    ensures Inv(db.(active := Some(a)))
  {
    var after := db.(active := Some(a));
    ActiveTables(db, Some(a));
    SameHidden(db, after);
    SameStatuses(db, after);
  }

  lemma ActivateKeeps(db: Db, request: ActivateRequest)
    requires Inv(db)
    ensures Inv(Activate(db, request).db)
  {
    var tx := Activate(db, request);
    if tx.result.Ok? {
      RevisionLoads(db, request.profileId, request.revision);
      ReadyPasses(db, request.profileId, request.revision, tx.result.value.activation);
      assert CurrentUsable(db, request.profileId);
      ActiveSetKeeps(db, tx.result.value);
    }
  }

  lemma DeleteProfileKeeps(db: Db, request: DeleteRequest)
    requires Inv(db)
    ensures Inv(DeleteProfile(db, request).db)
  {
    DeleteTables(db, request);
    if DeleteProfile(db, request).result.Ok? {
      DeleteMoves(db, request);
      SameHidden(db, DeleteProfile(db, request).db);
      DeleteKeepsStatuses(db, request);
    }
  }

  lemma DeleteKeepsStatuses(db: Db, request: DeleteRequest)
    requires Statuses(db) && DeleteProfile(db, request).result.Ok?
    ensures Statuses(DeleteProfile(db, request).db)
  {
    var after := DeleteProfile(db, request).db;
    forall id | id in after.journal ensures PhaseStatus(after, after.journal[id]) {
      assert PhaseStatus(db, db.journal[id]);
    }
    forall p | p in after.profiles ensures CurrentUsable(after, p) {
      assert CurrentUsable(db, p);
    }
  }

  /** Everything but the bindings ignores Runs. */
  lemma RunsKeepRest(db: Db, after: Db)
    requires Inv(db) && Tables(after) && LiveCredentialsKept(after)
    requires after == db.(runs := after.runs, bindings := after.bindings)
    ensures Inv(after)
  {
    SameHidden(db, after);
    SameStatuses(db, after);
  }

  lemma StartKeepsLive(db: Db, run: RunId, status: RunStatus, binding: Activation)
    requires LiveCredentialsKept(db)
    ensures LiveCredentialsKept(CreateRun(db, run, status, binding).db)
  {
    StartFrame(db, run, status, binding);
  }

  lemma AdvanceKeepsLive(db: Db, run: RunId, status: RunStatus)
    requires LiveCredentialsKept(db)
    ensures LiveCredentialsKept(MoveRun(db, run, status).db)
  {
  }

  lemma RunStepKeepsLive(db: Db, op: Op)
    requires LiveCredentialsKept(db) && (op.StartRun? || op.AdvanceRun?)
    ensures LiveCredentialsKept(Step(db, op))
  {
    match op
    case StartRun(run, status, binding) => StartKeepsLive(db, run, status, binding);
    case AdvanceRun(run, status) => AdvanceKeepsLive(db, run, status);
  }

  lemma RunStepFrame(db: Db, op: Op)
    requires op.StartRun? || op.AdvanceRun?
    ensures var after := Step(db, op); after == db.(runs := after.runs, bindings := after.bindings)
  {
  }

  lemma RunStepKeeps(db: Db, op: Op)
    requires Inv(db) && (op.StartRun? || op.AdvanceRun?)
    ensures Inv(Step(db, op))
  {
    RunTables(db, op);
    RunStepKeepsLive(db, op);
    RunStepFrame(db, op);
    RunsKeepRest(db, Step(db, op));
  }

  lemma RetireKeeps(db: Db, generation: Generation)
    requires Inv(db)
    ensures Inv(RetireGeneration(db, generation).db)
  {
    if RetireGeneration(db, generation).result.Ok? {
      var p, g := generation.profileId, generation.number;
      assert NotAwaited(db, p, g) by {
        forall id
          | id in db.journal && db.journal[id].profileId == p && db.journal[id].phase.VaultWritten? && Existing(db, p)
          ensures db.journal[id].Staged() != Some(g)
        {
          assert PhaseStatus(db, db.journal[id]);
        }
      }
      assert Existing(db, p) ==> CurrentUsable(db, p);
      StatusWritten(db, p, g, Deleted);
    }
  }
}
