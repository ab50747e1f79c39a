/** The safety of live credentials over whole runs of the provider repository. */
module ProviderRuns {
  import opened ProviderStore
  import opened ProviderWrites
  import opened ProviderSteps
  import opened ProviderTables
  import opened ProviderInvariants
  import opened ProviderSafety
  import opened ProviderJournal

  /** The profile service saves a revision without a credential or with the current one. */
  ghost predicate Carries(db: Db, request: SaveRequest) {
    request.revision.generation.Some? ==>
      Existing(db, request.profileId) && CurrentGeneration(db, request.profileId) == Number(request.revision.generation)
  }

  lemma CarryIsSafe(db: Db, request: SaveRequest)
    requires Inv(db) && Carries(db, request)
    ensures SaveSafe(db, request)
  {
    var p, g := request.profileId, Number(request.revision.generation);
    if g.Some? {
      var key := (p, db.profiles[p].current);
      assert CurrentUsable(db, p);
      forall id | id in db.journal && db.journal[id].profileId == p
        ensures MayTombstone(db.journal[id]) ==> db.journal[id].Staged() != g
        ensures db.journal[id].phase.PointerCommitted? ==> db.journal[id].oldGen != g
      {
        assert StagedHidden(db, db.journal[id]) && PhaseStatus(db, db.journal[id]);
      }
    }
  }

  /** Every save of the run names a safe credential at the moment it is made. */
  ghost predicate SavesSafe(db: Db, ops: seq<Op>)
    decreases |ops|
  {
    ops == [] ||
    ((ops[0].Save? ==> SaveSafe(db, ops[0].save)) && SavesSafe(Step(db, ops[0]), ops[1..]))
  }

  /** Every save of the run carries the current credential over, or has none. */
  ghost predicate SavesCarry(db: Db, ops: seq<Op>)
    decreases |ops|
  {
    ops == [] ||
    ((ops[0].Save? ==> Carries(db, ops[0].save)) && SavesCarry(Step(db, ops[0]), ops[1..]))
  }

  lemma JournalStepKeeps(db: Db, op: Op)
    requires Inv(db) && (op.Begin? || op.VaultWrite? || op.PointTo? || op.Complete? || op.Rollback? || op.Block?)
    ensures Inv(Step(db, op))
  {
    match op
    case Begin(intent) => BeginKeeps(db, intent);
    case VaultWrite(id) => VaultWriteKeeps(db, id);
    case PointTo(commit) => CommitKeeps(db, commit);
    case Complete(id) => CompleteKeeps(db, id);
    case Rollback(id) => RollbackKeeps(db, id);
    case Block(id, code) => BlockKeeps(db, id, code);
  }

  lemma StepKeeps(db: Db, op: Op)
    requires Inv(db) && (op.Save? ==> SaveSafe(db, op.save))
    ensures Inv(Step(db, op))
  {
    match op
    case Save(request) => SaveKeeps(db, request);
    case Validate(commit) => SaveValidationKeeps(db, commit);
    case Select(request) => ActivateKeeps(db, request);
    case Remove(request) => DeleteProfileKeeps(db, request);
    case Retire(generation) => RetireKeeps(db, generation);
    case StartRun(_, _, _) => RunStepKeeps(db, op);
    case AdvanceRun(_, _) => RunStepKeeps(db, op);
    case _ => JournalStepKeeps(db, op);
  }

  /** No interleaving whose saves are safe tombstones a credential that the active slot or an
      unfinished Run holds. */
  lemma {:induction false} LiveCredentialsSurvive(db: Db, ops: seq<Op>)
    requires Inv(db) && SavesSafe(db, ops)
    ensures Inv(After(db, ops)) && LiveCredentialsKept(After(db, ops))
    decreases |ops|
  {
    if ops != [] {
      StepKeeps(db, ops[0]);
      LiveCredentialsSurvive(Step(db, ops[0]), ops[1..]);
    }
  }

  lemma {:induction false} CarryingRunsAreSafe(db: Db, ops: seq<Op>)
    requires Inv(db) && SavesCarry(db, ops)
    ensures SavesSafe(db, ops)
    decreases |ops|
  {
    if ops != [] {
      if ops[0].Save? { CarryIsSafe(db, ops[0].save); }
      StepKeeps(db, ops[0]);
      CarryingRunsAreSafe(Step(db, ops[0]), ops[1..]);
    }
  }

  /** From the empty tables, with the saves the profile service makes. */
  lemma ServiceRunsKeepCredentials(ops: seq<Op>)
    requires SavesCarry(EmptyDb, ops)
    ensures LiveCredentialsKept(After(EmptyDb, ops))
  {
    EmptyInv();
    CarryingRunsAreSafe(EmptyDb, ops);
    LiveCredentialsSurvive(EmptyDb, ops);
  }
}
