/** What becomes of a tombstoned credential: two transactions lift tombstones, and no other does. */
module ProviderTombstones {
  import opened Wrappers
  import opened ProviderDomain
  import opened ProviderStore
  import opened ProviderSteps
  import opened ProviderWrites
  import opened ProviderTables

  // ---------- exactly which transactions lift a tombstone ----------

  /** Completing a mutation whose old credential it is retains it again, and blocking the mutation that
      staged it revokes it. */
  predicate Lifts(db: Db, op: Op, p: ProfileId, g: nat) {
    match op
    case Complete(id) =>
      && id in db.journal && db.journal[id].phase.PointerCommitted?
      && db.journal[id].profileId == p && db.journal[id].oldGen == Some(g)
    case Block(id, _) =>
      && id in db.journal && !db.journal[id].phase.Terminal()
      && db.journal[id].profileId == p && db.journal[id].Staged() == Some(g)
    case _ => false
  }

  lemma CompletionLifts(db: Db, id: OperationId, p: ProfileId, g: nat)
    requires JournalFits(db) && HasStatus(db, p, g, Deleted) && Lifts(db, Complete(id), p, g)
    ensures HasStatus(CompleteMutation(db, id).db, p, g, Retained)
  {
    CompletionOf(db, id);
    assert MutationFits(db, db.journal[id]);
  }

  lemma CompletionLiftsNoOther(db: Db, id: OperationId, p: ProfileId, g: nat)
    requires HasStatus(db, p, g, Deleted) && !Lifts(db, Complete(id), p, g)
    ensures HasStatus(CompleteMutation(db, id).db, p, g, Deleted)
  {
    CompleteWrites(db, id);
    if CompleteMutation(db, id).db != db {
      var m := db.journal[id];
      assert HasStatus(OldKept(db, m), p, g, Deleted);
      assert HasStatus(CopyDropped(OldKept(db, m), m), p, g, Deleted);
    }
  }

  lemma BlockLifts(db: Db, id: OperationId, code: ErrorCode, p: ProfileId, g: nat)
    requires JournalFits(db) && HasStatus(db, p, g, Deleted) && Lifts(db, Block(id, code), p, g)
    ensures !HasStatus(BlockMutation(db, id, code).db, p, g, Deleted)
  {
    MutationLoads(db, id);
  }

  lemma BlockLiftsNoOther(db: Db, id: OperationId, code: ErrorCode, p: ProfileId, g: nat)
    requires HasStatus(db, p, g, Deleted) && !Lifts(db, Block(id, code), p, g)
    ensures HasStatus(BlockMutation(db, id, code).db, p, g, Deleted)
  {
    BlockWrites(db, id, code);
  }

  lemma PointerLiftsNothing(db: Db, commit: PointerCommit, p: ProfileId, g: nat)
    requires Tables(db) && HasStatus(db, p, g, Deleted)
    ensures HasStatus(CommitPointer(db, commit).db, p, g, Deleted)
  {
    if commit.mutationId in db.journal && db.journal[commit.mutationId].phase.VaultWritten? {
      CommitCases(db, commit);
      if !CommitStale(db, db.journal[commit.mutationId], commit) && PointerMoves(db, commit) {
        PointerKeepsTombstone(db, commit, p, g);
      }
    } else {
      CommitIdle(db, commit);
    }
  }

  lemma PointerKeepsTombstone(db: Db, commit: PointerCommit, p: ProfileId, g: nat)
    requires commit.mutationId in db.journal && commit.profileId in db.profiles && HasStatus(db, p, g, Deleted)
    ensures var m := db.journal[commit.mutationId];
            var moved := WithMutation(PointerAppended(db, commit), commit.mutationId, m.(phase := PointerCommitted));
            && HasStatus(moved, p, g, Deleted)
            && (m.oldGen.Some? && !HasStatus(db, m.profileId, m.oldGen.value, Deleted) ==>
                  HasStatus(WithStatus(moved, m.profileId, m.oldGen.value, Retained), p, g, Deleted))
  {
  }

  lemma BeginLiftsNothing(db: Db, intent: Intent, p: ProfileId, g: nat)
    requires RevisionTables(db) && HasStatus(db, p, g, Deleted)
    ensures HasStatus(BeginMutation(db, intent).db, p, g, Deleted)
  {
    if BeginMutation(db, intent).result.Ok? { BeginFacts(db, intent); }
  }

  lemma VaultWriteLiftsNothing(db: Db, id: OperationId, p: ProfileId, g: nat)
    requires HasStatus(db, p, g, Deleted)
    ensures HasStatus(RecordVaultWrite(db, id).db, p, g, Deleted)
  {
    VaultWrites(db, id);
  }

  lemma RollbackLiftsNothing(db: Db, id: OperationId, p: ProfileId, g: nat)
    requires HasStatus(db, p, g, Deleted)
    ensures HasStatus(RollbackMutation(db, id).db, p, g, Deleted)
  {
    RollbackWrites(db, id);
  }

  lemma OthersLiftNothing(db: Db, op: Op, p: ProfileId, g: nat)
    requires HasStatus(db, p, g, Deleted)
    requires op.Save? || op.Validate? || op.Select? || op.Remove? || op.Retire? || op.StartRun? || op.AdvanceRun?
    ensures HasStatus(Step(db, op), p, g, Deleted)
  {
  }

  lemma NoOtherLifts(db: Db, op: Op, p: ProfileId, g: nat)
    requires Tables(db) && HasStatus(db, p, g, Deleted) && !op.Complete? && !op.Block?
    ensures HasStatus(Step(db, op), p, g, Deleted)
  {
    match op
    case PointTo(commit) => PointerLiftsNothing(db, commit, p, g);
    case Begin(intent) => BeginLiftsNothing(db, intent, p, g);
    case VaultWrite(id) => VaultWriteLiftsNothing(db, id, p, g);
    case Rollback(id) => RollbackLiftsNothing(db, id, p, g);
    case _ => OthersLiftNothing(db, op, p, g);
  }

  /** In every reachable state a transaction lifts a tombstone exactly when it completes a mutation whose
      old credential it is, or blocks the mutation that staged it. */
  lemma TombstonesLiftExactly(db: Db, op: Op, p: ProfileId, g: nat)
    requires Reachable(db) && HasStatus(db, p, g, Deleted)
    ensures HasStatus(Step(db, op), p, g, Deleted) <==> !Lifts(db, op, p, g)
  {
    ReachableTables(db);
    if op.Complete? {
      if Lifts(db, op, p, g) { CompletionLifts(db, op.completedId, p, g); }
      else { CompletionLiftsNoOther(db, op.completedId, p, g); }
    } else if op.Block? {
      if Lifts(db, op, p, g) { BlockLifts(db, op.blockedId, op.code, p, g); }
      else { BlockLiftsNoOther(db, op.blockedId, op.code, p, g); }
    } else {
      NoOtherLifts(db, op, p, g);
    }
  }

  // ---------- a credential that comes back ----------

  const Setup := Config(KeyedProvider("p"), "m", "")
  const First := Generation(0, 1, ApiKey)
  const Second := Generation(0, 2, ApiKey)
  const Draft1 := Revision(0, 1, Setup, None, Draft, None)
  const Draft2 := Revision(0, 2, Setup, Some(First), Draft, None)
  const Draft3 := Revision(0, 3, Setup, Some(Second), Draft, None)
  const Creating: Intent := IntentFields(7, 0, 1, Create, ApiKey, None, Some(1), None)
  const Replacing: Intent := IntentFields(8, 0, 2, Replace, ApiKey, Some(1), Some(2), None)
  const CreateCommit: PointerCommit := PointerCommitFields(7, 0, 1, Draft2)
  const ReplaceCommit: PointerCommit := PointerCommitFields(8, 0, 2, Draft3)

  const Trace: seq<Op> := [
    Save(SaveRequest(0, None, "n", Draft1)),
    Begin(Creating), VaultWrite(7), PointTo(CreateCommit), Complete(7),
    Begin(Replacing), VaultWrite(8), PointTo(ReplaceCommit),
    Retire(First), Complete(8)]

  function Made(phase: Phase): Mutation { Mutation(0, 1, Create, None, Some(1), None, phase, None) }

  function Replaced(phase: Phase): Mutation { Mutation(0, 2, Replace, Some(1), Some(2), None, phase, None) }

  function Row(g: Option<nat>): RevisionRow { RevisionRow(Setup, g, Draft, None) }

  const Saved := EmptyDb.(profiles := map[0 := ProfileRow("n", 1, false)], revisions := map[(0, 1) := Row(None)])

  /** While the first credential is created. */
  function CreatingDb(phase: Phase, status: GenerationStatus): Db {
    Saved.(generations := map[(0, 1) := GenerationRow(ApiKey, status)], journal := map[7 := Made(phase)])
  }

  function PointedDb(phase: Phase): Db {
    CreatingDb(phase, Available).(profiles := map[0 := ProfileRow("n", 2, false)],
                                  revisions := map[(0, 1) := Row(None), (0, 2) := Row(Some(1))])
  }

  /** While it is replaced by the second one. */
  function ReplacingDb(phase: Phase, first: GenerationStatus, second: GenerationStatus): Db {
    PointedDb(Completed).(generations :=
                          map[(0, 1) := GenerationRow(ApiKey, first), (0, 2) := GenerationRow(ApiKey, second)],
                          journal := map[7 := Made(Completed), 8 := Replaced(phase)])
  }

  function ReplacedDb(phase: Phase, first: GenerationStatus): Db {
    ReplacingDb(phase, first, Available).(
      profiles := map[0 := ProfileRow("n", 3, false)],
      revisions := map[(0, 1) := Row(None), (0, 2) := Row(Some(1)), (0, 3) := Row(Some(2))])
  }

  lemma MadeLoads(db: Db, phase: Phase)
    requires 7 in db.journal && db.journal[7] == Made(phase) && !phase.Blocked?
    requires (0, 1) in db.generations && db.generations[(0, 1)].kind.ApiKey?
    ensures LoadMutation(db, 7) == Ok(Made(phase)) && HasKind(db, Made(phase), ApiKey)
  {
    assert 1 in References(Made(phase));
    assert HasKind(db, Made(phase), ApiKey);
  }

  lemma ReplacedLoads(db: Db, phase: Phase)
    requires 8 in db.journal && db.journal[8] == Replaced(phase) && !phase.Blocked?
    requires (0, 1) in db.generations && db.generations[(0, 1)].kind.ApiKey?
    requires (0, 2) in db.generations && db.generations[(0, 2)].kind.ApiKey?
    ensures LoadMutation(db, 8) == Ok(Replaced(phase)) && HasKind(db, Replaced(phase), ApiKey)
  {
    assert 1 in References(Replaced(phase));
    assert HasKind(db, Replaced(phase), ApiKey);
  }

  lemma FirstIsCreated()
    ensures Step(EmptyDb, Trace[0]) == Saved
    ensures Step(Saved, Trace[1]) == CreatingDb(IntentRecorded, Retained)
  {
    assert LoadRevision(Saved, 0, 1) == Ok(Draft1);
  }

  lemma FirstIsWritten()
    ensures Step(CreatingDb(IntentRecorded, Retained), Trace[2]) == CreatingDb(VaultWritten, Available)
  {
    MadeLoads(CreatingDb(IntentRecorded, Retained), IntentRecorded);
  }

  lemma FirstIsPointed()
    ensures Step(CreatingDb(VaultWritten, Available), Trace[3]) == PointedDb(PointerCommitted)
  {
    var db := CreatingDb(VaultWritten, Available);
    MadeLoads(db, VaultWritten);
    assert LoadRevision(db, 0, 1) == Ok(Draft1);
    assert (0, 1) in db.revisions;
  }

  lemma FirstIsCompleted()
    ensures Step(PointedDb(PointerCommitted), Trace[4]) == PointedDb(Completed)
  {
    MadeLoads(PointedDb(PointerCommitted), PointerCommitted);
  }

  lemma SecondIsStaged()
    ensures Step(PointedDb(Completed), Trace[5]) == ReplacingDb(IntentRecorded, Available, Retained)
  {
    assert LoadRevision(PointedDb(Completed), 0, 2) == Ok(Draft2);
  }

  lemma SecondIsWritten()
    ensures Step(ReplacingDb(IntentRecorded, Available, Retained), Trace[6])
            == ReplacingDb(VaultWritten, Available, Available)
  {
    ReplacedLoads(ReplacingDb(IntentRecorded, Available, Retained), IntentRecorded);
  }

  lemma SecondMatches()
    ensures var db := ReplacingDb(VaultWritten, Available, Available);
            && LoadMutation(db, 8) == Ok(Replaced(VaultWritten)) && LoadRevision(db, 0, 2) == Ok(Draft2)
            && PointerMoves(db, ReplaceCommit) && NextRevision(db, 0, 3)
  {
    var db := ReplacingDb(VaultWritten, Available, Available);
    ReplacedLoads(db, VaultWritten);
    assert LoadRevision(db, 0, 2) == Ok(Draft2);
    assert (0, 2) in db.revisions;
  }

  lemma PointerOfLoaded(db: Db, commit: PointerCommit, g: nat)
    requires PointerMoves(db, commit) && LoadMutation(db, commit.mutationId) == Ok(db.journal[commit.mutationId])
    requires LoadRevision(db, commit.profileId, commit.expectedRevision).Ok?
    requires commit.profileId in db.profiles && NextRevision(db, commit.profileId, commit.replacement.number)
    requires db.journal[commit.mutationId].oldGen == Some(g) && HasStatus(db, commit.profileId, g, Available)
    ensures CommitPointer(db, commit).db
            == WithStatus(WithMutation(PointerAppended(db, commit), commit.mutationId,
                                       db.journal[commit.mutationId].(phase := PointerCommitted)),
                          commit.profileId, g, Retained)
  {
  }

  lemma SecondPointedIs()
    ensures var db := ReplacingDb(VaultWritten, Available, Available);
            WithStatus(WithMutation(PointerAppended(db, ReplaceCommit), 8, Replaced(PointerCommitted)), 0, 1, Retained)
            == ReplacedDb(PointerCommitted, Retained)
  {
  }

  lemma SecondIsPointed()
    ensures Step(ReplacingDb(VaultWritten, Available, Available), Trace[7]) == ReplacedDb(PointerCommitted, Retained)
  {
    SecondMatches();
    PointerOfLoaded(ReplacingDb(VaultWritten, Available, Available), ReplaceCommit, 1);
    SecondPointedIs();
  }

  lemma FirstIsRetired()
    ensures Step(ReplacedDb(PointerCommitted, Retained), Trace[8]) == ReplacedDb(PointerCommitted, Deleted)
  {
  }

  lemma FirstIsKept()
    ensures var m := Replaced(PointerCommitted);
            CopyDropped(OldKept(ReplacedDb(PointerCommitted, Deleted), m), m) == ReplacedDb(PointerCommitted, Retained)
  {
  }

  lemma CompletionOfLoaded(db: Db, id: OperationId, m: Mutation)
    requires LoadMutation(db, id) == Ok(m) && m.phase.PointerCommitted?
    ensures CompleteMutation(db, id).db == WithMutation(CopyDropped(OldKept(db, m), m), id, m.(phase := Completed))
  {
  }

  lemma FirstComesBack()
    ensures Step(ReplacedDb(PointerCommitted, Deleted), Trace[9]) == ReplacedDb(Completed, Retained)
  {
    ReplacedLoads(ReplacedDb(PointerCommitted, Deleted), PointerCommitted);
    CompletionOfLoaded(ReplacedDb(PointerCommitted, Deleted), 8, Replaced(PointerCommitted));
    FirstIsKept();
  }

  lemma {:induction false} Resumes(db: Db, ops: seq<Op>, i: nat, later: Db)
    requires i < |ops| && Step(db, ops[i]) == later
    ensures After(db, ops[i..]) == After(later, ops[i + 1..])
  {
    assert ops[i..][1..] == ops[i + 1..];
  }

  /** Ten transactions after which a credential that was retired before its replacement completed is
      retained again. */
  lemma CompletionRevivesATombstone()
    ensures After(EmptyDb, Trace[..9]) == ReplacedDb(PointerCommitted, Deleted)
    ensures After(EmptyDb, Trace) == ReplacedDb(Completed, Retained)
  {
    Creates(Trace[..9]);
    Retires(Trace[..9]);
    Creates(Trace);
    Retires(Trace);
    FirstComesBack();
    Resumes(ReplacedDb(PointerCommitted, Deleted), Trace, 9, ReplacedDb(Completed, Retained));
    assert Trace[..9][9..] == [] && Trace[10..] == [];
  }

  lemma Creates(ops: seq<Op>)
    requires |ops| >= 5 && forall i | 0 <= i < 5 :: ops[i] == Trace[i]
    ensures After(EmptyDb, ops) == After(PointedDb(Completed), ops[5..])
  {
    assert ops[0..] == ops;
    FirstIsCreated();
    Resumes(EmptyDb, ops, 0, Saved);
    Resumes(Saved, ops, 1, CreatingDb(IntentRecorded, Retained));
    FirstIsWritten();
    Resumes(CreatingDb(IntentRecorded, Retained), ops, 2, CreatingDb(VaultWritten, Available));
    FirstIsPointed();
    Resumes(CreatingDb(VaultWritten, Available), ops, 3, PointedDb(PointerCommitted));
    FirstIsCompleted();
    Resumes(PointedDb(PointerCommitted), ops, 4, PointedDb(Completed));
  }

  lemma Retires(ops: seq<Op>)
    requires |ops| >= 9 && forall i | 5 <= i < 9 :: ops[i] == Trace[i]
    ensures After(PointedDb(Completed), ops[5..]) == After(ReplacedDb(PointerCommitted, Deleted), ops[9..])
  {
    SecondIsStaged();
    Resumes(PointedDb(Completed), ops, 5, ReplacingDb(IntentRecorded, Available, Retained));
    SecondIsWritten();
    Resumes(ReplacingDb(IntentRecorded, Available, Retained), ops, 6, ReplacingDb(VaultWritten, Available, Available));
    SecondIsPointed();
    Resumes(ReplacingDb(VaultWritten, Available, Available), ops, 7, ReplacedDb(PointerCommitted, Retained));
    FirstIsRetired();
    Resumes(ReplacedDb(PointerCommitted, Retained), ops, 8, ReplacedDb(PointerCommitted, Deleted));
  }
}
