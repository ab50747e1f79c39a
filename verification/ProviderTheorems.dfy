/** What callers of the provider repository may rely on, over every run of it. */
module ProviderTheorems {
  import opened Wrappers
  import opened ProviderDomain
  import opened ProviderStore
  import opened ProviderSteps
  import opened ProviderWrites
  import opened ProviderTables
  import opened ProviderInvariants
  import opened ProviderHistory

  // ---------- a mutation moves at most three times ----------

  function Rank(phase: Phase): nat {
    match phase
    case IntentRecorded => 3
    case VaultWritten => 2
    case PointerCommitted => 1
    case CleanupPending => 1
    case _ => 0
  }

  lemma OneMoves(db: Db, later: Db, id: OperationId, next: Mutation)
    requires id in db.journal && later.journal == db.journal[id := next] && StoreMove(db.journal[id], next)
    ensures JournalMovesOnce(db, later)
  {
  }

  lemma NothingMoves(db: Db, later: Db)
    requires later.journal == db.journal
    ensures JournalMovesOnce(db, later)
  {
  }

  lemma CommitMovesOnce(db: Db, commit: PointerCommit)
    ensures JournalMovesOnce(db, CommitPointer(db, commit).db)
  {
    CommitWrites(db, commit);
    var id, later := commit.mutationId, CommitPointer(db, commit).db;
    if later == db {
      NothingMoves(db, later);
    } else {
      var m := db.journal[id];
      if later.journal == db.journal[id := m.(phase := CleanupPending)] {
        OneMoves(db, later, id, m.(phase := CleanupPending));
      } else {
        OneMoves(db, later, id, m.(phase := PointerCommitted));
      }
    }
  }

  lemma CompleteMovesOnce(db: Db, id: OperationId)
    ensures JournalMovesOnce(db, CompleteMutation(db, id).db)
  {
    CompleteWrites(db, id);
    var later := CompleteMutation(db, id).db;
    if later == db {
      NothingMoves(db, later);
    } else {
      CleanedJournal(db, db.journal[id]);
      assert LoadMutation(db, id).Ok?;
      OneMoves(db, later, id, db.journal[id].(phase := Completed));
    }
  }

  lemma BlockMovesOnce(db: Db, id: OperationId, code: ErrorCode)
    ensures JournalMovesOnce(db, BlockMutation(db, id, code).db)
  {
    BlockWrites(db, id, code);
    var later := BlockMutation(db, id, code).db;
    if later == db {
      NothingMoves(db, later);
    } else {
      OneMoves(db, later, id, db.journal[id].(phase := Blocked, error := Some(code)));
    }
  }

  lemma VaultWriteMovesOnce(db: Db, id: OperationId)
    ensures JournalMovesOnce(db, RecordVaultWrite(db, id).db)
  {
    VaultWrites(db, id);
  }

  lemma RollbackMovesOnce(db: Db, id: OperationId)
    ensures JournalMovesOnce(db, RollbackMutation(db, id).db)
  {
    RollbackWrites(db, id);
  }

  lemma BeginMovesNothing(db: Db, intent: Intent)
    ensures JournalMovesOnce(db, BeginMutation(db, intent).db)
  {
  }

  lemma TablesMoveNothing(db: Db, op: Op)
    requires !op.VaultWrite? && !op.Rollback? && !op.Begin? && !op.PointTo? && !op.Complete? && !op.Block?
    ensures Step(db, op).journal == db.journal
  {
  }

  lemma StepMovesOnce(db: Db, op: Op)
    ensures JournalMovesOnce(db, Step(db, op))
  {
    match op
    case PointTo(commit) => CommitMovesOnce(db, commit);
    case Complete(id) => CompleteMovesOnce(db, id);
    case Block(id, code) => BlockMovesOnce(db, id, code);
    case VaultWrite(id) => VaultWriteMovesOnce(db, id);
    case Rollback(id) => RollbackMovesOnce(db, id);
    case Begin(intent) => BeginMovesNothing(db, intent);
    case _ => TablesMoveNothing(db, op);
  }

  /** How often the phase of one record changes along a run. */
  function Moves(db: Db, ops: seq<Op>, id: OperationId): nat
    decreases |ops|
  {
    if ops == [] then 0
    else
      var next := Step(db, ops[0]);
      Moves(next, ops[1..], id)
      + (if id in db.journal && id in next.journal && db.journal[id].phase != next.journal[id].phase then 1 else 0)
  }

  /** Every transaction that moves a record strictly lowers its rank, so a run moves it at most as
      often as the rank it had: three times from its beginning, never again once closed. */
  lemma {:induction false} MovesAreBounded(db: Db, ops: seq<Op>, id: OperationId)
    requires id in db.journal
    ensures id in After(db, ops).journal
    ensures Moves(db, ops, id) + Rank(After(db, ops).journal[id].phase) <= Rank(db.journal[id].phase) <= 3
    decreases |ops|
  {
    if ops != [] {
      StepMovesOnce(db, ops[0]);
      MovesAreBounded(Step(db, ops[0]), ops[1..], id);
    }
  }

  // ---------- closing and repeating ----------

  lemma CompleteOutcome(db: Db, id: OperationId)
    requires Tables(db) && id in db.journal && db.journal[id].phase.Open()
    ensures CompleteMutation(db, id).result.Ok? <==> db.journal[id].phase.PointerCommitted?
    ensures CompleteMutation(db, id).result.Ok? ==>
              CompleteMutation(db, id).db.journal == db.journal[id := db.journal[id].(phase := Completed)]
  {
    MutationLoads(db, id);
    CompleteWrites(db, id);
    CleanedJournal(db, db.journal[id]);
  }

  lemma RollbackOutcome(db: Db, id: OperationId)
    requires JournalFits(db) && id in db.journal && db.journal[id].phase.Open()
    ensures RollbackMutation(db, id).result.Ok? <==> BeforePointer(db.journal[id].phase)
    ensures RollbackMutation(db, id).result.Ok? ==>
              RollbackMutation(db, id).result == Ok(db.journal[id].(phase := RolledBack))
    ensures RollbackMutation(db, id).result.Ok? ==>
              var m := db.journal[id];
              && (m.profileId, m.Staged().value) in db.generations
              && RollbackMutation(db, id).db
                 == db.(journal := db.journal[id := m.(phase := RolledBack)],
                        generations := db.generations[(m.profileId, m.Staged().value) :=
                          db.generations[(m.profileId, m.Staged().value)].(status := Deleted)])
  {
    MutationLoads(db, id);
    assert MutationFits(db, db.journal[id]);
    StagedStored(db, db.journal[id]);
  }

  lemma ClosedIsFree(db: Db, later: Db, id: OperationId, next: Mutation)
    requires OneOpen(db) && id in db.journal && db.journal[id].phase.Open()
    requires later.journal == db.journal[id := next] && !next.phase.Open()
    ensures !BusyProfile(later, db.journal[id].profileId)
  {
  }

  /** An open mutation that is not blocked is closed by exactly one of complete and rollback, and
      then the profile is free for the next one. */
  lemma OpenMutationsClose(db: Db, id: OperationId)
    requires Tables(db) && id in db.journal && db.journal[id].phase.Open() && !db.journal[id].phase.Blocked?
    ensures CompleteMutation(db, id).result.Ok? <==> !RollbackMutation(db, id).result.Ok?
    ensures CompleteMutation(db, id).result.Ok? ==> !BusyProfile(CompleteMutation(db, id).db, db.journal[id].profileId)
    ensures RollbackMutation(db, id).result.Ok? ==> !BusyProfile(RollbackMutation(db, id).db, db.journal[id].profileId)
  {
    CompleteOutcome(db, id);
    RollbackOutcome(db, id);
    if db.journal[id].phase.PointerCommitted? {
      ClosedIsFree(db, CompleteMutation(db, id).db, id, db.journal[id].(phase := Completed));
    } else {
      ClosedIsFree(db, RollbackMutation(db, id).db, id, db.journal[id].(phase := RolledBack));
    }
  }

  /** A stored record loads back from every later state, and stays as it is once it is terminal. */
  lemma RecordLoadsLater(db: Db, ops: seq<Op>, id: OperationId)
    requires Tables(db) && id in db.journal
    ensures var later := After(db, ops);
            && id in later.journal && LoadMutation(later, id) == Ok(later.journal[id])
            && ErrorFits(db.journal[id].phase, db.journal[id].error)
            && ErrorFits(later.journal[id].phase, later.journal[id].error)
            && later.journal[id] == db.journal[id].(phase := later.journal[id].phase, error := later.journal[id].error)
            && (db.journal[id].phase.Terminal() ==> later.journal[id] == db.journal[id])
  {
    TablesHold(db, ops);
    RunExtends(db, ops);
    MutationLoads(db, id);
    MutationLoads(After(db, ops), id);
  }

  lemma VaultWriteStores(db: Db, id: OperationId)
    requires RecordVaultWrite(db, id).result.Ok?
    ensures var after := RecordVaultWrite(db, id).db;
            && id in after.journal && after.journal[id].phase.VaultWritten?
            && RecordVaultWrite(db, id).result == Ok(after.journal[id])
  {
  }

  lemma VaultWriteReturns(db: Db, id: OperationId)
    requires id in db.journal && LoadMutation(db, id) == Ok(db.journal[id]) && db.journal[id].phase.VaultWritten?
    ensures RecordVaultWrite(db, id) == Tx(db, Ok(db.journal[id]))
  {
  }

  /** A vault write that succeeded can be repeated in every later state in which its mutation is still
      there: it returns the same record and writes nothing. */
  lemma VaultWriteRepeats(db: Db, id: OperationId, ops: seq<Op>)
    requires Tables(db) && RecordVaultWrite(db, id).result.Ok?
    ensures var later := After(RecordVaultWrite(db, id).db, ops);
            && id in later.journal
            && (later.journal[id].phase.VaultWritten? ==>
                  RecordVaultWrite(later, id) == Tx(later, RecordVaultWrite(db, id).result))
  {
    VaultWriteTables(db, id);
    VaultWriteStores(db, id);
    RecordLoadsLater(RecordVaultWrite(db, id).db, ops, id);
    var later := After(RecordVaultWrite(db, id).db, ops);
    if later.journal[id].phase.VaultWritten? { VaultWriteReturns(later, id); }
  }

  /** A completion that succeeded can be repeated in every later state. */
  lemma CompleteRepeats(db: Db, id: OperationId, ops: seq<Op>)
    requires Tables(db) && CompleteMutation(db, id).result.Ok?
    ensures var later := After(CompleteMutation(db, id).db, ops);
            CompleteMutation(later, id) == Tx(later, CompleteMutation(db, id).result)
  {
    CompleteTables(db, id);
    RecordLoadsLater(CompleteMutation(db, id).db, ops, id);
  }

  /** So can a rollback. */
  lemma RollbackRepeats(db: Db, id: OperationId, ops: seq<Op>)
    requires Tables(db) && RollbackMutation(db, id).result.Ok?
    ensures var later := After(RollbackMutation(db, id).db, ops);
            RollbackMutation(later, id) == Tx(later, RollbackMutation(db, id).result)
  {
    RollbackTables(db, id);
    RecordLoadsLater(RollbackMutation(db, id).db, ops, id);
  }

  lemma BlockStores(db: Db, id: OperationId, code: ErrorCode)
    requires BlockMutation(db, id, code).result.Ok?
    ensures var after := BlockMutation(db, id, code).db;
            && id in after.journal && after.journal[id].phase.Blocked? && after.journal[id].error == Some(code)
            && BlockMutation(db, id, code).result == Ok(after.journal[id])
  {
  }

  /** So can a block with the same code; with another one it is refused, in every later state. */
  lemma BlockRepeats(db: Db, id: OperationId, code: ErrorCode, ops: seq<Op>, again: ErrorCode)
    requires Tables(db) && BlockMutation(db, id, code).result.Ok?
    ensures var later := After(BlockMutation(db, id, code).db, ops);
            BlockMutation(later, id, again)
            == Tx(later, if again == code then BlockMutation(db, id, code).result else Err(StorageConflict))
  {
    BlockTables(db, id, code);
    BlockStores(db, id, code);
    RecordLoadsLater(BlockMutation(db, id, code).db, ops, id);
  }

  /** Repeating a pointer commit that succeeded returns the record and writes nothing, however many
      revisions were saved, validated, activated or removed in between. */
  lemma CommitRepeats(db: Db, commit: PointerCommit, ops: seq<Op>)
    requires Tables(db) && CommitPointer(db, commit).result.Ok?
    ensures var later := After(CommitPointer(db, commit).db, ops);
            && commit.mutationId in later.journal
            && (later.journal[commit.mutationId].phase.PointerCommitted? ==>
                  CommitPointer(later, commit) == Tx(later, CommitPointer(db, commit).result))
  {
    var after := CommitPointer(db, commit).db;
    CommitTables(db, commit);
    TablesHold(after, ops);
    RunExtends(after, ops);
    CommitRecorded(db, commit);
    if After(after, ops).journal[commit.mutationId].phase.PointerCommitted? {
      CommitIsRepeated(after, After(after, ops), commit);
    }
  }

  /** The stored revision is the one this commit announced. */
  ghost predicate Recorded(db: Db, commit: PointerCommit) {
    && commit.mutationId in db.journal
    && db.journal[commit.mutationId].phase.PointerCommitted?
    && db.journal[commit.mutationId].error.None?
    && CommitMatches(db, db.journal[commit.mutationId], commit)
    && (commit.profileId, commit.replacement.number) in db.revisions
    && db.revisions[(commit.profileId, commit.replacement.number)].config == commit.replacement.config
    && (commit.replacement.generation.Some? ==>
          && (commit.profileId, commit.replacement.generation.value.number) in db.generations
          && commit.replacement.generation.value.kind
             == db.generations[(commit.profileId, commit.replacement.generation.value.number)].kind)
    && db.revisions[(commit.profileId, commit.replacement.number)].generation == Number(commit.replacement.generation)
  }

  lemma CommitRecorded(db: Db, commit: PointerCommit)
    requires Tables(db) && CommitPointer(db, commit).result.Ok?
    ensures var after := CommitPointer(db, commit).db;
            Recorded(after, commit) && CommitPointer(db, commit).result == Ok(after.journal[commit.mutationId])
  {
    var id := commit.mutationId;
    var m := db.journal[id];
    MutationLoads(db, id);
    assert MutationFits(db, m);
    if m.phase.PointerCommitted? {
      RevisionOfLoaded(db, commit.profileId, commit.replacement.number);
    } else {
      CommitCases(db, commit);
      MovedRecorded(db, commit);
    }
  }

  lemma RevisionOfLoaded(db: Db, p: ProfileId, n: nat)
    requires RevisionsNumbered(db) && RevisionsFit(db) && LoadRevision(db, p, n).Ok?
    ensures n >= 1 && (p, n) in db.revisions
    ensures var revision := LoadRevision(db, p, n).value;
            && revision.config == db.revisions[(p, n)].config
            && Number(revision.generation) == db.revisions[(p, n)].generation
            && (revision.generation.Some? ==>
                  && (p, revision.generation.value.number) in db.generations
                  && revision.generation.value.kind == db.generations[(p, revision.generation.value.number)].kind)
  {
    RevisionLoads(db, p, n);
  }

  /** The same record names generations of the same kind in every table that extends this one. */
  lemma SameKind(db: Db, later: Db, m: Mutation, next: Mutation, kind: CredentialKind)
    requires HasKind(db, m, kind) && MutationFits(db, m) && References(next) == References(m)
             && next.profileId == m.profileId
    requires forall key | key in db.generations ::
               key in later.generations && later.generations[key].kind == db.generations[key].kind
    ensures HasKind(later, next, kind)
  {
  }

  lemma MovedRecorded(db: Db, commit: PointerCommit)
    requires Tables(db) && PointerMoves(db, commit) && MutationFits(db, db.journal[commit.mutationId])
    ensures Recorded(CommitPointer(db, commit).db, commit)
  {
    var m := db.journal[commit.mutationId];
    var after := CommitPointer(db, commit).db;
    CommitCases(db, commit);
    var done := m.(phase := PointerCommitted);
    var moved := WithMutation(PointerAppended(db, commit), commit.mutationId, done);
    AppendedRecorded(db, commit);
    if after != moved { StatusRecorded(moved, commit, m.oldGen); }
  }

  lemma AppendedRecorded(db: Db, commit: PointerCommit)
    requires Tables(db) && PointerMoves(db, commit) && MutationFits(db, db.journal[commit.mutationId])
    requires commit.profileId in db.profiles
    ensures var done := db.journal[commit.mutationId].(phase := PointerCommitted);
            var moved := WithMutation(PointerAppended(db, commit), commit.mutationId, done);
            Recorded(moved, commit) && MutationFits(moved, done)
  {
    var done := db.journal[commit.mutationId].(phase := PointerCommitted);
    var moved := WithMutation(PointerAppended(db, commit), commit.mutationId, done);
    MovedMatches(db, moved, commit, done);
    MovedTables(db, commit);
    assert moved.journal[commit.mutationId] == done;
  }

  lemma MovedMatches(db: Db, moved: Db, commit: PointerCommit, done: Mutation)
    requires PointerMoves(db, commit) && MutationFits(db, db.journal[commit.mutationId])
    requires moved.generations == db.generations
    requires done == db.journal[commit.mutationId].(phase := PointerCommitted)
    ensures CommitMatches(moved, done, commit)
  {
    var m := db.journal[commit.mutationId];
    if m.newGen.Some? { SameKind(db, moved, m, done, commit.replacement.generation.value.kind); }
  }

  lemma StatusRecorded(db: Db, commit: PointerCommit, g: Option<nat>)
    requires Recorded(db, commit) && MutationFits(db, db.journal[commit.mutationId])
    ensures g.Some? ==> Recorded(WithStatus(db, commit.profileId, g.value, Retained), commit)
  {
    var m := db.journal[commit.mutationId];
    if g.Some? && m.newGen.Some? {
      SameKind(db, WithStatus(db, commit.profileId, g.value, Retained), m, m, commit.replacement.generation.value.kind);
    }
  }

  lemma MatchesLater(db: Db, later: Db, commit: PointerCommit)
    requires Extends(db, later) && Recorded(db, commit) && JournalFits(db)
    ensures CommitMatches(later, db.journal[commit.mutationId], commit)
  {
    var m := db.journal[commit.mutationId];
    assert MutationFits(db, m);
    if m.newGen.Some? { SameKind(db, later, m, m, commit.replacement.generation.value.kind); }
  }

  lemma CommitIsRepeated(db: Db, later: Db, commit: PointerCommit)
    requires Tables(db) && Tables(later) && Extends(db, later) && Recorded(db, commit)
    requires later.journal[commit.mutationId].phase.PointerCommitted?
    ensures CommitPointer(later, commit) == Tx(later, Ok(db.journal[commit.mutationId]))
  {
    MutationLoads(later, commit.mutationId);
    RecordUnchanged(db, later, commit.mutationId);
    MatchesLater(db, later, commit);
    LoadedLater(db, later, commit);
    CommitReturns(later, commit);
  }

  lemma CommitReturns(db: Db, commit: PointerCommit)
    requires commit.mutationId in db.journal && LoadMutation(db, commit.mutationId) == Ok(db.journal[commit.mutationId])
    requires db.journal[commit.mutationId].phase.PointerCommitted?
    requires CommitMatches(db, db.journal[commit.mutationId], commit)
    requires var loaded := LoadRevision(db, commit.profileId, commit.replacement.number);
             && loaded.Ok? && loaded.value.config == commit.replacement.config
             && loaded.value.generation == commit.replacement.generation
    ensures CommitPointer(db, commit) == Tx(db, Ok(db.journal[commit.mutationId]))
  {
  }

  lemma RecordUnchanged(db: Db, later: Db, id: OperationId)
    requires JournalFits(db) && JournalFits(later) && JournalExtends(db, later) && id in db.journal
    requires db.journal[id].phase.PointerCommitted? && later.journal[id].phase.PointerCommitted?
    ensures later.journal[id] == db.journal[id]
  {
    assert MutationFits(db, db.journal[id]) && MutationFits(later, later.journal[id]);
  }

  lemma LoadedLater(db: Db, later: Db, commit: PointerCommit)
    requires RevisionsFit(later) && RevisionsExtend(db, later) && GenerationsExtend(db, later) && Recorded(db, commit)
    ensures var loaded := LoadRevision(later, commit.profileId, commit.replacement.number);
            && loaded.Ok? && loaded.value.config == commit.replacement.config
            && loaded.value.generation == commit.replacement.generation
  {
    RevisionLoads(later, commit.profileId, commit.replacement.number);
  }

  // ---------- the pointer commit and an intervening edit ----------

  /** When the profile was edited or removed since the mutation began, the commit fails, no revision
      and no pointer moves, and the journal remembers to clean up; a rollback from there tombstones
      nothing but the staged generation, which no revision names unless an unsafe save did. */
  lemma InterveningEditWins(db: Db, commit: PointerCommit)
    requires Tables(db) && commit.mutationId in db.journal && db.journal[commit.mutationId].phase.VaultWritten?
    requires CurrentRevision(db, db.journal[commit.mutationId].profileId)
             != Some(db.journal[commit.mutationId].expectedRevision)
    ensures var tx, id := CommitPointer(db, commit), commit.mutationId;
            var m := db.journal[id];
            && tx.result == Err(StorageConflict)
            && tx.db == db.(journal := db.journal[id := m.(phase := CleanupPending)])
            && var undone := RollbackMutation(tx.db, id);
               && undone.result == Ok(m.(phase := RolledBack))
               && (m.profileId, m.Staged().value) in tx.db.generations
               && undone.db == tx.db.(journal := tx.db.journal[id := m.(phase := RolledBack)],
                                      generations := tx.db.generations[(m.profileId, m.Staged().value) :=
                                        tx.db.generations[(m.profileId, m.Staged().value)].(status := Deleted)])
               && (JournalHidden(db) ==> Unreferenced(undone.db, m.profileId, m.Staged().value))
  {
    var id := commit.mutationId;
    var m := db.journal[id];
    EditMakesStale(db, commit);
    CommitTables(db, commit);
    assert JournalHidden(db) ==> StagedHidden(db, m);
    CleanupOutcome(CommitPointer(db, commit).db, id);
    assert m.(phase := CleanupPending).(phase := RolledBack) == m.(phase := RolledBack);
  }

  /** Rolling back a pending cleanup tombstones the staged generation and nothing else. */
  lemma CleanupOutcome(db: Db, id: OperationId)
    requires Tables(db) && id in db.journal && db.journal[id].phase.CleanupPending?
    ensures var m := db.journal[id];
            && (m.profileId, m.Staged().value) in db.generations
            && RollbackMutation(db, id)
               == Tx(db.(journal := db.journal[id := m.(phase := RolledBack)],
                         generations := db.generations[(m.profileId, m.Staged().value) :=
                           db.generations[(m.profileId, m.Staged().value)].(status := Deleted)]),
                     Ok(m.(phase := RolledBack)))
  {
    RollbackOutcome(db, id);
    assert MutationFits(db, db.journal[id]);
  }

  lemma EditMakesStale(db: Db, commit: PointerCommit)
    requires Tables(db) && commit.mutationId in db.journal && db.journal[commit.mutationId].phase.VaultWritten?
    requires CurrentRevision(db, db.journal[commit.mutationId].profileId)
             != Some(db.journal[commit.mutationId].expectedRevision)
    ensures CommitPointer(db, commit)
            == Tx(db.(journal :=
                      db.journal[commit.mutationId := db.journal[commit.mutationId].(phase := CleanupPending)]),
                  Err(StorageConflict))
    ensures db.journal[commit.mutationId].Staged().Some?
    ensures (db.journal[commit.mutationId].profileId, db.journal[commit.mutationId].Staged().value) in db.generations
  {
    assert MutationFits(db, db.journal[commit.mutationId]);
    StagedStored(db, db.journal[commit.mutationId]);
    CommitCases(db, commit);
  }

  /** Otherwise the new current revision is its predecessor with the next number, the announced
      credential and no validation; nothing else moves but the old credential, which is retained. */
  lemma CommitMovesThePointer(db: Db, commit: PointerCommit)
    requires Tables(db) && PointerMoves(db, commit)
    ensures var tx := CommitPointer(db, commit);
            var m, p, n := db.journal[commit.mutationId], commit.profileId, commit.expectedRevision;
            && tx.result == Ok(m.(phase := PointerCommitted))
            && p in db.profiles && n == db.profiles[p].current
            && tx.db.profiles == db.profiles[p := db.profiles[p].(current := n + 1)]
            && tx.db.revisions == db.revisions[(p, n + 1) :=
                 db.revisions[(p, n)].(generation := m.newGen, state := Draft, validation := None)]
            && tx.db == db.(profiles := tx.db.profiles, revisions := tx.db.revisions,
                            generations := tx.db.generations, journal := tx.db.journal)
            && (forall key :: key in tx.db.generations <==> key in db.generations)
            && (forall key | key in db.generations && (key.0 != p || Some(key.1) != m.oldGen) ::
                  tx.db.generations[key] == db.generations[key])
            && (m.oldGen.Some? ==> !HasStatus(tx.db, p, m.oldGen.value, Available))
  {
    CommitCases(db, commit);
    CommitAppendsRevision(db, commit);
    CommitRetires(db, commit);
  }

  lemma CommitRetires(db: Db, commit: PointerCommit)
    requires Tables(db) && PointerMoves(db, commit)
    ensures var m, after := db.journal[commit.mutationId], CommitPointer(db, commit).db;
            && (forall key :: key in after.generations <==> key in db.generations)
            && (forall key | key in db.generations && (key.0 != commit.profileId || Some(key.1) != m.oldGen) ::
                  after.generations[key] == db.generations[key])
            && (m.oldGen.Some? ==> !HasStatus(after, commit.profileId, m.oldGen.value, Available))
  {
    var m := db.journal[commit.mutationId];
    CommitCases(db, commit);
    var moved := WithMutation(PointerAppended(db, commit), commit.mutationId, m.(phase := PointerCommitted));
    assert moved.generations == db.generations;
    if m.oldGen.Some? { OnlyRetains(moved, commit.profileId, m.oldGen.value); }
  }

  lemma OnlyRetains(db: Db, p: ProfileId, g: nat)
    ensures var after := WithStatus(db, p, g, Retained);
            && (forall key :: key in after.generations <==> key in db.generations)
            && (forall key | key in db.generations && key != (p, g) :: after.generations[key] == db.generations[key])
            && !HasStatus(after, p, g, Available)
  {
  }

  lemma CommitAppendsRevision(db: Db, commit: PointerCommit)
    requires Tables(db) && PointerMoves(db, commit)
    ensures var m, p, n := db.journal[commit.mutationId], commit.profileId, commit.expectedRevision;
            && p in db.profiles && n == db.profiles[p].current && (p, n) in db.revisions
            && DraftRow(commit.replacement)
               == db.revisions[(p, n)].(generation := m.newGen, state := Draft, validation := None)
  {
    CommitCases(db, commit);
    RevisionLoads(db, commit.profileId, commit.expectedRevision);
  }

  // ---------- fail-closed activation ----------

  /** A snapshot that a reader gets is validated, once, by passing evidence about exactly its
      configuration and credential; its profile exists and has no blocked mutation. */
  ghost predicate FailsClosed(db: Db) {
    && Active(db) == (if db.active.None? then Ok(None)
                      else if BlockedProfile(db, db.active.value.profileId) then Err(CredentialBlocked)
                      else Ok(db.active))
    && (db.active.Some? ==>
          var a := db.active.value;
          var revision := LoadRevision(db, a.profileId, a.revision);
          && Existing(db, a.profileId)
          && revision.Ok? && revision.value.state.Ready?
          && revision.value.validation == Some(Evidence(a.validationId, a.digest, true))
          && a.digest == revision.value.Inputs(a.digest.versions)
          && Number(revision.value.generation) == Some(a.generation)
          && (forall id | id in db.validations :: id == a.validationId
                <==> db.validations[id].profileId == a.profileId && db.validations[id].revision == a.revision))
  }

  lemma TablesFailClosed(db: Db)
    requires Tables(db)
    ensures FailsClosed(db)
  {
    if db.active.Some? {
      var a := db.active.value;
      RevisionLoads(db, a.profileId, a.revision);
      assert Validated(db, (a.profileId, a.revision), db.revisions[(a.profileId, a.revision)]);
    }
  }

  /** Activation fails closed after every run from the empty tables. */
  lemma ActiveFailsClosed(ops: seq<Op>)
    ensures FailsClosed(After(EmptyDb, ops))
  {
    EmptyTables();
    TablesHold(EmptyDb, ops);
    TablesFailClosed(After(EmptyDb, ops));
  }

  /** A blocked mutation stays as it is through every run: its profile can begin no other, and no
      reader is given its snapshot, even when somebody activates it again. */
  lemma BlockedForever(db: Db, id: OperationId, ops: seq<Op>, intent: Intent)
    requires id in db.journal && db.journal[id].phase.Blocked? && intent.profileId == db.journal[id].profileId
    ensures var later := After(db, ops);
            && id in later.journal && later.journal[id] == db.journal[id]
            && BeginMutation(later, intent) == Tx(later, Err(CredentialBlocked))
            && (later.active.Some? && later.active.value.profileId == intent.profileId ==>
                  Active(later) == Err(CredentialBlocked))
  {
    RunExtends(db, ops);
    BlockedStays(db, After(db, ops), id);
    BlockedRefuses(After(db, ops), id, intent);
  }

  lemma BlockedStays(db: Db, later: Db, id: OperationId)
    requires JournalExtends(db, later) && id in db.journal && db.journal[id].phase.Blocked?
    ensures id in later.journal && later.journal[id] == db.journal[id]
  {
  }

  lemma BlockedRefuses(db: Db, id: OperationId, intent: Intent)
    requires id in db.journal && db.journal[id].phase.Blocked? && intent.profileId == db.journal[id].profileId
    ensures BeginMutation(db, intent) == Tx(db, Err(CredentialBlocked))
    ensures db.active.Some? && db.active.value.profileId == intent.profileId ==> Active(db) == Err(CredentialBlocked)
  {
    assert BlockedProfile(db, intent.profileId) && BusyProfile(db, intent.profileId);
  }

  // ---------- numbering ----------

  /** Generation numbers of a profile only grow: whatever happened to an earlier mutation, rollback
      included, a later one stages a greater number. */
  lemma GenerationNumbersGrow(db: Db, first: Intent, ops: seq<Op>, second: Intent)
    requires BeginMutation(db, first).result.Ok? && first.profileId == second.profileId
    requires BeginMutation(After(BeginMutation(db, first).db, ops), second).result.Ok?
    ensures Record(first).Staged().Some? && Record(second).Staged().Some?
    ensures Record(first).Staged().value < Record(second).Staged().value
  {
    var begun := BeginMutation(db, first).db;
    var later := After(begun, ops);
    RunExtends(begun, ops);
    var key := (first.profileId, Record(first).Staged().value);
    assert key in begun.generations && key in later.generations;
    assert NewestGeneration(later, second.profileId, Record(second).Staged().value);
  }

  /** After every run the revisions of a profile are numbered 1..current, and what a revision says
      never changes in any run that follows. */
  lemma RevisionsAreHistory(before: seq<Op>, ops: seq<Op>, p: ProfileId, n: nat)
    ensures var db := After(EmptyDb, before);
            var later := After(db, ops);
            && ((p, n) in later.revisions <==> p in later.profiles && 1 <= n <= later.profiles[p].current)
            && ((p, n) in db.revisions ==>
                  && (p, n) in later.revisions
                  && later.revisions[(p, n)].config == db.revisions[(p, n)].config
                  && later.revisions[(p, n)].generation == db.revisions[(p, n)].generation
                  && (db.revisions[(p, n)].validation.Some? ==> later.revisions[(p, n)] == db.revisions[(p, n)]))
  {
    var db := After(EmptyDb, before);
    EmptyTables();
    TablesHold(EmptyDb, before);
    TablesHold(db, ops);
    RunExtends(db, ops);
    var key := (p, n);
    var later := After(db, ops);
    assert key in later.revisions <==> key.0 in later.profiles && 1 <= key.1 <= later.profiles[key.0].current;
  }

  /** After every run each profile has at most one mutation that is neither completed nor rolled back. */
  lemma OneMutationAtATime(ops: seq<Op>, a: OperationId, b: OperationId)
    requires a in After(EmptyDb, ops).journal && b in After(EmptyDb, ops).journal
    requires After(EmptyDb, ops).journal[a].profileId == After(EmptyDb, ops).journal[b].profileId
    requires After(EmptyDb, ops).journal[a].phase.Open() && After(EmptyDb, ops).journal[b].phase.Open()
    ensures a == b
  {
    EmptyTables();
    TablesHold(EmptyDb, ops);
  }
}
