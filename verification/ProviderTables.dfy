/** What holds of the provider tables after every run, whatever revisions its callers save: how the
    rows of the tables fit together. */
module ProviderTables {
  import opened Wrappers
  import opened ProviderDomain
  import opened ProviderStore
  import opened ProviderSteps
  import opened ProviderWrites

  // ---------- shape of the tables ----------

  /** Revision numbers are exactly 1..current for each profile. */
  ghost predicate RevisionsNumbered(db: Db) {
    && (forall p | p in db.profiles :: db.profiles[p].current >= 1)
    && (forall key :: key in db.revisions <==> key.0 in db.profiles && 1 <= key.1 <= db.profiles[key.0].current)
  }

  /** A revision that carries evidence carries evidence about itself, and its state says which. */
  ghost predicate Validated(db: Db, key: (ProfileId, nat), row: RevisionRow) {
    && (row.state.Draft? <==> row.validation.None?)
    && (row.validation.Some? ==>
          && row.validation.value in db.validations
          && row.generation.Some?
          && (key.0, row.generation.value) in db.generations
          && var v := db.validations[row.validation.value];
             && v.profileId == key.0 && v.revision == key.1 && v.generation == row.generation.value
             && v.passed == row.state.Ready?
             && v.digest == Digest(key.0, key.1, row.config,
                                   Some(Generation(key.0, v.generation, db.generations[(key.0, v.generation)].kind)),
                                   v.digest.versions))
  }

  ghost predicate RevisionsFit(db: Db) {
    forall key | key in db.revisions ::
      CredentialFits(db, key.0, db.revisions[key].config, db.revisions[key].generation)
      && Validated(db, key, db.revisions[key])
  }

  /** A validation row belongs to the revision that names it, so no revision is validated twice. */
  ghost predicate ValidationsOwned(db: Db) {
    forall id | id in db.validations ::
      && (db.validations[id].profileId, db.validations[id].revision) in db.revisions
      && db.revisions[(db.validations[id].profileId, db.validations[id].revision)].validation == Some(id)
  }

  ghost predicate GenerationsOwned(db: Db) {
    forall key | key in db.generations :: key.0 in db.profiles
  }

  ghost predicate MutationFits(db: Db, m: Mutation) {
    && m.profileId in db.profiles
    && ErrorFits(m.phase, m.error)
    && 1 <= m.expectedRevision <= db.profiles[m.profileId].current
    && ShapeValid(m.operation, m.oldGen, m.newGen, m.rollbackGen)
    && (forall g | g in References(m) :: (m.profileId, g) in db.generations)
    && (HasKind(db, m, ApiKey) || HasKind(db, m, OAuthConnection))
  }

  ghost predicate JournalFits(db: Db) {
    forall id | id in db.journal :: MutationFits(db, db.journal[id])
  }

  /** At most one mutation of a profile is neither completed nor rolled back. */
  ghost predicate OneOpen(db: Db) {
    forall a, b | a in db.journal && b in db.journal
                  && db.journal[a].profileId == db.journal[b].profileId
                  && db.journal[a].phase.Open() && db.journal[b].phase.Open() :: a == b
  }

  /** No two mutations of a profile create the same generation. */
  ghost predicate StagedDistinct(db: Db) {
    forall a, b | a in db.journal && b in db.journal && a != b
                  && db.journal[a].profileId == db.journal[b].profileId ::
                     db.journal[a].Staged() != db.journal[b].Staged()
  }

  ghost predicate ActiveFits(db: Db) {
    db.active.Some? ==> PassingValidation(db, db.active.value) && Existing(db, db.active.value.profileId)
  }

  ghost predicate BindingsFit(db: Db) {
    forall run | run in db.bindings :: run in db.runs && PassingValidation(db, db.bindings[run])
  }

  ghost predicate RevisionTables(db: Db) {
    RevisionsNumbered(db) && RevisionsFit(db) && ValidationsOwned(db) && GenerationsOwned(db)
  }

  ghost predicate Journal(db: Db) {
    JournalFits(db) && OneOpen(db) && StagedDistinct(db)
  }

  ghost predicate Tables(db: Db) {
    RevisionTables(db) && Journal(db) && ActiveFits(db) && BindingsFit(db)
  }

  lemma EmptyTables()
    ensures Tables(EmptyDb)
  {
  }

  // ---------- what the tables say about one row ----------

  /** Every stored revision can be rebuilt, with its own columns. */
  lemma RevisionLoads(db: Db, p: ProfileId, n: nat)
    requires RevisionsFit(db) && (p, n) in db.revisions && n >= 1
    ensures var loaded := LoadRevision(db, p, n);
            && loaded.Ok?
            && loaded.value.config == db.revisions[(p, n)].config
            && loaded.value.state == db.revisions[(p, n)].state
            && Number(loaded.value.generation) == db.revisions[(p, n)].generation
            && (loaded.value.generation.Some? ==>
                  && (p, loaded.value.generation.value.number) in db.generations
                  && loaded.value.generation.value
                     == Generation(p, loaded.value.generation.value.number,
                                   db.generations[(p, loaded.value.generation.value.number)].kind))
            && (loaded.value.validation.Some? <==> db.revisions[(p, n)].validation.Some?)
            && (loaded.value.validation.Some? ==>
                  && db.revisions[(p, n)].validation == Some(loaded.value.validation.value.id)
                  && loaded.value.validation.value.id in db.validations
                  && loaded.value.validation.value
                     == Evidence(loaded.value.validation.value.id,
                                 db.validations[loaded.value.validation.value.id].digest,
                                 db.validations[loaded.value.validation.value.id].passed))
  {
    var key := (p, n);
    assert CredentialFits(db, key.0, db.revisions[key].config, db.revisions[key].generation);
    assert Validated(db, key, db.revisions[key]);
  }

  /** The snapshot of a ready revision passes the trigger on the active slot. */
  lemma ReadyPasses(db: Db, p: ProfileId, n: nat, activation: nat)
    requires RevisionsFit(db) && (p, n) in db.revisions && n >= 1
    requires FromReady(LoadRevision(db, p, n).value, activation).Ok? || db.revisions[(p, n)].state.Ready?
    ensures LoadRevision(db, p, n).Ok?
    ensures var snapshot := FromReady(LoadRevision(db, p, n).value, activation);
            snapshot.Ok? && PassingValidation(db, snapshot.value) && snapshot.value.activation == activation
            && snapshot.value.profileId == p && snapshot.value.revision == n
            && db.revisions[(p, n)].generation == Some(snapshot.value.generation)
  {
    RevisionLoads(db, p, n);
    assert Validated(db, (p, n), db.revisions[(p, n)]);
  }

  /** A bound or active generation is the one of its revision. */
  lemma PassingNames(db: Db, a: Activation)
    requires RevisionsFit(db) && PassingValidation(db, a)
    ensures db.revisions[(a.profileId, a.revision)].generation == Some(a.generation)
    ensures (a.profileId, a.generation) in db.generations
  {
    var key := (a.profileId, a.revision);
    assert Validated(db, key, db.revisions[key]);
  }

  /** A stored mutation loads as it is. */
  lemma MutationLoads(db: Db, id: OperationId)
    requires JournalFits(db) && id in db.journal
    ensures LoadMutation(db, id) == Ok(db.journal[id])
  {
    assert MutationFits(db, db.journal[id]);
  }

  /** A stored record has staged a generation that exists. */
  lemma StagedStored(db: Db, m: Mutation)
    requires MutationFits(db, m)
    ensures m.Staged().Some? && (m.profileId, m.Staged().value) in db.generations
  {
    assert m.Staged().value in References(m);
  }

  // ---------- changes that keep the tables ----------

  /** Revisions, validations and the kinds of generations stay; new generations may appear. */
  ghost predicate Frame(db: Db, after: Db) {
    && after.revisions == db.revisions && after.validations == db.validations
    && after.profiles.Keys == db.profiles.Keys
    && (forall p | p in db.profiles :: after.profiles[p].current == db.profiles[p].current)
    && (forall key | key in db.generations ::
          key in after.generations && after.generations[key].kind == db.generations[key].kind)
    && GenerationsOwned(after)
  }

  lemma FrameKeepsTables(db: Db, after: Db)
    requires Frame(db, after) && RevisionTables(db)
    ensures RevisionTables(after)
  {
    forall key | key in after.revisions
      ensures CredentialFits(after, key.0, after.revisions[key].config, after.revisions[key].generation)
              && Validated(after, key, after.revisions[key])
    {
      assert CredentialFits(db, key.0, db.revisions[key].config, db.revisions[key].generation);
      assert Validated(db, key, db.revisions[key]);
    }
  }

  lemma FrameKeepsMutation(db: Db, after: Db, m: Mutation)
    requires Frame(db, after) && MutationFits(db, m)
    ensures MutationFits(after, m)
  {
    if HasKind(db, m, ApiKey) { assert HasKind(after, m, ApiKey); } else { assert HasKind(after, m, OAuthConnection); }
  }

  lemma FrameKeepsBindings(db: Db, after: Db)
    requires BindingsFit(db) && after.revisions == db.revisions && after.validations == db.validations
    requires after.bindings == db.bindings && after.runs == db.runs
    ensures BindingsFit(after)
  {
    forall run | run in after.bindings ensures run in after.runs && PassingValidation(after, after.bindings[run]) {
      assert PassingValidation(db, db.bindings[run]);
    }
  }

  predicate BeforePointer(phase: Phase) {
    phase.IntentRecorded? || phase.VaultWritten? || phase.CleanupPending?
  }

  /** The mutation can still tombstone what it staged: by a rollback before its pointer commit, or by
      completing, when what it staged is a rollback copy. */
  predicate MayTombstone(m: Mutation) {
    BeforePointer(m.phase) || (m.phase.PointerCommitted? && m.rollbackGen.Some?)
  }

  /** The journal row may advance: it keeps what it names and never reopens or goes back. */
  ghost predicate Advances(m: Mutation, next: Mutation) {
    && next == m.(phase := next.phase, error := next.error)
    && ErrorFits(next.phase, next.error)
    && (next.phase.Open() ==> m.phase.Open())
    && (MayTombstone(next) ==> MayTombstone(m))
  }

  lemma AdvanceKeepsMutation(db: Db, m: Mutation, next: Mutation)
    requires MutationFits(db, m) && Advances(m, next)
    ensures MutationFits(db, next)
  {
    assert References(next) == References(m);
    if HasKind(db, m, ApiKey) { assert HasKind(db, next, ApiKey); } else { assert HasKind(db, next, OAuthConnection); }
  }

  ghost predicate JournalMoves(db: Db, after: Db) {
    && after.journal.Keys == db.journal.Keys
    && (forall id | id in db.journal :: Advances(db.journal[id], after.journal[id]))
  }

  lemma MovedKeepsJournal(db: Db, after: Db)
    requires Frame(db, after) && JournalMoves(db, after) && Journal(db)
    ensures Journal(after)
  {
    forall id | id in after.journal ensures MutationFits(after, after.journal[id]) {
      assert Advances(db.journal[id], after.journal[id]);
      assert MutationFits(db, db.journal[id]);
      AdvanceKeepsMutation(db, db.journal[id], after.journal[id]);
      FrameKeepsMutation(db, after, after.journal[id]);
    }
    MovedKeepsPairs(db, after);
  }

  lemma MovedKeepsPairs(db: Db, after: Db)
    requires JournalMoves(db, after) && OneOpen(db) && StagedDistinct(db)
    ensures OneOpen(after) && StagedDistinct(after)
  {
    forall a, b | a in after.journal && b in after.journal && a != b
                  && after.journal[a].profileId == after.journal[b].profileId
      ensures after.journal[a].Staged() != after.journal[b].Staged()
      ensures !after.journal[a].phase.Open() || !after.journal[b].phase.Open()
    {
      assert Advances(db.journal[a], after.journal[a]) && Advances(db.journal[b], after.journal[b]);
    }
  }

  lemma Moved(db: Db, after: Db)
    requires Tables(db) && Frame(db, after) && JournalMoves(db, after)
    requires after.active == db.active || after.active.None?
    requires after.active.Some? ==> Existing(after, after.active.value.profileId)
    requires after.bindings == db.bindings && after.runs == db.runs
    ensures Tables(after)
  {
    FrameKeepsTables(db, after);
    MovedKeepsJournal(db, after);
    FrameKeepsBindings(db, after);
  }

  lemma JournalStays(db: Db)
    requires JournalFits(db)
    ensures forall later: Db | later.journal == db.journal :: JournalMoves(db, later)
  {
    forall id | id in db.journal ensures Advances(db.journal[id], db.journal[id]) {
      assert MutationFits(db, db.journal[id]);
    }
  }

  lemma StatusTables(db: Db, p: ProfileId, g: nat, status: GenerationStatus)
    requires Tables(db)
    ensures Tables(WithStatus(db, p, g, status))
  {
    var after := WithStatus(db, p, g, status);
    StatusFrames(db, p, g, status);
    JournalStays(db);
    Moved(db, after);
  }

  lemma StatusFrames(db: Db, p: ProfileId, g: nat, status: GenerationStatus)
    requires GenerationsOwned(db)
    ensures Frame(db, WithStatus(db, p, g, status)) && WithStatus(db, p, g, status).journal == db.journal
  {
  }

  lemma PhaseTables(db: Db, id: OperationId, next: Mutation)
    requires Tables(db) && id in db.journal && Advances(db.journal[id], next)
    ensures Tables(WithMutation(db, id, next))
  {
    var after := WithMutation(db, id, next);
    JournalStays(db);
    assert JournalMoves(db, db);
    forall i | i in db.journal ensures Advances(db.journal[i], after.journal[i]) {}
    Moved(db, after);
  }

  lemma ActiveTables(db: Db, active: Option<Activation>)
    requires Tables(db)
    requires active.Some? ==> PassingValidation(db, active.value) && Existing(db, active.value.profileId)
    ensures Tables(db.(active := active))
  {
    var after := db.(active := active);
    JournalStays(db);
    FrameKeepsTables(db, after);
    MovedKeepsJournal(db, after);
    FrameKeepsBindings(db, after);
  }

  // ---------- appending a revision ----------

  lemma AppendKeepsRevisions(db: Db, p: ProfileId, name: string, n: nat, row: RevisionRow)
    requires RevisionTables(db)
    requires n == if p in db.profiles then db.profiles[p].current + 1 else 1
    requires row.state.Draft? && row.validation.None? && CredentialFits(db, p, row.config, row.generation)
    ensures RevisionTables(AppendRevision(db, p, name, n, row))
  {
    assert (p, n) !in db.revisions;
    AppendKeepsNumbers(db, p, name, n, row);
    AppendKeepsFits(db, p, name, n, row);
    AppendKeepsOwners(db, p, name, n, row);
  }

  lemma AppendKeepsNumbers(db: Db, p: ProfileId, name: string, n: nat, row: RevisionRow)
    requires RevisionsNumbered(db) && n == if p in db.profiles then db.profiles[p].current + 1 else 1
    ensures RevisionsNumbered(AppendRevision(db, p, name, n, row))
  {
  }

  lemma AppendKeepsFits(db: Db, p: ProfileId, name: string, n: nat, row: RevisionRow)
    requires RevisionsFit(db) && (p, n) !in db.revisions
    requires row.state.Draft? && row.validation.None? && CredentialFits(db, p, row.config, row.generation)
    ensures RevisionsFit(AppendRevision(db, p, name, n, row))
  {
    var after := AppendRevision(db, p, name, n, row);
    forall key | key in after.revisions
      ensures CredentialFits(after, key.0, after.revisions[key].config, after.revisions[key].generation)
              && Validated(after, key, after.revisions[key])
    {
      if key != (p, n) { assert Validated(db, key, db.revisions[key]); }
    }
  }

  lemma AppendKeepsOwners(db: Db, p: ProfileId, name: string, n: nat, row: RevisionRow)
    requires ValidationsOwned(db) && GenerationsOwned(db) && (p, n) !in db.revisions
    ensures ValidationsOwned(AppendRevision(db, p, name, n, row))
            && GenerationsOwned(AppendRevision(db, p, name, n, row))
  {
  }

  lemma AppendKeepsJournal(db: Db, p: ProfileId, name: string, n: nat, row: RevisionRow)
    requires Journal(db) && (p in db.profiles ==> n == db.profiles[p].current + 1)
    ensures Journal(AppendRevision(db, p, name, n, row))
  {
    var after := AppendRevision(db, p, name, n, row);
    forall id | id in after.journal ensures MutationFits(after, after.journal[id]) {
      assert MutationFits(db, db.journal[id]);
    }
  }

  lemma AppendKeepsBindings(db: Db, p: ProfileId, name: string, n: nat, row: RevisionRow)
    requires ActiveFits(db) && BindingsFit(db) && (p, n) !in db.revisions
    ensures ActiveFits(AppendRevision(db, p, name, n, row)) && BindingsFit(AppendRevision(db, p, name, n, row))
  {
    var after := AppendRevision(db, p, name, n, row);
    forall run | run in after.bindings ensures run in after.runs && PassingValidation(after, after.bindings[run]) {
      assert PassingValidation(db, db.bindings[run]);
    }
  }

  lemma AppendTables(db: Db, p: ProfileId, name: string, n: nat, row: RevisionRow)
    requires Tables(db)
    requires n == if p in db.profiles then db.profiles[p].current + 1 else 1
    requires row.state.Draft? && row.validation.None? && CredentialFits(db, p, row.config, row.generation)
    ensures Tables(AppendRevision(db, p, name, n, row))
  {
    AppendKeepsRevisions(db, p, name, n, row);
    AppendKeepsJournal(db, p, name, n, row);
    assert (p, n) !in db.revisions;
    AppendKeepsBindings(db, p, name, n, row);
  }

  // ---------- revisions, validations, the active slot ----------

  /** A save that succeeds appends the next revision of a profile that was never deleted. */
  lemma SaveAppends(db: Db, request: SaveRequest)
    requires RevisionsNumbered(db) && SaveRevision(db, request).result.Ok?
    ensures var p, n := request.profileId, request.revision.number;
            && (Existing(db, p) || p !in db.profiles)
            && n == (if p in db.profiles then db.profiles[p].current + 1 else 1)
            && (p, n) !in db.revisions
            && CredentialFits(db, p, request.revision.config, Number(request.revision.generation))
            && SaveRevision(db, request).db == AppendRevision(db, p, request.name, n, DraftRow(request.revision))
  {
  }

  lemma SaveTables(db: Db, request: SaveRequest)
    requires Tables(db)
    ensures Tables(SaveRevision(db, request).db)
  {
    if SaveRevision(db, request).result.Ok? {
      SaveAppends(db, request);
      AppendTables(db, request.profileId, request.name, request.revision.number, DraftRow(request.revision));
    }
  }

  /** Validation never touches what the journal, the active slot and the bindings rely on. */
  lemma ValidationFrame(db: Db, commit: ValidationCommit)
    ensures var after := SaveValidation(db, commit).db;
            && after == db.(validations := after.validations, revisions := after.revisions)
            && after.revisions.Keys == db.revisions.Keys
            && (forall key | key in db.revisions ::
                  && after.revisions[key].generation == db.revisions[key].generation
                  && after.revisions[key].config == db.revisions[key].config
                  && (db.revisions[key].validation.Some? ==> after.revisions[key] == db.revisions[key]))
            && ValidationsExtend(db, after)
  {
    ValidationWrites(db, commit);
    var after, key := SaveValidation(db, commit).db, (commit.profileId, commit.revision);
    if after != db {
      forall k | k in db.revisions
        ensures after.revisions[k].generation == db.revisions[k].generation
        ensures after.revisions[k].config == db.revisions[k].config
        ensures db.revisions[k].validation.Some? ==> after.revisions[k] == db.revisions[k]
      {
        if k != key { assert after.revisions[k] == db.revisions[k]; }
      }
    }
  }

  /** What a stored validation says of its revision. */
  lemma ValidationStores(db: Db, commit: ValidationCommit)
    requires RevisionTables(db) && SaveValidation(db, commit).result.Ok?
    ensures var key, after := (commit.profileId, commit.revision), SaveValidation(db, commit).db;
            && key in db.revisions && db.revisions[key].validation.None?
            && db.revisions[key].generation == Some(commit.generation.number)
            && commit.generation.profileId == commit.profileId
            && (commit.profileId, commit.generation.number) in db.generations
            && db.generations[(commit.profileId, commit.generation.number)].kind == commit.generation.kind
            && commit.digest == Digest(key.0, key.1, db.revisions[key].config, Some(commit.generation), commit.versions)
            && commit.evidence.id !in db.validations
            && after.validations == db.validations[commit.evidence.id :=
                 ValidationRow(commit.profileId, commit.revision, commit.generation.number, commit.digest,
                               commit.evidence.passed)]
            && after.revisions == db.revisions[key := db.revisions[key].(
                 state := if commit.evidence.passed then Ready else Invalid, validation := Some(commit.evidence.id))]
  {
    RevisionLoads(db, commit.profileId, commit.revision);
  }

  lemma ValidationKeepsRevisions(db: Db, commit: ValidationCommit)
    requires RevisionTables(db)
    ensures RevisionTables(SaveValidation(db, commit).db)
  {
    var after := SaveValidation(db, commit).db;
    if SaveValidation(db, commit).result.Ok? {
      ValidationStores(db, commit);
      ValidationFrame(db, commit);
      forall k | k in after.revisions
        ensures CredentialFits(after, k.0, after.revisions[k].config, after.revisions[k].generation)
                && Validated(after, k, after.revisions[k])
      {
        assert CredentialFits(db, k.0, db.revisions[k].config, db.revisions[k].generation);
        assert Validated(db, k, db.revisions[k]);
      }
    }
  }

  /** The active slot and the bindings rely on validated revisions. */
  lemma SameBindings(db: Db, after: Db)
    requires ActiveFits(db) && BindingsFit(db)
    requires after == db.(validations := after.validations, revisions := after.revisions)
    requires forall key | key in db.revisions && db.revisions[key].validation.Some? ::
               key in after.revisions && after.revisions[key] == db.revisions[key]
    requires ValidationsExtend(db, after)
    ensures ActiveFits(after) && BindingsFit(after)
  {
    forall run | run in after.bindings ensures run in after.runs && PassingValidation(after, after.bindings[run]) {
      assert PassingValidation(db, db.bindings[run]);
    }
  }

  lemma ValidationTables(db: Db, commit: ValidationCommit)
    requires Tables(db)
    ensures Tables(SaveValidation(db, commit).db)
  {
    var after := SaveValidation(db, commit).db;
    ValidationKeepsRevisions(db, commit);
    ValidationFrame(db, commit);
    SameBindings(db, after);
    SameJournal(db, after);
  }

  lemma SameJournal(db: Db, after: Db)
    requires Journal(db) && after.journal == db.journal
    requires after.profiles == db.profiles && after.generations == db.generations
    ensures Journal(after)
  {
    forall id | id in after.journal ensures MutationFits(after, after.journal[id]) {
      assert MutationFits(db, db.journal[id]);
    }
  }

  lemma ActivateTables(db: Db, request: ActivateRequest)
    requires Tables(db)
    ensures Tables(Activate(db, request).db)
  {
    var tx := Activate(db, request);
    if tx.result.Ok? {
      RevisionLoads(db, request.profileId, request.revision);
      ReadyPasses(db, request.profileId, request.revision, tx.result.value.activation);
      ActiveTables(db, Some(tx.result.value));
    }
  }

  lemma DeleteMoves(db: Db, request: DeleteRequest)
    requires GenerationsOwned(db) && ActiveFits(db) && DeleteProfile(db, request).result.Ok?
    ensures var after := DeleteProfile(db, request).db;
            && Frame(db, after) && after.journal == db.journal && after.bindings == db.bindings && after.runs == db.runs
            && (after.active == db.active || after.active.None?)
            && (after.active.Some? ==> Existing(after, after.active.value.profileId))
  {
  }

  lemma DeleteTables(db: Db, request: DeleteRequest)
    requires Tables(db)
    ensures Tables(DeleteProfile(db, request).db)
  {
    if DeleteProfile(db, request).result.Ok? {
      DeleteMoves(db, request);
      JournalStays(db);
      Moved(db, DeleteProfile(db, request).db);
    }
  }

  // ---------- the journal ----------

  /** The staged generation is new, and the record names only stored generations of its kind. */
  lemma BeginFacts(db: Db, intent: Intent)
    requires RevisionTables(db) && BeginMutation(db, intent).result.Ok?
    ensures var tx := BeginMutation(db, intent); var m := Record(intent);
            && Frame(db, tx.db) && MutationFits(tx.db, m) && m.Staged().Some?
            && (m.profileId, m.Staged().value) !in db.generations
            && tx.db == db.(generations :=
                              db.generations[(m.profileId, m.Staged().value) := GenerationRow(intent.kind, Retained)],
                            journal := db.journal[intent.operationId := m])
            && !BusyProfile(db, m.profileId) && intent.operationId !in db.journal && m.phase.IntentRecorded?
            && Existing(db, m.profileId)
  {
    BeginWrites(db, intent);
    BeginLoaded(db, intent);
    BegunFits(db, intent, BeginMutation(db, intent).db);
  }

  lemma BegunFits(db: Db, intent: Intent, after: Db)
    requires intent.profileId in db.profiles && 1 <= intent.expectedRevision <= db.profiles[intent.profileId].current
    requires var m := Record(intent);
             && m.Staged().Some? && (m.Staged() == intent.newGen || m.Staged() == intent.rollbackGen)
             && after == db.(generations :=
                               db.generations[(m.profileId, m.Staged().value) := GenerationRow(intent.kind, Retained)],
                             journal := db.journal[intent.operationId := m])
    requires intent.oldGen.Some? ==>
               && (intent.profileId, intent.oldGen.value) in db.generations
               && db.generations[(intent.profileId, intent.oldGen.value)].kind == intent.kind
    ensures MutationFits(after, Record(intent))
  {
    var m := Record(intent);
    assert HasKind(after, m, intent.kind) by {
      assert m.Staged().value in References(m);
    }
  }

  lemma BeginWrites(db: Db, intent: Intent)
    requires BeginMutation(db, intent).result.Ok?
    ensures var m, p := Record(intent), intent.profileId;
            && m.Staged().Some?
            && BeginMutation(db, intent).db
               == db.(generations := db.generations[(p, m.Staged().value) := GenerationRow(intent.kind, Retained)],
                      journal := db.journal[intent.operationId := m])
            && !BusyProfile(db, p) && intent.operationId !in db.journal
  {
  }

  /** What the guards of a mutation's beginning have checked. */
  lemma BeginLoaded(db: Db, intent: Intent)
    requires RevisionTables(db) && BeginMutation(db, intent).result.Ok?
    ensures var p, m := intent.profileId, Record(intent);
            && Existing(db, p) && intent.expectedRevision == db.profiles[p].current
            && m.Staged().Some? && (m.Staged() == intent.newGen || m.Staged() == intent.rollbackGen)
            && (p, m.Staged().value) !in db.generations
            && (intent.oldGen.Some? ==>
                  && (p, intent.oldGen.value) in db.generations
                  && db.generations[(p, intent.oldGen.value)].kind == intent.kind)
  {
    RevisionLoads(db, intent.profileId, intent.expectedRevision);
  }

  lemma BeginKeepsPairs(db: Db, intent: Intent)
    requires RevisionTables(db) && Journal(db) && BeginMutation(db, intent).result.Ok?
    ensures var after := BeginMutation(db, intent).db; OneOpen(after) && StagedDistinct(after)
  {
    var m := Record(intent);
    BeginFacts(db, intent);
    forall id | id in db.journal && db.journal[id].profileId == m.profileId
      ensures !db.journal[id].phase.Open() && db.journal[id].Staged() != m.Staged()
    {
      assert MutationFits(db, db.journal[id]);
      StagedStored(db, db.journal[id]);
    }
    PairsGrow(db, BeginMutation(db, intent).db, intent.operationId, m);
  }

  lemma PairsGrow(db: Db, after: Db, id: OperationId, m: Mutation)
    requires OneOpen(db) && StagedDistinct(db) && after.journal == db.journal[id := m] && id !in db.journal
    requires forall i | i in db.journal && db.journal[i].profileId == m.profileId ::
               !db.journal[i].phase.Open() && db.journal[i].Staged() != m.Staged()
    ensures OneOpen(after) && StagedDistinct(after)
  {
  }

  lemma BeginTables(db: Db, intent: Intent)
    requires Tables(db)
    ensures Tables(BeginMutation(db, intent).db)
  {
    var after := BeginMutation(db, intent).db;
    if BeginMutation(db, intent).result.Ok? {
      BeginFacts(db, intent);
      FrameKeepsTables(db, after);
      BeginKeepsPairs(db, intent);
      forall id | id in after.journal ensures MutationFits(after, after.journal[id]) {
        if id != intent.operationId { FrameKeepsMutation(db, after, db.journal[id]); }
      }
      FrameKeepsBindings(db, after);
    }
  }

  lemma VaultWriteTables(db: Db, id: OperationId)
    requires Tables(db)
    ensures Tables(RecordVaultWrite(db, id).db)
  {
    VaultWrites(db, id);
    if RecordVaultWrite(db, id).db != db {
      var m := db.journal[id];
      StatusTables(db, m.profileId, m.Staged().value, Available);
      PhaseTables(WithStatus(db, m.profileId, m.Staged().value, Available), id, m.(phase := VaultWritten));
    }
  }

  /** The commit of this mutation goes through: it is not stale and its credential fits. */
  ghost predicate PointerMoves(db: Db, commit: PointerCommit) {
    && commit.mutationId in db.journal
    && db.journal[commit.mutationId].phase.VaultWritten?
    && !CommitStale(db, db.journal[commit.mutationId], commit)
    && CredentialFits(db, commit.profileId, commit.replacement.config, Number(commit.replacement.generation))
  }

  /** The outcome of a pointer commit, in each of its cases. */
  lemma CommitCases(db: Db, commit: PointerCommit)
    requires RevisionTables(db) && JournalFits(db) && commit.mutationId in db.journal
    requires db.journal[commit.mutationId].phase.VaultWritten?
    ensures var tx, id, m := CommitPointer(db, commit), commit.mutationId, db.journal[commit.mutationId];
            if CommitStale(db, m, commit)
            then tx == Tx(WithMutation(db, id, m.(phase := CleanupPending)), Err(StorageConflict))
            else if !PointerMoves(db, commit) then tx == Tx(db, Err(StorageConflict))
            else
              && Existing(db, commit.profileId) && m.profileId == commit.profileId
              && Number(commit.replacement.generation) == m.newGen
              && commit.replacement.number == db.profiles[commit.profileId].current + 1
              && tx.result == Ok(m.(phase := PointerCommitted))
              && var moved := WithMutation(PointerAppended(db, commit), id, m.(phase := PointerCommitted));
                 tx.db == (if m.oldGen.Some? && !HasStatus(db, m.profileId, m.oldGen.value, Deleted)
                           then WithStatus(moved, m.profileId, m.oldGen.value, Retained) else moved)
  {
    MutationLoads(db, commit.mutationId);
    var p, n := commit.profileId, commit.expectedRevision;
    if CurrentRevision(db, p) == Some(n) {
      RevisionLoads(db, p, n);
      assert NextRevision(db, p, n + 1);
    }
  }

  /** Before the vault write and after the commit, a pointer commit changes nothing. */
  lemma CommitIdle(db: Db, commit: PointerCommit)
    requires commit.mutationId !in db.journal || !db.journal[commit.mutationId].phase.VaultWritten?
    ensures CommitPointer(db, commit).db == db
  {
  }

  lemma MovedTables(db: Db, commit: PointerCommit)
    requires Tables(db) && PointerMoves(db, commit)
    ensures commit.profileId in db.profiles
    ensures Tables(WithMutation(PointerAppended(db, commit), commit.mutationId,
                                db.journal[commit.mutationId].(phase := PointerCommitted)))
  {
    var id, m := commit.mutationId, db.journal[commit.mutationId];
    var next := m.(phase := PointerCommitted);
    CommitCases(db, commit);
    assert MutationFits(db, m);
    PhaseTables(db, id, next);
    AppendTables(WithMutation(db, id, next), m.profileId, db.profiles[m.profileId].name, commit.replacement.number,
                 DraftRow(commit.replacement));
  }

  lemma CommitTables(db: Db, commit: PointerCommit)
    requires Tables(db)
    ensures Tables(CommitPointer(db, commit).db)
  {
    if commit.mutationId !in db.journal || !db.journal[commit.mutationId].phase.VaultWritten? {
      CommitIdle(db, commit);
    } else {
      var m := db.journal[commit.mutationId];
      CommitCases(db, commit);
      assert MutationFits(db, m);
      if CommitStale(db, m, commit) {
        PhaseTables(db, commit.mutationId, m.(phase := CleanupPending));
      } else if PointerMoves(db, commit) {
        MovedTables(db, commit);
        CommitRetiresTables(WithMutation(PointerAppended(db, commit), commit.mutationId, m.(phase := PointerCommitted)),
                            m.profileId, m.oldGen);
      }
    }
  }

  lemma CommitRetiresTables(db: Db, p: ProfileId, g: Option<nat>)
    requires Tables(db)
    ensures g.Some? ==> Tables(WithStatus(db, p, g.value, Retained))
  {
    if g.Some? { StatusTables(db, p, g.value, Retained); }
  }

  lemma CompleteTables(db: Db, id: OperationId)
    requires Tables(db)
    ensures Tables(CompleteMutation(db, id).db)
  {
    CompleteWrites(db, id);
    if CompleteMutation(db, id).db != db {
      var m := db.journal[id];
      CleanedTables(db, m);
      CleanedJournal(db, m);
      assert MutationFits(db, m);
      PhaseTables(CopyDropped(OldKept(db, m), m), id, m.(phase := Completed));
    }
  }

  lemma CleanedTables(db: Db, m: Mutation)
    requires Tables(db)
    ensures Tables(CopyDropped(OldKept(db, m), m))
  {
    if m.oldGen.Some? { StatusTables(db, m.profileId, m.oldGen.value, Retained); }
    if m.rollbackGen.Some? { StatusTables(OldKept(db, m), m.profileId, m.rollbackGen.value, Deleted); }
  }

  /** Completing retains the old credential and drops the rollback copy; everything else stays. */
  lemma CompletionOf(db: Db, id: OperationId)
    requires JournalFits(db) && id in db.journal && db.journal[id].phase.PointerCommitted?
    ensures var m, done := db.journal[id], CompleteMutation(db, id);
            && done.result == Ok(m.(phase := Completed))
            && done.db == db.(generations := done.db.generations, journal := db.journal[id := m.(phase := Completed)])
            && done.db.generations.Keys == db.generations.Keys
            && (m.oldGen.Some? && m.oldGen != m.rollbackGen ==>
                HasStatus(done.db, m.profileId, m.oldGen.value, Retained))
            && (m.rollbackGen.Some? ==> HasStatus(done.db, m.profileId, m.rollbackGen.value, Deleted))
            && (forall key | && key in db.generations
                             && (key.0 != m.profileId || (Some(key.1) != m.oldGen && Some(key.1) != m.rollbackGen)) ::
                  done.db.generations[key] == db.generations[key])
  {
    var m := db.journal[id];
    CompletionShape(db, id);
    assert m.oldGen.Some? ==> m.oldGen.value in References(m);
    assert m.rollbackGen.Some? ==> m.rollbackGen.value in References(m);
    OldKeptStatuses(db, m);
    CopyDroppedStatuses(OldKept(db, m), m);
  }

  lemma CompletionShape(db: Db, id: OperationId)
    requires JournalFits(db) && id in db.journal && db.journal[id].phase.PointerCommitted?
    ensures var m := db.journal[id];
            && CompleteMutation(db, id) == Tx(WithMutation(CopyDropped(OldKept(db, m), m), id, m.(phase := Completed)),
                                              Ok(m.(phase := Completed)))
            && (forall g | g in References(m) :: (m.profileId, g) in db.generations)
  {
    MutationLoads(db, id);
    assert MutationFits(db, db.journal[id]);
  }

  lemma RollbackTables(db: Db, id: OperationId)
    requires Tables(db)
    ensures Tables(RollbackMutation(db, id).db)
  {
    RollbackWrites(db, id);
    if RollbackMutation(db, id).db != db {
      var m := db.journal[id];
      StatusTables(db, m.profileId, m.Staged().value, Deleted);
      PhaseTables(WithStatus(db, m.profileId, m.Staged().value, Deleted), id, m.(phase := RolledBack));
    }
  }

  lemma BlockTables(db: Db, id: OperationId, code: ErrorCode)
    requires Tables(db)
    ensures Tables(BlockMutation(db, id, code).db)
  {
    BlockWrites(db, id, code);
    if BlockMutation(db, id, code).db != db {
      var m := db.journal[id];
      var next := m.(phase := Blocked, error := Some(code));
      PhaseTables(db, id, next);
      StatusTables(WithMutation(db, id, next), m.profileId, m.Staged().value, Revoked);
      ActiveTables(WithStatus(WithMutation(db, id, next), m.profileId, m.Staged().value, Revoked), None);
    }
  }

  lemma RetireTables(db: Db, generation: Generation)
    requires Tables(db)
    ensures Tables(RetireGeneration(db, generation).db)
  {
    StatusTables(db, generation.profileId, generation.number, Deleted);
  }

  // ---------- Runs ----------

  lemma RunTables(db: Db, op: Op)
    requires Tables(db) && (op.StartRun? || op.AdvanceRun?)
    ensures Tables(Step(db, op))
  {
    var after := Step(db, op);
    RunFrame(db, op);
    JournalStays(db);
    FrameKeepsTables(db, after);
    MovedKeepsJournal(db, after);
    forall r | r in after.bindings ensures r in after.runs && PassingValidation(after, after.bindings[r]) {
      if r in db.bindings { assert PassingValidation(db, db.bindings[r]); }
    }
  }

  lemma RunFrame(db: Db, op: Op)
    requires op.StartRun? || op.AdvanceRun?
    ensures var after := Step(db, op);
            && after == db.(runs := after.runs, bindings := after.bindings)
            && db.runs.Keys <= after.runs.Keys
            && (forall r | r in after.bindings :: if r in db.bindings then after.bindings[r] == db.bindings[r]
                                                  else r in after.runs && PassingValidation(db, after.bindings[r]))
  {
    if op.StartRun? { StartFrame(db, op.run, op.initial, op.binding); } else { AdvanceFrame(db, op.moved, op.status); }
  }

  // ---------- every run ----------

  lemma JournalStepTables(db: Db, op: Op)
    requires Tables(db) && (op.Begin? || op.VaultWrite? || op.PointTo? || op.Complete? || op.Rollback? || op.Block?)
    ensures Tables(Step(db, op))
  {
    match op
    case Begin(intent) => BeginTables(db, intent);
    case VaultWrite(id) => VaultWriteTables(db, id);
    case PointTo(commit) => CommitTables(db, commit);
    case Complete(id) => CompleteTables(db, id);
    case Rollback(id) => RollbackTables(db, id);
    case Block(id, code) => BlockTables(db, id, code);
  }

  /** Every transaction keeps the tables, whichever credential a saved revision names. */
  lemma StepTables(db: Db, op: Op)
    requires Tables(db)
    ensures Tables(Step(db, op))
  {
    match op
    case Save(request) => SaveTables(db, request);
    case Validate(commit) => ValidationTables(db, commit);
    case Select(request) => ActivateTables(db, request);
    case Remove(request) => DeleteTables(db, request);
    case Retire(generation) => RetireTables(db, generation);
    case StartRun(_, _, _) => RunTables(db, op);
    case AdvanceRun(_, _) => RunTables(db, op);
    case _ => JournalStepTables(db, op);
  }

  lemma {:induction false} TablesHold(db: Db, ops: seq<Op>)
    requires Tables(db)
    ensures Tables(After(db, ops))
    decreases |ops|
  {
    if ops != [] {
      StepTables(db, ops[0]);
      TablesHold(Step(db, ops[0]), ops[1..]);
    }
  }

  /** After every run from the empty tables the rows fit together. */
  lemma ReachableTables(db: Db)
    requires Reachable(db)
    ensures Tables(db)
  {
    var ops :| db == After(EmptyDb, ops);
    EmptyTables();
    TablesHold(EmptyDb, ops);
  }
}
