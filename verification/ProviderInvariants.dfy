/** The invariant that joins the tables and keeps live credentials: which generations revisions may
    name, and which statuses they have. A save can break it, and exactly which one is said here. */
module ProviderInvariants {
  import opened Wrappers
  import opened ProviderDomain
  import opened ProviderStore
  import opened ProviderWrites
  import opened ProviderTables

  // ---------- who may name a generation ----------

  ghost predicate Unreferenced(db: Db, p: ProfileId, g: nat) {
    forall key | key in db.revisions && key.0 == p :: db.revisions[key].generation != Some(g)
  }

  /** No revision names a generation that a rollback or a completion may tombstone. */
  ghost predicate StagedHidden(db: Db, m: Mutation) {
    MayTombstone(m) && m.Staged().Some? ==> Unreferenced(db, m.profileId, m.Staged().value)
  }

  ghost predicate JournalHidden(db: Db) {
    forall id | id in db.journal :: StagedHidden(db, db.journal[id])
  }

  // ---------- statuses of generations ----------

  /** Between the vault write and the pointer commit the staged generation is available, and
      after the pointer commit the old one is no longer current. */
  ghost predicate PhaseStatus(db: Db, m: Mutation) {
    Existing(db, m.profileId) ==>
      && (m.phase.VaultWritten? && m.Staged().Some? ==> HasStatus(db, m.profileId, m.Staged().value, Available))
      && (m.phase.PointerCommitted? && m.oldGen.Some? ==> CurrentGeneration(db, m.profileId) != m.oldGen)
  }

  ghost function CurrentGeneration(db: Db, p: ProfileId): Option<nat> {
    if p in db.profiles && (p, db.profiles[p].current) in db.revisions
    then db.revisions[(p, db.profiles[p].current)].generation else None
  }

  /** The credential of the current revision of an existing profile can be activated safely. */
  ghost predicate CurrentUsable(db: Db, p: ProfileId) {
    Existing(db, p) && CurrentGeneration(db, p).Some? ==>
      !HasStatus(db, p, CurrentGeneration(db, p).value, Retained)
      && !HasStatus(db, p, CurrentGeneration(db, p).value, Deleted)
  }

  /** The safety property: what is in use is not tombstoned. */
  ghost predicate LiveCredentialsKept(db: Db) {
    && (db.active.Some? ==> !HasStatus(db, db.active.value.profileId, db.active.value.generation, Deleted))
    && (forall run | run in db.bindings && run in db.runs && !db.runs[run].Terminal() ::
          !HasStatus(db, db.bindings[run].profileId, db.bindings[run].generation, Deleted))
  }

  ghost predicate PhasesHeld(db: Db) {
    forall id | id in db.journal :: PhaseStatus(db, db.journal[id])
  }

  ghost predicate CurrentsUsable(db: Db) {
    forall p | p in db.profiles :: CurrentUsable(db, p)
  }

  ghost predicate Statuses(db: Db) {
    PhasesHeld(db) && CurrentsUsable(db) && LiveCredentialsKept(db)
  }

  ghost predicate Inv(db: Db) {
    Tables(db) && JournalHidden(db) && Statuses(db)
  }

  lemma EmptyInv()
    ensures Inv(EmptyDb)
  {
  }

  // ---------- changes that hide no less ----------

  /** Only which generations the revisions name matters. */
  lemma SameHidden(db: Db, after: Db)
    requires JournalHidden(db) && after.journal == db.journal
    requires forall key | key in after.revisions ::
               key in db.revisions && after.revisions[key].generation == db.revisions[key].generation
    ensures JournalHidden(after)
  {
    forall id | id in after.journal ensures StagedHidden(after, after.journal[id]) {
      assert StagedHidden(db, db.journal[id]);
    }
  }

  /** Nothing but the active slot, the bindings and the Runs differs. */
  lemma SameStatuses(db: Db, after: Db)
    requires PhasesHeld(db) && CurrentsUsable(db)
    requires after.profiles == db.profiles && after.generations == db.generations && after.journal == db.journal
    requires forall key | key in db.revisions ::
               key in after.revisions && after.revisions[key].generation == db.revisions[key].generation
    requires after.revisions.Keys == db.revisions.Keys
    ensures PhasesHeld(after) && CurrentsUsable(after)
  {
    forall p ensures CurrentGeneration(after, p) == CurrentGeneration(db, p) {}
    forall id | id in after.journal ensures PhaseStatus(after, after.journal[id]) {
      assert PhaseStatus(db, db.journal[id]);
    }
    forall p | p in after.profiles ensures CurrentUsable(after, p) {
      assert CurrentUsable(db, p);
    }
  }

  // ---------- one status, one phase ----------

  /** No unfinished vault write relies on this generation being available. */
  ghost predicate NotAwaited(db: Db, p: ProfileId, g: nat) {
    Existing(db, p) ==>
      forall id | id in db.journal && db.journal[id].profileId == p && db.journal[id].phase.VaultWritten? ::
        db.journal[id].Staged() != Some(g)
  }

  ghost predicate NotInUse(db: Db, p: ProfileId, g: nat) {
    && (db.active.Some? ==> db.active.value.profileId != p || db.active.value.generation != g)
    && !LiveCredential(db, p, g)
  }

  /** Which statuses may be written: not a retained or deleted one on a current credential, not a
      deleted one on a credential in use. */
  lemma StatusWritten(db: Db, p: ProfileId, g: nat, status: GenerationStatus)
    requires Inv(db)
    requires status.Available? || NotAwaited(db, p, g)
    requires status.Retained? || status.Deleted? ==> CurrentGeneration(db, p) != Some(g) || !Existing(db, p)
    requires status.Deleted? ==> NotInUse(db, p, g)
    ensures Inv(WithStatus(db, p, g, status))
  {
    StatusTables(db, p, g, status);
    SameHidden(db, WithStatus(db, p, g, status));
    StatusKeepsPhases(db, p, g, status);
    StatusKeepsCurrents(db, p, g, status);
    StatusKeepsLive(db, p, g, status);
  }

  lemma StatusKeepsPhases(db: Db, p: ProfileId, g: nat, status: GenerationStatus)
    requires PhasesHeld(db) && (status.Available? || NotAwaited(db, p, g))
    ensures PhasesHeld(WithStatus(db, p, g, status))
  {
    var after := WithStatus(db, p, g, status);
    forall id | id in after.journal ensures PhaseStatus(after, after.journal[id]) {
      assert PhaseStatus(db, db.journal[id]);
      assert CurrentGeneration(after, db.journal[id].profileId) == CurrentGeneration(db, db.journal[id].profileId);
    }
  }

  lemma StatusKeepsCurrents(db: Db, p: ProfileId, g: nat, status: GenerationStatus)
    requires CurrentsUsable(db)
    requires status.Retained? || status.Deleted? ==> CurrentGeneration(db, p) != Some(g) || !Existing(db, p)
    ensures CurrentsUsable(WithStatus(db, p, g, status))
  {
    var after := WithStatus(db, p, g, status);
    forall q | q in after.profiles ensures CurrentUsable(after, q) {
      assert CurrentUsable(db, q);
      assert CurrentGeneration(after, q) == CurrentGeneration(db, q);
    }
  }

  lemma StatusKeepsLive(db: Db, p: ProfileId, g: nat, status: GenerationStatus)
    requires LiveCredentialsKept(db) && (status.Deleted? ==> NotInUse(db, p, g))
    ensures LiveCredentialsKept(WithStatus(db, p, g, status))
  {
    var after := WithStatus(db, p, g, status);
    forall run | run in after.bindings && run in after.runs && !after.runs[run].Terminal()
      ensures !HasStatus(after, after.bindings[run].profileId, after.bindings[run].generation, Deleted)
    {
      assert !HasStatus(db, db.bindings[run].profileId, db.bindings[run].generation, Deleted);
    }
  }

  /** A mutation may advance to a phase whose promise about statuses already holds. */
  lemma PhaseAdvanced(db: Db, id: OperationId, next: Mutation)
    requires Inv(db) && id in db.journal && Advances(db.journal[id], next) && PhaseStatus(db, next)
    ensures Inv(WithMutation(db, id, next))
  {
    PhaseTables(db, id, next);
    PhaseKeepsHidden(db, id, next);
    PhaseKeepsStatuses(db, id, next);
  }

  lemma PhaseKeepsHidden(db: Db, id: OperationId, next: Mutation)
    requires JournalHidden(db) && id in db.journal && Advances(db.journal[id], next)
    ensures JournalHidden(WithMutation(db, id, next))
  {
    var after := WithMutation(db, id, next);
    forall i | i in after.journal ensures StagedHidden(after, after.journal[i]) {
      assert StagedHidden(db, db.journal[i]);
    }
  }

  lemma PhaseKeepsStatuses(db: Db, id: OperationId, next: Mutation)
    requires Statuses(db) && PhaseStatus(db, next)
    ensures Statuses(WithMutation(db, id, next))
  {
    var after := WithMutation(db, id, next);
    forall i | i in after.journal ensures PhaseStatus(after, after.journal[i]) {
      if i != id { assert PhaseStatus(db, db.journal[i]); }
      var p := after.journal[i].profileId;
      assert CurrentGeneration(after, p) == CurrentGeneration(db, p);
    }
    forall q | q in after.profiles ensures CurrentUsable(after, q) {
      assert CurrentUsable(db, q);
      assert CurrentGeneration(after, q) == CurrentGeneration(db, q);
    }
  }

  // ---------- saving a revision ----------

  /** A credential that a new revision of the profile may name. */
  ghost predicate Nameable(db: Db, p: ProfileId, generation: Option<nat>) {
    generation.Some? ==>
      forall id | id in db.journal && db.journal[id].profileId == p ::
        MayTombstone(db.journal[id]) ==> db.journal[id].Staged() != generation
  }

  /** A save is safe when its credential is none, or one that is neither retained nor deleted, that no
      unfinished mutation may still tombstone, and that none has just replaced. */
  ghost predicate SaveSafe(db: Db, request: SaveRequest) {
    var p, g := request.profileId, Number(request.revision.generation);
    g.Some? ==>
      && !HasStatus(db, p, g.value, Retained) && !HasStatus(db, p, g.value, Deleted)
      && Nameable(db, p, g)
      && (forall id | id in db.journal && db.journal[id].profileId == p && db.journal[id].phase.PointerCommitted? ::
            db.journal[id].oldGen != g)
  }

  lemma AppendKeepsHidden(db: Db, p: ProfileId, name: string, n: nat, row: RevisionRow)
    requires JournalHidden(db) && (p, n) !in db.revisions && Nameable(db, p, row.generation)
    ensures JournalHidden(AppendRevision(db, p, name, n, row))
  {
    var after := AppendRevision(db, p, name, n, row);
    forall id | id in after.journal ensures StagedHidden(after, after.journal[id]) {
      assert StagedHidden(db, db.journal[id]);
    }
  }

  lemma AppendKeepsStatuses(db: Db, p: ProfileId, name: string, n: nat, row: RevisionRow)
    requires RevisionsNumbered(db) && Statuses(db)
    requires n == if p in db.profiles then db.profiles[p].current + 1 else 1
    requires row.generation.Some? ==>
               && !HasStatus(db, p, row.generation.value, Retained) && !HasStatus(db, p, row.generation.value, Deleted)
               && (forall id | id in db.journal && db.journal[id].profileId == p
                   && db.journal[id].phase.PointerCommitted? ::
                     db.journal[id].oldGen != row.generation)
    requires forall id | id in db.journal :: db.journal[id].profileId in db.profiles
    requires Existing(db, p) || p !in db.profiles
    ensures Statuses(AppendRevision(db, p, name, n, row))
  {
    var after := AppendRevision(db, p, name, n, row);
    assert CurrentGeneration(after, p) == row.generation;
    forall id | id in after.journal ensures PhaseStatus(after, after.journal[id]) {
      assert PhaseStatus(db, db.journal[id]);
      var q := db.journal[id].profileId;
      if q != p { assert CurrentGeneration(after, q) == CurrentGeneration(db, q); }
    }
    forall q | q in after.profiles ensures CurrentUsable(after, q) {
      if q != p { assert CurrentUsable(db, q); assert CurrentGeneration(after, q) == CurrentGeneration(db, q); }
    }
  }

  lemma JournalOwned(db: Db)
    requires JournalFits(db)
    ensures forall id | id in db.journal :: db.journal[id].profileId in db.profiles
  {
    forall id | id in db.journal ensures db.journal[id].profileId in db.profiles {
      assert MutationFits(db, db.journal[id]);
    }
  }

  lemma SavedKeeps(db: Db, request: SaveRequest)
    requires Inv(db) && SaveSafe(db, request) && SaveRevision(db, request).result.Ok?
    ensures var p, row := request.profileId, DraftRow(request.revision);
            var after := AppendRevision(db, p, request.name, request.revision.number, row);
            JournalHidden(after) && Statuses(after)
  {
    var p, row := request.profileId, DraftRow(request.revision);
    SaveAppends(db, request);
    AppendKeepsHidden(db, p, request.name, request.revision.number, row);
    JournalOwned(db);
    AppendKeepsStatuses(db, p, request.name, request.revision.number, row);
  }

  lemma SaveKeeps(db: Db, request: SaveRequest)
    requires Inv(db) && SaveSafe(db, request)
    ensures Inv(SaveRevision(db, request).db)
  {
    SaveTables(db, request);
    if SaveRevision(db, request).result.Ok? {
      SaveAppends(db, request);
      SavedKeeps(db, request);
    }
  }
}
