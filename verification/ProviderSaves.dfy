/** Which saves are safe, exactly: for every other save some later transactions, none of which names a
    credential that is not already current, tombstone a credential in use. */
module ProviderSaves {
  import opened Wrappers
  import opened ProviderDomain
  import opened ProviderStore
  import opened ProviderSteps
  import opened ProviderWrites
  import opened ProviderTables
  import opened ProviderInvariants
  import opened ProviderRuns
  import opened ProviderOutcomes
  import opened RunStatuses

  // ---------- losing a credential later ----------

  /** However the run goes on, as long as its saves carry the current credential over, what is in use
      stays. */
  ghost predicate KeepsForever(db: Db) {
    forall ops | SavesCarry(db, ops) :: LiveCredentialsKept(After(db, ops))
  }

  lemma LosesNow(db: Db)
    requires !LiveCredentialsKept(db)
    ensures !KeepsForever(db)
  {
    assert SavesCarry(db, []) && After(db, []) == db;
  }

  lemma LosesLater(db: Db, op: Op)
    requires (op.Save? ==> Carries(db, op.save)) && !KeepsForever(Step(db, op))
    ensures !KeepsForever(db)
  {
    var ops :| SavesCarry(Step(db, op), ops) && !LiveCredentialsKept(After(Step(db, op), ops));
    assert ([op] + ops)[1..] == ops;
    assert SavesCarry(db, [op] + ops) && After(db, [op] + ops) == After(Step(db, op), ops);
  }

  // ---------- a profile about to be activated ----------

  /** The current revision of the profile is ready and names this credential. */
  ghost predicate Poised(db: Db, p: ProfileId, g: nat) {
    && Tables(db) && Existing(db, p)
    && (p, db.profiles[p].current) in db.revisions
    && db.revisions[(p, db.profiles[p].current)].state.Ready?
    && db.revisions[(p, db.profiles[p].current)].generation == Some(g)
  }

  /** Such a profile can always be activated. */
  lemma Activating(db: Db, p: ProfileId, g: nat) returns (op: Op)
    requires Poised(db, p, g)
    ensures op.Select? && Step(db, op).active.Some?
    ensures Step(db, op).active.value.profileId == p && Step(db, op).active.value.generation == g
    ensures Step(db, op) == db.(active := Step(db, op).active)
    ensures Poised(Step(db, op), p, g)
  {
    var request := Selectable(db, p, g);
    op := Select(request);
    ActivateTables(db, request);
  }

  lemma Selectable(db: Db, p: ProfileId, g: nat) returns (request: ActivateRequest)
    requires Poised(db, p, g)
    ensures var tx := Activate(db, request);
            && tx.result.Ok? && tx.db == db.(active := Some(tx.result.value))
            && tx.result.value.profileId == p && tx.result.value.generation == g
  {
    var n := db.profiles[p].current;
    RevisionLoads(db, p, n);
    assert Validated(db, (p, n), db.revisions[(p, n)]);
    var evidence := LoadRevision(db, p, n).value.validation.value;
    ReadyPasses(db, p, n, if db.active.Some? then db.active.value.activation + 1 else 1);
    request := ActivateRequest(p, n, evidence.id, evidence.digest, ActivationNumber(db.active));
  }

  lemma DeletedLoses(db: Db, p: ProfileId, g: nat)
    requires Poised(db, p, g) && HasStatus(db, p, g, Deleted)
    ensures !KeepsForever(db)
  {
    var op := Activating(db, p, g);
    LosesNow(Step(db, op));
    LosesLater(db, op);
  }

  /** What completing a mutation does to the rows that activation looks at. */
  ghost predicate Completing(db: Db, m: Mutation, after: Db) {
    && after.active == db.active && after.profiles == db.profiles && after.revisions == db.revisions
    && (m.rollbackGen.Some? ==> HasStatus(after, m.profileId, m.rollbackGen.value, Deleted))
    && (m.oldGen.Some? && m.oldGen != m.rollbackGen ==> HasStatus(after, m.profileId, m.oldGen.value, Retained))
  }

  lemma CompletionIs(db: Db, id: OperationId)
    requires JournalFits(db) && id in db.journal && db.journal[id].phase.PointerCommitted?
    ensures Completing(db, db.journal[id], CompleteMutation(db, id).db)
  {
    CompletionOf(db, id);
  }

  lemma RecordShape(db: Db, id: OperationId)
    requires JournalFits(db) && id in db.journal
    ensures var m := db.journal[id];
            && (m.rollbackGen.Some? ==> m.Staged() == m.rollbackGen)
            && (m.oldGen.Some? ==> m.oldGen != m.rollbackGen)
  {
    assert MutationFits(db, db.journal[id]);
  }

  lemma RollbackTombstones(db: Db, id: OperationId)
    requires JournalFits(db) && id in db.journal && BeforePointer(db.journal[id].phase)
    ensures var m, after := db.journal[id], RollbackMutation(db, id).db;
            && after.active == db.active && m.Staged().Some? && HasStatus(after, m.profileId, m.Staged().value, Deleted)
  {
    MutationLoads(db, id);
    assert MutationFits(db, db.journal[id]);
    StagedStored(db, db.journal[id]);
  }

  /** A mutation tombstones what it staged when it is rolled back, or when it completes and drops its copy. */
  lemma CompletionTombstones(db: Db, id: OperationId)
    requires JournalFits(db) && id in db.journal && db.journal[id].phase.PointerCommitted?
             && db.journal[id].rollbackGen.Some?
    ensures var m, after := db.journal[id], CompleteMutation(db, id).db;
            && after.active == db.active && m.Staged().Some? && HasStatus(after, m.profileId, m.Staged().value, Deleted)
  {
    CompletionIs(db, id);
    RecordShape(db, id);
  }

  /** A transaction that tombstones what the slot holds. */
  lemma TombstoneLoses(db: Db, op: Op, p: ProfileId, g: nat)
    requires !op.Save? && Step(db, op).active == db.active && HasStatus(Step(db, op), p, g, Deleted)
    requires db.active.Some? && db.active.value.profileId == p && db.active.value.generation == g
    ensures !KeepsForever(db)
  {
    LosesNow(Step(db, op));
    LosesLater(db, op);
  }

  lemma RolledBackLoses(db: Db, p: ProfileId, g: nat, id: OperationId)
    requires JournalFits(db) && id in db.journal && BeforePointer(db.journal[id].phase)
    requires db.journal[id].profileId == p && db.journal[id].Staged() == Some(g)
    requires db.active.Some? && db.active.value.profileId == p && db.active.value.generation == g
    ensures !KeepsForever(db)
  {
    RollbackTombstones(db, id);
    TombstoneLoses(db, Rollback(id), p, g);
  }

  lemma CompletedLoses(db: Db, p: ProfileId, g: nat, id: OperationId)
    requires JournalFits(db) && id in db.journal && db.journal[id].phase.PointerCommitted?
             && db.journal[id].rollbackGen.Some?
    requires db.journal[id].profileId == p && db.journal[id].Staged() == Some(g)
    requires db.active.Some? && db.active.value.profileId == p && db.active.value.generation == g
    ensures !KeepsForever(db)
  {
    CompletionTombstones(db, id);
    TombstoneLoses(db, Complete(id), p, g);
  }

  lemma StagedLoses(db: Db, p: ProfileId, g: nat, id: OperationId)
    requires Poised(db, p, g) && id in db.journal && MayTombstone(db.journal[id])
    requires db.journal[id].profileId == p && db.journal[id].Staged() == Some(g)
    ensures !KeepsForever(db)
  {
    var op := Activating(db, p, g);
    if BeforePointer(db.journal[id].phase) {
      RolledBackLoses(Step(db, op), p, g, id);
    } else {
      CompletedLoses(Step(db, op), p, g, id);
    }
    LosesLater(db, op);
  }

  // ---------- a retained credential ----------

  lemma RetiredLoses(db: Db, p: ProfileId, g: nat)
    requires Poised(db, p, g) && HasStatus(db, p, g, Retained) && NotInUse(db, p, g)
    ensures !KeepsForever(db)
  {
    var op := Retire(Generation(p, g, db.generations[(p, g)].kind));
    StepTables(db, op);
    DeletedLoses(Step(db, op), p, g);
    LosesLater(db, op);
  }

  /** The unfinished Runs that hold the credential. */
  ghost function Holders(db: Db, p: ProfileId, g: nat): set<RunId> {
    set run | run in db.bindings && run in db.runs
              && db.bindings[run].profileId == p && db.bindings[run].generation == g
              && !db.runs[run].Terminal()
  }

  lemma LiveHasHolder(db: Db, p: ProfileId, g: nat)
    ensures LiveCredential(db, p, g) <==> Holders(db, p, g) != {}
  {
    if LiveCredential(db, p, g) {
      var run :| run in db.bindings && db.bindings[run].profileId == p && db.bindings[run].generation == g
                 && run in db.runs && !db.runs[run].Terminal();
      assert run in Holders(db, p, g);
    }
    if run :| run in Holders(db, p, g) {
      assert run in db.bindings;
    }
  }

  /** Once the slot holds another credential, its Runs can end and it can be retired. */
  lemma {:induction false} IdleLoses(db: Db, p: ProfileId, g: nat)
    requires Poised(db, p, g) && HasStatus(db, p, g, Retained)
    requires db.active.Some? ==> db.active.value.profileId != p || db.active.value.generation != g
    ensures !KeepsForever(db)
    decreases Holders(db, p, g)
  {
    LiveHasHolder(db, p, g);
    if run :| run in Holders(db, p, g) {
      var op := AdvanceRun(run, Cancelled);
      RunEnds(db, p, g, run);
      IdleLoses(Step(db, op), p, g);
      LosesLater(db, op);
    } else {
      RetiredLoses(db, p, g);
    }
  }

  lemma RunEnds(db: Db, p: ProfileId, g: nat, run: RunId)
    requires Poised(db, p, g) && run in Holders(db, p, g)
    ensures var after := Step(db, AdvanceRun(run, Cancelled));
            && Poised(after, p, g) && after == db.(runs := db.runs[run := Cancelled])
            && Holders(after, p, g) == Holders(db, p, g) - {run}
  {
    StepTables(db, AdvanceRun(run, Cancelled));
  }

  // ---------- filling the slot with a new profile ----------

  lemma {:induction false} Bounded(numbers: set<nat>) returns (bound: nat)
    ensures forall n | n in numbers :: n < bound
    decreases numbers
  {
    if numbers == {} {
      bound := 0;
    } else {
      var last :| last in numbers;
      var rest := Bounded(numbers - {last});
      bound := if last < rest then rest else last + 1;
      forall n | n in numbers ensures n < bound {
        if n != last { assert n in numbers - {last}; }
      }
    }
  }

  lemma FreshKey<V>(m: map<nat, V>) returns (key: nat)
    ensures key !in m
  {
    key := Bounded(m.Keys);
  }

  lemma FreshName(db: Db) returns (name: string)
    ensures forall p | p in db.profiles :: db.profiles[p].name != name
  {
    var lengths := set p | p in db.profiles :: |db.profiles[p].name|;
    var bound := Bounded(lengths);
    name := seq(bound, _ => 'n');
    forall p | p in db.profiles ensures db.profiles[p].name != name {
      assert |db.profiles[p].name| in lengths;
    }
  }

  const Setup := Config(KeyedProvider("p"), "m", "")

  function NewKey(q: ProfileId): Generation { Generation(q, 1, ApiKey) }

  function Announced(q: ProfileId, id: OperationId): Intent {
    IntentFields(id, q, 1, Create, ApiKey, None, Some(1), None)
  }

  function Pointing(q: ProfileId, id: OperationId): PointerCommit {
    PointerCommitFields(id, q, 1, Revision(q, 2, Setup, Some(NewKey(q)), Draft, None))
  }

  function NewRecord(q: ProfileId, phase: Phase): Mutation {
    Mutation(q, 1, Create, None, Some(1), None, phase, None)
  }

  /** The first revision of the new profile, without a credential. */
  function Founding(db: Db, q: ProfileId, name: string): Op {
    Save(SaveRequest(q, None, name, Revision(q, 1, Setup, None, Draft, None)))
  }

  ghost function Founded(db: Db, q: ProfileId, name: string): Db {
    db.(profiles := db.profiles[q := ProfileRow(name, 1, false)],
        revisions := db.revisions[(q, 1) := RevisionRow(Setup, None, Draft, None)])
  }

  lemma Founds(db: Db, q: ProfileId, name: string)
    requires Tables(db) && q !in db.profiles && (forall p | p in db.profiles :: db.profiles[p].name != name)
    ensures Step(db, Founding(db, q, name)) == Founded(db, q, name)
    ensures Carries(db, Founding(db, q, name).save)
  {
    assert forall key | key in db.revisions :: key.0 != q;
  }

  /** The credential of the new profile: staged, written to the vault, and pointed to. */
  ghost function Keyed(db: Db, q: ProfileId, id: OperationId, phase: Phase, status: GenerationStatus): Db {
    db.(generations := db.generations[(q, 1) := GenerationRow(ApiKey, status)],
        journal := db.journal[id := NewRecord(q, phase)])
  }

  lemma FoundedIsFree(db: Db, q: ProfileId, name: string)
    requires Tables(db) && q !in db.profiles
    ensures var founded := Founded(db, q, name);
            && !BusyProfile(founded, q) && NewestGeneration(founded, q, 1)
            && LoadRevision(founded, q, 1) == Ok(Revision(q, 1, Setup, None, Draft, None))
  {
    var founded := Founded(db, q, name);
    forall i | i in founded.journal ensures founded.journal[i].profileId != q {
      assert MutationFits(db, db.journal[i]);
    }
  }

  lemma Begins(db: Db, q: ProfileId, name: string, id: OperationId)
    requires Tables(db) && q !in db.profiles && id !in db.journal
    ensures var founded := Founded(db, q, name);
            Step(founded, Begin(Announced(q, id))) == Keyed(founded, q, id, IntentRecorded, Retained)
  {
    FoundedIsFree(db, q, name);
    FoundedBegins(Founded(db, q, name), q, id);
  }

  lemma FoundedBegins(db: Db, q: ProfileId, id: OperationId)
    requires !BusyProfile(db, q) && NewestGeneration(db, q, 1) && id !in db.journal
    requires CurrentRevision(db, q) == Some(1) && LoadRevision(db, q, 1) == Ok(Revision(q, 1, Setup, None, Draft, None))
    ensures Step(db, Begin(Announced(q, id))) == Keyed(db, q, id, IntentRecorded, Retained)
  {
  }

  lemma NewRecordLoads(db: Db, q: ProfileId, id: OperationId, phase: Phase)
    requires id in db.journal && db.journal[id] == NewRecord(q, phase) && !phase.Blocked?
    requires (q, 1) in db.generations && db.generations[(q, 1)].kind.ApiKey?
    ensures LoadMutation(db, id) == Ok(NewRecord(q, phase)) && HasKind(db, NewRecord(q, phase), ApiKey)
  {
    assert 1 in References(NewRecord(q, phase));
    assert HasKind(db, NewRecord(q, phase), ApiKey);
  }

  lemma WritesVault(db: Db, q: ProfileId, id: OperationId)
    ensures Step(Keyed(db, q, id, IntentRecorded, Retained), VaultWrite(id))
            == Keyed(db, q, id, VaultWritten, Available)
  {
    NewRecordLoads(Keyed(db, q, id, IntentRecorded, Retained), q, id, IntentRecorded);
  }

  ghost function Pointed(db: Db, q: ProfileId, name: string): Db {
    db.(profiles := db.profiles[q := ProfileRow(name, 2, false)],
        revisions := db.revisions[(q, 1) := RevisionRow(Setup, None, Draft, None)]
                                 [(q, 2) := RevisionRow(Setup, Some(1), Draft, None)])
  }

  lemma PointingMatches(db: Db, q: ProfileId, id: OperationId)
    requires LoadMutation(db, id) == Ok(NewRecord(q, VaultWritten)) && HasKind(db, NewRecord(q, VaultWritten), ApiKey)
    requires CurrentRevision(db, q) == Some(1) && LoadRevision(db, q, 1) == Ok(Revision(q, 1, Setup, None, Draft, None))
    requires (q, 1) in db.generations && db.generations[(q, 1)].kind.ApiKey?
    ensures PointerMoves(db, Pointing(q, id))
  {
  }

  lemma Points(db: Db, q: ProfileId, name: string, id: OperationId)
    requires Tables(Keyed(Founded(db, q, name), q, id, VaultWritten, Available))
    ensures Step(Keyed(Founded(db, q, name), q, id, VaultWritten, Available), PointTo(Pointing(q, id)))
            == Keyed(Pointed(db, q, name), q, id, PointerCommitted, Available)
  {
    var written := Keyed(Founded(db, q, name), q, id, VaultWritten, Available);
    NewRecordLoads(written, q, id, VaultWritten);
    PointingMatches(written, q, id);
    CommitCases(written, Pointing(q, id));
    PointedIs(db, q, name, id);
  }

  lemma PointedIs(db: Db, q: ProfileId, name: string, id: OperationId)
    ensures WithMutation(PointerAppended(Keyed(Founded(db, q, name), q, id, VaultWritten, Available),
                                         Pointing(q, id)), id,
                         NewRecord(q, PointerCommitted))
            == Keyed(Pointed(db, q, name), q, id, PointerCommitted, Available)
  {
  }

  /** Passing evidence about a draft with a credential, under a fresh identifier. */
  ghost function Passing(db: Db, p: ProfileId, g: nat, id: ValidationId): ValidationCommit
    requires p in db.profiles && (p, db.profiles[p].current) in db.revisions && (p, g) in db.generations
  {
    var n := db.profiles[p].current;
    var key := Generation(p, g, db.generations[(p, g)].kind);
    var digest := Digest(p, n, db.revisions[(p, n)].config, Some(key), "");
    ValidationCommit(p, n, key, digest, Evidence(id, digest, true), "")
  }

  /** A current draft with a credential can always be validated; nothing else changes. */
  lemma Validating(db: Db, p: ProfileId, g: nat) returns (op: Op)
    requires Tables(db) && Existing(db, p)
    requires var key := (p, db.profiles[p].current);
             key in db.revisions && db.revisions[key].state.Draft? && db.revisions[key].generation == Some(g)
    ensures op.Validate? && Poised(Step(db, op), p, g)
    ensures var after := Step(db, op);
            && after == db.(revisions := after.revisions, validations := after.validations)
            && after.revisions.Keys == db.revisions.Keys
            && (forall key | key in db.revisions && key != (p, db.profiles[p].current) ::
                  after.revisions[key] == db.revisions[key])
  {
    var key := (p, db.profiles[p].current);
    var id := FreshKey(db.validations);
    assert CredentialFits(db, key.0, db.revisions[key].config, db.revisions[key].generation);
    var commit := Passing(db, p, g, id);
    PassingIsStored(db, p, g, id);
    ValidationStores(db, commit);
    ValidationFrame(db, commit);
    ValidationTables(db, commit);
    op := Validate(commit);
  }

  lemma PassingIsStored(db: Db, p: ProfileId, g: nat, id: ValidationId)
    requires Tables(db) && Existing(db, p) && id !in db.validations && (p, g) in db.generations
    requires var key := (p, db.profiles[p].current);
             key in db.revisions && db.revisions[key].state.Draft? && db.revisions[key].generation == Some(g)
    ensures SaveValidation(db, Passing(db, p, g, id)).result.Ok?
  {
    var key := (p, db.profiles[p].current);
    assert Validated(db, key, db.revisions[key]);
    forall v | v in db.validations ensures db.validations[v].digest != Passing(db, p, g, id).digest {
      ValidationOwnsDigest(db, v);
    }
    ValidateExactly(db, Passing(db, p, g, id));
  }

  /** The digest of a stored validation covers a revision that is not a draft any more. */
  lemma ValidationOwnsDigest(db: Db, v: ValidationId)
    requires RevisionTables(db) && v in db.validations
    ensures var key := (db.validations[v].digest.profileId, db.validations[v].digest.revision);
            key in db.revisions && db.revisions[key].validation == Some(v)
  {
    var key := (db.validations[v].profileId, db.validations[v].revision);
    assert Validated(db, key, db.revisions[key]);
  }

  /** The rows of another profile are the same. */
  ghost predicate Beside(db: Db, later: Db, p: ProfileId) {
    && p in later.profiles && (p in db.profiles ==> later.profiles[p] == db.profiles[p])
    && (forall n | (p, n) in db.revisions ::
        (p, n) in later.revisions && later.revisions[(p, n)] == db.revisions[(p, n)])
    && (forall g | (p, g) in db.generations ::
        (p, g) in later.generations && later.generations[(p, g)] == db.generations[(p, g)])
  }

  lemma StaysPoised(db: Db, later: Db, p: ProfileId, g: nat)
    requires Poised(db, p, g) && HasStatus(db, p, g, Retained) && Tables(later) && Beside(db, later, p)
    ensures Poised(later, p, g) && HasStatus(later, p, g, Retained)
  {
  }

  /** A retained credential is lost even while the slot holds it: a new profile can take the slot. */
  lemma RetainedLoses(db: Db, p: ProfileId, g: nat)
    requires Poised(db, p, g) && HasStatus(db, p, g, Retained)
    ensures !KeepsForever(db)
  {
    var q := FreshKey(db.profiles);
    var id := FreshKey(db.journal);
    var name := FreshName(db);
    NewProfileTables(db, q, name, id);
    NewProfileBeside(db, q, name, id, p);
    NewProfileLoses(db, Keyed(Pointed(db, q, name), q, id, PointerCommitted, Available), p, g, q);
    NewProfileSteps(db, q, name, id);
  }

  /** The four transactions that give a new profile a credential. */
  lemma NewProfileTables(db: Db, q: ProfileId, name: string, id: OperationId)
    requires Tables(db) && q !in db.profiles && id !in db.journal
    requires forall p | p in db.profiles :: db.profiles[p].name != name
    ensures Tables(Keyed(Founded(db, q, name), q, id, VaultWritten, Available))
    ensures Tables(Keyed(Pointed(db, q, name), q, id, PointerCommitted, Available))
  {
    var founded := Founded(db, q, name);
    Founds(db, q, name);
    StepTables(db, Founding(db, q, name));
    Begins(db, q, name, id);
    StepTables(founded, Begin(Announced(q, id)));
    WritesVault(founded, q, id);
    StepTables(Keyed(founded, q, id, IntentRecorded, Retained), VaultWrite(id));
    Points(db, q, name, id);
    StepTables(Keyed(founded, q, id, VaultWritten, Available), PointTo(Pointing(q, id)));
  }

  lemma NewProfileSteps(db: Db, q: ProfileId, name: string, id: OperationId)
    requires Tables(db) && q !in db.profiles && id !in db.journal
    requires forall p | p in db.profiles :: db.profiles[p].name != name
    requires Tables(Keyed(Founded(db, q, name), q, id, VaultWritten, Available))
    requires !KeepsForever(Keyed(Pointed(db, q, name), q, id, PointerCommitted, Available))
    ensures !KeepsForever(db)
  {
    var founded := Founded(db, q, name);
    Points(db, q, name, id);
    LosesLater(Keyed(founded, q, id, VaultWritten, Available), PointTo(Pointing(q, id)));
    WritesVault(founded, q, id);
    LosesLater(Keyed(founded, q, id, IntentRecorded, Retained), VaultWrite(id));
    Begins(db, q, name, id);
    LosesLater(founded, Begin(Announced(q, id)));
    Founds(db, q, name);
    LosesLater(db, Founding(db, q, name));
  }

  lemma NewProfileBeside(db: Db, q: ProfileId, name: string, id: OperationId, p: ProfileId)
    requires p in db.profiles && p != q
    ensures Beside(db, Keyed(Pointed(db, q, name), q, id, PointerCommitted, Available), p)
  {
  }

  /** The new profile is validated and activated, and the credential is no longer in the slot. */
  lemma NewProfileLoses(db: Db, pointed: Db, p: ProfileId, g: nat, q: ProfileId)
    requires Poised(db, p, g) && HasStatus(db, p, g, Retained) && q !in db.profiles
    requires Tables(pointed) && Beside(db, pointed, p) && Existing(pointed, q) && pointed.profiles[q].current == 2
    requires (q, 2) in pointed.revisions && pointed.revisions[(q, 2)] == RevisionRow(Setup, Some(1), Draft, None)
    ensures !KeepsForever(pointed)
  {
    var validate := Validating(pointed, q, 1);
    var ready := Step(pointed, validate);
    assert Beside(db, ready, p);
    var select := Activating(ready, q, 1);
    var active := Step(ready, select);
    assert Beside(db, active, p);
    StaysPoised(db, active, p, g);
    IdleLoses(active, p, g);
    LosesLater(ready, select);
    LosesLater(pointed, validate);
  }

  // ---------- the exact condition ----------

  lemma CompletionLoses(db: Db, id: OperationId, later: Db)
    requires later == CompleteMutation(db, id).db && !KeepsForever(later)
    ensures !KeepsForever(db)
  {
    LosesLater(db, Complete(id));
  }

  lemma ReplacedIsRetained(db: Db, p: ProfileId, g: nat, id: OperationId)
    requires Poised(db, p, g) && id in db.journal && db.journal[id].phase.PointerCommitted?
    requires db.journal[id].profileId == p && db.journal[id].oldGen == Some(g)
    ensures Poised(CompleteMutation(db, id).db, p, g) && HasStatus(CompleteMutation(db, id).db, p, g, Retained)
  {
    CompletionIs(db, id);
    RecordShape(db, id);
    CompleteTables(db, id);
  }

  /** The replaced credential of a mutation that has moved its pointer is retained when it completes. */
  lemma ReplacedLoses(db: Db, p: ProfileId, g: nat, id: OperationId)
    requires Poised(db, p, g) && id in db.journal && db.journal[id].phase.PointerCommitted?
    requires db.journal[id].profileId == p && db.journal[id].oldGen == Some(g)
    ensures !KeepsForever(db)
  {
    ReplacedIsRetained(db, p, g, id);
    RetainedLoses(CompleteMutation(db, id).db, p, g);
    CompletionLoses(db, id, CompleteMutation(db, id).db);
  }

  /** An unsafe save is lost by a continuation that begins with validating what it saved. */
  lemma UnsafeLoses(db: Db, request: SaveRequest)
    requires Inv(db) && SaveRevision(db, request).result.Ok? && !SaveSafe(db, request)
    ensures !KeepsForever(SaveRevision(db, request).db)
  {
    var p, g := request.profileId, request.revision.generation.value.number;
    var after := SaveRevision(db, request).db;
    SaveTables(db, request);
    SaveAppends(db, request);
    var validate := Validating(after, p, g);
    var ready := Step(after, validate);
    assert ready.generations == db.generations && ready.journal == db.journal;
    if HasStatus(db, p, g, Deleted) {
      DeletedLoses(ready, p, g);
    } else if HasStatus(db, p, g, Retained) {
      RetainedLoses(ready, p, g);
    } else if !Nameable(db, p, Some(g)) {
      var id :| id in db.journal && db.journal[id].profileId == p && MayTombstone(db.journal[id])
                && db.journal[id].Staged() == Some(g);
      StagedLoses(ready, p, g, id);
    } else {
      var id :| id in db.journal && db.journal[id].profileId == p && db.journal[id].phase.PointerCommitted?
                && db.journal[id].oldGen == Some(g);
      ReplacedLoses(ready, p, g, id);
    }
    LosesLater(after, validate);
  }

  lemma InvKeepsForever(db: Db)
    requires Inv(db)
    ensures KeepsForever(db)
  {
    forall ops | SavesCarry(db, ops) ensures LiveCredentialsKept(After(db, ops)) {
      CarryingRunsAreSafe(db, ops);
      LiveCredentialsSurvive(db, ops);
    }
  }

  /** A save that succeeds keeps what is in use in every continuation, as long as later saves carry the
      current credential over, exactly when its credential is none, or neither retained nor deleted, nor
      one that an unfinished mutation may still tombstone or has just replaced. */
  lemma SafeSavesExactly(db: Db, request: SaveRequest)
    requires Inv(db) && SaveRevision(db, request).result.Ok?
    ensures KeepsForever(SaveRevision(db, request).db) <==> SaveSafe(db, request)
    ensures Inv(SaveRevision(db, request).db) <==> SaveSafe(db, request)
  {
    var after := SaveRevision(db, request).db;
    if SaveSafe(db, request) { SaveKeeps(db, request); } else { UnsafeLoses(db, request); }
    if Inv(after) { InvKeepsForever(after); }
  }

  /** The same after any run from the empty tables whose saves were safe. */
  lemma SafeSavesExactlySoFar(ops: seq<Op>, request: SaveRequest)
    requires SavesSafe(EmptyDb, ops) && SaveRevision(After(EmptyDb, ops), request).result.Ok?
    ensures KeepsForever(SaveRevision(After(EmptyDb, ops), request).db) <==> SaveSafe(After(EmptyDb, ops), request)
  {
    EmptyInv();
    LiveCredentialsSurvive(EmptyDb, ops);
    SafeSavesExactly(After(EmptyDb, ops), request);
  }
}
