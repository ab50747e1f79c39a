/** When each transaction of the provider repository succeeds, told of the rows of the tables. */
module ProviderOutcomes {
  import opened Wrappers
  import opened ProviderDomain
  import opened ProviderStore
  import opened ProviderSteps
  import opened ProviderWrites
  import opened ProviderTables
  import opened RunStatuses

  // ---------- success, exactly ----------

  /** Only the ChatGPT subscription signs in; every other provider takes a key. */
  ghost predicate IsKindOf(kind: CredentialKind, provider: ProviderId) {
    kind.OAuthConnection? <==> provider.ChatGptSubscription?
  }

  /** A revision can be saved exactly when it is an unvalidated successor of what its author saw, its
      profile was never deleted, its name is free and its credential exists and fits; it is then current. */
  lemma SaveExactly(db: Db, request: SaveRequest)
    requires RevisionsNumbered(db)
    ensures SaveRevision(db, request).result.Ok?
            <==> var p, revision := request.profileId, request.revision;
                 && revision.profileId == p && revision.state.Draft? && revision.validation.None?
                 && (p in db.profiles ==> !db.profiles[p].deleted)
                 && request.expectedCurrent == (if p in db.profiles then Some(db.profiles[p].current) else None)
                 && revision.number == (if p in db.profiles then db.profiles[p].current + 1 else 1)
                 && (forall q | q in db.profiles && q != p :: db.profiles[q].name != request.name)
                 && (revision.generation.Some? ==>
                       && (p, revision.generation.value.number) in db.generations
                       && IsKindOf(db.generations[(p, revision.generation.value.number)].kind,
                                   revision.config.provider))
    ensures SaveRevision(db, request).result.Err? ==> SaveRevision(db, request).db == db
    ensures SaveRevision(db, request).result.Ok? ==>
              var p, revision := request.profileId, request.revision;
              var credential := if revision.generation.Some? then Some(revision.generation.value.number) else None;
              && SaveRevision(db, request).result == Ok(revision)
              && SaveRevision(db, request).db
                 == db.(profiles := db.profiles[p := ProfileRow(request.name, revision.number, false)],
                        revisions := db.revisions[(p, revision.number) :=
                                                  RevisionRow(revision.config, credential, Draft, None)])
  {
    var p, revision := request.profileId, request.revision;
    if Existing(db, p) || p !in db.profiles {
      var n := if p in db.profiles then db.profiles[p].current + 1 else 1;
      assert NextRevision(db, p, n) by {
        forall key | key in db.revisions && key.0 == p ensures key.1 < n {
          assert key in db.revisions;
        }
        if n > 1 { assert (p, n - 1) in db.revisions; }
      }
    }
  }

  /** A validation is stored exactly when it is about the current, still unvalidated revision, with its
      credential, its digest covers that revision, and neither it nor its digest was stored before. */
  lemma ValidateExactly(db: Db, commit: ValidationCommit)
    requires Tables(db)
    ensures SaveValidation(db, commit).result.Ok?
            <==> var p, n := commit.profileId, commit.revision;
                 && Existing(db, p) && n == db.profiles[p].current && (p, n) in db.revisions
                 && var row := db.revisions[(p, n)];
                    && row.validation.None?
                    && commit.generation == Generation(p, commit.generation.number, commit.generation.kind)
                    && row.generation == Some(commit.generation.number)
                    && (p, commit.generation.number) in db.generations
                    && db.generations[(p, commit.generation.number)].kind == commit.generation.kind
                    && commit.evidence.digest == commit.digest
                    && commit.digest == Digest(p, n, row.config, Some(commit.generation), commit.versions)
                    && commit.evidence.id !in db.validations
                    && (forall id | id in db.validations :: db.validations[id].digest != commit.digest)
    ensures SaveValidation(db, commit).result.Err? ==> SaveValidation(db, commit).db == db
    ensures SaveValidation(db, commit).result.Ok? ==>
              var key, evidence := (commit.profileId, commit.revision), commit.evidence;
              && key in db.revisions
              && SaveValidation(db, commit).db
                 == db.(validations := db.validations[evidence.id :=
                          ValidationRow(key.0, key.1, commit.generation.number, commit.digest, evidence.passed)],
                        revisions := db.revisions[key :=
                          db.revisions[key].(state := if evidence.passed then Ready else Invalid,
                                             validation := Some(evidence.id))])
  {
    var p, n := commit.profileId, commit.revision;
    if Existing(db, p) && n == db.profiles[p].current {
      assert (p, n) in db.revisions;
      RevisionLoads(db, p, n);
      assert Validated(db, (p, n), db.revisions[(p, n)]);
    }
  }

  /** A profile is activated exactly when its current revision is ready by the named validation and the
      active slot is as its author saw it. */
  lemma ActivateExactly(db: Db, request: ActivateRequest)
    requires Tables(db)
    ensures Activate(db, request).result.Ok?
            <==> var p, n := request.profileId, request.revision;
                 && Existing(db, p) && n == db.profiles[p].current && (p, n) in db.revisions
                 && db.revisions[(p, n)].state.Ready?
                 && db.revisions[(p, n)].validation == Some(request.validationId)
                 && request.validationId in db.validations
                 && db.validations[request.validationId].digest == request.digest
                 && request.expectedActivation == (if db.active.Some? then Some(db.active.value.activation) else None)
    ensures Activate(db, request).result.Err? ==> Activate(db, request).db == db
    ensures Activate(db, request).result.Ok? ==>
              var key := (request.profileId, request.revision);
              && key in db.revisions && db.revisions[key].generation.Some?
              && Activate(db, request).result
                 == Ok(Activation(key.0, key.1, request.validationId, db.revisions[key].generation.value,
                                  request.digest,
                                  if db.active.Some? then db.active.value.activation + 1 else 1))
              && Activate(db, request).db == db.(active := Some(Activate(db, request).result.value))
  {
    var p, n := request.profileId, request.revision;
    if Existing(db, p) && n == db.profiles[p].current {
      assert (p, n) in db.revisions;
      RevisionLoads(db, p, n);
      if db.revisions[(p, n)].state.Ready? {
        ReadyPasses(db, p, n, if db.active.Some? then db.active.value.activation + 1 else 1);
      }
    }
  }

  /** A mutation begins exactly when its profile has none open, its author saw the current revision and
      its credential, the generation it stages fits the provider and is greater than any before, and
      its identifier is new. */
  lemma BeginExactly(db: Db, intent: Intent)
    requires Tables(db)
    ensures BeginMutation(db, intent).result.Ok?
            <==> var p := intent.profileId;
                 var staged := if intent.newGen.Some? then intent.newGen else intent.rollbackGen;
                 && Existing(db, p) && intent.expectedRevision == db.profiles[p].current
                 && (p, intent.expectedRevision) in db.revisions
                 && var row := db.revisions[(p, intent.expectedRevision)];
                    && (forall id | id in db.journal && db.journal[id].profileId == p :: !db.journal[id].phase.Open())
                    && intent.operationId !in db.journal
                    && row.generation == intent.oldGen
                    && IsKindOf(intent.kind, row.config.provider)
                    && staged.Some? && (forall key | key in db.generations && key.0 == p :: key.1 < staged.value)
    ensures BeginMutation(db, intent).result.Err? ==> BeginMutation(db, intent).db == db
    ensures BeginMutation(db, intent).result.Ok? ==>
              var p, staged := intent.profileId, if intent.newGen.Some? then intent.newGen else intent.rollbackGen;
              var record := Mutation(p, intent.expectedRevision, intent.operation, intent.oldGen, intent.newGen,
                                     intent.rollbackGen, IntentRecorded, None);
              && staged.Some? && (p, staged.value) !in db.generations
              && BeginMutation(db, intent)
                 == Tx(db.(generations := db.generations[(p, staged.value) := GenerationRow(intent.kind, Retained)],
                           journal := db.journal[intent.operationId := record]),
                       Ok(record))
  {
    var p := intent.profileId;
    if Existing(db, p) && intent.expectedRevision == db.profiles[p].current {
      var key := (p, intent.expectedRevision);
      assert key in db.revisions;
      RevisionLoads(db, p, intent.expectedRevision);
      assert CredentialFits(db, key.0, db.revisions[key].config, db.revisions[key].generation);
    }
  }

  /** A Run is created exactly when it is new and its binding is the active snapshot, which it keeps. */
  lemma CreateRunExactly(db: Db, run: RunId, status: RunStatus, binding: Activation)
    requires Tables(db)
    ensures CreateRun(db, run, status, binding).result.Ok?
            <==> run !in db.runs && run !in db.bindings && db.active == Some(binding)
    ensures CreateRun(db, run, status, binding).result.Ok? ==>
              CreateRun(db, run, status, binding).db
              == db.(runs := db.runs[run := status], bindings := db.bindings[run := binding])
    ensures CreateRun(db, run, status, binding).result.Err? ==> CreateRun(db, run, status, binding).db == db
  {
  }

  // ---------- names ----------

  /** No two profiles, deleted ones included, have the same name. */
  ghost predicate NamesUnique(db: Db) {
    forall p, q | p in db.profiles && q in db.profiles && p != q :: db.profiles[p].name != db.profiles[q].name
  }

  lemma SaveKeepsNames(db: Db, request: SaveRequest)
    requires NamesUnique(db)
    ensures NamesUnique(SaveRevision(db, request).db)
  {
  }

  lemma DeleteKeepsNames(db: Db, request: DeleteRequest)
    requires NamesUnique(db)
    ensures NamesUnique(DeleteProfile(db, request).db)
  {
  }

  lemma CommitKeepsNames(db: Db, commit: PointerCommit)
    requires NamesUnique(db)
    ensures NamesUnique(CommitPointer(db, commit).db)
  {
    CommitWrites(db, commit);
    if CommitPointer(db, commit).db.profiles != db.profiles {
      assert CommitPointer(db, commit).db.profiles == PointerAppended(db, commit).profiles;
    }
  }

  lemma CompleteKeepsProfiles(db: Db, id: OperationId)
    ensures CompleteMutation(db, id).db.profiles == db.profiles
  {
  }

  lemma BlockKeepsProfiles(db: Db, id: OperationId, code: ErrorCode)
    ensures BlockMutation(db, id, code).db.profiles == db.profiles
  {
  }

  lemma JournalKeepsProfiles(db: Db, op: Op)
    requires op.Begin? || op.VaultWrite? || op.Rollback?
    ensures Step(db, op).profiles == db.profiles
  {
  }

  lemma TablesKeepProfiles(db: Db, op: Op)
    requires op.Validate? || op.Select? || op.Retire? || op.StartRun? || op.AdvanceRun?
    ensures Step(db, op).profiles == db.profiles
  {
  }

  lemma StepKeepsNames(db: Db, op: Op)
    requires NamesUnique(db)
    ensures NamesUnique(Step(db, op))
  {
    match op
    case Save(request) => SaveKeepsNames(db, request);
    case PointTo(commit) => CommitKeepsNames(db, commit);
    case Remove(request) => DeleteKeepsNames(db, request);
    case _ => OthersKeepProfiles(db, op);
  }

  lemma OthersKeepProfiles(db: Db, op: Op)
    requires !op.Save? && !op.PointTo? && !op.Remove?
    ensures Step(db, op).profiles == db.profiles
  {
    match op
    case Complete(id) => CompleteKeepsProfiles(db, id);
    case Block(id, code) => BlockKeepsProfiles(db, id, code);
    case Begin(_) => JournalKeepsProfiles(db, op);
    case VaultWrite(_) => JournalKeepsProfiles(db, op);
    case Rollback(_) => JournalKeepsProfiles(db, op);
    case _ => TablesKeepProfiles(db, op);
  }

  /** Profile names stay unique through every run. */
  lemma {:induction false} NamesStayUnique(db: Db, ops: seq<Op>)
    requires NamesUnique(db)
    ensures NamesUnique(After(db, ops))
    decreases |ops|
  {
    if ops != [] {
      StepKeepsNames(db, ops[0]);
      NamesStayUnique(Step(db, ops[0]), ops[1..]);
    }
  }
}
