/** The provider tables and, as functions on them, the transactions of the provider repository.
    A transaction that fails leaves the tables as they were, with one exception that the
    repository makes on purpose: a stale pointer commit. */
module ProviderStore {
  import opened Wrappers
  import opened ProviderDomain
  import opened RunStatuses

  datatype ProfileRow = ProfileRow(name: string, current: nat, deleted: bool)

  datatype RevisionRow = RevisionRow(config: Config, generation: Option<nat>, state: ProfileState,
                                     validation: Option<ValidationId>)

  datatype ValidationRow = ValidationRow(profileId: ProfileId, revision: nat, generation: nat,
                                         digest: Digest, passed: bool)

  datatype GenerationStatus = Available | Retained | Revoked | Deleted

  datatype GenerationRow = GenerationRow(kind: CredentialKind, status: GenerationStatus)

  datatype Db = Db(
    profiles: map<ProfileId, ProfileRow>,
    revisions: map<(ProfileId, nat), RevisionRow>,
    validations: map<ValidationId, ValidationRow>,
    generations: map<(ProfileId, nat), GenerationRow>,
    journal: map<OperationId, Mutation>,
    active: Option<Activation>,
    bindings: map<RunId, Activation>,
    runs: map<RunId, RunStatus>)

  const EmptyDb := Db(map[], map[], map[], map[], map[], None, map[], map[])

  /** The tables after a transaction together with what it returned. */
  datatype Tx<T> = Tx(db: Db, result: Result<T, ProviderError>)

  // ---------- reading ----------

  /** A deleted profile has no current revision. */
  function CurrentRevision(db: Db, profileId: ProfileId): Option<nat> {
    if profileId in db.profiles && !db.profiles[profileId].deleted
    then Some(db.profiles[profileId].current) else None
  }

  function JoinedEvidence(db: Db, profileId: ProfileId, number: nat, validation: Option<ValidationId>)
    : Option<Evidence>
  {
    if validation.Some? && validation.value in db.validations
       && db.validations[validation.value].profileId == profileId
       && db.validations[validation.value].revision == number
    then
      var row := db.validations[validation.value];
      Some(Evidence(validation.value, row.digest, row.passed))
    else None
  }

  function LoadRevision(db: Db, profileId: ProfileId, number: nat): Result<Revision, ProviderError> {
    if (profileId, number) !in db.revisions then Err(InternalError)
    else
      var row := db.revisions[(profileId, number)];
      var evidence := JoinedEvidence(db, profileId, number, row.validation);
      if row.generation.Some? && (profileId, row.generation.value) !in db.generations then Err(InternalError)
      else if row.validation.Some? != evidence.Some? then Err(InternalError)
      else
        var generation :=
          if row.generation.Some?
          then Some(Generation(profileId, row.generation.value, db.generations[(profileId, row.generation.value)].kind))
          else None;
        Hydrate(profileId, number, row.config, generation, row.state, evidence)
  }

  function References(m: Mutation): set<nat> {
    (if m.oldGen.Some? then {m.oldGen.value} else {})
    + (if m.newGen.Some? then {m.newGen.value} else {})
    + (if m.rollbackGen.Some? then {m.rollbackGen.value} else {})
  }

  /** Every stored generation the record names has this kind, and there is one. */
  predicate HasKind(db: Db, m: Mutation, kind: CredentialKind) {
    && (exists g | g in References(m) :: (m.profileId, g) in db.generations)
    && (forall g | g in References(m) && (m.profileId, g) in db.generations ::
          db.generations[(m.profileId, g)].kind == kind)
  }

  function LoadMutation(db: Db, id: OperationId): Result<Mutation, ProviderError> {
    if id !in db.journal then Err(OperationStale)
    else
      var m := db.journal[id];
      if !HasKind(db, m, ApiKey) && !HasKind(db, m, OAuthConnection) then Err(InternalError)
      else if !ErrorFits(m.phase, m.error) || m.expectedRevision == 0
              || !ShapeValid(m.operation, m.oldGen, m.newGen, m.rollbackGen) then Err(InternalError)
      else Ok(m)
  }

  predicate LiveProfile(db: Db, profileId: ProfileId) {
    exists run | run in db.bindings ::
      db.bindings[run].profileId == profileId && run in db.runs && !db.runs[run].Terminal()
  }

  predicate LiveCredential(db: Db, profileId: ProfileId, generation: nat) {
    exists run | run in db.bindings ::
      db.bindings[run].profileId == profileId && db.bindings[run].generation == generation
      && run in db.runs && !db.runs[run].Terminal()
  }

  predicate BlockedProfile(db: Db, profileId: ProfileId) {
    exists id | id in db.journal :: db.journal[id].profileId == profileId && db.journal[id].phase.Blocked?
  }

  predicate BusyProfile(db: Db, profileId: ProfileId) {
    exists id | id in db.journal :: db.journal[id].profileId == profileId && db.journal[id].phase.Open()
  }

  predicate NewestGeneration(db: Db, profileId: ProfileId, generation: nat) {
    forall key | key in db.generations && key.0 == profileId :: generation > key.1
  }

  /** The insert trigger on revisions: the number follows the greatest one stored. */
  predicate NextRevision(db: Db, profileId: ProfileId, number: nat) {
    && (forall key | key in db.revisions && key.0 == profileId :: key.1 < number)
    && (number == 1 || (number > 1 && (profileId, number - 1) in db.revisions))
  }

  /** The insert trigger on revisions: a named credential exists and fits the provider. */
  predicate CredentialFits(db: Db, profileId: ProfileId, config: Config, generation: Option<nat>) {
    generation.Some? ==>
      && (profileId, generation.value) in db.generations
      && db.generations[(profileId, generation.value)].kind == RequiredKind(config.provider)
  }

  /** The trigger on the active slot and on run bindings. */
  predicate PassingValidation(db: Db, a: Activation) {
    && (a.profileId, a.revision) in db.revisions
    && db.revisions[(a.profileId, a.revision)].state.Ready?
    && db.revisions[(a.profileId, a.revision)].validation == Some(a.validationId)
    && a.validationId in db.validations
    && db.validations[a.validationId] == ValidationRow(a.profileId, a.revision, a.generation, a.digest, true)
  }

  // ---------- row updates ----------

  function Number(generation: Option<Generation>): Option<nat> {
    if generation.Some? then Some(generation.value.number) else None
  }

  function DraftRow(revision: Revision): RevisionRow {
    RevisionRow(revision.config, Number(revision.generation), Draft, None)
  }

  function WithStatus(db: Db, profileId: ProfileId, generation: nat, status: GenerationStatus): Db {
    if (profileId, generation) in db.generations
    then
      var row := db.generations[(profileId, generation)];
      db.(generations := db.generations[(profileId, generation) := row.(status := status)])
    else db
  }

  function WithMutation(db: Db, id: OperationId, m: Mutation): Db {
    db.(journal := db.journal[id := m])
  }

  // ---------- profiles and revisions ----------

  datatype SaveRequest = SaveRequest(profileId: ProfileId, expectedCurrent: Option<nat>, name: string,
                                     revision: Revision)

  predicate NameTaken(db: Db, profileId: ProfileId, name: string) {
    exists p | p in db.profiles :: p != profileId && db.profiles[p].name == name
  }

  predicate SavePrecondition(request: SaveRequest, current: Option<nat>) {
    && request.profileId == request.revision.profileId
    && request.revision.state.Draft?
    && request.revision.validation.None?
    && request.expectedCurrent == current
    && request.revision.number == (if current.Some? then current.value + 1 else 1)
  }

  function SaveRevision(db: Db, request: SaveRequest): Tx<Revision> {
    var current := CurrentRevision(db, request.profileId);
    var revision := request.revision;
    if !SavePrecondition(request, current) then Tx(db, Err(StorageConflict))
    else if current.None? && request.profileId in db.profiles then Tx(db, Err(StorageConflict))
    else if current.None? && NameTaken(db, request.profileId, request.name) then Tx(db, Err(ProfileNameConflict))
    else if !NextRevision(db, request.profileId, revision.number)
            || !CredentialFits(db, request.profileId, revision.config, Number(revision.generation))
    then Tx(db, Err(StorageConflict))
    else if NameTaken(db, request.profileId, request.name) then Tx(db, Err(ProfileNameConflict))
    else
      Tx(db.(profiles := db.profiles[request.profileId := ProfileRow(request.name, revision.number, false)],
             revisions := db.revisions[(request.profileId, revision.number) := DraftRow(revision)]),
         Ok(revision))
  }

  datatype ValidationCommit = ValidationCommit(profileId: ProfileId, revision: nat, generation: Generation,
                                               digest: Digest, evidence: Evidence, versions: string)

  function SaveValidation(db: Db, commit: ValidationCommit): Tx<Revision> {
    if CurrentRevision(db, commit.profileId) != Some(commit.revision) then Tx(db, Err(ValidationStale))
    else if commit.evidence.digest != commit.digest then Tx(db, Err(ValidationStale))
    else
      var loaded := LoadRevision(db, commit.profileId, commit.revision);
      if loaded.Err? then Tx(db, Err(loaded.error))
      else
        var revision := loaded.value;
        if revision.generation != Some(commit.generation) || !revision.state.Draft?
           || commit.evidence.digest != revision.Inputs(commit.versions)
        then Tx(db, Err(ValidationStale))
        else
          var state := if commit.evidence.passed then Ready else Invalid;
          var hydrated := Hydrate(revision.profileId, revision.number, revision.config, revision.generation,
                                  state, Some(commit.evidence));
          if hydrated.Err? then Tx(db, Err(InternalError))
          else if commit.evidence.id in db.validations
                  || (exists id | id in db.validations :: db.validations[id].digest == commit.digest)
          then Tx(db, Err(StorageConflict))
          else
            var key := (commit.profileId, commit.revision);
            Tx(db.(validations := db.validations[commit.evidence.id :=
                     ValidationRow(commit.profileId, commit.revision, commit.generation.number,
                                   commit.digest, commit.evidence.passed)],
                   revisions := db.revisions[key :=
                     db.revisions[key].(state := state, validation := Some(commit.evidence.id))]),
               hydrated)
  }

  datatype ActivateRequest = ActivateRequest(profileId: ProfileId, revision: nat, validationId: ValidationId,
                                             digest: Digest, expectedActivation: Option<nat>)

  function ActivationNumber(active: Option<Activation>): Option<nat> {
    if active.Some? then Some(active.value.activation) else None
  }

  /** The snapshot of a ready revision; it also refuses a revision without credential. */
  function FromReady(revision: Revision, activation: nat): Result<Activation, ProviderError> {
    if revision.state.Ready? && revision.validation.Some? && revision.validation.value.passed
       && revision.generation.Some?
    then Ok(Activation(revision.profileId, revision.number, revision.validation.value.id,
                       revision.generation.value.number, revision.validation.value.digest, activation))
    else Err(ActivationFailed)
  }

  function Activate(db: Db, request: ActivateRequest): Tx<Activation> {
    if CurrentRevision(db, request.profileId) != Some(request.revision) then Tx(db, Err(ActivationFailed))
    else
      var loaded := LoadRevision(db, request.profileId, request.revision);
      if loaded.Err? then Tx(db, Err(loaded.error))
      else
        var revision := loaded.value;
        if revision.validation.None? || !revision.state.Ready?
           || revision.validation.value.id != request.validationId
           || revision.validation.value.digest != request.digest
           || ActivationNumber(db.active) != request.expectedActivation
        then Tx(db, Err(ActivationFailed))
        else
          var next := if db.active.Some? then db.active.value.activation + 1 else 1;
          var snapshot := FromReady(revision, next);
          if snapshot.Err? then Tx(db, Err(snapshot.error))
          else if !PassingValidation(db, snapshot.value) then Tx(db, Err(StorageConflict))
          else Tx(db.(active := Some(snapshot.value)), snapshot)
  }

  /** What a reader of the active slot gets: nothing, a refusal, or the snapshot rebuilt from its
      revision. */
  function Active(db: Db): Result<Option<Activation>, ProviderError> {
    if db.active.None? then Ok(None)
    else if BlockedProfile(db, db.active.value.profileId) then Err(CredentialBlocked)
    else
      var loaded := LoadRevision(db, db.active.value.profileId, db.active.value.revision);
      if loaded.Err? then Err(loaded.error)
      else
        var snapshot := FromReady(loaded.value, db.active.value.activation);
        if snapshot.Err? then Err(InternalError) else Ok(Some(snapshot.value))
  }

  datatype ExpectedActive = ExpectedActive(profileId: ProfileId, revision: nat, activation: nat)

  datatype DeleteRequest = DeleteRequest(profileId: ProfileId, expectedRevision: nat,
                                         expectedActive: Option<ExpectedActive>, enterNoActive: bool)

  predicate ActiveMatches(active: Option<Activation>, expected: Option<ExpectedActive>) {
    && (active.Some? <==> expected.Some?)
    && (active.Some? ==>
          && active.value.profileId == expected.value.profileId
          && active.value.revision == expected.value.revision
          && active.value.activation == expected.value.activation)
  }

  /** Every generation of the profile is deleted. */
  function Tombstoned(generations: map<(ProfileId, nat), GenerationRow>, p: ProfileId)
    : map<(ProfileId, nat), GenerationRow>
  {
    map key | key in generations ::
      if key.0 == p then generations[key].(status := Deleted) else generations[key]
  }

  function DeleteProfile(db: Db, request: DeleteRequest): Tx<()> {
    var p := request.profileId;
    if CurrentRevision(db, p) != Some(request.expectedRevision) then Tx(db, Err(OperationStale))
    else if LiveProfile(db, p) then Tx(db, Err(OperationStale))
    else if !ActiveMatches(db.active, request.expectedActive) then Tx(db, Err(ActivationFailed))
    else
      var wasActive := db.active.Some? && db.active.value.profileId == p;
      if wasActive && !request.enterNoActive then Tx(db, Err(MustEnterNoActiveProvider))
      else
        Tx(db.(active := if wasActive then None else db.active,
               generations := Tombstoned(db.generations, p),
               profiles := db.profiles[p := db.profiles[p].(deleted := true)]),
           Ok(()))
  }

  // ---------- the credential-mutation journal ----------

  function Record(intent: Intent): Mutation {
    Mutation(intent.profileId, intent.expectedRevision, intent.operation,
             intent.oldGen, intent.newGen, intent.rollbackGen, IntentRecorded, None)
  }

  function Expected(intent: Intent): Option<Generation> {
    if intent.oldGen.Some? then Some(Generation(intent.profileId, intent.oldGen.value, intent.kind)) else None
  }

  predicate FreshGeneration(db: Db, profileId: ProfileId, config: Config, kind: CredentialKind,
                            generation: Option<nat>)
  {
    generation.Some? ==>
      && kind == RequiredKind(config.provider)
      && (profileId, generation.value) !in db.generations
      && NewestGeneration(db, profileId, generation.value)
  }

  function BeginMutation(db: Db, intent: Intent): Tx<Mutation> {
    var p := intent.profileId;
    if BusyProfile(db, p) then
      Tx(db, Err(if BlockedProfile(db, p) then CredentialBlocked else OperationStale))
    else if CurrentRevision(db, p) != Some(intent.expectedRevision) then Tx(db, Err(StorageConflict))
    else
      var loaded := LoadRevision(db, p, intent.expectedRevision);
      if loaded.Err? then Tx(db, Err(loaded.error))
      else if loaded.value.generation != Expected(intent) then Tx(db, Err(StorageConflict))
      else if !FreshGeneration(db, p, loaded.value.config, intent.kind, intent.newGen)
              || !FreshGeneration(db, p, loaded.value.config, intent.kind, intent.rollbackGen)
      then Tx(db, Err(StorageConflict))
      else if intent.operationId in db.journal then Tx(db, Err(StorageConflict))
      else
        var record := Record(intent);
        Tx(db.(generations := db.generations[(p, record.Staged().value) := GenerationRow(intent.kind, Retained)],
               journal := db.journal[intent.operationId := record]),
           Ok(record))
  }

  function RecordVaultWrite(db: Db, id: OperationId): Tx<Mutation> {
    var loaded := LoadMutation(db, id);
    if loaded.Err? then Tx(db, Err(loaded.error))
    else
      var m := loaded.value;
      if m.phase.VaultWritten? then Tx(db, Ok(m))
      else if !m.phase.IntentRecorded? then Tx(db, Err(OperationStale))
      else
        var staged := (m.profileId, m.Staged().value);
        if staged !in db.generations || !db.generations[staged].status.Retained?
        then Tx(db, Err(StorageConflict))
        else
          var next := m.(phase := VaultWritten);
          Tx(WithMutation(WithStatus(db, m.profileId, m.Staged().value, Available), id, next), Ok(next))
  }

  predicate CommitMatches(db: Db, m: Mutation, commit: PointerCommit) {
    && m.profileId == commit.profileId
    && m.expectedRevision == commit.expectedRevision
    && m.newGen.Some? == commit.replacement.generation.Some?
    && (m.newGen.Some? ==>
          && m.newGen.value == commit.replacement.generation.value.number
          && HasKind(db, m, commit.replacement.generation.value.kind))
  }

  /** The tables moved on since the mutation began, or the commit is not the one it announced. */
  predicate CommitStale(db: Db, m: Mutation, commit: PointerCommit) {
    || !CommitMatches(db, m, commit)
    || CurrentRevision(db, commit.profileId) != Some(commit.expectedRevision)
    || (var prior := LoadRevision(db, commit.profileId, commit.expectedRevision);
        prior.Ok? && prior.value.config != commit.replacement.config)
  }

  function CommitPointer(db: Db, commit: PointerCommit): Tx<Mutation> {
    var loaded := LoadMutation(db, commit.mutationId);
    if loaded.Err? then Tx(db, Err(loaded.error))
    else
      var m := loaded.value;
      var next := commit.replacement;
      if m.phase.PointerCommitted? then
        var persisted := LoadRevision(db, commit.profileId, next.number);
        if persisted.Err? then Tx(db, Err(persisted.error))
        else if CommitMatches(db, m, commit) && persisted.value.config == next.config
                && persisted.value.generation == next.generation
        then Tx(db, Ok(m))
        else Tx(db, Err(StorageConflict))
      else if !m.phase.VaultWritten? then Tx(db, Err(OperationStale))
      else
        var prior := LoadRevision(db, commit.profileId, commit.expectedRevision);
        if CurrentRevision(db, commit.profileId) == Some(commit.expectedRevision) && prior.Err?
        then Tx(db, Err(prior.error))
        else if CommitStale(db, m, commit) then
          Tx(WithMutation(db, commit.mutationId, m.(phase := CleanupPending)), Err(StorageConflict))
        else if !NextRevision(db, commit.profileId, next.number)
                || !CredentialFits(db, commit.profileId, next.config, Number(next.generation))
        then Tx(db, Err(StorageConflict))
        else
          var moved := db.(
            revisions := db.revisions[(commit.profileId, next.number) := DraftRow(next)],
            profiles := db.profiles[commit.profileId := db.profiles[commit.profileId].(current := next.number)]);
          var retired :=
            if m.oldGen.Some? && (m.profileId, m.oldGen.value) in moved.generations
               && !moved.generations[(m.profileId, m.oldGen.value)].status.Deleted?
            then WithStatus(moved, m.profileId, m.oldGen.value, Retained) else moved;
          var done := m.(phase := PointerCommitted);
          Tx(WithMutation(retired, commit.mutationId, done), Ok(done))
  }

  function CompleteMutation(db: Db, id: OperationId): Tx<Mutation> {
    var loaded := LoadMutation(db, id);
    if loaded.Err? then Tx(db, Err(loaded.error))
    else
      var m := loaded.value;
      if m.phase.Completed? then Tx(db, Ok(m))
      else if !m.phase.PointerCommitted? then Tx(db, Err(OperationStale))
      else
        var kept := if m.oldGen.Some? then WithStatus(db, m.profileId, m.oldGen.value, Retained) else db;
        var cleaned :=
          if m.rollbackGen.Some? then WithStatus(kept, m.profileId, m.rollbackGen.value, Deleted) else kept;
        var done := m.(phase := Completed);
        Tx(WithMutation(cleaned, id, done), Ok(done))
  }

  function RollbackMutation(db: Db, id: OperationId): Tx<Mutation> {
    var loaded := LoadMutation(db, id);
    if loaded.Err? then Tx(db, Err(loaded.error))
    else
      var m := loaded.value;
      if m.phase.RolledBack? then Tx(db, Ok(m))
      else if !m.phase.IntentRecorded? && !m.phase.VaultWritten? && !m.phase.CleanupPending?
      then Tx(db, Err(OperationStale))
      else
        var done := m.(phase := RolledBack);
        Tx(WithMutation(WithStatus(db, m.profileId, m.Staged().value, Deleted), id, done), Ok(done))
  }

  function BlockMutation(db: Db, id: OperationId, code: ErrorCode): Tx<Mutation> {
    var loaded := LoadMutation(db, id);
    if loaded.Err? then Tx(db, Err(loaded.error))
    else
      var m := loaded.value;
      if m.phase.Blocked? then Tx(db, if m.error == Some(code) then Ok(m) else Err(StorageConflict))
      else if m.phase.Terminal() then Tx(db, Err(OperationStale))
      else
        var done := m.(phase := Blocked, error := Some(code));
        var revoked := WithStatus(db, m.profileId, m.Staged().value, Revoked);
        var cleared := if revoked.active.Some? && revoked.active.value.profileId == m.profileId
                       then revoked.(active := None) else revoked;
        Tx(WithMutation(cleared, id, done), Ok(done))
  }

  function RetireGeneration(db: Db, generation: Generation): Tx<()> {
    var p, g := generation.profileId, generation.number;
    if (db.active.Some? && db.active.value.profileId == p && db.active.value.generation == g)
       || LiveCredential(db, p, g)
    then Tx(db, Err(OperationStale))
    else if (p, g) !in db.generations || !db.generations[(p, g)].status.Retained? then Tx(db, Err(StorageConflict))
    else Tx(WithStatus(db, p, g, Deleted), Ok(()))
  }

  // ---------- runs, as far as they hold credentials ----------

  /** Creating a Run stores its binding; the triggers demand the exact current active snapshot. */
  function CreateRun(db: Db, run: RunId, status: RunStatus, binding: Activation): Tx<()> {
    if run in db.runs || run in db.bindings then Tx(db, Err(StorageConflict))
    else if db.active != Some(binding) || !PassingValidation(db, binding) then Tx(db, Err(ActivationFailed))
    else Tx(db.(runs := db.runs[run := status], bindings := db.bindings[run := binding]), Ok(()))
  }

  /** A later snapshot of the Run. The Run store's clients never leave a terminal status. */
  function MoveRun(db: Db, run: RunId, status: RunStatus): Tx<()> {
    if run !in db.runs || (db.runs[run].Terminal() && !status.Terminal()) then Tx(db, Err(StorageConflict))
    else Tx(db.(runs := db.runs[run := status]), Ok(()))
  }
}
