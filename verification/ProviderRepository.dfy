/** The repository over its tables. Each method is one transaction that reads and writes the tables
    in place and restores them when it fails; its contract ties the tables it leaves behind, and
    what it returns, to the transaction functions whose properties are proved. */
module ProviderRepository {
  import opened Wrappers
  import opened ProviderDomain
  import S = ProviderStore
  import opened RunStatuses

  class SqliteProviderRepository {
    var profiles: map<ProfileId, S.ProfileRow>
    var revisions: map<(ProfileId, nat), S.RevisionRow>
    var validations: map<ValidationId, S.ValidationRow>
    var generations: map<(ProfileId, nat), S.GenerationRow>
    var journal: map<OperationId, Mutation>
    var active: Option<Activation>
    var bindings: map<RunId, Activation>
    var runs: map<RunId, RunStatus>

    constructor ()
      ensures Tables() == S.EmptyDb
    {
      profiles, revisions, validations, generations := map[], map[], map[], map[];
      journal, active, bindings, runs := map[], None, map[], map[];
    }

    function Tables(): S.Db
      reads this
    {
      S.Db(profiles, revisions, validations, generations, journal, active, bindings, runs)
    }

    /** Abandons the transaction: the tables are as they were at its start. */
    method Undo(start: S.Db)
      modifies this
      ensures Tables() == start
    {
      profiles, revisions, validations := start.profiles, start.revisions, start.validations;
      generations, journal, active := start.generations, start.journal, start.active;
      bindings, runs := start.bindings, start.runs;
    }

    method SetStatus(p: ProfileId, g: nat, status: S.GenerationStatus)
      modifies this`generations
      ensures Tables() == S.WithStatus(old(Tables()), p, g, status)
    {
      if (p, g) in generations {
        generations := generations[(p, g) := generations[(p, g)].(status := status)];
      }
    }

    /** Moves a loaded record to its next phase. */
    method Advance(id: OperationId, m: Mutation, phase: Phase, error: Option<ErrorCode>) returns (next: Mutation)
      requires Transition(m, phase, error).Ok?
      modifies this`journal
      ensures next == m.(phase := phase, error := error)
      ensures Tables() == S.WithMutation(old(Tables()), id, next)
    {
      next := Transition(m, phase, error).value;
      journal := journal[id := next];
    }

    method SaveRevision(request: S.SaveRequest) returns (result: Result<Revision, ProviderError>)
      modifies this
      ensures S.Tx(Tables(), result) == S.SaveRevision(old(Tables()), request)
    {
      var start := Tables();
      var p, revision := request.profileId, request.revision;
      var current := S.CurrentRevision(start, p);
      if !S.SavePrecondition(request, current) { return Err(StorageConflict); }
      if current.None? {
        if p in profiles { return Err(StorageConflict); }
        if S.NameTaken(start, p, request.name) { return Err(ProfileNameConflict); }
        profiles := profiles[p := S.ProfileRow(request.name, revision.number, false)];
      }
      if !S.NextRevision(start, p, revision.number)
         || !S.CredentialFits(start, p, revision.config, S.Number(revision.generation)) {
        Undo(start);
        return Err(StorageConflict);
      }
      revisions := revisions[(p, revision.number) := S.DraftRow(revision)];
      if current.Some? {
        if S.NameTaken(start, p, request.name) {
          Undo(start);
          return Err(ProfileNameConflict);
        }
        profiles := profiles[p := profiles[p].(name := request.name, current := revision.number)];
      }
      result := Ok(revision);
    }

    method SaveValidation(commit: S.ValidationCommit) returns (result: Result<Revision, ProviderError>)
      modifies this
      ensures S.Tx(Tables(), result) == S.SaveValidation(old(Tables()), commit)
    {
      var start := Tables();
      if S.CurrentRevision(start, commit.profileId) != Some(commit.revision) { return Err(ValidationStale); }
      if commit.evidence.digest != commit.digest { return Err(ValidationStale); }
      var loaded := S.LoadRevision(start, commit.profileId, commit.revision);
      if loaded.Err? { return Err(loaded.error); }
      var revision := loaded.value;
      if revision.generation != Some(commit.generation) || !revision.state.Draft?
         || commit.evidence.digest != revision.Inputs(commit.versions) {
        return Err(ValidationStale);
      }
      var state := if commit.evidence.passed then Ready else Invalid;
      var hydrated := Hydrate(revision.profileId, revision.number, revision.config, revision.generation,
                              state, Some(commit.evidence));
      if hydrated.Err? { return Err(InternalError); }
      if commit.evidence.id in validations
         || exists id | id in validations :: validations[id].digest == commit.digest {
        return Err(StorageConflict);
      }
      validations := validations[commit.evidence.id :=
        S.ValidationRow(commit.profileId, commit.revision, commit.generation.number, commit.digest,
                        commit.evidence.passed)];
      var key := (commit.profileId, commit.revision);
      revisions := revisions[key := revisions[key].(state := state, validation := Some(commit.evidence.id))];
      result := hydrated;
    }

    method Activate(request: S.ActivateRequest) returns (result: Result<Activation, ProviderError>)
      modifies this
      ensures S.Tx(Tables(), result) == S.Activate(old(Tables()), request)
    {
      var start := Tables();
      if S.CurrentRevision(start, request.profileId) != Some(request.revision) { return Err(ActivationFailed); }
      var loaded := S.LoadRevision(start, request.profileId, request.revision);
      if loaded.Err? { return Err(loaded.error); }
      var revision := loaded.value;
      if revision.validation.None? || !revision.state.Ready?
         || revision.validation.value.id != request.validationId
         || revision.validation.value.digest != request.digest {
        return Err(ActivationFailed);
      }
      if S.ActivationNumber(active) != request.expectedActivation { return Err(ActivationFailed); }
      var next := (if active.Some? then active.value.activation else 0) + 1;
      var snapshot := S.FromReady(revision, next);
      if snapshot.Err? { return Err(snapshot.error); }
      if !S.PassingValidation(start, snapshot.value) { return Err(StorageConflict); }
      active := Some(snapshot.value);
      result := snapshot;
    }

    method Active() returns (result: Result<Option<Activation>, ProviderError>)
      ensures result == S.Active(Tables())
    {
      if active.None? { return Ok(None); }
      var slot := active.value;
      if S.BlockedProfile(Tables(), slot.profileId) { return Err(CredentialBlocked); }
      var loaded := S.LoadRevision(Tables(), slot.profileId, slot.revision);
      if loaded.Err? { return Err(loaded.error); }
      var snapshot := S.FromReady(loaded.value, slot.activation);
      if snapshot.Err? { return Err(InternalError); }
      result := Ok(Some(snapshot.value));
    }

    method DeleteProfile(request: S.DeleteRequest) returns (result: Result<(), ProviderError>)
      modifies this
      ensures S.Tx(Tables(), result) == S.DeleteProfile(old(Tables()), request)
    {
      var p := request.profileId;
      if S.CurrentRevision(Tables(), p) != Some(request.expectedRevision) { return Err(OperationStale); }
      if S.LiveProfile(Tables(), p) { return Err(OperationStale); }
      if !S.ActiveMatches(active, request.expectedActive) { return Err(ActivationFailed); }
      if active.Some? && active.value.profileId == p {
        if !request.enterNoActive { return Err(MustEnterNoActiveProvider); }
        active := None;
      }
      generations := S.Tombstoned(generations, p);
      profiles := profiles[p := profiles[p].(deleted := true)];
      result := Ok(());
    }

    method BeginCredentialMutation(intent: Intent) returns (result: Result<Mutation, ProviderError>)
      modifies this
      ensures S.Tx(Tables(), result) == S.BeginMutation(old(Tables()), intent)
    {
      var start := Tables();
      var p := intent.profileId;
      if S.BusyProfile(start, p) {
        return Err(if S.BlockedProfile(start, p) then CredentialBlocked else OperationStale);
      }
      if S.CurrentRevision(start, p) != Some(intent.expectedRevision) { return Err(StorageConflict); }
      var loaded := S.LoadRevision(start, p, intent.expectedRevision);
      if loaded.Err? { return Err(loaded.error); }
      if loaded.value.generation != S.Expected(intent) { return Err(StorageConflict); }
      if !S.FreshGeneration(start, p, loaded.value.config, intent.kind, intent.newGen)
         || !S.FreshGeneration(start, p, loaded.value.config, intent.kind, intent.rollbackGen) {
        return Err(StorageConflict);
      }
      var record := S.Record(intent);
      generations := generations[(p, record.Staged().value) := S.GenerationRow(intent.kind, S.Retained)];
      if intent.operationId in journal {
        Undo(start);
        return Err(StorageConflict);
      }
      journal := journal[intent.operationId := record];
      result := Ok(record);
    }

    method RecordVaultWrite(id: OperationId) returns (result: Result<Mutation, ProviderError>)
      modifies this
      ensures S.Tx(Tables(), result) == S.RecordVaultWrite(old(Tables()), id)
    {
      var loaded := S.LoadMutation(Tables(), id);
      if loaded.Err? { return Err(loaded.error); }
      var m := loaded.value;
      if m.phase.VaultWritten? { return Ok(m); }
      if !m.phase.IntentRecorded? { return Err(OperationStale); }
      var staged := (m.profileId, m.Staged().value);
      if staged !in generations || !generations[staged].status.Retained? { return Err(StorageConflict); }
      SetStatus(m.profileId, m.Staged().value, S.Available);
      var next := Advance(id, m, VaultWritten, None);
      result := Ok(next);
    }

    method CommitCredentialPointer(commit: PointerCommit) returns (result: Result<Mutation, ProviderError>)
      modifies this
      ensures S.Tx(Tables(), result) == S.CommitPointer(old(Tables()), commit)
    {
      var start := Tables();
      var p, next := commit.profileId, commit.replacement;
      var loaded := S.LoadMutation(start, commit.mutationId);
      if loaded.Err? { return Err(loaded.error); }
      var m := loaded.value;
      var matches := S.CommitMatches(start, m, commit);
      if m.phase.PointerCommitted? {
        var persisted := S.LoadRevision(start, p, next.number);
        if persisted.Err? { return Err(persisted.error); }
        if matches && persisted.value.config == next.config && persisted.value.generation == next.generation {
          return Ok(m);
        }
        return Err(StorageConflict);
      }
      if !m.phase.VaultWritten? { return Err(OperationStale); }
      var current := S.CurrentRevision(start, p);
      var configurationMatches := false;
      if current == Some(commit.expectedRevision) {
        var prior := S.LoadRevision(start, p, commit.expectedRevision);
        if prior.Err? { return Err(prior.error); }
        configurationMatches := prior.value.config == next.config;
      }
      if !matches || current != Some(commit.expectedRevision) || !configurationMatches {
        var _ := Advance(commit.mutationId, m, CleanupPending, None);
        return Err(StorageConflict);
      }
      if !S.NextRevision(start, p, next.number)
         || !S.CredentialFits(start, p, next.config, S.Number(next.generation)) {
        return Err(StorageConflict);
      }
      revisions := revisions[(p, next.number) := S.DraftRow(next)];
      profiles := profiles[p := profiles[p].(current := next.number)];
      if m.oldGen.Some? && (m.profileId, m.oldGen.value) in generations
         && !generations[(m.profileId, m.oldGen.value)].status.Deleted? {
        SetStatus(m.profileId, m.oldGen.value, S.Retained);
      }
      var done := Advance(commit.mutationId, m, PointerCommitted, None);
      result := Ok(done);
    }

    method CompleteCredentialMutation(id: OperationId) returns (result: Result<Mutation, ProviderError>)
      modifies this
      ensures S.Tx(Tables(), result) == S.CompleteMutation(old(Tables()), id)
    {
      var loaded := S.LoadMutation(Tables(), id);
      if loaded.Err? { return Err(loaded.error); }
      var m := loaded.value;
      if m.phase.Completed? { return Ok(m); }
      if !m.phase.PointerCommitted? { return Err(OperationStale); }
      if m.oldGen.Some? { SetStatus(m.profileId, m.oldGen.value, S.Retained); }
      if m.rollbackGen.Some? { SetStatus(m.profileId, m.rollbackGen.value, S.Deleted); }
      var done := Advance(id, m, Completed, None);
      result := Ok(done);
    }

    method RollbackCredentialMutation(id: OperationId) returns (result: Result<Mutation, ProviderError>)
      modifies this
      ensures S.Tx(Tables(), result) == S.RollbackMutation(old(Tables()), id)
    {
      var loaded := S.LoadMutation(Tables(), id);
      if loaded.Err? { return Err(loaded.error); }
      var m := loaded.value;
      if m.phase.RolledBack? { return Ok(m); }
      if !m.phase.IntentRecorded? && !m.phase.VaultWritten? && !m.phase.CleanupPending? { return Err(OperationStale); }
      SetStatus(m.profileId, m.Staged().value, S.Deleted);
      var done := Advance(id, m, RolledBack, None);
      result := Ok(done);
    }

    method BlockCredentialMutation(id: OperationId, code: ErrorCode) returns (result: Result<Mutation, ProviderError>)
      modifies this
      ensures S.Tx(Tables(), result) == S.BlockMutation(old(Tables()), id, code)
    {
      var loaded := S.LoadMutation(Tables(), id);
      if loaded.Err? { return Err(loaded.error); }
      var m := loaded.value;
      if m.phase.Blocked? { return if m.error == Some(code) then Ok(m) else Err(StorageConflict); }
      if m.phase.Terminal() { return Err(OperationStale); }
      SetStatus(m.profileId, m.Staged().value, S.Revoked);
      if active.Some? && active.value.profileId == m.profileId { active := None; }
      var done := Advance(id, m, Blocked, Some(code));
      result := Ok(done);
    }

    method RetireCredentialGeneration(generation: Generation) returns (result: Result<(), ProviderError>)
      modifies this
      ensures S.Tx(Tables(), result) == S.RetireGeneration(old(Tables()), generation)
    {
      var p, g := generation.profileId, generation.number;
      var activeReference := active.Some? && active.value.profileId == p && active.value.generation == g;
      if activeReference || S.LiveCredential(Tables(), p, g) { return Err(OperationStale); }
      if (p, g) !in generations || !generations[(p, g)].status.Retained? { return Err(StorageConflict); }
      SetStatus(p, g, S.Deleted);
      result := Ok(());
    }
  }
}
