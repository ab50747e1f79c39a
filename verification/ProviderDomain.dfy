/** Provider profiles, credential generations and the credential-mutation record: the domain
    rules that hold before anything is stored. */
module ProviderDomain {
  import opened Wrappers

  type ProfileId = nat
  type RunId = nat
  type OperationId = nat
  type ValidationId = nat

  datatype CredentialKind = ApiKey | OAuthConnection

  /** Only the ChatGPT subscription signs in with OAuth; every other provider uses a key. */
  datatype ProviderId = ChatGptSubscription | KeyedProvider(name: string)

  function RequiredKind(provider: ProviderId): CredentialKind {
    if provider.ChatGptSubscription? then OAuthConnection else ApiKey
  }

  datatype Generation = Generation(profileId: ProfileId, number: nat, kind: CredentialKind)

  datatype Config = Config(provider: ProviderId, model: string, parameters: string)

  datatype ProfileState = Draft | Ready | Invalid

  /** The digest is a collision-free image of its inputs, so it is modelled by the inputs. */
  datatype Digest = Digest(profileId: ProfileId, revision: nat, config: Config,
                           generation: Option<Generation>, versions: string)

  datatype Evidence = Evidence(id: ValidationId, digest: Digest, passed: bool)

  datatype Revision = Revision(profileId: ProfileId, number: nat, config: Config,
                               generation: Option<Generation>, state: ProfileState,
                               validation: Option<Evidence>)
  {
    function Inputs(versions: string): Digest {
      Digest(profileId, number, config, generation, versions)
    }
  }

  datatype ErrorCode =
    | ConflictCode | StaleCode | ProtectionUnavailableCode | OAuthNotConnectedCode
    | RemoteRevokeFailedCode | InternalCode

  datatype ProviderError =
    | StorageConflict | OperationStale | ValidationStale | ActivationFailed
    | MustEnterNoActiveProvider | ProfileNameConflict | CredentialBlocked | InternalError

  /** Revision construction: numbering starts at one and the credential must fit. */
  predicate DraftAccepted(profileId: ProfileId, number: nat, config: Config, generation: Option<Generation>) {
    && number != 0
    && (generation.Some? ==>
          && generation.value.profileId == profileId
          && generation.value.kind == RequiredKind(config.provider))
  }

  /** Rebuilding a stored revision: its state and its evidence must agree. */
  function Hydrate(profileId: ProfileId, number: nat, config: Config, generation: Option<Generation>,
                   state: ProfileState, validation: Option<Evidence>): Result<Revision, ProviderError>
  {
    if !DraftAccepted(profileId, number, config, generation) then Err(InternalError)
    else
      match (state, validation)
      case (Draft, None) => Ok(Revision(profileId, number, config, generation, Draft, None))
      case (Ready, Some(evidence)) =>
        if evidence.passed && generation.Some?
        then Ok(Revision(profileId, number, config, generation, Ready, validation))
        else Err(InternalError)
      case (Invalid, Some(evidence)) =>
        if !evidence.passed
        then Ok(Revision(profileId, number, config, generation, Invalid, validation))
        else Err(InternalError)
      case _ => Err(InternalError)
  }

  /** One activated provider snapshot; a Run copies it into its immutable binding. */
  datatype Activation = Activation(profileId: ProfileId, revision: nat, validationId: ValidationId,
                                   generation: nat, digest: Digest, activation: nat)

  // ---------- the credential-mutation record ----------

  datatype Operation = Create | Replace | Refresh | Delete | Revoke

  datatype Phase =
    | IntentRecorded | VaultWritten | PointerCommitted | CleanupPending
    | RolledBack | Completed | Blocked
  {
    predicate Terminal() { RolledBack? || Completed? || Blocked? }

    /** The journal still owns the profile: neither completed nor rolled back. */
    predicate Open() { !RolledBack? && !Completed? }
  }

  predicate ShapeValid(operation: Operation, oldGen: Option<nat>, newGen: Option<nat>, rollbackGen: Option<nat>) {
    match operation
    case Create => oldGen.None? && newGen.Some? && rollbackGen.None?
    case Replace => oldGen.Some? && newGen.Some? && newGen.value > oldGen.value && rollbackGen.None?
    case Refresh => oldGen.Some? && newGen.Some? && newGen.value > oldGen.value && rollbackGen.None?
    case Delete => oldGen.Some? && rollbackGen.Some? && rollbackGen.value > oldGen.value && newGen.None?
    case Revoke => oldGen.Some? && rollbackGen.Some? && rollbackGen.value > oldGen.value && newGen.None?
  }

  datatype IntentFields = IntentFields(
    operationId: OperationId, profileId: ProfileId, expectedRevision: nat, operation: Operation,
    kind: CredentialKind, oldGen: Option<nat>, newGen: Option<nat>, rollbackGen: Option<nat>)

  /** An intent that its private constructor would accept. */
  type Intent = i: IntentFields | i.expectedRevision != 0 && ShapeValid(i.operation, i.oldGen, i.newGen, i.rollbackGen)
    witness IntentFields(0, 0, 1, Create, ApiKey, None, Some(1), None)

  datatype Mutation = Mutation(
    profileId: ProfileId, expectedRevision: nat, operation: Operation,
    oldGen: Option<nat>, newGen: Option<nat>, rollbackGen: Option<nat>,
    phase: Phase, error: Option<ErrorCode>)
  {
    /** The generation the mutation itself creates. */
    function Staged(): Option<nat> {
      match operation
      case Create => newGen
      case Replace => newGen
      case Refresh => newGen
      case Delete => rollbackGen
      case Revoke => rollbackGen
    }
  }

  predicate ErrorFits(phase: Phase, error: Option<ErrorCode>) {
    phase.Blocked? <==> error.Some?
  }

  predicate TransitionValid(current: Phase, next: Phase) {
    match current
    case IntentRecorded => next.VaultWritten? || next.RolledBack? || next.Blocked?
    case VaultWritten => next.PointerCommitted? || next.CleanupPending? || next.RolledBack? || next.Blocked?
    case PointerCommitted => next.CleanupPending? || next.Completed? || next.Blocked?
    case CleanupPending => next.RolledBack? || next.Completed? || next.Blocked?
    case _ => false
  }

  function Transition(m: Mutation, phase: Phase, error: Option<ErrorCode>): Result<Mutation, ProviderError> {
    if ErrorFits(phase, error) && TransitionValid(m.phase, phase)
    then Ok(m.(phase := phase, error := error))
    else Err(InternalError)
  }

  datatype PointerCommitFields = PointerCommitFields(
    mutationId: OperationId, profileId: ProfileId, expectedRevision: nat, replacement: Revision)

  /** A pointer commit that its constructor would accept: the next, unvalidated revision. */
  type PointerCommit = c: PointerCommitFields |
    && c.expectedRevision != 0
    && c.replacement.profileId == c.profileId
    && c.replacement.number == c.expectedRevision + 1
    && c.replacement.state.Draft?
    && c.replacement.validation.None?
    && DraftAccepted(c.replacement.profileId, c.replacement.number, c.replacement.config, c.replacement.generation)
    witness PointerCommitFields(0, 0, 1,
              Revision(0, 2, Config(KeyedProvider(""), "", ""), None, Draft, None))
}
