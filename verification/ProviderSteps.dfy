/** Whole runs of the provider repository: any interleaving of its transactions. */
module ProviderSteps {
  import opened ProviderDomain
  import opened ProviderStore
  import opened RunStatuses

  datatype Op =
    | Save(save: SaveRequest)
    | Validate(validation: ValidationCommit)
    | Select(activation: ActivateRequest)
    | Remove(removal: DeleteRequest)
    | Begin(intent: Intent)
    | VaultWrite(vaultId: OperationId)
    | PointTo(pointer: PointerCommit)
    | Complete(completedId: OperationId)
    | Rollback(rolledBackId: OperationId)
    | Block(blockedId: OperationId, code: ErrorCode)
    | Retire(generation: Generation)
    | StartRun(run: RunId, initial: RunStatus, binding: Activation)
    | AdvanceRun(moved: RunId, status: RunStatus)

  function Step(db: Db, op: Op): Db {
    match op
    case Save(request) => SaveRevision(db, request).db
    case Validate(commit) => SaveValidation(db, commit).db
    case Select(request) => Activate(db, request).db
    case Remove(request) => DeleteProfile(db, request).db
    case Begin(intent) => BeginMutation(db, intent).db
    case VaultWrite(id) => RecordVaultWrite(db, id).db
    case PointTo(commit) => CommitPointer(db, commit).db
    case Complete(id) => CompleteMutation(db, id).db
    case Rollback(id) => RollbackMutation(db, id).db
    case Block(id, code) => BlockMutation(db, id, code).db
    case Retire(generation) => RetireGeneration(db, generation).db
    case StartRun(run, status, binding) => CreateRun(db, run, status, binding).db
    case AdvanceRun(run, status) => MoveRun(db, run, status).db
  }

  /** The tables after a sequence of transactions, in the order they were committed. */
  function After(db: Db, ops: seq<Op>): Db
    decreases |ops|
  {
    if ops == [] then db else After(Step(db, ops[0]), ops[1..])
  }

  /** Some run from the empty tables leads here; nothing is asked of its callers. */
  ghost predicate Reachable(db: Db) {
    exists ops :: db == After(EmptyDb, ops)
  }
}
