/** Runs, their snapshots and the events of their logs. */
module RunTypes {
  import opened Wrappers
  import opened RunStatuses

  type RunId = nat
  type TaskId = nat
  type WorkspaceId = nat
  type ArtifactId = nat
  type CallId = nat

  datatype CostClass = Low | High | Unknown

  datatype ToolCall = ToolCall(id: CallId, name: string, arguments: string, version: string)

  datatype ToolFailure = ToolFailure(code: string, remoteQueryId: Option<string>, cost: CostClass)

  /** A clarification identifier; `confirming` is whether its text has the prefix that marks the
      confirmation of a costly retry. */
  datatype ClarificationId = ClarificationId(confirming: bool, text: string)

  /** The workflow state: the fields that recovery reads and writes, and the rest. */
  datatype WorkflowState = WorkflowState(
    pendingCall: Option<ToolCall>, pendingCost: Option<CostClass>, granted: bool,
    clarification: Option<ClarificationId>, rest: string)

  datatype WaitMetadata = WaitMetadata(clarification: Option<ClarificationId>, reason: string)

  datatype Snapshot = Snapshot(
    runId: RunId, taskId: TaskId, status: RunStatus, attempt: nat, retryOf: Option<RunId>, version: nat,
    state: WorkflowState, wait: Option<WaitMetadata>, primaryArtifact: Option<ArtifactId>)

  datatype PolicyDecision = Allow | Deny(code: string) | RequireConfirmation(code: string)

  datatype EventKind =
    | ProviderBound(fingerprint: string)
    | RunStarted
    | StepStarted(step: string)
    | ModelRequested(modelCall: nat)
    | ModelResponded(respondedCall: nat)
    | ToolCallProposed(call: ToolCall)
    | PolicyEvaluated(evaluated: CallId, decision: PolicyDecision)
    | ToolExecutionStarted(started: CallId, cost: CostClass)
    | ToolExecutionSucceeded(succeeded: CallId)
    | ToolExecutionFailed(failed: CallId, reason: ToolFailure)
    | ToolExecutionIndeterminate(interrupted: CallId, failure: ToolFailure)
    | ArtifactCreated(artifact: ArtifactId)
    | ClarificationRequested(requested: ClarificationId)
    | ClarificationAnswered(answered: ClarificationId, answer: ArtifactId)
    | RunWaiting(waitReason: string)
    | RunResumed
    | RunCompleted(primary: ArtifactId)
    | RunFailed(code: string)
    | RunCancelled(cancelReason: string)
    | RunStateProjected(snapshot: Snapshot)

  const V1: nat := 1

  datatype Envelope = Envelope(workspaceId: WorkspaceId, taskId: TaskId, runId: RunId, sequence: nat,
                               schemaVersion: nat, kind: EventKind)
}
