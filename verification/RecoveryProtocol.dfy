/** One Run as a state machine: a driver that commits each step in several appends, a process that
    may stop between any two of them, and the commands that recover, answer, cancel and retry. */
module RecoveryProtocol {
  import opened Wrappers
  import opened RunStatuses
  import opened RunTypes
  import opened RecoveryFacts

  /** Where the driver is. A driver in the middle of a step holds the version it last committed, so
      that a commit by anybody else makes its next append fail. */
  datatype Driver =
    | Idle
    | AtLoop
    | ModelPending(version: nat, modelCall: nat)
    | AckPending(ackVersion: nat, clarification: ClarificationId)
    | ToolPending(toolVersion: nat, call: CallId)
    | Returned
    | Failing

  /** A recovered call as it was handed to the tool runtime, and whether anybody had confirmed it. */
  datatype Issue = Issue(call: ToolCall, cost: CostClass, granted: bool, consented: bool)

  datatype World = World(
    log: seq<EventKind>, snapshot: Snapshot, driver: Driver,
    nextCall: CallId, nextModel: nat, consented: bool, issued: seq<Issue>)

  function NextSnapshot(current: Snapshot, status: RunStatus, state: WorkflowState, wait: Option<WaitMetadata>,
                        primary: Option<ArtifactId>): Snapshot
  {
    current.(status := status, version := current.version + 1, state := state, wait := wait, primaryArtifact := primary)
  }

  /** One atomic append: the events, then the projection of the next snapshot. */
  function Commit(w: World, events: seq<EventKind>, next: Snapshot, driver: Driver): World {
    w.(log := w.log + (events + [RunStateProjected(next)]), snapshot := next, driver := driver)
  }

  /** A driver commit that keeps the Run running. */
  function Continue(w: World, events: seq<EventKind>, state: WorkflowState, driver: Driver): World {
    Commit(w, events, NextSnapshot(w.snapshot, Running, state, None, w.snapshot.primaryArtifact), driver)
  }

  // ---------- the driver ----------

  datatype Outcome = ToolSucceeded | ToolFailed(failure: ToolFailure)

  datatype Step =
    | Advance(stepName: string, rest: string)
    | AskUser(asked: ClarificationId, why: string)
    | RequestModel(manifest: ArtifactId)
    | AcceptResponse(artifacts: seq<ArtifactId>, newRest: string)
    | AcceptWait(wanted: ClarificationId)
    | CommitWait(because: string)
    | Complete(primary: ArtifactId)
    | RefuseCompletion
    | StartTool(name: string, arguments: string, version: string, cost: CostClass)
    | RejectTool(rejectedName: string, rejectedArguments: string, denial: string, rejection: ToolFailure,
                 planned: string)
    | FinishTool(outcome: Outcome, produced: seq<ArtifactId>, after: string)
    | StartRecovered
    | RejectRecovered(deny: string, refusal: ToolFailure, replanned: string)
    | Verify(report: ArtifactId, passed: bool, verified: string)
    | Break
    | FailTerminal(code: string)
    | FailLost
    | Exit
    | Crash
    | Recover(request: RecoveryRequest, scheduled: bool)
    | Answer(affirmative: bool, artifact: ArtifactId, woken: bool)
    | Cancel(cancelReason: string)
    | Retry(runId: RunId, fingerprint: string, spawned: bool)

  function Asking(w: World, id: ClarificationId, reason: string, events: seq<EventKind>): World {
    var state := w.snapshot.state.(clarification := Some(id));
    Commit(w, events + [ClarificationRequested(id), RunWaiting(reason)],
           NextSnapshot(w.snapshot, WaitingForInput, state, Some(WaitMetadata(Some(id), reason)),
                        w.snapshot.primaryArtifact),
           Returned)
  }

  function Artifacts(ids: seq<ArtifactId>): (events: seq<EventKind>)
    ensures |events| == |ids| && forall i | 0 <= i < |ids| :: events[i] == ArtifactCreated(ids[i])
  {
    if ids == [] then [] else [ArtifactCreated(ids[0])] + Artifacts(ids[1..])
  }

  /** A step from the top of the loop: the Run is loaded, and it is running. */
  predicate AtWork(w: World) { w.driver.AtLoop? && w.snapshot.status.Running? }

  /** The recovered call, if there is one, goes first. */
  predicate NoRecoveredCall(w: World) { w.snapshot.state.pendingCall.None? }

  predicate ModelAnswers(w: World) { w.driver.ModelPending? && w.driver.version == w.snapshot.version }

  function DriverStep(w: World, step: Step): World {
    var s := w.snapshot.state;
    match step
    case Advance(name, rest) =>
      if AtWork(w) && NoRecoveredCall(w) then Continue(w, [StepStarted(name)], s.(rest := rest), AtLoop) else w
    case AskUser(id, reason) =>
      if AtWork(w) && NoRecoveredCall(w) then Asking(w, id, reason, [StepStarted("query::clarify")]) else w
    case RequestModel(manifest) =>
      if AtWork(w) && NoRecoveredCall(w)
      then Continue(w, [StepStarted("query::model"), ArtifactCreated(manifest), ModelRequested(w.nextModel)], s,
                    ModelPending(w.snapshot.version + 1, w.nextModel)).(nextModel := w.nextModel + 1)
      else w
    case AcceptResponse(artifacts, rest) =>
      if ModelAnswers(w)
      then Continue(w, [ModelResponded(w.driver.modelCall)] + Artifacts(artifacts), s.(rest := rest), AtLoop) else w
    case AcceptWait(id) =>
      if ModelAnswers(w)
      then Continue(w, [ModelResponded(w.driver.modelCall)], s, AckPending(w.snapshot.version + 1, id)) else w
    case CommitWait(reason) =>
      if w.driver.AckPending? && w.driver.ackVersion == w.snapshot.version
      then Asking(w, w.driver.clarification, reason, [StepStarted("query::clarify")]) else w
    case Complete(primary) =>
      if ModelAnswers(w)
      then Commit(w, [ModelResponded(w.driver.modelCall), ArtifactCreated(primary), RunCompleted(primary)],
                  NextSnapshot(w.snapshot, Succeeded, s, None, Some(primary)), Returned)
      else w
    case RefuseCompletion =>
      if ModelAnswers(w)
      then Commit(w, [ModelResponded(w.driver.modelCall), RunFailed("completion_gate_failed")],
                  NextSnapshot(w.snapshot, Failed, s, None, w.snapshot.primaryArtifact), Returned)
      else w
    case StartTool(name, arguments, version, cost) =>
      if ModelAnswers(w)
      then
        var call := ToolCall(w.nextCall, name, arguments, version);
        Continue(w, [ModelResponded(w.driver.modelCall)] + Started(call, cost), s,
                 ToolPending(w.snapshot.version + 1, call.id)).(nextCall := w.nextCall + 1)
      else w
    case RejectTool(name, arguments, code, failure, rest) =>
      if ModelAnswers(w)
      then
        var call := ToolCall(w.nextCall, name, arguments, "");
        Continue(w, [ModelResponded(w.driver.modelCall)] + Rejected(call, code, failure), s.(rest := rest), AtLoop)
        .(nextCall := w.nextCall + 1)
      else w
    case FinishTool(outcome, artifacts, rest) =>
      if w.driver.ToolPending? && w.driver.toolVersion == w.snapshot.version
      then
        var finished := if outcome.ToolSucceeded? then ToolExecutionSucceeded(w.driver.call)
                        else ToolExecutionFailed(w.driver.call, outcome.failure);
        Continue(w, Artifacts(artifacts) + [finished], s.(rest := rest), AtLoop)
      else w
    case StartRecovered =>
      if AtWork(w) && s.pendingCall.Some?
      then
        var cost := if s.pendingCost.Some? then s.pendingCost.value else Unknown;
        Issued(Continue(w, Started(s.pendingCall.value, cost), Taken(s),
                        ToolPending(w.snapshot.version + 1, s.pendingCall.value.id)),
               s.pendingCall.value, cost, s.granted)
      else w
    case RejectRecovered(code, failure, rest) =>
      if AtWork(w) && s.pendingCall.Some?
      then
        var cost := if s.pendingCost.Some? then s.pendingCost.value else Unknown;
        Issued(Continue(w, Rejected(s.pendingCall.value, code, failure), Taken(s).(rest := rest), AtLoop),
               s.pendingCall.value, cost, s.granted)
      else w
    case Verify(report, passed, rest) =>
      if AtWork(w) && NoRecoveredCall(w)
      then
        if passed then Continue(w, [ArtifactCreated(report)], s.(rest := rest), AtLoop)
        else Commit(w, [ArtifactCreated(report), RunFailed("verification_failed")],
                    NextSnapshot(w.snapshot, Failed, s.(rest := rest), None, w.snapshot.primaryArtifact), Returned)
      else w
    case Break => if w.driver.Idle? then w else w.(driver := Failing)
    case FailTerminal(code) =>
      if w.driver.Failing?
      then Commit(w, [RunFailed(code)],
                  NextSnapshot(w.snapshot, Failed, s, None, w.snapshot.primaryArtifact), Idle)
      else w
    case FailLost => if w.driver.Failing? then w.(driver := Idle) else w
    case Exit =>
      if w.driver.AtLoop? && !w.snapshot.status.Running? then w.(driver := Returned)
      else if w.driver.Returned? then w.(driver := Idle)
      else w
    case Crash => w.(driver := Idle)
    case _ => w
  }

  /** A tool call that passed the policy: proposed, allowed and started in one append. */
  function Started(call: ToolCall, cost: CostClass): seq<EventKind> {
    [ToolCallProposed(call), PolicyEvaluated(call.id, Allow), ToolExecutionStarted(call.id, cost)]
  }

  /** A tool call that the policy rejected: proposed, denied and failed, without having started. */
  function Rejected(call: ToolCall, code: string, failure: ToolFailure): seq<EventKind> {
    [ToolCallProposed(call), PolicyEvaluated(call.id, Deny(code)), ToolExecutionFailed(call.id, failure)]
  }

  function Taken(s: WorkflowState): WorkflowState {
    s.(pendingCall := None, pendingCost := None, granted := false)
  }

  function Issued(w: World, call: ToolCall, cost: CostClass, granted: bool): World {
    w.(issued := w.issued + [Issue(call, cost, granted, w.consented)], consented := false)
  }

  // ---------- the commands ----------

  /** A call with a new identity; everything else is the previous call's. */
  function NewCallFrom(w: World, previous: ToolCall): ToolCall {
    previous.(id := w.nextCall)
  }

  function Schedule(w: World, scheduled: bool): World {
    if scheduled && w.driver.Idle? then w.(driver := AtLoop) else w
  }

  /** Queues a retry of a call, with or without consent, and wakes the driver. */
  function Requeue(w: World, previous: ToolCall, cost: CostClass, granted: bool, confirmed: bool,
                   before: seq<EventKind>, scheduled: bool): World
  {
    var state := w.snapshot.state.(pendingCall := Some(NewCallFrom(w, previous)), pendingCost := Some(cost),
                                   granted := granted);
    Schedule(Commit(w, before + [RunResumed],
                    NextSnapshot(w.snapshot, Running, state, None, w.snapshot.primaryArtifact), w.driver)
             .(nextCall := w.nextCall + 1, consented := confirmed || w.consented), scheduled)
  }

  /** Waits for the user to confirm a costly retry. */
  function AskConfirmation(w: World, previous: ToolCall, cost: CostClass, before: seq<EventKind>): World {
    var id := ClarificationId(true, "retry");
    var state := w.snapshot.state.(pendingCall := Some(previous), pendingCost := Some(cost), clarification := Some(id));
    Commit(w, before + [ClarificationRequested(id), RunWaiting("confirm_high_cost_retry")],
           NextSnapshot(w.snapshot, WaitingForInput, state, Some(WaitMetadata(Some(id), "confirm_high_cost_retry")),
                        w.snapshot.primaryArtifact), w.driver)
  }

  function Interrupted(tool: StartedTool): EventKind {
    ToolExecutionIndeterminate(tool.call.id, ToolFailure("interrupted_tool_execution", None, tool.cost))
  }

  function MarkIndeterminate(w: World, tool: StartedTool, request: RecoveryRequest, scheduled: bool): World {
    var event := Interrupted(tool);
    if !request.explicitResume then
      Commit(w, [event], NextSnapshot(w.snapshot, Running, w.snapshot.state, None, w.snapshot.primaryArtifact),
             w.driver)
    else if tool.cost.Low? then Requeue(w, tool.call, Low, w.snapshot.state.granted, false, [event], scheduled)
    else if request.costlyRetryConfirmed then Requeue(w, tool.call, tool.cost, true, true, [event], scheduled)
    else AskConfirmation(w, tool.call, tool.cost, [event])
  }

  function ApplyDecision(w: World, decision: Decision, request: RecoveryRequest, scheduled: bool): World {
    match decision
    case StartSameRun => Schedule(w, scheduled)
    case ContinueSameRun => Schedule(w, scheduled)
    case RetryModelWithNewCallId => Schedule(w, scheduled)
    case MarkToolIndeterminate(tool) => MarkIndeterminate(w, tool, request, scheduled)
    case RetryLowCostWithNewCall(previous) => Requeue(w, previous, Low, false, false, [], scheduled)
    case RetryConfirmedHighCostWithNewCall(previous, cost) => Requeue(w, previous, cost, true, true, [], scheduled)
    case ConfirmHighCostRetry(previous, cost) => AskConfirmation(w, previous, cost, [])
    case ReconcileRemoteQuery(_, _) =>
      Commit(w, [RunWaiting("reconcile_remote_query")],
             NextSnapshot(w.snapshot, WaitingForInput, w.snapshot.state,
                          Some(WaitMetadata(None, "reconcile_remote_query")), w.snapshot.primaryArtifact), w.driver)
    case _ => w
  }

  ghost function RecoverStep(w: World, request: RecoveryRequest, scheduled: bool): World {
    var decision := Assess(w.log, w.snapshot.status, request);
    if decision.Err? then w else ApplyDecision(w, decision.value, request, scheduled)
  }

  /** The clarification that an answer would answer. */
  function Answerable(snapshot: Snapshot): Option<ClarificationId> {
    if snapshot.status.WaitingForInput? && snapshot.wait.Some? && snapshot.wait.value.clarification.Some?
       && snapshot.state.clarification == snapshot.wait.value.clarification
    then snapshot.state.clarification else None
  }

  function AnswerStep(w: World, affirmative: bool, artifact: ArtifactId, scheduled: bool): World {
    var id := Answerable(w.snapshot);
    var s := w.snapshot.state;
    if id.None? || (id.value.confirming && (!affirmative || s.pendingCall.None?)) then w
    else
      var state := if id.value.confirming
                   then s.(pendingCall := Some(NewCallFrom(w, s.pendingCall.value)), granted := true,
                           clarification := None)
                   else s.(clarification := None);
      Schedule(Commit(w, [ClarificationAnswered(id.value, artifact), RunResumed],
                      NextSnapshot(w.snapshot, Running, state, None, w.snapshot.primaryArtifact), w.driver)
               .(nextCall := w.nextCall + 1, consented := w.consented || (id.value.confirming && affirmative)),
               scheduled)
  }

  function CancelStep(w: World, reason: string): World {
    if w.snapshot.status.Terminal() then w
    else Commit(w, [RunCancelled(reason)],
                NextSnapshot(w.snapshot, Cancelled, w.snapshot.state, None, w.snapshot.primaryArtifact), w.driver)
  }

  /** Resuming a failed Run starts another one with its workflow state and an empty log. */
  function RetryStep(w: World, runId: RunId, fingerprint: string, scheduled: bool): World {
    if !w.snapshot.status.Failed? then w
    else
      var retry := Snapshot(runId, w.snapshot.taskId, Running, w.snapshot.attempt + 1, Some(w.snapshot.runId), 1,
                            w.snapshot.state, None, None);
      Schedule(w.(log := [ProviderBound(fingerprint), RunStarted, RunStateProjected(retry)],
                  snapshot := retry, driver := Idle), scheduled)
  }

  ghost function Next(w: World, step: Step): World {
    match step
    case Recover(request, scheduled) => RecoverStep(w, request, scheduled)
    case Answer(affirmative, artifact, scheduled) => AnswerStep(w, affirmative, artifact, scheduled)
    case Cancel(reason) => CancelStep(w, reason)
    case Retry(runId, fingerprint, scheduled) => RetryStep(w, runId, fingerprint, scheduled)
    case _ => DriverStep(w, step)
  }

  /** A Run just created and scheduled. */
  function Initial(runId: RunId, taskId: TaskId, fingerprint: string, rest: string): World {
    var created := Snapshot(runId, taskId, Running, 1, None, 1, WorkflowState(None, None, false, None, rest), None,
                            None);
    World([ProviderBound(fingerprint), RunStarted, RunStateProjected(created)], created, AtLoop, 0, 0, false, [])
  }

  /** A Run created to wait for the user. */
  function InitialWaiting(runId: RunId, taskId: TaskId, fingerprint: string, rest: string, id: ClarificationId): World {
    var created := Snapshot(runId, taskId, WaitingForInput, 1, None, 1,
                            WorkflowState(None, None, false, Some(id), rest),
                            Some(WaitMetadata(Some(id), "clarification")), None);
    World([ProviderBound(fingerprint), RunStarted, ClarificationRequested(id), RunWaiting("clarification"),
           RunStateProjected(created)], created, Idle, 0, 0, false, [])
  }

  ghost predicate Created(w: World) {
    || (exists runId, taskId, fingerprint, rest :: w == Initial(runId, taskId, fingerprint, rest))
    || (exists runId, taskId, fingerprint, rest, id :: w == InitialWaiting(runId, taskId, fingerprint, rest, id))
  }

  ghost function Reached(w: World, steps: seq<Step>): World
    decreases |steps|
  {
    if steps == [] then w else Reached(Next(w, steps[0]), steps[1..])
  }
}
