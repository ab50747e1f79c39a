/** What recovery learns from the events of a Run, and what it decides. */
module RecoveryFacts {
  import opened Wrappers
  import opened RunStatuses
  import opened RunTypes

  datatype FactError =
    | ModelResponseWithoutRequest | ModelResponseIdMismatch | DuplicateToolCallProposal
    | DuplicateToolExecutionStarted | DuplicateToolTerminalEvent
    | StartedToolWithoutProposal | TerminalToolWithoutStart | MultiplePendingToolCalls

  /** The latest model call and whether it was answered; every tool call's progress. */
  datatype Facts = Facts(
    latestModel: Option<(nat, bool)>,
    proposed: map<CallId, ToolCall>,
    started: map<CallId, CostClass>,
    terminal: set<CallId>,
    indeterminate: Option<(CallId, ToolFailure)>)

  const NoFacts := Facts(None, map[], map[], {}, None)

  function Finished(f: Facts, id: CallId): Result<Facts, FactError> {
    if id in f.terminal then Err(DuplicateToolTerminalEvent) else Ok(f.(terminal := f.terminal + {id}))
  }

  function Learn(f: Facts, kind: EventKind): Result<Facts, FactError> {
    match kind
    case ModelRequested(id) => Ok(f.(latestModel := Some((id, false))))
    case ModelResponded(id) =>
      if f.latestModel.None? then Err(ModelResponseWithoutRequest)
      else if f.latestModel.value.0 != id then Err(ModelResponseIdMismatch)
      else Ok(f.(latestModel := Some((id, true))))
    case ToolCallProposed(call) =>
      if call.id in f.proposed then Err(DuplicateToolCallProposal)
      else Ok(f.(proposed := f.proposed[call.id := call]))
    case ToolExecutionStarted(id, cost) =>
      if id in f.started then Err(DuplicateToolExecutionStarted)
      else Ok(f.(started := f.started[id := cost]))
    case ToolExecutionSucceeded(id) => Finished(f, id)
    case ToolExecutionFailed(id, _) => Finished(f, id)
    case ToolExecutionIndeterminate(id, failure) =>
      var finished := Finished(f, id);
      if finished.Err? then finished else Ok(finished.value.(indeterminate := Some((id, failure))))
    case RunResumed => Ok(f.(indeterminate := None))
    case _ => Ok(f)
  }

  function LearnAll(f: Facts, kinds: seq<EventKind>): Result<Facts, FactError>
    decreases |kinds|
  {
    if kinds == [] then Ok(f)
    else
      var next := Learn(f, kinds[0]);
      if next.Err? then next else LearnAll(next.value, kinds[1..])
  }

  lemma {:induction false} LearnAppend(f: Facts, a: seq<EventKind>, b: seq<EventKind>)
    ensures LearnAll(f, a + b) == if LearnAll(f, a).Err? then LearnAll(f, a) else LearnAll(LearnAll(f, a).value, b)
    decreases |a|
  {
    if a == [] {
      assert a + b == b;
    } else {
      assert (a + b)[0] == a[0] && (a + b)[1..] == a[1..] + b;
      if Learn(f, a[0]).Ok? { LearnAppend(Learn(f, a[0]).value, a[1..], b); }
    }
  }

  function PendingModel(f: Facts): bool {
    f.latestModel.Some? && !f.latestModel.value.1
  }

  function Validate(f: Facts): Option<FactError> {
    if exists id | id in f.started :: id !in f.proposed then Some(StartedToolWithoutProposal)
    else if exists id | id in f.terminal :: id !in f.started then Some(TerminalToolWithoutStart)
    else None
  }

  function Unfinished(f: Facts): set<CallId> {
    f.started.Keys - f.terminal
  }

  datatype StartedTool = StartedTool(call: ToolCall, cost: CostClass)

  /** The single tool call that was started and has not finished. */
  ghost function StartedWithoutTerminal(f: Facts): Result<Option<StartedTool>, FactError> {
    var pending := Unfinished(f);
    if |pending| > 1 then Err(MultiplePendingToolCalls)
    else if pending == {} then Ok(None)
    else
      var id :| id in pending;
      if id !in f.proposed then Err(StartedToolWithoutProposal)
      else Ok(Some(StartedTool(f.proposed[id], f.started[id])))
  }

  function LatestIndeterminate(f: Facts): Option<(ToolCall, ToolFailure)> {
    if f.indeterminate.Some? && f.indeterminate.value.0 in f.proposed
    then Some((f.proposed[f.indeterminate.value.0], f.indeterminate.value.1)) else None
  }

  // ---------- deciding ----------

  datatype RecoveryRequest = RecoveryRequest(explicitResume: bool, costlyRetryConfirmed: bool)

  datatype Decision =
    | StartSameRun | ContinueSameRun | WaitForInput | RetryModelWithNewCallId
    | MarkToolIndeterminate(tool: StartedTool)
    | WaitForExplicitResume(waiting: ToolCall)
    | RetryLowCostWithNewCall(lowCost: ToolCall)
    | ConfirmHighCostRetry(unconfirmed: ToolCall, unconfirmedCost: CostClass)
    | RetryConfirmedHighCostWithNewCall(confirmed: ToolCall, confirmedCost: CostClass)
    | ReconcileRemoteQuery(remote: ToolCall, remoteQueryId: string)
    | ReturnTerminal(status: RunStatus)
    | CreateRetryRun

  function DecideIndeterminate(call: ToolCall, failure: ToolFailure, request: RecoveryRequest): Decision {
    if failure.remoteQueryId.Some? then ReconcileRemoteQuery(call, failure.remoteQueryId.value)
    else if failure.cost.Low? then
      if request.explicitResume then RetryLowCostWithNewCall(call) else WaitForExplicitResume(call)
    else if request.costlyRetryConfirmed then RetryConfirmedHighCostWithNewCall(call, failure.cost)
    else ConfirmHighCostRetry(call, failure.cost)
  }

  /** The decision for a Run whose row and events have been read; an error means a corrupt history. */
  ghost function Assess(kinds: seq<EventKind>, status: RunStatus, request: RecoveryRequest)
    : Result<Decision, FactError>
  {
    var learned := LearnAll(NoFacts, kinds);
    if learned.Err? then Err(learned.error)
    else if Validate(learned.value).Some? then Err(Validate(learned.value).value)
    else
      match status
      case Queued => Ok(StartSameRun)
      case WaitingForInput => Ok(WaitForInput)
      case Succeeded => Ok(ReturnTerminal(status))
      case Cancelled => Ok(ReturnTerminal(status))
      case Failed => Ok(CreateRetryRun)
      case Running =>
        var started := StartedWithoutTerminal(learned.value);
        if started.Err? then Err(started.error)
        else if started.value.Some? then Ok(MarkToolIndeterminate(started.value.value))
        else if LatestIndeterminate(learned.value).Some? then
          Ok(DecideIndeterminate(LatestIndeterminate(learned.value).value.0,
                                 LatestIndeterminate(learned.value).value.1, request))
        else if PendingModel(learned.value) then Ok(RetryModelWithNewCallId)
        else Ok(ContinueSameRun)
  }

  // ---------- the accumulator ----------

  class ExternalFacts {
    var latestModelCall: Option<(nat, bool)>
    var proposedTools: map<CallId, ToolCall>
    var startedTools: map<CallId, CostClass>
    var terminalTools: set<CallId>
    var latestIndeterminate: Option<(CallId, ToolFailure)>

    constructor ()
      ensures View() == NoFacts
    {
      latestModelCall, proposedTools, startedTools := None, map[], map[];
      terminalTools, latestIndeterminate := {}, None;
    }

    function View(): Facts
      reads this
    {
      Facts(latestModelCall, proposedTools, startedTools, terminalTools, latestIndeterminate)
    }

    method Finish(id: CallId) returns (error: Option<FactError>)
      modifies this`terminalTools
      ensures match Finished(old(View()), id)
              case Ok(facts) => error.None? && View() == facts
              case Err(e) => error == Some(e)
    {
      if id in terminalTools { return Some(DuplicateToolTerminalEvent); }
      terminalTools := terminalTools + {id};
      return None;
    }

    method Apply(kind: EventKind) returns (error: Option<FactError>)
      modifies this
      ensures match Learn(old(View()), kind)
              case Ok(facts) => error.None? && View() == facts
              case Err(e) => error == Some(e)
    {
      error := None;
      match kind
      case ModelRequested(id) => latestModelCall := Some((id, false));
      case ModelResponded(id) =>
        if latestModelCall.None? { return Some(ModelResponseWithoutRequest); }
        if latestModelCall.value.0 != id { return Some(ModelResponseIdMismatch); }
        latestModelCall := Some((id, true));
      case ToolCallProposed(call) =>
        var repeated := call.id in proposedTools;
        proposedTools := proposedTools[call.id := call];
        if repeated { return Some(DuplicateToolCallProposal); }
      case ToolExecutionStarted(id, cost) =>
        var repeated := id in startedTools;
        startedTools := startedTools[id := cost];
        if repeated { return Some(DuplicateToolExecutionStarted); }
      case ToolExecutionSucceeded(id) => error := Finish(id);
      case ToolExecutionFailed(id, _) => error := Finish(id);
      case ToolExecutionIndeterminate(id, failure) =>
        error := Finish(id);
        if error.Some? { return; }
        latestIndeterminate := Some((id, failure));
      case RunResumed => latestIndeterminate := None;
      case _ =>
    }

    /** Reads a whole history. */
    method ApplyAll(kinds: seq<EventKind>) returns (error: Option<FactError>)
      modifies this
      ensures match LearnAll(old(View()), kinds)
              case Ok(facts) => error.None? && View() == facts
              case Err(e) => error == Some(e)
    {
      error := None;
      for i := 0 to |kinds|
        invariant error.None?
        invariant LearnAll(old(View()), kinds) == LearnAll(View(), kinds[i..])
      {
        assert kinds[i..][1..] == kinds[i + 1..];
        error := Apply(kinds[i]);
        if error.Some? { return; }
      }
    }
  }
}
