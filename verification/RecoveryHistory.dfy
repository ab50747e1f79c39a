/** What the log of a Run alone tells: its status, what it waits for, its result and its version; and which
    step reported each outcome of a tool call. */
module RecoveryHistory {
  import opened Wrappers
  import opened RunStatuses
  import opened RunTypes
  import opened RecoveryFacts
  import opened RecoveryProtocol
  import opened RecoveryLedger
  import opened RecoverySafety

  // ---------- reading a log ----------

  /** What somebody who reads only the events knows. */
  datatype Told = Told(status: RunStatus, asked: Option<ClarificationId>, wait: Option<WaitMetadata>,
                       primary: Option<ArtifactId>, version: nat)

  const Untold := Told(Queued, None, None, None, 0)

  function Tell(t: Told, kind: EventKind): Told {
    match kind
    case RunStarted => t.(status := Running)
    case ClarificationRequested(id) => t.(asked := Some(id))
    case RunWaiting(reason) => t.(status := WaitingForInput, wait := Some(WaitMetadata(t.asked, reason)))
    case RunResumed => t.(status := Running, wait := None)
    case RunCompleted(primary) => t.(status := Succeeded, wait := None, primary := Some(primary))
    case RunFailed(_) => t.(status := Failed, wait := None)
    case RunCancelled(_) => t.(status := Cancelled, wait := None)
    case RunStateProjected(_) => t.(version := t.version + 1)
    case _ => t
  }

  function TellAll(t: Told, kinds: seq<EventKind>): Told
    decreases |kinds|
  {
    if kinds == [] then t else TellAll(Tell(t, kinds[0]), kinds[1..])
  }

  lemma {:induction false} TellAppend(t: Told, a: seq<EventKind>, b: seq<EventKind>)
    ensures TellAll(t, a + b) == TellAll(TellAll(t, a), b)
    decreases |a|
  {
    if a == [] {
      assert a + b == b;
    } else {
      assert (a + b)[0] == a[0] && (a + b)[1..] == a[1..] + b;
      TellAppend(Tell(t, a[0]), a[1..], b);
    }
  }

  lemma TellOne(t: Told, kind: EventKind)
    ensures TellAll(t, [kind]) == Tell(t, kind)
  {
    assert [kind][1..] == [];
  }

  /** An event that is about something else. */
  ghost predicate Aside(kind: EventKind) {
    && !kind.RunStarted? && !kind.ClarificationRequested? && !kind.RunWaiting? && !kind.RunResumed?
    && !kind.RunCompleted? && !kind.RunFailed? && !kind.RunCancelled? && !kind.RunStateProjected?
  }

  ghost predicate AllAside(kinds: seq<EventKind>) {
    forall i | 0 <= i < |kinds| :: Aside(kinds[i])
  }

  lemma {:induction false} AsideTellsNothing(t: Told, kinds: seq<EventKind>)
    requires AllAside(kinds)
    ensures TellAll(t, kinds) == t
    decreases |kinds|
  {
    if kinds != [] { AsideTellsNothing(t, kinds[1..]); }
  }

  lemma TellLast(t: Told, asides: seq<EventKind>, last: EventKind)
    requires AllAside(asides)
    ensures TellAll(t, asides + [last]) == Tell(t, last)
  {
    TellAppend(t, asides, [last]);
    AsideTellsNothing(t, asides);
    TellOne(t, last);
  }

  lemma TellWait(t: Told, asides: seq<EventKind>, id: ClarificationId, reason: string)
    requires AllAside(asides)
    ensures TellAll(t, asides + [ClarificationRequested(id), RunWaiting(reason)])
            == t.(status := WaitingForInput, asked := Some(id), wait := Some(WaitMetadata(Some(id), reason)))
  {
    var asking := asides + [ClarificationRequested(id)];
    assert asides + [ClarificationRequested(id), RunWaiting(reason)] == asking + [RunWaiting(reason)];
    TellAppend(t, asking, [RunWaiting(reason)]);
    TellLast(t, asides, ClarificationRequested(id));
    TellOne(Tell(t, ClarificationRequested(id)), RunWaiting(reason));
  }

  // ---------- the log tells the row ----------

  /** The log tells the status, the wait, the result and the version of the row, and ends with it; a Run waits
      exactly when it waits for a clarification, which is then the one its workflow state waits for. */
  ghost predicate Tells(log: seq<EventKind>, s: Snapshot) {
    && log != [] && log[|log| - 1] == RunStateProjected(s)
    && (var t := TellAll(Untold, log);
        && t.status == s.status && t.wait == s.wait && t.primary == s.primaryArtifact && t.version == s.version)
    && (s.status.WaitingForInput? <==> s.wait.Some?)
    && (s.wait.Some? ==> s.wait.value.clarification.Some? && s.state.clarification == s.wait.value.clarification)
  }

  ghost predicate IsTold(w: World) { Tells(w.log, w.snapshot) }

  lemma CommitTells(w: World, events: seq<EventKind>, next: Snapshot, driver: Driver)
    requires IsTold(w) && next.version == w.snapshot.version + 1
    requires var t := TellAll(TellAll(Untold, w.log), events);
             t.status == next.status && t.wait == next.wait && t.primary == next.primaryArtifact
             && t.version == w.snapshot.version
    requires next.status.WaitingForInput? <==> next.wait.Some?
    requires next.wait.Some? ==>
               next.wait.value.clarification.Some? && next.state.clarification == next.wait.value.clarification
    ensures IsTold(Commit(w, events, next, driver))
  {
    TellAppend(Untold, w.log, events + [RunStateProjected(next)]);
    TellAppend(TellAll(Untold, w.log), events, [RunStateProjected(next)]);
    TellOne(TellAll(TellAll(Untold, w.log), events), RunStateProjected(next));
  }

  /** A commit that goes on with the running Run. */
  lemma ContinueTells(w: World, events: seq<EventKind>, state: WorkflowState, driver: Driver)
    requires IsTold(w) && w.snapshot.status.Running? && AllAside(events)
    ensures IsTold(Continue(w, events, state, driver))
  {
    AsideTellsNothing(TellAll(Untold, w.log), events);
    CommitTells(w, events, NextSnapshot(w.snapshot, Running, state, None, w.snapshot.primaryArtifact), driver);
  }

  lemma AskingTells(w: World, id: ClarificationId, reason: string, events: seq<EventKind>)
    requires IsTold(w) && AllAside(events)
    ensures IsTold(Asking(w, id, reason, events))
  {
    TellWait(TellAll(Untold, w.log), events, id, reason);
    CommitTells(w, events + [ClarificationRequested(id), RunWaiting(reason)],
                NextSnapshot(w.snapshot, WaitingForInput, w.snapshot.state.(clarification := Some(id)),
                             Some(WaitMetadata(Some(id), reason)), w.snapshot.primaryArtifact), Returned);
  }

  /** A commit whose last event says how the Run ended, or that it goes on. */
  lemma TurningTells(w: World, asides: seq<EventKind>, last: EventKind, next: Snapshot, driver: Driver)
    requires IsTold(w) && AllAside(asides) && next.version == w.snapshot.version + 1 && next.wait.None?
    requires || (last.RunCompleted? && next.status.Succeeded? && next.primaryArtifact == Some(last.primary))
             || (last.RunFailed? && next.status.Failed? && next.primaryArtifact == w.snapshot.primaryArtifact)
             || (last.RunCancelled? && next.status.Cancelled? && next.primaryArtifact == w.snapshot.primaryArtifact)
             || (last.RunResumed? && next.status.Running? && next.primaryArtifact == w.snapshot.primaryArtifact)
    ensures IsTold(Commit(w, asides + [last], next, driver))
  {
    TellLast(TellAll(Untold, w.log), asides, last);
    CommitTells(w, asides + [last], next, driver);
  }

  // ---------- the steps ----------

  lemma LoopStepTells(w: World, f: Facts, step: Step)
    requires Ledger(w, f) && IsTold(w)
    requires step.Advance? || step.AskUser? || step.RequestModel? || step.Verify?
    ensures IsTold(DriverStep(w, step))
  {
    var s, primary := w.snapshot.state, w.snapshot.primaryArtifact;
    if AtWork(w) && NoRecoveredCall(w) {
      match step
      case Advance(name, rest) => ContinueTells(w, [StepStarted(name)], s.(rest := rest), AtLoop);
      case AskUser(id, reason) => AskingTells(w, id, reason, [StepStarted("query::clarify")]);
      case RequestModel(manifest) =>
        ContinueTells(w, [StepStarted("query::model"), ArtifactCreated(manifest), ModelRequested(w.nextModel)], s,
                      ModelPending(w.snapshot.version + 1, w.nextModel));
      case Verify(report, passed, rest) =>
        if passed {
          ContinueTells(w, [ArtifactCreated(report)], s.(rest := rest), AtLoop);
        } else {
          assert [ArtifactCreated(report)] + [RunFailed("verification_failed")]
              == [ArtifactCreated(report), RunFailed("verification_failed")];
          TurningTells(w, [ArtifactCreated(report)], RunFailed("verification_failed"),
                       NextSnapshot(w.snapshot, Failed, s.(rest := rest), None, primary), Returned);
        }
    }
  }

  lemma ArtifactsAside(before: seq<EventKind>, ids: seq<ArtifactId>, after: seq<EventKind>)
    requires AllAside(before) && AllAside(after)
    ensures AllAside(before + Artifacts(ids) + after)
  {
  }

  lemma ResponseTells(w: World, f: Facts, step: Step)
    requires Ledger(w, f) && IsTold(w)
    requires step.AcceptResponse? || step.AcceptWait? || step.CommitWait? || step.Complete? || step.RefuseCompletion?
    ensures IsTold(DriverStep(w, step))
  {
    var s, primary := w.snapshot.state, w.snapshot.primaryArtifact;
    match step
    case AcceptResponse(artifacts, rest) =>
      if ModelAnswers(w) {
        ArtifactsAside([ModelResponded(w.driver.modelCall)], artifacts, []);
        assert [ModelResponded(w.driver.modelCall)] + Artifacts(artifacts) + []
            == [ModelResponded(w.driver.modelCall)] + Artifacts(artifacts);
        ContinueTells(w, [ModelResponded(w.driver.modelCall)] + Artifacts(artifacts), s.(rest := rest), AtLoop);
      }
    case AcceptWait(id) =>
      if ModelAnswers(w) {
        ContinueTells(w, [ModelResponded(w.driver.modelCall)], s, AckPending(w.snapshot.version + 1, id));
      }
    case CommitWait(reason) =>
      if w.driver.AckPending? { AskingTells(w, w.driver.clarification, reason, [StepStarted("query::clarify")]); }
    case Complete(id) =>
      if ModelAnswers(w) {
        var asides := [ModelResponded(w.driver.modelCall), ArtifactCreated(id)];
        assert asides + [RunCompleted(id)]
               == [ModelResponded(w.driver.modelCall), ArtifactCreated(id), RunCompleted(id)];
        TurningTells(w, asides, RunCompleted(id), NextSnapshot(w.snapshot, Succeeded, s, None, Some(id)), Returned);
      }
    case RefuseCompletion =>
      if ModelAnswers(w) {
        var asides := [ModelResponded(w.driver.modelCall)];
        assert asides + [RunFailed("completion_gate_failed")]
            == [ModelResponded(w.driver.modelCall), RunFailed("completion_gate_failed")];
        TurningTells(w, asides, RunFailed("completion_gate_failed"),
                     NextSnapshot(w.snapshot, Failed, s, None, primary), Returned);
      }
  }

  lemma ToolStepTells(w: World, f: Facts, step: Step)
    requires Ledger(w, f) && IsTold(w) && (step.StartTool? || step.RejectTool? || step.FinishTool?)
    ensures IsTold(DriverStep(w, step))
  {
    var s := w.snapshot.state;
    match step
    case StartTool(name, arguments, version, cost) =>
      if ModelAnswers(w) {
        var call := ToolCall(w.nextCall, name, arguments, version);
        ContinueTells(w, [ModelResponded(w.driver.modelCall)] + Started(call, cost), s,
                      ToolPending(w.snapshot.version + 1, call.id));
      }
    case RejectTool(name, arguments, code, failure, rest) =>
      if ModelAnswers(w) {
        var call := ToolCall(w.nextCall, name, arguments, "");
        ContinueTells(w, [ModelResponded(w.driver.modelCall)] + Rejected(call, code, failure), s.(rest := rest),
                      AtLoop);
      }
    case FinishTool(outcome, artifacts, rest) =>
      if w.driver.ToolPending? && w.driver.toolVersion == w.snapshot.version {
        var finished := if outcome.ToolSucceeded? then ToolExecutionSucceeded(w.driver.call)
                        else ToolExecutionFailed(w.driver.call, outcome.failure);
        ArtifactsAside([], artifacts, [finished]);
        assert [] + Artifacts(artifacts) + [finished] == Artifacts(artifacts) + [finished];
        ContinueTells(w, Artifacts(artifacts) + [finished], s.(rest := rest), AtLoop);
      }
  }

  lemma RecoveredStepTells(w: World, step: Step)
    requires IsTold(w) && (step.StartRecovered? || step.RejectRecovered?)
    ensures IsTold(DriverStep(w, step))
  {
    var s := w.snapshot.state;
    if AtWork(w) && s.pendingCall.Some? {
      var cost := if s.pendingCost.Some? then s.pendingCost.value else Unknown;
      match step
      case StartRecovered =>
        ContinueTells(w, Started(s.pendingCall.value, cost), Taken(s),
                      ToolPending(w.snapshot.version + 1, s.pendingCall.value.id));
      case RejectRecovered(code, failure, rest) =>
        ContinueTells(w, Rejected(s.pendingCall.value, code, failure), Taken(s).(rest := rest), AtLoop);
    }
  }

  lemma FailTells(w: World, code: string)
    requires IsTold(w)
    ensures IsTold(DriverStep(w, FailTerminal(code)))
  {
    if w.driver.Failing? {
      assert [] + [RunFailed(code)] == [RunFailed(code)];
      TurningTells(w, [], RunFailed(code),
                   NextSnapshot(w.snapshot, Failed, w.snapshot.state, None, w.snapshot.primaryArtifact), Idle);
    }
  }

  lemma DriverStepTells(w: World, f: Facts, step: Step)
    requires Ledger(w, f) && IsTold(w) && !IsCommand(step)
    ensures IsTold(DriverStep(w, step))
  {
    match step
    case Advance(_, _) => LoopStepTells(w, f, step);
    case AskUser(_, _) => LoopStepTells(w, f, step);
    case RequestModel(_) => LoopStepTells(w, f, step);
    case Verify(_, _, _) => LoopStepTells(w, f, step);
    case StartTool(_, _, _, _) => ToolStepTells(w, f, step);
    case RejectTool(_, _, _, _, _) => ToolStepTells(w, f, step);
    case FinishTool(_, _, _) => ToolStepTells(w, f, step);
    case StartRecovered => RecoveredStepTells(w, step);
    case RejectRecovered(_, _, _) => RecoveredStepTells(w, step);
    case FailTerminal(code) => FailTells(w, code);
    case Break =>
    case FailLost =>
    case Exit =>
    case Crash =>
    case _ => ResponseTells(w, f, step);
  }

  // ---------- the commands ----------

  lemma RequeueTells(w: World, previous: ToolCall, cost: CostClass, granted: bool, confirmed: bool,
                     before: seq<EventKind>, scheduled: bool)
    requires IsTold(w) && AllAside(before)
    ensures IsTold(Requeue(w, previous, cost, granted, confirmed, before, scheduled))
  {
    var state := w.snapshot.state.(pendingCall := Some(NewCallFrom(w, previous)), pendingCost := Some(cost),
                                   granted := granted);
    TurningTells(w, before, RunResumed, NextSnapshot(w.snapshot, Running, state, None, w.snapshot.primaryArtifact),
                 w.driver);
  }

  lemma AskConfirmationTells(w: World, previous: ToolCall, cost: CostClass, before: seq<EventKind>)
    requires IsTold(w) && AllAside(before)
    ensures IsTold(AskConfirmation(w, previous, cost, before))
  {
    var id := ClarificationId(true, "retry");
    TellWait(TellAll(Untold, w.log), before, id, "confirm_high_cost_retry");
    CommitTells(w, before + [ClarificationRequested(id), RunWaiting("confirm_high_cost_retry")],
                AskConfirmation(w, previous, cost, before).snapshot, w.driver);
  }

  lemma MarkTells(w: World, tool: StartedTool, request: RecoveryRequest, scheduled: bool)
    requires IsTold(w) && w.snapshot.status.Running?
    ensures IsTold(MarkIndeterminate(w, tool, request, scheduled))
  {
    var event := Interrupted(tool);
    assert AllAside([event]);
    if !request.explicitResume {
      ContinueTells(w, [event], w.snapshot.state, w.driver);
    } else if tool.cost.Low? {
      RequeueTells(w, tool.call, Low, w.snapshot.state.granted, false, [event], scheduled);
    } else if request.costlyRetryConfirmed {
      RequeueTells(w, tool.call, tool.cost, true, true, [event], scheduled);
    } else {
      AskConfirmationTells(w, tool.call, tool.cost, [event]);
    }
  }

  lemma DecisionTells(w: World, decision: Decision, request: RecoveryRequest, scheduled: bool)
    requires IsTold(w) && !decision.ReconcileRemoteQuery?
    requires decision.MarkToolIndeterminate? ==> w.snapshot.status.Running?
    ensures IsTold(ApplyDecision(w, decision, request, scheduled))
  {
    match decision
    case MarkToolIndeterminate(tool) => MarkTells(w, tool, request, scheduled);
    case RetryLowCostWithNewCall(previous) => RequeueTells(w, previous, Low, false, false, [], scheduled);
    case RetryConfirmedHighCostWithNewCall(previous, cost) =>
      RequeueTells(w, previous, cost, true, true, [], scheduled);
    case ConfirmHighCostRetry(previous, cost) => AskConfirmationTells(w, previous, cost, []);
    case _ =>
  }

  lemma RecoverTells(w: World, f: Facts, request: RecoveryRequest, scheduled: bool)
    requires Ledger(w, f) && IsTold(w)
    ensures IsTold(RecoverStep(w, request, scheduled))
  {
    var decision := Assess(w.log, w.snapshot.status, request);
    if decision.Ok? { DecisionTells(w, decision.value, request, scheduled); }
  }

  lemma AnswerTells(w: World, affirmative: bool, artifact: ArtifactId, scheduled: bool)
    requires IsTold(w)
    ensures IsTold(AnswerStep(w, affirmative, artifact, scheduled))
  {
    var after := AnswerStep(w, affirmative, artifact, scheduled);
    if after != w {
      var id := Answerable(w.snapshot).value;
      assert [ClarificationAnswered(id, artifact)] + [RunResumed] == [ClarificationAnswered(id, artifact), RunResumed];
      TurningTells(w, [ClarificationAnswered(id, artifact)], RunResumed, after.snapshot, w.driver);
    }
  }

  lemma CancelTells(w: World, reason: string)
    requires IsTold(w)
    ensures IsTold(CancelStep(w, reason))
  {
    if !w.snapshot.status.Terminal() {
      assert [] + [RunCancelled(reason)] == [RunCancelled(reason)];
      TurningTells(w, [], RunCancelled(reason), CancelStep(w, reason).snapshot, w.driver);
    }
  }

  lemma StartingTells(fingerprint: string, s: Snapshot)
    requires s.status.Running? && s.wait.None? && s.primaryArtifact.None? && s.version == 1
    ensures Tells([ProviderBound(fingerprint), RunStarted, RunStateProjected(s)], s)
  {
    var log := [ProviderBound(fingerprint), RunStarted, RunStateProjected(s)];
    assert log == [ProviderBound(fingerprint)] + [RunStarted] + [RunStateProjected(s)];
    TellAppend(Untold, [ProviderBound(fingerprint)] + [RunStarted], [RunStateProjected(s)]);
    TellLast(Untold, [ProviderBound(fingerprint)], RunStarted);
    TellOne(Tell(Untold, RunStarted), RunStateProjected(s));
  }

  lemma RetryTells(w: World, runId: RunId, fingerprint: string, scheduled: bool)
    requires IsTold(w)
    ensures IsTold(RetryStep(w, runId, fingerprint, scheduled))
  {
    if w.snapshot.status.Failed? { StartingTells(fingerprint, RetryStep(w, runId, fingerprint, scheduled).snapshot); }
  }

  lemma CommandTells(w: World, f: Facts, step: Step)
    requires Ledger(w, f) && IsTold(w) && IsCommand(step)
    ensures IsTold(Next(w, step))
  {
    if step.Recover? {
      RecoverIsNext(w, step);
      RecoverTells(w, f, step.request, step.scheduled);
    } else {
      OtherIsNext(w, step);
      match step
      case Answer(affirmative, artifact, scheduled) => AnswerTells(w, affirmative, artifact, scheduled);
      case Cancel(reason) => CancelTells(w, reason);
      case Retry(runId, fingerprint, scheduled) => RetryTells(w, runId, fingerprint, scheduled);
    }
  }

  lemma NextTells(w: World, step: Step)
    requires Sound(w) && IsTold(w)
    ensures IsTold(Next(w, step))
  {
    var f :| Ledger(w, f);
    if IsCommand(step) {
      CommandTells(w, f, step);
    } else {
      DriverStepTells(w, f, step);
      DriverIsNext(w, step);
    }
  }

  lemma WaitingTells(fingerprint: string, id: ClarificationId, s: Snapshot)
    requires s.status.WaitingForInput? && s.wait == Some(WaitMetadata(Some(id), "clarification"))
    requires s.primaryArtifact.None? && s.version == 1 && s.state.clarification == Some(id)
    ensures Tells([ProviderBound(fingerprint), RunStarted, ClarificationRequested(id), RunWaiting("clarification"),
                   RunStateProjected(s)], s)
  {
    var starting, waiting := [ProviderBound(fingerprint)] + [RunStarted],
      [ClarificationRequested(id), RunWaiting("clarification")];
    assert starting + waiting + [RunStateProjected(s)]
        == [ProviderBound(fingerprint), RunStarted, ClarificationRequested(id), RunWaiting("clarification"),
            RunStateProjected(s)];
    TellAppend(Untold, starting + waiting, [RunStateProjected(s)]);
    TellAppend(Untold, starting, waiting);
    TellLast(Untold, [ProviderBound(fingerprint)], RunStarted);
    TellWait(Tell(Untold, RunStarted), [], id, "clarification");
    assert [] + waiting == waiting;
    TellOne(TellAll(TellAll(Untold, starting), waiting), RunStateProjected(s));
  }

  lemma CreatedTells(w: World)
    requires Created(w)
    ensures IsTold(w)
  {
    if runId, taskId, fingerprint, rest :| w == Initial(runId, taskId, fingerprint, rest) {
      StartingTells(fingerprint, w.snapshot);
    } else {
      var runId, taskId, fingerprint, rest, id :| w == InitialWaiting(runId, taskId, fingerprint, rest, id);
      WaitingTells(fingerprint, id, w.snapshot);
    }
  }

  lemma {:induction false} RunTells(w: World, steps: seq<Step>)
    requires Sound(w) && IsTold(w)
    ensures IsTold(Reached(w, steps))
    decreases |steps|
  {
    if steps != [] {
      NextKeeps(w, steps[0]);
      NextTells(w, steps[0]);
      RunTells(Next(w, steps[0]), steps[1..]);
    }
  }

  /** After every history of driver steps, crashes and commands the log tells the row. */
  lemma LogTellsRow(start: World, steps: seq<Step>)
    requires Created(start)
    ensures Tells(Reached(start, steps).log, Reached(start, steps).snapshot)
  {
    CreatedIsSound(start);
    CreatedTells(start);
    RunTells(start, steps);
  }

  // ---------- who reported an outcome ----------

  ghost predicate IsOutcome(kind: EventKind) {
    kind.ToolExecutionSucceeded? || kind.ToolExecutionFailed?
  }

  /** This step reports this outcome of a call: the call that the driver started has ended so, or the policy
      rejected the call that the model or recovery proposed, which then failed for that reason. */
  ghost predicate Reports(w: World, step: Step, kind: EventKind) {
    match kind
    case ToolExecutionSucceeded(id) =>
      step.FinishTool? && step.outcome.ToolSucceeded? && w.driver == ToolPending(w.snapshot.version, id)
    case ToolExecutionFailed(id, failure) =>
      || (step.FinishTool? && step.outcome == ToolFailed(failure) && w.driver == ToolPending(w.snapshot.version, id))
      || (step.RejectTool? && step.rejection == failure && ModelAnswers(w) && id == w.nextCall)
      || (&& step.RejectRecovered? && step.refusal == failure && AtWork(w)
          && w.snapshot.state.pendingCall.Some? && w.snapshot.state.pendingCall.value.id == id)
    case _ => false
  }

  lemma LoopReportsNothing(w: World, step: Step, kind: EventKind)
    requires step.Advance? || step.AskUser? || step.RequestModel? || step.Verify? || step.FailTerminal?
    requires IsOutcome(kind) && kind in DriverStep(w, step).log
    ensures kind in w.log
  {
  }

  lemma ResponseReportsNothing(w: World, step: Step, kind: EventKind)
    requires step.AcceptResponse? || step.AcceptWait? || step.CommitWait? || step.Complete? || step.RefuseCompletion?
    requires IsOutcome(kind) && kind in DriverStep(w, step).log
    ensures kind in w.log
  {
  }

  lemma ToolReports(w: World, step: Step, kind: EventKind)
    requires step.StartTool? || step.RejectTool? || step.FinishTool?
    requires IsOutcome(kind) && kind in DriverStep(w, step).log && kind !in w.log
    ensures Reports(w, step, kind)
  {
  }

  lemma RecoveredReports(w: World, step: Step, kind: EventKind)
    requires step.StartRecovered? || step.RejectRecovered?
    requires IsOutcome(kind) && kind in DriverStep(w, step).log && kind !in w.log
    ensures Reports(w, step, kind)
  {
  }

  /** Whatever a step adds to the log, an outcome among it is what the step reports. */
  lemma DriverReports(w: World, step: Step, kind: EventKind)
    requires IsOutcome(kind) && kind in DriverStep(w, step).log && kind !in w.log
    ensures Reports(w, step, kind)
  {
    match step
    case Advance(_, _) => LoopReportsNothing(w, step, kind);
    case AskUser(_, _) => LoopReportsNothing(w, step, kind);
    case RequestModel(_) => LoopReportsNothing(w, step, kind);
    case Verify(_, _, _) => LoopReportsNothing(w, step, kind);
    case FailTerminal(_) => LoopReportsNothing(w, step, kind);
    case StartTool(_, _, _, _) => ToolReports(w, step, kind);
    case RejectTool(_, _, _, _, _) => ToolReports(w, step, kind);
    case FinishTool(_, _, _) => ToolReports(w, step, kind);
    case StartRecovered => RecoveredReports(w, step, kind);
    case RejectRecovered(_, _, _) => RecoveredReports(w, step, kind);
    case AcceptResponse(_, _) => ResponseReportsNothing(w, step, kind);
    case AcceptWait(_) => ResponseReportsNothing(w, step, kind);
    case CommitWait(_) => ResponseReportsNothing(w, step, kind);
    case Complete(_) => ResponseReportsNothing(w, step, kind);
    case RefuseCompletion => ResponseReportsNothing(w, step, kind);
    case _ =>
  }

  lemma RetryingReportsNothing(w: World, call: ToolCall, cost: CostClass, granted: bool, confirmed: bool,
                               before: seq<EventKind>, scheduled: bool, kind: EventKind)
    requires IsOutcome(kind) && kind !in before
    ensures kind in Requeue(w, call, cost, granted, confirmed, before, scheduled).log ==> kind in w.log
    ensures kind in AskConfirmation(w, call, cost, before).log ==> kind in w.log
  {
  }

  lemma MarkingReportsNothing(w: World, tool: StartedTool, request: RecoveryRequest, scheduled: bool, kind: EventKind)
    requires IsOutcome(kind) && kind in MarkIndeterminate(w, tool, request, scheduled).log
    ensures kind in w.log
  {
    var event := Interrupted(tool);
    RetryingReportsNothing(w, tool.call, Low, w.snapshot.state.granted, false, [event], scheduled, kind);
    RetryingReportsNothing(w, tool.call, tool.cost, true, true, [event], scheduled, kind);
  }

  lemma DecisionReportsNothing(w: World, decision: Decision, request: RecoveryRequest, scheduled: bool, kind: EventKind)
    requires IsOutcome(kind) && kind in ApplyDecision(w, decision, request, scheduled).log
    ensures kind in w.log
  {
    match decision
    case MarkToolIndeterminate(tool) => MarkingReportsNothing(w, tool, request, scheduled, kind);
    case RetryLowCostWithNewCall(call) =>
      RetryingReportsNothing(w, call, Low, false, false, [], scheduled, kind);
    case RetryConfirmedHighCostWithNewCall(call, cost) =>
      RetryingReportsNothing(w, call, cost, true, true, [], scheduled, kind);
    case ConfirmHighCostRetry(call, cost) =>
      RetryingReportsNothing(w, call, cost, true, true, [], scheduled, kind);
    case _ =>
  }

  lemma AnswerReportsNothing(w: World, affirmative: bool, artifact: ArtifactId, scheduled: bool, kind: EventKind)
    requires IsOutcome(kind) && kind in AnswerStep(w, affirmative, artifact, scheduled).log
    ensures kind in w.log
  {
  }

  lemma CommandReportsNothing(w: World, step: Step, kind: EventKind)
    requires IsCommand(step) && IsOutcome(kind) && kind in Next(w, step).log
    ensures kind in w.log
  {
    match step
    case Recover(request, scheduled) =>
      RecoverIsNext(w, step);
      var decision := Assess(w.log, w.snapshot.status, request);
      if decision.Ok? { DecisionReportsNothing(w, decision.value, request, scheduled, kind); }
    case Answer(affirmative, artifact, scheduled) =>
      OtherIsNext(w, step);
      AnswerReportsNothing(w, affirmative, artifact, scheduled, kind);
    case Cancel(_) => OtherIsNext(w, step);
    case Retry(_, _, _) => OtherIsNext(w, step);
  }

  lemma OtherIsNext(w: World, step: Step)
    requires step.Answer? || step.Cancel? || step.Retry?
    ensures step.Answer? ==> Next(w, step) == AnswerStep(w, step.affirmative, step.artifact, step.woken)
    ensures step.Cancel? ==> Next(w, step) == CancelStep(w, step.cancelReason)
    ensures step.Retry? ==> Next(w, step) == RetryStep(w, step.runId, step.fingerprint, step.spawned)
  {
  }

  lemma {:induction false} ReachedAppend(w: World, a: seq<Step>, b: seq<Step>)
    ensures Reached(w, a + b) == Reached(Reached(w, a), b)
    decreases |a|
  {
    if a == [] {
      assert a + b == b;
    } else {
      assert (a + b)[0] == a[0] && (a + b)[1..] == a[1..] + b;
      ReachedAppend(Next(w, a[0]), a[1..], b);
    }
  }

  lemma LastStep(start: World, steps: seq<Step>)
    requires steps != []
    ensures Reached(start, steps) == Next(Reached(start, steps[..|steps| - 1]), steps[|steps| - 1])
  {
    var last := steps[|steps| - 1];
    assert steps == steps[..|steps| - 1] + [last];
    ReachedAppend(start, steps[..|steps| - 1], [last]);
    assert [last][1..] == [];
  }

  /** In every history, an outcome that the log records was reported by one of its steps: a call succeeded only
      if its tool said so, and failed only as its tool said, or as the policy rejected it. */
  lemma {:induction false} OutcomesWereReported(start: World, steps: seq<Step>, kind: EventKind)
    requires Created(start) && IsOutcome(kind) && kind in Reached(start, steps).log
    ensures exists k :: 0 <= k < |steps| && Reports(Reached(start, steps[..k]), steps[k], kind)
    decreases |steps|
  {
    if steps != [] {
      var n := |steps| - 1;
      var front, w := steps[..n], Reached(start, steps[..n]);
      LastStep(start, steps);
      if kind in w.log {
        OutcomesWereReported(start, front, kind);
        var k :| 0 <= k < |front| && Reports(Reached(start, front[..k]), front[k], kind);
        assert front[..k] == steps[..k] && front[k] == steps[k];
      } else if IsCommand(steps[n]) {
        CommandReportsNothing(w, steps[n], kind);
      } else {
        DriverIsNext(w, steps[n]);
        DriverReports(w, steps[n], kind);
      }
    }
  }
}
