/** What each step of the driver commits, event by event, and when it commits nothing. */
module RecoverySteps {
  import opened Wrappers
  import opened RunStatuses
  import opened RunTypes
  import opened RecoveryFacts
  import opened RecoveryProtocol

  /** One append of these events and of the projection of this snapshot, and where the driver is then. */
  ghost predicate Appends(w: World, after: World, events: seq<EventKind>, next: Snapshot, driver: Driver) {
    && after.log == w.log + events + [RunStateProjected(next)] && after.snapshot == next && after.driver == driver
    && after.snapshot.version == w.snapshot.version + 1
  }

  /** The same Run, going on. */
  function GoingOn(s: Snapshot): Snapshot {
    s.(status := Running, version := s.version + 1, wait := None)
  }

  /** The driver is at the top of its loop with the running Run, and no recovered call is waiting. */
  ghost predicate Free(w: World) {
    w.driver == AtLoop && w.snapshot.status == Running && w.snapshot.state.pendingCall == None
  }

  /** The driver has asked the model, and nobody has committed since. */
  ghost predicate Answered(w: World) {
    w.driver.ModelPending? && w.driver.version == w.snapshot.version
  }

  /** A step of the loop that does not need the model. */
  lemma LoopCommits(w: World, step: Step)
    requires step.Advance? || step.AskUser? || step.RequestModel? || step.Verify?
    ensures var after, s, next := DriverStep(w, step), w.snapshot.state, GoingOn(w.snapshot);
            && (!Free(w) ==> after == w)
            && (Free(w) ==>
                  match step
                  case Advance(name, rest) =>
                    Appends(w, after, [StepStarted(name)], next.(state := s.(rest := rest)), AtLoop)
                  case AskUser(id, reason) =>
                    Appends(w, after, [StepStarted("query::clarify"), ClarificationRequested(id), RunWaiting(reason)],
                            next.(status := WaitingForInput, state := s.(clarification := Some(id)),
                                  wait := Some(WaitMetadata(Some(id), reason))), Returned)
                  case RequestModel(manifest) =>
                    && Appends(w, after, [StepStarted("query::model"), ArtifactCreated(manifest),
                                          ModelRequested(w.nextModel)], next, ModelPending(next.version, w.nextModel))
                    && after.nextModel == w.nextModel + 1
                  case Verify(report, passed, rest) =>
                    if passed
                    then Appends(w, after, [ArtifactCreated(report)], next.(state := s.(rest := rest)), AtLoop)
                    else Appends(w, after, [ArtifactCreated(report), RunFailed("verification_failed")],
                                 next.(status := Failed, state := s.(rest := rest)), Returned))
  {
    var after := DriverStep(w, step);
    if Free(w) {
      assert after.log[|w.log|..|after.log| - 1] + [RunStateProjected(after.snapshot)] == after.log[|w.log|..];
      match step
      case AskUser(id, reason) =>
        assert [StepStarted("query::clarify")] + [ClarificationRequested(id), RunWaiting(reason)]
            == [StepStarted("query::clarify"), ClarificationRequested(id), RunWaiting(reason)];
      case _ =>
    }
  }

  /** What the driver makes of the model's answer, unless it was overtaken. */
  lemma ResponseCommits(w: World, step: Step)
    requires step.AcceptResponse? || step.AcceptWait? || step.Complete? || step.RefuseCompletion?
    ensures var after, s, next := DriverStep(w, step), w.snapshot.state, GoingOn(w.snapshot);
            && (!Answered(w) ==> after == w)
            && (Answered(w) ==>
                  var answer := ModelResponded(w.driver.modelCall);
                  match step
                  case AcceptResponse(artifacts, rest) =>
                    Appends(w, after, [answer] + Artifacts(artifacts), next.(state := s.(rest := rest)), AtLoop)
                  case AcceptWait(id) =>
                    Appends(w, after, [answer], next, AckPending(next.version, id))
                  case Complete(primary) =>
                    Appends(w, after, [answer, ArtifactCreated(primary), RunCompleted(primary)],
                            next.(status := Succeeded, primaryArtifact := Some(primary)), Returned)
                  case RefuseCompletion =>
                    Appends(w, after, [answer, RunFailed("completion_gate_failed")], next.(status := Failed), Returned))
  {
  }

  /** An acknowledged wait is committed unless it was overtaken. */
  lemma WaitCommits(w: World, reason: string)
    ensures var after := DriverStep(w, CommitWait(reason));
            if !(w.driver.AckPending? && w.driver.ackVersion == w.snapshot.version) then after == w
            else
              var id := w.driver.clarification;
              Appends(w, after, [StepStarted("query::clarify"), ClarificationRequested(id), RunWaiting(reason)],
                      w.snapshot.(status := WaitingForInput, version := w.snapshot.version + 1,
                                  state := w.snapshot.state.(clarification := Some(id)),
                                  wait := Some(WaitMetadata(Some(id), reason))), Returned)
  {
    if w.driver.AckPending? {
      var id := w.driver.clarification;
      assert [StepStarted("query::clarify")] + [ClarificationRequested(id), RunWaiting(reason)]
          == [StepStarted("query::clarify"), ClarificationRequested(id), RunWaiting(reason)];
    }
  }

  /** A tool call that the model proposed is started, or rejected by the policy, under a new identity. */
  lemma ProposalCommits(w: World, step: Step)
    requires step.StartTool? || step.RejectTool?
    ensures var after, s, next := DriverStep(w, step), w.snapshot.state, GoingOn(w.snapshot);
            && (!Answered(w) ==> after == w)
            && (Answered(w) ==>
                  && after.nextCall == w.nextCall + 1
                  && var answer, id := ModelResponded(w.driver.modelCall), w.nextCall;
                     match step
                     case StartTool(name, arguments, version, cost) =>
                       Appends(w, after, [answer, ToolCallProposed(ToolCall(id, name, arguments, version)),
                                          PolicyEvaluated(id, Allow), ToolExecutionStarted(id, cost)],
                               next, ToolPending(next.version, id))
                     case RejectTool(name, arguments, code, failure, rest) =>
                       Appends(w, after, [answer, ToolCallProposed(ToolCall(id, name, arguments, "")),
                                          PolicyEvaluated(id, Deny(code)), ToolExecutionFailed(id, failure)],
                               next.(state := s.(rest := rest)), AtLoop))
  {
  }

  /** The recovered call is started or rejected, and leaves the workflow state with its grant. */
  lemma RecoveredCommits(w: World, step: Step)
    requires step.StartRecovered? || step.RejectRecovered?
    ensures var after, s, next := DriverStep(w, step), w.snapshot.state, GoingOn(w.snapshot);
            && (!(w.driver == AtLoop && w.snapshot.status == Running && s.pendingCall.Some?) ==> after == w)
            && (w.driver == AtLoop && w.snapshot.status == Running && s.pendingCall.Some? ==>
                  var call, taken := s.pendingCall.value,
                    s.(pendingCall := None, pendingCost := None, granted := false);
                  var cost := if s.pendingCost.Some? then s.pendingCost.value else Unknown;
                  && after.issued == w.issued + [Issue(call, cost, s.granted, w.consented)] && !after.consented
                  && match step
                     case StartRecovered =>
                       Appends(w, after, [ToolCallProposed(call), PolicyEvaluated(call.id, Allow),
                                          ToolExecutionStarted(call.id, cost)],
                               next.(state := taken), ToolPending(next.version, call.id))
                     case RejectRecovered(code, failure, rest) =>
                       Appends(w, after, [ToolCallProposed(call), PolicyEvaluated(call.id, Deny(code)),
                                          ToolExecutionFailed(call.id, failure)],
                               next.(state := taken.(rest := rest)), AtLoop))
  {
  }

  /** The call that was started ends as its tool says, unless the driver was overtaken. */
  lemma OutcomeCommits(w: World, outcome: Outcome, produced: seq<ArtifactId>, rest: string)
    ensures var after := DriverStep(w, FinishTool(outcome, produced, rest));
            if !(w.driver.ToolPending? && w.driver.toolVersion == w.snapshot.version) then after == w
            else
              var ending := match outcome
                case ToolSucceeded => ToolExecutionSucceeded(w.driver.call)
                case ToolFailed(failure) => ToolExecutionFailed(w.driver.call, failure);
              Appends(w, after, Artifacts(produced) + [ending],
                      GoingOn(w.snapshot).(state := w.snapshot.state.(rest := rest)), AtLoop)
  {
  }

  /** A driver that breaks fails the Run, in whatever status it is by then, unless it lost the race; one that is
      done exits, and one that crashes is gone; none of these three commits anything. */
  lemma EndingCommits(w: World, step: Step)
    requires step.FailTerminal? || step.FailLost? || step.Break? || step.Exit? || step.Crash?
    ensures var after := DriverStep(w, step);
            match step
            case FailTerminal(code) =>
              if w.driver != Failing then after == w
              else Appends(w, after, [RunFailed(code)], GoingOn(w.snapshot).(status := Failed), Idle)
            case FailLost => after == if w.driver == Failing then w.(driver := Idle) else w
            case Break => after == if w.driver == Idle then w else w.(driver := Failing)
            case Exit =>
              after == if w.driver == AtLoop && w.snapshot.status != Running then w.(driver := Returned)
                       else if w.driver == Returned then w.(driver := Idle) else w
            case Crash => after == w.(driver := Idle)
  {
  }
}
