/** What recovery decides in every reachable state, and what it then does, in terms of the events of the
    log and of what was asked for. */
module RecoveryDecisions {
  import opened Wrappers
  import opened RunStatuses
  import opened RunTypes
  import opened RecoveryFacts
  import opened RecoveryProtocol
  import opened RecoveryLedger
  import opened RecoverySafety
  import opened RecoveryTheorems
  import opened RecoveryMeaning
  import opened RecoveryHistory

  // ---------- what the log says ----------

  /** This call was started at this cost and has not finished. */
  ghost predicate Underway(log: seq<EventKind>, tool: StartedTool) {
    && ProposedIn(log, tool.call) && StartedIn(log, tool.call.id, tool.cost) && !FinishedIn(log, tool.call.id)
  }

  /** Every call that was started has finished. */
  ghost predicate Settled(log: seq<EventKind>) {
    forall id: CallId, cost :: StartedIn(log, id, cost) ==> FinishedIn(log, id)
  }

  /** No call is under way, and this one was interrupted last, at this cost, and not resumed since. */
  ghost predicate Stranded(log: seq<EventKind>, call: ToolCall, cost: CostClass) {
    && Settled(log) && ProposedIn(log, call)
    && exists failure :: LastInterrupted(log, call.id, failure) && failure.cost == cost
  }

  ghost predicate Uninterrupted(log: seq<EventKind>) {
    Settled(log) && forall id: CallId, failure :: !LastInterrupted(log, id, failure)
  }

  // ---------- what is decided ----------

  /** A reachable running Run whose history can be read, with its facts. */
  ghost predicate Readable(w: World, f: Facts) {
    Ledger(w, f) && Means(w.log, f) && w.snapshot.status.Running? && !Denied(w.log)
  }

  /** What the facts about calls rest on. */
  ghost predicate Legible(log: seq<EventKind>, f: Facts) {
    && Means(log, f) && f.started.Keys <= f.proposed.Keys
    && (forall id | id in f.proposed :: f.proposed[id].id == id)
    && (forall a, b | a in Unfinished(f) && b in Unfinished(f) :: a == b)
    && (f.indeterminate.Some? ==> f.indeterminate.value.0 in f.proposed)
  }

  lemma ReachedReadable(start: World, steps: seq<Step>) returns (f: Facts)
    requires Created(start)
    requires var w := Reached(start, steps); w.snapshot.status.Running? && !Denied(w.log)
    ensures Readable(Reached(start, steps), f) && Legible(Reached(start, steps).log, f)
  {
    HistoriesAreSound(start, steps);
    f :| Ledger(Reached(start, steps), f);
    FactsMean(Reached(start, steps).log, f);
  }

  lemma SettledFacts(log: seq<EventKind>, f: Facts)
    requires Legible(log, f)
    ensures Settled(log) <==> Unfinished(f) == {}
  {
    if Unfinished(f) != {} {
      var id :| id in Unfinished(f);
      assert StartedIn(log, id, f.started[id]) && !FinishedIn(log, id);
    }
    forall id: CallId, cost | Unfinished(f) == {} && StartedIn(log, id, cost) ensures FinishedIn(log, id) {
      assert id !in Unfinished(f);
    }
  }

  lemma UnderwayFacts(log: seq<EventKind>, f: Facts, tool: StartedTool)
    requires Legible(log, f)
    ensures Underway(log, tool)
            <==> && tool.call.id in Unfinished(f) && f.proposed[tool.call.id] == tool.call
                 && f.started[tool.call.id] == tool.cost
  {
  }

  lemma StrandedFacts(log: seq<EventKind>, f: Facts, call: ToolCall, cost: CostClass)
    requires Legible(log, f)
    ensures Stranded(log, call, cost)
            <==> && Unfinished(f) == {} && f.indeterminate.Some? && f.indeterminate.value.0 == call.id
                 && f.indeterminate.value.1.cost == cost && f.proposed[call.id] == call
  {
    SettledFacts(log, f);
    if f.indeterminate.Some? { assert LastInterrupted(log, f.indeterminate.value.0, f.indeterminate.value.1); }
  }

  lemma UninterruptedFacts(log: seq<EventKind>, f: Facts)
    requires Legible(log, f)
    ensures Uninterrupted(log) <==> Unfinished(f) == {} && f.indeterminate.None?
  {
    SettledFacts(log, f);
    if f.indeterminate.Some? { assert LastInterrupted(log, f.indeterminate.value.0, f.indeterminate.value.1); }
  }

  /** A call under way is marked; and it is the only one. */
  lemma MarksUnderway(w: World, f: Facts, request: RecoveryRequest)
    requires Readable(w, f) && Legible(w.log, f) && Unfinished(f) != {}
    ensures Assess(w.log, w.snapshot.status, request).Ok?
    ensures var decision := Assess(w.log, w.snapshot.status, request).value;
            decision.MarkToolIndeterminate? && forall tool :: Underway(w.log, tool) <==> tool == decision.tool
  {
    AssessUnderLedger(w, f, request);
    DecisionFacts(w, f, request);
    MarksUnfinished(w, f, request);
    forall tool ensures Underway(w.log, tool) <==> tool == Assess(w.log, w.snapshot.status, request).value.tool {
      UnderwayFacts(w.log, f, tool);
    }
  }

  lemma DecidesSettled(w: World, f: Facts, request: RecoveryRequest)
    requires Readable(w, f) && Unfinished(f) == {}
    ensures Assess(w.log, w.snapshot.status, request)
            == Ok(if f.indeterminate.Some?
                  then DecideIndeterminate(f.proposed[f.indeterminate.value.0], f.indeterminate.value.1, request)
                  else if Awaiting(w.log) then RetryModelWithNewCallId else ContinueSameRun)
  {
    AssessUnderLedger(w, f, request);
  }

  /** Recovery marks exactly the call that is under way; with none under way, the call that was interrupted
      last is retried when it was cheap and resuming was asked for, or costly and its retry was confirmed, and
      otherwise waits to be resumed or confirmed; and with none interrupted either, the model is asked again
      exactly when its answer is outstanding. */
  ghost predicate DecidedBy(log: seq<EventKind>, request: RecoveryRequest, decision: Decision) {
    && (forall tool :: decision == MarkToolIndeterminate(tool) <==> Underway(log, tool))
    && (forall call :: decision == RetryLowCostWithNewCall(call)
                       <==> Stranded(log, call, Low) && request.explicitResume)
    && (forall call :: decision == WaitForExplicitResume(call) <==> Stranded(log, call, Low) && !request.explicitResume)
    && (forall call, cost :: decision == RetryConfirmedHighCostWithNewCall(call, cost)
                             <==> Stranded(log, call, cost) && !cost.Low? && request.costlyRetryConfirmed)
    && (forall call, cost :: decision == ConfirmHighCostRetry(call, cost)
                             <==> Stranded(log, call, cost) && !cost.Low? && !request.costlyRetryConfirmed)
    && (decision.RetryModelWithNewCallId? <==> Uninterrupted(log) && Awaiting(log))
    && (decision.ContinueSameRun? <==> Uninterrupted(log) && !Awaiting(log))
  }

  lemma UnderwayDecided(log: seq<EventKind>, f: Facts, request: RecoveryRequest, tool: StartedTool)
    requires Legible(log, f) && Unfinished(f) != {}
    requires forall t :: Underway(log, t) <==> t == tool
    ensures DecidedBy(log, request, MarkToolIndeterminate(tool))
  {
    SettledFacts(log, f);
    assert !Uninterrupted(log);
    assert forall call, cost :: !Stranded(log, call, cost);
  }

  lemma SettledDecided(log: seq<EventKind>, f: Facts, request: RecoveryRequest, decision: Decision)
    requires Legible(log, f) && Unfinished(f) == {}
    requires f.indeterminate.Some? ==> f.indeterminate.value.1.remoteQueryId.None?
    requires decision == if f.indeterminate.Some?
                         then DecideIndeterminate(f.proposed[f.indeterminate.value.0], f.indeterminate.value.1, request)
                         else if Awaiting(log) then RetryModelWithNewCallId else ContinueSameRun
    ensures DecidedBy(log, request, decision)
  {
    forall tool ensures !Underway(log, tool) { UnderwayFacts(log, f, tool); }
    UninterruptedFacts(log, f);
    forall call, cost
      ensures Stranded(log, call, cost)
              <==> && f.indeterminate.Some? && f.indeterminate.value.1.cost == cost
                   && f.proposed[f.indeterminate.value.0] == call
    {
      StrandedFacts(log, f, call, cost);
    }
  }

  /** What is decided for every reachable running Run whose history can be read. */
  lemma DecisionsMean(start: World, steps: seq<Step>, request: RecoveryRequest)
    requires Created(start)
    requires var w := Reached(start, steps); w.snapshot.status.Running? && !Denied(w.log)
    ensures var w := Reached(start, steps);
            && Assess(w.log, w.snapshot.status, request).Ok?
            && DecidedBy(w.log, request, Assess(w.log, w.snapshot.status, request).value)
  {
    var f := ReachedReadable(start, steps);
    ReadableDecided(Reached(start, steps), f, request);
  }

  lemma ReadableDecided(w: World, f: Facts, request: RecoveryRequest)
    requires Readable(w, f) && Legible(w.log, f)
    ensures Assess(w.log, w.snapshot.status, request).Ok?
    ensures DecidedBy(w.log, request, Assess(w.log, w.snapshot.status, request).value)
  {
    if Unfinished(f) != {} {
      MarksUnderway(w, f, request);
      UnderwayDecided(w.log, f, request, Assess(w.log, w.snapshot.status, request).value.tool);
    } else {
      DecidesSettled(w, f, request);
      SettledDecided(w.log, f, request, Assess(w.log, w.snapshot.status, request).value);
    }
  }

  /** The other statuses decide by themselves. */
  lemma StoppedDecisions(start: World, steps: seq<Step>, request: RecoveryRequest)
    requires Created(start)
    requires var w := Reached(start, steps); !w.snapshot.status.Running? && !Denied(w.log)
    ensures var status := Reached(start, steps).snapshot.status;
            var assessed := Assess(Reached(start, steps).log, status, request);
            && assessed.Ok?
            && (assessed.value == StartSameRun <==> status.Queued?)
            && (assessed.value == WaitForInput <==> status.WaitingForInput?)
            && (assessed.value == ReturnTerminal(status) <==> status.Succeeded? || status.Cancelled?)
            && (assessed.value == CreateRetryRun <==> status.Failed?)
  {
    HistoriesAreSound(start, steps);
    var f :| Ledger(Reached(start, steps), f);
    AssessUnderLedger(Reached(start, steps), f, request);
  }

  // ---------- what is done ----------

  /** One append of these events and the projection of the next snapshot. */
  ghost predicate Appended(w: World, after: World, events: seq<EventKind>, status: RunStatus) {
    && after.log == w.log + events + [RunStateProjected(after.snapshot)]
    && after.snapshot == w.snapshot.(status := status, version := w.snapshot.version + 1,
                                     state := after.snapshot.state, wait := after.snapshot.wait)
    && after.issued == w.issued
  }

  /** Whoever was idle is woken when the command schedules it. */
  ghost predicate Woken(w: World, after: World, scheduled: bool) {
    after.driver == if scheduled && w.driver.Idle? then AtLoop else w.driver
  }

  /** The Run goes on with exactly this call queued, under an identity that no call of the log has. */
  ghost predicate Resumes(w: World, after: World, before: seq<EventKind>, call: ToolCall, cost: CostClass,
                          granted: bool, scheduled: bool)
  {
    && Appended(w, after, before + [RunResumed], Running) && Woken(w, after, scheduled)
    && after.snapshot.wait.None?
    && after.snapshot.state == w.snapshot.state.(pendingCall := after.snapshot.state.pendingCall,
                                                 pendingCost := Some(cost), granted := granted)
    && after.snapshot.state.pendingCall.Some?
    && var queued := after.snapshot.state.pendingCall.value;
       && (queued.name, queued.arguments, queued.version) == (call.name, call.arguments, call.version)
       && forall c :: ProposedIn(w.log, c) ==> c.id != queued.id
  }

  /** The Run waits for the user to confirm exactly this call, and nobody is woken. */
  ghost predicate Asks(w: World, after: World, before: seq<EventKind>, call: ToolCall, cost: CostClass) {
    && after.snapshot.wait.Some? && after.snapshot.wait.value.clarification.Some?
    && after.driver == w.driver
    && var id := after.snapshot.wait.value.clarification.value;
       && id.confirming
       && Appended(w, after, before + [ClarificationRequested(id), RunWaiting("confirm_high_cost_retry")],
                   WaitingForInput)
       && after.snapshot.state == w.snapshot.state.(pendingCall := Some(call), pendingCost := Some(cost),
                                                    clarification := Some(id))
  }

  lemma RequeueResumes(w: World, f: Facts, call: ToolCall, cost: CostClass, granted: bool, confirmed: bool,
                       before: seq<EventKind>, scheduled: bool)
    requires Readable(w, f)
    ensures Resumes(w, Requeue(w, call, cost, granted, confirmed, before, scheduled), before, call, cost, granted,
                    scheduled)
  {
    var after := Requeue(w, call, cost, granted, confirmed, before, scheduled);
    assert after.log == w.log + (before + [RunResumed]) + [RunStateProjected(after.snapshot)];
  }

  lemma AskConfirmationAsks(w: World, call: ToolCall, cost: CostClass, before: seq<EventKind>)
    ensures Asks(w, AskConfirmation(w, call, cost, before), before, call, cost)
  {
    var id := ClarificationId(true, "retry");
    var after := AskConfirmation(w, call, cost, before);
    assert after.log == w.log + (before + [ClarificationRequested(id), RunWaiting("confirm_high_cost_retry")])
                        + [RunStateProjected(after.snapshot)];
  }

  /** The step taken for a call that was interrupted before. */
  lemma StrandedStep(w: World, f: Facts, request: RecoveryRequest, scheduled: bool, call: ToolCall, cost: CostClass)
    requires Readable(w, f) && Unfinished(f) == {} && f.indeterminate.Some?
    requires f.proposed[f.indeterminate.value.0] == call && f.indeterminate.value.1.cost == cost
    ensures RecoverStep(w, request, scheduled)
            == if cost.Low? then
                 if request.explicitResume then Requeue(w, call, Low, false, false, [], scheduled) else w
               else if request.costlyRetryConfirmed then Requeue(w, call, cost, true, true, [], scheduled)
               else AskConfirmation(w, call, cost, [])
  {
    DecidesSettled(w, f, request);
    var decision := DecideIndeterminate(call, f.indeterminate.value.1, request);
    assert RecoverStep(w, request, scheduled) == ApplyDecision(w, decision, request, scheduled);
  }

  lemma RetriesStranded(w: World, f: Facts, request: RecoveryRequest, scheduled: bool, call: ToolCall, cost: CostClass)
    requires Readable(w, f) && Unfinished(f) == {} && f.indeterminate.Some?
    requires f.proposed[f.indeterminate.value.0] == call && f.indeterminate.value.1.cost == cost
    ensures var after := RecoverStep(w, request, scheduled);
            && (cost.Low? && request.explicitResume ==> Resumes(w, after, [], call, Low, false, scheduled))
            && (cost.Low? && !request.explicitResume ==> after == w)
            && (!cost.Low? && request.costlyRetryConfirmed ==> Resumes(w, after, [], call, cost, true, scheduled))
            && (!cost.Low? && !request.costlyRetryConfirmed ==> Asks(w, after, [], call, cost))
  {
    StrandedStep(w, f, request, scheduled, call, cost);
    if cost.Low? {
      RequeueResumes(w, f, call, Low, false, false, [], scheduled);
    } else {
      RequeueResumes(w, f, call, cost, true, true, [], scheduled);
      AskConfirmationAsks(w, call, cost, []);
    }
  }

  /** Recovering a call that was interrupted before: it goes on with the call queued when the call was cheap
      and resuming was asked for, without the grant, or when it was costly and confirmed, with the grant;
      a cheap call that nobody asked to resume is left alone, and a costly one that nobody confirmed is
      asked about. */
  lemma StrandedRecovers(start: World, steps: seq<Step>, request: RecoveryRequest, scheduled: bool, call: ToolCall,
                         cost: CostClass)
    requires Created(start)
    requires var w := Reached(start, steps);
             w.snapshot.status.Running? && !Denied(w.log) && Stranded(w.log, call, cost)
    ensures var w := Reached(start, steps);
            var after := RecoverStep(w, request, scheduled);
            && (cost.Low? && request.explicitResume ==> Resumes(w, after, [], call, Low, false, scheduled))
            && (cost.Low? && !request.explicitResume ==> after == w)
            && (!cost.Low? && request.costlyRetryConfirmed ==> Resumes(w, after, [], call, cost, true, scheduled))
            && (!cost.Low? && !request.costlyRetryConfirmed ==> Asks(w, after, [], call, cost))
  {
    var f := ReachedReadable(start, steps);
    StrandedFacts(Reached(start, steps).log, f, call, cost);
    RetriesStranded(Reached(start, steps), f, request, scheduled, call, cost);
  }

  /** The interruption of this call is recorded at its cost, and when resuming is asked for it is retried in the
      same append, as above; its grant, if it is cheap, is what it was. */
  ghost predicate Interrupts(w: World, after: World, tool: StartedTool, request: RecoveryRequest, scheduled: bool) {
    var event := ToolExecutionIndeterminate(tool.call.id, ToolFailure("interrupted_tool_execution", None, tool.cost));
    && (!request.explicitResume ==>
          && Appended(w, after, [event], Running) && after.driver == w.driver
          && after.snapshot.state == w.snapshot.state && Stranded(after.log, tool.call, tool.cost))
    && (request.explicitResume && tool.cost.Low? ==>
          Resumes(w, after, [event], tool.call, Low, w.snapshot.state.granted, scheduled))
    && (request.explicitResume && !tool.cost.Low? && request.costlyRetryConfirmed ==>
          Resumes(w, after, [event], tool.call, tool.cost, true, scheduled))
    && (request.explicitResume && !tool.cost.Low? && !request.costlyRetryConfirmed ==>
          Asks(w, after, [event], tool.call, tool.cost))
  }

  /** Recovering a call that is under way. */
  lemma UnderwayRecovers(start: World, steps: seq<Step>, request: RecoveryRequest, scheduled: bool, tool: StartedTool)
    requires Created(start)
    requires var w := Reached(start, steps);
             w.snapshot.status.Running? && !Denied(w.log) && Underway(w.log, tool)
    ensures var w := Reached(start, steps);
            Interrupts(w, RecoverStep(w, request, scheduled), tool, request, scheduled)
  {
    var f := ReachedReadable(start, steps);
    UnderwayIsMarked(Reached(start, steps), f, tool, request);
    StepMarks(Reached(start, steps), tool, request, scheduled);
    MarkingRecovers(Reached(start, steps), f, tool, request, scheduled);
  }

  lemma UnderwayIsMarked(w: World, f: Facts, tool: StartedTool, request: RecoveryRequest)
    requires Readable(w, f) && Legible(w.log, f) && Underway(w.log, tool)
    ensures Assess(w.log, w.snapshot.status, request) == Ok(MarkToolIndeterminate(tool))
  {
    UnderwayFacts(w.log, f, tool);
    MarksUnderway(w, f, request);
  }

  lemma StepMarks(w: World, tool: StartedTool, request: RecoveryRequest, scheduled: bool)
    requires Assess(w.log, w.snapshot.status, request) == Ok(MarkToolIndeterminate(tool))
    ensures RecoverStep(w, request, scheduled) == MarkIndeterminate(w, tool, request, scheduled)
  {
    assert RecoverStep(w, request, scheduled) == ApplyDecision(w, MarkToolIndeterminate(tool), request, scheduled);
  }

  lemma MarkingRecovers(w: World, f: Facts, tool: StartedTool, request: RecoveryRequest, scheduled: bool)
    requires Readable(w, f) && Legible(w.log, f) && Underway(w.log, tool)
    ensures Interrupts(w, MarkIndeterminate(w, tool, request, scheduled), tool, request, scheduled)
  {
    var event := Interrupted(tool);
    if !request.explicitResume {
      var after := MarkIndeterminate(w, tool, request, scheduled);
      assert after.log == w.log + [event] + [RunStateProjected(after.snapshot)];
      MarkedIsStranded(w.log, f, tool, after.snapshot);
    } else if tool.cost.Low? {
      RequeueResumes(w, f, tool.call, Low, w.snapshot.state.granted, false, [event], scheduled);
    } else {
      RequeueResumes(w, f, tool.call, tool.cost, true, true, [event], scheduled);
      AskConfirmationAsks(w, tool.call, tool.cost, [event]);
    }
  }

  /** A marked call is interrupted last, and none is under way any more. */
  lemma MarkedIsStranded(log: seq<EventKind>, f: Facts, tool: StartedTool, next: Snapshot)
    requires LearnAll(NoFacts, log) == Ok(f) && Legible(log, f) && Underway(log, tool)
    ensures Stranded(log + [Interrupted(tool)] + [RunStateProjected(next)], tool.call, tool.cost)
  {
    UnderwayFacts(log, f, tool);
    MarkedLearned(log, f, tool, next);
    MarkedLegible(log + [Interrupted(tool)] + [RunStateProjected(next)], f, tool);
    StrandedFacts(log + [Interrupted(tool)] + [RunStateProjected(next)], MarkedFacts(f, tool), tool.call, tool.cost);
  }

  lemma MarkedLearned(log: seq<EventKind>, f: Facts, tool: StartedTool, next: Snapshot)
    requires LearnAll(NoFacts, log) == Ok(f) && tool.call.id !in f.terminal
    ensures LearnAll(NoFacts, log + [Interrupted(tool)] + [RunStateProjected(next)]) == Ok(MarkedFacts(f, tool))
    ensures Means(log + [Interrupted(tool)] + [RunStateProjected(next)], MarkedFacts(f, tool))
  {
    LearnAppend(NoFacts, log, [Interrupted(tool)]);
    LearnOne(f, Interrupted(tool));
    LearnAppend(NoFacts, log + [Interrupted(tool)], [RunStateProjected(next)]);
    LearnOne(MarkedFacts(f, tool), RunStateProjected(next));
    FactsMean(log + [Interrupted(tool)] + [RunStateProjected(next)], MarkedFacts(f, tool));
  }

  lemma MarkedLegible(after: seq<EventKind>, f: Facts, tool: StartedTool)
    requires Means(after, MarkedFacts(f, tool)) && f.started.Keys <= f.proposed.Keys
    requires forall id | id in f.proposed :: f.proposed[id].id == id
    requires forall a, b | a in Unfinished(f) && b in Unfinished(f) :: a == b
    requires tool.call.id in Unfinished(f)
    ensures Legible(after, MarkedFacts(f, tool)) && Unfinished(MarkedFacts(f, tool)) == {}
  {
    assert Unfinished(MarkedFacts(f, tool)) == Unfinished(f) - {tool.call.id};
  }

  // ---------- answering, cancelling, retrying ----------

  /** The Run waits for exactly this clarification. */
  ghost predicate WaitsFor(w: World, id: ClarificationId) {
    && w.snapshot.status.WaitingForInput? && w.snapshot.state.clarification == Some(id)
    && w.snapshot.wait.Some? && w.snapshot.wait.value.clarification == Some(id)
  }

  /** An answer resumes a Run that waits for it, in one append; a confirmation must be affirmative and finds the
      call it confirms, which then goes on under a new identity and with the grant. */
  ghost predicate Answers(w: World, after: World, id: ClarificationId, artifact: ArtifactId, scheduled: bool) {
    && Appended(w, after, [ClarificationAnswered(id, artifact), RunResumed], Running) && Woken(w, after, scheduled)
    && after.snapshot.wait.None?
    && (!id.confirming ==> after.snapshot.state == w.snapshot.state.(clarification := None))
    && (id.confirming ==>
          && w.snapshot.state.pendingCall.Some? && after.snapshot.state.pendingCall.Some?
          && var queued := after.snapshot.state.pendingCall.value;
             && after.snapshot.state == w.snapshot.state.(clarification := None, pendingCall := Some(queued),
                                                          granted := true)
             && queued == w.snapshot.state.pendingCall.value.(id := queued.id)
             && forall c :: ProposedIn(w.log, c) ==> c.id != queued.id)
  }

  lemma AnswersResume(start: World, steps: seq<Step>, affirmative: bool, artifact: ArtifactId, scheduled: bool)
    requires Created(start)
    ensures var w := Reached(start, steps);
            var after := AnswerStep(w, affirmative, artifact, scheduled);
            && (forall id :: WaitsFor(w, id) ==>
                  if id.confirming && !(affirmative && w.snapshot.state.pendingCall.Some?) then after == w
                  else Answers(w, after, id, artifact, scheduled))
            && ((forall id :: !WaitsFor(w, id)) ==> after == w)
  {
    HistoriesAreSound(start, steps);
    var f :| Ledger(Reached(start, steps), f);
    FactsMean(Reached(start, steps).log, f);
    AnswerResumes(Reached(start, steps), f, affirmative, artifact, scheduled);
  }

  /** A Run that waits can be answered: in every reachable state it waits for the clarification that its workflow
      state names, and an answer resumes it unless a confirmation is declined, or has no call to confirm. */
  lemma WaitingRunsCanBeAnswered(start: World, steps: seq<Step>, artifact: ArtifactId, scheduled: bool)
    requires Created(start) && Reached(start, steps).snapshot.status.WaitingForInput?
    ensures var w := Reached(start, steps);
            && w.snapshot.state.clarification.Some?
            && var id := w.snapshot.state.clarification.value;
               && WaitsFor(w, id)
               && (id.confirming ==> w.snapshot.state.pendingCall.Some?) ==>
                    Answers(w, AnswerStep(w, true, artifact, scheduled), id, artifact, scheduled)
  {
    LogTellsRow(start, steps);
    AnswersResume(start, steps, true, artifact, scheduled);
  }

  lemma AnswerResumes(w: World, f: Facts, affirmative: bool, artifact: ArtifactId, scheduled: bool)
    requires Means(w.log, f) && Fresh(f, w.snapshot, w.nextCall)
    ensures var after := AnswerStep(w, affirmative, artifact, scheduled);
            && (forall id :: WaitsFor(w, id) ==>
                  if id.confirming && !(affirmative && w.snapshot.state.pendingCall.Some?) then after == w
                  else Answers(w, after, id, artifact, scheduled))
            && ((forall id :: !WaitsFor(w, id)) ==> after == w)
  {
    if Answerable(w.snapshot).Some? {
      var id := Answerable(w.snapshot).value;
      var after := AnswerStep(w, affirmative, artifact, scheduled);
      assert WaitsFor(w, id);
      if !id.confirming || (affirmative && w.snapshot.state.pendingCall.Some?) {
        assert after.log == w.log + [ClarificationAnswered(id, artifact), RunResumed]
                            + [RunStateProjected(after.snapshot)];
        assert Answers(w, after, id, artifact, scheduled);
      }
    }
  }

  /** Cancelling ends a Run that has not ended, and nobody else's state; a failed Run is retried by a new one
      with its workflow state, an empty ledger and the next attempt. */
  lemma CancelAndRetry(w: World, reason: string, runId: RunId, fingerprint: string, scheduled: bool)
    ensures var after := CancelStep(w, reason);
            if w.snapshot.status.Succeeded? || w.snapshot.status.Failed? || w.snapshot.status.Cancelled? then after == w
            else && Appended(w, after, [RunCancelled(reason)], Cancelled) && after.snapshot.wait.None?
                 && after.snapshot.state == w.snapshot.state && after.driver == w.driver
    ensures var after := RetryStep(w, runId, fingerprint, scheduled);
            if !w.snapshot.status.Failed? then after == w
            else && after.snapshot.status.Running? && after.snapshot.runId == runId
                 && after.snapshot.retryOf == Some(w.snapshot.runId)
                 && after.snapshot.taskId == w.snapshot.taskId && after.snapshot.attempt == w.snapshot.attempt + 1
                 && after.snapshot.state == w.snapshot.state && after.snapshot.version == 1
                 && after.log == [ProviderBound(fingerprint), RunStarted, RunStateProjected(after.snapshot)]
                 && after.driver == if scheduled then AtLoop else Idle
  {
    assert CancelStep(w, reason).log
           == if w.snapshot.status.Terminal() then w.log
              else w.log + [RunCancelled(reason)] + [RunStateProjected(CancelStep(w, reason).snapshot)];
  }
}
