/** What recovery's facts and decisions mean in terms of the events of the log. */
module RecoveryMeaning {
  import opened Wrappers
  import opened RunStatuses
  import opened RunTypes
  import opened RecoveryFacts
  import opened RecoveryProtocol
  import opened RecoveryLedger
  import opened RecoverySafety

  predicate Finishes(kind: EventKind, id: CallId) {
    || kind == ToolExecutionSucceeded(id)
    || (kind.ToolExecutionFailed? && kind.failed == id)
    || (kind.ToolExecutionIndeterminate? && kind.interrupted == id)
  }

  ghost predicate ProposedIn(kinds: seq<EventKind>, call: ToolCall) {
    exists i | 0 <= i < |kinds| :: kinds[i] == ToolCallProposed(call)
  }

  ghost predicate StartedIn(kinds: seq<EventKind>, id: CallId, cost: CostClass) {
    exists i | 0 <= i < |kinds| :: kinds[i] == ToolExecutionStarted(id, cost)
  }

  ghost predicate FinishedIn(kinds: seq<EventKind>, id: CallId) {
    exists i | 0 <= i < |kinds| :: Finishes(kinds[i], id)
  }

  /** The last word on interrupted calls: an indeterminate outcome that nothing has resumed since. */
  ghost predicate LastInterrupted(kinds: seq<EventKind>, id: CallId, failure: ToolFailure) {
    exists i | 0 <= i < |kinds| ::
      && kinds[i] == ToolExecutionIndeterminate(id, failure)
      && forall j | i < j < |kinds| :: !kinds[j].ToolExecutionIndeterminate? && !kinds[j].RunResumed?
  }

  /** The latest model request has not been answered. */
  ghost predicate Awaiting(kinds: seq<EventKind>) {
    exists i | 0 <= i < |kinds| ::
      && kinds[i].ModelRequested?
      && forall j | i < j < |kinds| :: !kinds[j].ModelRequested? && !kinds[j].ModelResponded?
  }

  ghost predicate Means(kinds: seq<EventKind>, f: Facts) {
    && (forall call :: ProposedIn(kinds, call) <==> call.id in f.proposed && f.proposed[call.id] == call)
    && (forall id: CallId, cost :: StartedIn(kinds, id, cost) <==> id in f.started && f.started[id] == cost)
    && (forall id: CallId :: FinishedIn(kinds, id) <==> id in f.terminal)
    && (forall id: CallId, failure :: LastInterrupted(kinds, id, failure) <==> f.indeterminate == Some((id, failure)))
    && (Awaiting(kinds) <==> f.latestModel.Some? && !f.latestModel.value.1)
  }

  lemma SplitProposed(front: seq<EventKind>, last: EventKind, call: ToolCall)
    ensures ProposedIn(front + [last], call) <==> ProposedIn(front, call) || last == ToolCallProposed(call)
  {
    var kinds := front + [last];
    assert kinds[|front|] == last;
    if ProposedIn(front, call) {
      var i :| 0 <= i < |front| && front[i] == ToolCallProposed(call);
      assert kinds[i] == front[i];
    }
  }

  lemma SplitStarted(front: seq<EventKind>, last: EventKind, id: CallId, cost: CostClass)
    ensures StartedIn(front + [last], id, cost)
            <==> StartedIn(front, id, cost) || last == ToolExecutionStarted(id, cost)
  {
    var kinds := front + [last];
    assert kinds[|front|] == last;
    if StartedIn(front, id, cost) {
      var i :| 0 <= i < |front| && front[i] == ToolExecutionStarted(id, cost);
      assert kinds[i] == front[i];
    }
  }

  lemma SplitFinished(front: seq<EventKind>, last: EventKind, id: CallId)
    ensures FinishedIn(front + [last], id) <==> FinishedIn(front, id) || Finishes(last, id)
  {
    var kinds := front + [last];
    assert kinds[|front|] == last;
    if FinishedIn(front, id) {
      var i :| 0 <= i < |front| && Finishes(front[i], id);
      assert kinds[i] == front[i];
    }
  }

  lemma SplitInterrupted(front: seq<EventKind>, last: EventKind, id: CallId, failure: ToolFailure)
    ensures LastInterrupted(front + [last], id, failure)
            <==> last == ToolExecutionIndeterminate(id, failure)
                 || (LastInterrupted(front, id, failure) && !last.ToolExecutionIndeterminate? && !last.RunResumed?)
  {
    var kinds := front + [last];
    assert kinds[|front|] == last;
    assert forall j | 0 <= j < |front| :: kinds[j] == front[j];
    if LastInterrupted(kinds, id, failure) {
      var i :| 0 <= i < |kinds| && kinds[i] == ToolExecutionIndeterminate(id, failure)
               && forall j | i < j < |kinds| :: !kinds[j].ToolExecutionIndeterminate? && !kinds[j].RunResumed?;
      if i < |front| { assert front[i] == ToolExecutionIndeterminate(id, failure); }
    }
    if LastInterrupted(front, id, failure) && !last.ToolExecutionIndeterminate? && !last.RunResumed? {
      var i :| 0 <= i < |front| && front[i] == ToolExecutionIndeterminate(id, failure)
               && forall j | i < j < |front| :: !front[j].ToolExecutionIndeterminate? && !front[j].RunResumed?;
      assert kinds[i] == front[i];
    }
  }

  lemma SplitAwaiting(front: seq<EventKind>, last: EventKind)
    ensures Awaiting(front + [last]) <==> last.ModelRequested? || (Awaiting(front) && !last.ModelResponded?)
  {
    var kinds := front + [last];
    assert kinds[|front|] == last;
    assert forall j | 0 <= j < |front| :: kinds[j] == front[j];
    if Awaiting(kinds) {
      var i :| 0 <= i < |kinds| && kinds[i].ModelRequested?
               && forall j | i < j < |kinds| :: !kinds[j].ModelRequested? && !kinds[j].ModelResponded?;
      if i < |front| { assert front[i].ModelRequested?; }
    }
    if Awaiting(front) && !last.ModelResponded? && !last.ModelRequested? {
      var i :| 0 <= i < |front| && front[i].ModelRequested?
               && forall j | i < j < |front| :: !front[j].ModelRequested? && !front[j].ModelResponded?;
      assert kinds[i].ModelRequested?;
    }
  }

  lemma LearnMeans(front: seq<EventKind>, last: EventKind, f: Facts, g: Facts)
    requires Means(front, f) && Learn(f, last) == Ok(g)
    ensures Means(front + [last], g)
  {
    forall call ensures ProposedIn(front + [last], call) <==> call.id in g.proposed && g.proposed[call.id] == call {
      SplitProposed(front, last, call);
    }
    forall id: CallId, cost ensures StartedIn(front + [last], id, cost) <==> id in g.started && g.started[id] == cost {
      SplitStarted(front, last, id, cost);
    }
    forall id: CallId ensures FinishedIn(front + [last], id) <==> id in g.terminal {
      SplitFinished(front, last, id);
    }
    forall id: CallId, failure
      ensures LastInterrupted(front + [last], id, failure) <==> g.indeterminate == Some((id, failure))
    {
      SplitInterrupted(front, last, id, failure);
    }
    SplitAwaiting(front, last);
  }

  /** The facts gathered from a readable history are exactly what its events say. */
  lemma {:induction false} FactsMean(kinds: seq<EventKind>, f: Facts)
    requires LearnAll(NoFacts, kinds) == Ok(f)
    ensures Means(kinds, f)
  {
    if kinds != [] {
      var front, last := kinds[..|kinds| - 1], kinds[|kinds| - 1];
      assert kinds == front + [last];
      LearnAppend(NoFacts, front, [last]);
      var g := LearnAll(NoFacts, front).value;
      LearnOne(g, last);
      FactsMean(front, g);
      LearnMeans(front, last, g, f);
    }
  }

  /** The decision in terms of the facts. */
  lemma DecisionFacts(w: World, f: Facts, request: RecoveryRequest)
    requires Ledger(w, f) && w.snapshot.status.Running? && !Denied(w.log)
    requires Assess(w.log, w.snapshot.status, request).Ok?
    ensures var decision := Assess(w.log, w.snapshot.status, request).value;
            && (decision.MarkToolIndeterminate? <==> Unfinished(f) != {})
            && (decision.MarkToolIndeterminate? ==>
                  && decision.tool.call.id in f.proposed && f.proposed[decision.tool.call.id] == decision.tool.call
                  && decision.tool.call.id in f.started && f.started[decision.tool.call.id] == decision.tool.cost
                  && decision.tool.call.id !in f.terminal)
            && (decision.ContinueSameRun? || decision.RetryModelWithNewCallId? ==> f.indeterminate.None?)
  {
    AtMostOne(Unfinished(f));
    if Assess(w.log, w.snapshot.status, request).value.MarkToolIndeterminate? {
      MarksUnfinished(w, f, request);
      MarkedCost(f);
      assert Assess(w.log, w.snapshot.status, request).value.tool.call.id in Unfinished(f);
    }
  }

  lemma MarkedCost(f: Facts)
    requires StartedWithoutTerminal(f).Ok? && StartedWithoutTerminal(f).value.Some?
    requires forall id | id in f.proposed :: f.proposed[id].id == id
    ensures var tool := StartedWithoutTerminal(f).value.value;
            tool.call.id in f.started && f.started[tool.call.id] == tool.cost
  {
  }

  ghost predicate Repeats(log: seq<EventKind>, queued: Option<ToolCall>) {
    queued.Some? && exists call :: ProposedIn(log, call) && queued.value == call.(id := queued.value.id)
  }

  lemma ProposalRepeats(log: seq<EventKind>, call: ToolCall, queued: ToolCall)
    requires ProposedIn(log, call) && queued == call.(id := queued.id)
    ensures Repeats(log, Some(queued))
  {
  }

  lemma MarkingRepeats(w: World, tool: StartedTool, request: RecoveryRequest, scheduled: bool)
    requires ProposedIn(w.log, tool.call)
    ensures var after := MarkIndeterminate(w, tool, request, scheduled);
            after.snapshot.state.pendingCall == w.snapshot.state.pendingCall
            || Repeats(w.log, after.snapshot.state.pendingCall)
  {
    ProposalRepeats(w.log, tool.call, tool.call);
    ProposalRepeats(w.log, tool.call, NewCallFrom(w, tool.call));
  }

  lemma RetryingRepeats(w: World, call: ToolCall, failure: ToolFailure, request: RecoveryRequest, scheduled: bool)
    requires ProposedIn(w.log, call)
    ensures var after := ApplyDecision(w, DecideIndeterminate(call, failure, request), request, scheduled);
            after.snapshot.state.pendingCall == w.snapshot.state.pendingCall
            || Repeats(w.log, after.snapshot.state.pendingCall)
  {
    ProposalRepeats(w.log, call, call);
    ProposalRepeats(w.log, call, NewCallFrom(w, call));
  }

  /** The decisions that touch the queued call come from an unfinished or an interrupted call. */
  lemma AssessSources(kinds: seq<EventKind>, f: Facts, status: RunStatus, request: RecoveryRequest)
    requires LearnAll(NoFacts, kinds) == Ok(f) && Assess(kinds, status, request).Ok?
    ensures var decision := Assess(kinds, status, request).value;
            || decision.MarkToolIndeterminate?
            || decision.StartSameRun? || decision.ContinueSameRun? || decision.RetryModelWithNewCallId?
            || decision.WaitForInput? || decision.ReturnTerminal? || decision.CreateRetryRun?
            || (&& LatestIndeterminate(f).Some?
                && decision == DecideIndeterminate(LatestIndeterminate(f).value.0, LatestIndeterminate(f).value.1,
                                                   request))
  {
  }

  lemma InertDecisions(w: World, decision: Decision, request: RecoveryRequest, scheduled: bool)
    requires decision.StartSameRun? || decision.ContinueSameRun? || decision.RetryModelWithNewCallId?
             || decision.WaitForInput? || decision.ReturnTerminal? || decision.CreateRetryRun?
    ensures ApplyDecision(w, decision, request, scheduled).snapshot == w.snapshot
  {
  }

  /** What recovery may queue in a Run that goes on: a cheap retry only when resuming was asked for, a
      costly one only when its retry was confirmed, and then with the grant. */
  ghost predicate Requested(request: RecoveryRequest, state: WorkflowState) {
    && state.pendingCost.Some?
    && (if state.pendingCost.value.Low? then request.explicitResume else request.costlyRetryConfirmed && state.granted)
  }

  lemma DecisionsAreRequested(w: World, decision: Decision, request: RecoveryRequest, scheduled: bool)
    requires decision.RetryLowCostWithNewCall? ==> request.explicitResume
    requires decision.RetryConfirmedHighCostWithNewCall? ==>
               request.costlyRetryConfirmed && !decision.confirmedCost.Low?
    ensures var after := ApplyDecision(w, decision, request, scheduled).snapshot;
            after.status.Running? ==>
              after.state.pendingCall == w.snapshot.state.pendingCall || Requested(request, after.state)
  {
  }

  lemma AssessIsRequested(kinds: seq<EventKind>, status: RunStatus, request: RecoveryRequest)
    requires Assess(kinds, status, request).Ok?
    ensures var decision := Assess(kinds, status, request).value;
            && (decision.RetryLowCostWithNewCall? ==> request.explicitResume)
            && (decision.RetryConfirmedHighCostWithNewCall? ==>
                request.costlyRetryConfirmed && !decision.confirmedCost.Low?)
  {
  }

  /** In any state, recovery queues a call in a Run that goes on only as it was asked to. */
  lemma QueuedOnlyOnRequest(w: World, request: RecoveryRequest, scheduled: bool)
    requires RecoverStep(w, request, scheduled).snapshot.status.Running?
    requires RecoverStep(w, request, scheduled).snapshot.state.pendingCall != w.snapshot.state.pendingCall
    ensures Requested(request, RecoverStep(w, request, scheduled).snapshot.state)
  {
    var decision := Assess(w.log, w.snapshot.status, request);
    if decision.Ok? {
      AssessIsRequested(w.log, w.snapshot.status, request);
      DecisionsAreRequested(w, decision.value, request, scheduled);
    }
  }

  /** A retry that recovery queues repeats a call of this log: only its identity may be new. */
  lemma QueuedCallRepeatsAProposal(w: World, request: RecoveryRequest, scheduled: bool)
    requires Sound(w)
    requires RecoverStep(w, request, scheduled).snapshot.state.pendingCall != w.snapshot.state.pendingCall
    ensures Repeats(w.log, RecoverStep(w, request, scheduled).snapshot.state.pendingCall)
  {
    var f :| Ledger(w, f);
    var decision := Assess(w.log, w.snapshot.status, request).value;
    FactsMean(w.log, f);
    AssessSources(w.log, f, w.snapshot.status, request);
    if decision.MarkToolIndeterminate? {
      MarksUnfinished(w, f, request);
      MarkingRepeats(w, decision.tool, request, scheduled);
    } else if LatestIndeterminate(f).Some?
              && decision == DecideIndeterminate(LatestIndeterminate(f).value.0, LatestIndeterminate(f).value.1,
                                                 request) {
      RetryingRepeats(w, LatestIndeterminate(f).value.0, LatestIndeterminate(f).value.1, request, scheduled);
    } else {
      InertDecisions(w, decision, request, scheduled);
    }
  }
}
