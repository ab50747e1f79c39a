/** The tool ledger of a Run: what every step of the driver, of recovery and of the commands keeps,
    and exactly when recovery can read the history. */
module RecoveryLedger {
  import opened Wrappers
  import opened RunTypes
  import opened RecoveryFacts
  import opened RecoveryProtocol

  // ---------- the invariant ----------

  /** Some committed policy evaluation denied a tool call. */
  ghost predicate Denied(kinds: seq<EventKind>) {
    exists i | 0 <= i < |kinds| :: kinds[i].PolicyEvaluated? && kinds[i].decision.Deny?
  }

  /** Every event is accepted; every started call was proposed; the only finished calls that never
      started are denied ones; at most one call is unfinished. */
  ghost predicate Recorded(log: seq<EventKind>, f: Facts) {
    && LearnAll(NoFacts, log) == Ok(f)
    && f.started.Keys <= f.proposed.Keys && f.terminal <= f.proposed.Keys
    && (Denied(log) <==> !(f.terminal <= f.started.Keys))
    && (forall a, b | a in Unfinished(f) && b in Unfinished(f) :: a == b)
    && (f.indeterminate.Some? ==>
          f.indeterminate.value.0 in f.proposed && f.indeterminate.value.1.remoteQueryId.None?)
  }

  /** Call identities come from one counter; a queued retry of a running Run was never proposed. */
  ghost predicate Fresh(f: Facts, snapshot: Snapshot, nextCall: CallId) {
    && (forall id | id in f.proposed :: id < nextCall && f.proposed[id].id == id)
    && (snapshot.state.pendingCall.Some? ==>
          && snapshot.state.pendingCall.value.id < nextCall
          && (snapshot.status.Running? ==> snapshot.state.pendingCall.value.id !in f.proposed))
  }

  function Held(driver: Driver): Option<nat> {
    match driver
    case ModelPending(version, _) => Some(version)
    case AckPending(version, _) => Some(version)
    case ToolPending(version, _) => Some(version)
    case _ => None
  }

  /** Nobody has committed since the driver's last append. */
  ghost predicate InStep(snapshot: Snapshot, driver: Driver) {
    Held(driver) == Some(snapshot.version)
  }

  ghost predicate DriverFits(f: Facts, snapshot: Snapshot, driver: Driver) {
    && (Held(driver).Some? ==> Held(driver).value <= snapshot.version)
    && (InStep(snapshot, driver) ==> snapshot.status.Running? && snapshot.state.pendingCall.None?)
    && (InStep(snapshot, driver) && driver.ModelPending? ==> f.latestModel == Some((driver.modelCall, false)))
    && (InStep(snapshot, driver) && driver.ToolPending? ==> Unfinished(f) == {driver.call})
    && (driver.AtLoop? || driver.Returned? || driver.ModelPending? || driver.AckPending? ==> Unfinished(f) == {})
    && (snapshot.status.WaitingForInput? || snapshot.status.Queued? ==> Unfinished(f) == {})
  }

  /** A grant belongs to a queued costly call that somebody confirmed. */
  ghost predicate Consent(f: Facts, snapshot: Snapshot, consented: bool) {
    && snapshot.state.granted == consented
    && (snapshot.state.granted ==>
          snapshot.state.pendingCall.Some? && snapshot.state.pendingCost.Some?
          && !snapshot.state.pendingCost.value.Low?)
    && (snapshot.status.Running? && (Unfinished(f) != {} || f.indeterminate.Some?) ==> snapshot.state.pendingCall.None?)
    && (snapshot.status.WaitingForInput? && snapshot.state.pendingCall.Some? ==>
          && snapshot.state.pendingCost.Some? && !snapshot.state.pendingCost.value.Low?
          && snapshot.state.clarification.Some? && snapshot.state.clarification.value.confirming)
  }

  ghost predicate IssuesConsented(issued: seq<Issue>) {
    forall i | 0 <= i < |issued| ::
      issued[i].granted == issued[i].consented && (issued[i].cost.Low? ==> !issued[i].granted)
  }

  ghost predicate Ledger(w: World, f: Facts) {
    && Recorded(w.log, f)
    && Fresh(f, w.snapshot, w.nextCall)
    && DriverFits(f, w.snapshot, w.driver)
    && Consent(f, w.snapshot, w.consented)
    && IssuesConsented(w.issued)
  }

  ghost predicate Sound(w: World) {
    exists f :: Ledger(w, f)
  }

  lemma CreatedIsSound(w: World)
    requires Created(w)
    ensures Sound(w)
  {
    assert forall i | 0 <= i < |w.log| :: Plain(w.log[i]);
    PlainLearned(NoFacts, w.log);
    assert Ledger(w, NoFacts);
  }

  // ---------- what events teach ----------

  ghost predicate Plain(kind: EventKind) {
    && !kind.ModelRequested? && !kind.ModelResponded? && !kind.ToolCallProposed? && !kind.ToolExecutionStarted?
    && !kind.ToolExecutionSucceeded? && !kind.ToolExecutionFailed? && !kind.ToolExecutionIndeterminate?
    && !kind.RunResumed? && !(kind.PolicyEvaluated? && kind.decision.Deny?)
  }

  lemma {:induction false} PlainLearned(f: Facts, kinds: seq<EventKind>)
    requires forall i | 0 <= i < |kinds| :: Plain(kinds[i])
    ensures LearnAll(f, kinds) == Ok(f) && !Denied(kinds)
    decreases |kinds|
  {
    if kinds != [] { PlainLearned(f, kinds[1..]); }
  }

  lemma DeniedAppend(a: seq<EventKind>, b: seq<EventKind>)
    ensures Denied(a + b) <==> Denied(a) || Denied(b)
  {
    if Denied(a) {
      var i :| 0 <= i < |a| && a[i].PolicyEvaluated? && a[i].decision.Deny?;
      assert (a + b)[i] == a[i];
    }
    if Denied(b) {
      var i :| 0 <= i < |b| && b[i].PolicyEvaluated? && b[i].decision.Deny?;
      assert (a + b)[|a| + i] == b[i];
    }
  }

  /** What a commit teaches: its events, since a projection teaches nothing. */
  lemma CommitLearned(w: World, f: Facts, events: seq<EventKind>, next: Snapshot, driver: Driver)
    requires LearnAll(NoFacts, w.log) == Ok(f)
    ensures LearnAll(NoFacts, Commit(w, events, next, driver).log) == LearnAll(f, events)
    ensures Denied(Commit(w, events, next, driver).log) <==> Denied(w.log) || Denied(events)
  {
    LearnAppend(NoFacts, w.log, events + [RunStateProjected(next)]);
    LearnAppend(f, events, [RunStateProjected(next)]);
    if LearnAll(f, events).Ok? { PlainLearned(LearnAll(f, events).value, [RunStateProjected(next)]); }
    DeniedAppend(w.log, events + [RunStateProjected(next)]);
    DeniedAppend(events, [RunStateProjected(next)]);
    PlainLearned(f, [RunStateProjected(next)]);
  }

  /** A commit whose events teach these facts keeps the history readable. */
  lemma CommitRecorded(w: World, f: Facts, events: seq<EventKind>, next: Snapshot, driver: Driver, after: Facts)
    requires Recorded(w.log, f) && LearnAll(f, events) == Ok(after)
    requires after.started.Keys <= after.proposed.Keys && after.terminal <= after.proposed.Keys
    requires Denied(w.log) || Denied(events) <==> !(after.terminal <= after.started.Keys)
    requires forall a, b | a in Unfinished(after) && b in Unfinished(after) :: a == b
    requires after.indeterminate.Some? ==>
               after.indeterminate.value.0 in after.proposed && after.indeterminate.value.1.remoteQueryId.None?
    ensures Recorded(Commit(w, events, next, driver).log, after)
  {
    CommitLearned(w, f, events, next, driver);
  }

  /** Plain events teach nothing. */
  lemma PlainCommit(w: World, f: Facts, events: seq<EventKind>, next: Snapshot, driver: Driver)
    requires Recorded(w.log, f) && forall i | 0 <= i < |events| :: Plain(events[i])
    ensures Recorded(Commit(w, events, next, driver).log, f)
  {
    PlainLearned(f, events);
    CommitRecorded(w, f, events, next, driver, f);
  }

  // ---------- driver steps that touch no tool call ----------

  lemma AdvanceKeeps(w: World, f: Facts, step: Step)
    requires Ledger(w, f) && step.Advance?
    ensures Ledger(DriverStep(w, step), f)
  {
    var after := DriverStep(w, step);
    if after != w { PlainCommit(w, f, [StepStarted(step.stepName)], after.snapshot, after.driver); }
  }

  /** Waiting for the user, in the one step or in the second append of it. */
  lemma AskingKeeps(w: World, f: Facts, id: ClarificationId, reason: string)
    requires Ledger(w, f) && w.snapshot.status.Running? && w.snapshot.state.pendingCall.None? && Unfinished(f) == {}
    ensures Ledger(Asking(w, id, reason, [StepStarted("query::clarify")]), f)
  {
    var after := Asking(w, id, reason, [StepStarted("query::clarify")]);
    PlainCommit(w, f, [StepStarted("query::clarify")] + [ClarificationRequested(id), RunWaiting(reason)],
                after.snapshot, after.driver);
  }

  lemma AskStepsKeep(w: World, f: Facts, step: Step)
    requires Ledger(w, f) && (step.AskUser? || step.CommitWait?)
    ensures Ledger(DriverStep(w, step), f)
  {
    if step.AskUser? && AtWork(w) && NoRecoveredCall(w) { AskingKeeps(w, f, step.asked, step.why); }
    if step.CommitWait? && w.driver.AckPending? && w.driver.ackVersion == w.snapshot.version {
      AskingKeeps(w, f, w.driver.clarification, step.because);
    }
  }

  lemma VerifyKeeps(w: World, f: Facts, step: Step)
    requires Ledger(w, f) && step.Verify?
    ensures Ledger(DriverStep(w, step), f)
  {
    var after := DriverStep(w, step);
    if after != w {
      PlainCommit(w, f, if step.passed then [ArtifactCreated(step.report)]
                        else [ArtifactCreated(step.report), RunFailed("verification_failed")],
                  after.snapshot, after.driver);
    }
  }

  lemma FailKeeps(w: World, f: Facts, step: Step)
    requires Ledger(w, f) && step.FailTerminal?
    ensures Ledger(DriverStep(w, step), f)
  {
    var after := DriverStep(w, step);
    if after != w { PlainCommit(w, f, [RunFailed(step.code)], after.snapshot, after.driver); }
  }

  lemma QuietStepsKeep(w: World, f: Facts, step: Step)
    requires Ledger(w, f) && (step.Break? || step.FailLost? || step.Exit? || step.Crash?)
    ensures Ledger(DriverStep(w, step), f)
  {
  }

  // ---------- model calls ----------

  lemma RequestKeeps(w: World, f: Facts, step: Step)
    requires Ledger(w, f) && step.RequestModel?
    ensures Sound(DriverStep(w, step))
  {
    var after := DriverStep(w, step);
    if after != w {
      var events := [StepStarted("query::model"), ArtifactCreated(step.manifest)];
      var asked := f.(latestModel := Some((w.nextModel, false)));
      PlainLearned(f, events);
      LearnAppend(f, events, [ModelRequested(w.nextModel)]);
      assert events + [ModelRequested(w.nextModel)]
             == [StepStarted("query::model"), ArtifactCreated(step.manifest), ModelRequested(w.nextModel)];
      LearnOne(f, ModelRequested(w.nextModel));
      DeniedAppend(events, [ModelRequested(w.nextModel)]);
      CommitRecorded(w, f, events + [ModelRequested(w.nextModel)], after.snapshot, after.driver, asked);
      assert Ledger(after, asked);
    } else {
      assert Ledger(after, f);
    }
  }

  lemma LearnOne(f: Facts, kind: EventKind)
    ensures LearnAll(f, [kind]) == Learn(f, kind)
    ensures !(kind.PolicyEvaluated? && kind.decision.Deny?) ==> !Denied([kind])
  {
    assert [kind][1..] == [];
    if Learn(f, kind).Ok? { assert LearnAll(Learn(f, kind).value, []) == Learn(f, kind); }
  }

  function Answered(f: Facts, modelCall: nat): Facts {
    f.(latestModel := Some((modelCall, true)))
  }

  /** A response to the latest request, and what plainly follows it. */
  lemma ResponseLearned(f: Facts, modelCall: nat, rest: seq<EventKind>)
    requires f.latestModel == Some((modelCall, false))
    ensures LearnAll(f, [ModelResponded(modelCall)] + rest) == LearnAll(Answered(f, modelCall), rest)
    ensures Denied([ModelResponded(modelCall)] + rest) <==> Denied(rest)
  {
    LearnAppend(f, [ModelResponded(modelCall)], rest);
    LearnOne(f, ModelResponded(modelCall));
    DeniedAppend([ModelResponded(modelCall)], rest);
  }

  /** What follows an accepted response that asked for no tool call. */
  function Following(step: Step): seq<EventKind> {
    match step
    case AcceptResponse(artifacts, _) => Artifacts(artifacts)
    case Complete(primary) => [ArtifactCreated(primary), RunCompleted(primary)]
    case RefuseCompletion => [RunFailed("completion_gate_failed")]
    case _ => []
  }

  lemma ResponseCommits(w: World, step: Step)
    requires ModelAnswers(w) && (step.AcceptResponse? || step.AcceptWait? || step.Complete? || step.RefuseCompletion?)
    ensures var after := DriverStep(w, step);
            after == Commit(w, [ModelResponded(w.driver.modelCall)] + Following(step), after.snapshot, after.driver)
  {
    var id := w.driver.modelCall;
    assert [ModelResponded(id)] + [] == [ModelResponded(id)];
    assert step.Complete? ==> [ModelResponded(id)] + Following(step)
                              == [ModelResponded(id), ArtifactCreated(step.primary), RunCompleted(step.primary)];
    assert step.RefuseCompletion? ==> [ModelResponded(id)] + Following(step)
                                      == [ModelResponded(id), RunFailed("completion_gate_failed")];
  }

  /** Accepting a response without a tool call. */
  lemma ResponseKeeps(w: World, f: Facts, step: Step)
    requires Ledger(w, f) && (step.AcceptResponse? || step.AcceptWait? || step.Complete? || step.RefuseCompletion?)
    ensures Sound(DriverStep(w, step))
  {
    var after := DriverStep(w, step);
    if ModelAnswers(w) {
      ResponseCommits(w, step);
      ResponseRecorded(w, f, Following(step), after.snapshot, after.driver);
      assert Ledger(after, Answered(f, w.driver.modelCall));
    } else {
      assert Ledger(after, f);
    }
  }

  lemma ResponseRecorded(w: World, f: Facts, rest: seq<EventKind>, next: Snapshot, driver: Driver)
    requires Ledger(w, f) && ModelAnswers(w) && forall i | 0 <= i < |rest| :: Plain(rest[i])
    ensures Recorded(Commit(w, [ModelResponded(w.driver.modelCall)] + rest, next, driver).log,
                     Answered(f, w.driver.modelCall))
  {
    var id := w.driver.modelCall;
    ResponseLearned(f, id, rest);
    PlainLearned(Answered(f, id), rest);
    CommitRecorded(w, f, [ModelResponded(id)] + rest, next, driver, Answered(f, id));
  }

  // ---------- tool calls ----------

  function StartedFacts(f: Facts, call: ToolCall, cost: CostClass): Facts {
    f.(proposed := f.proposed[call.id := call], started := f.started[call.id := cost])
  }

  lemma StartLearned(f: Facts, call: ToolCall, cost: CostClass)
    requires call.id !in f.proposed && call.id !in f.started
    ensures LearnAll(f, Started(call, cost)) == Ok(StartedFacts(f, call, cost)) && !Denied(Started(call, cost))
  {
    var events := Started(call, cost);
    var proposed := f.(proposed := f.proposed[call.id := call]);
    assert events == [ToolCallProposed(call)]
           + ([PolicyEvaluated(call.id, Allow)] + [ToolExecutionStarted(call.id, cost)]);
    LearnAppend(f, [ToolCallProposed(call)], [PolicyEvaluated(call.id, Allow)] + [ToolExecutionStarted(call.id, cost)]);
    LearnOne(f, ToolCallProposed(call));
    LearnAppend(proposed, [PolicyEvaluated(call.id, Allow)], [ToolExecutionStarted(call.id, cost)]);
    LearnOne(proposed, PolicyEvaluated(call.id, Allow));
    LearnOne(proposed, ToolExecutionStarted(call.id, cost));
  }

  function RejectedFacts(f: Facts, call: ToolCall): Facts {
    f.(proposed := f.proposed[call.id := call], terminal := f.terminal + {call.id})
  }

  lemma RejectLearned(f: Facts, call: ToolCall, code: string, failure: ToolFailure)
    requires call.id !in f.proposed && call.id !in f.terminal
    ensures LearnAll(f, Rejected(call, code, failure)) == Ok(RejectedFacts(f, call))
            && Denied(Rejected(call, code, failure))
  {
    var events := Rejected(call, code, failure);
    var proposed := f.(proposed := f.proposed[call.id := call]);
    var denial, end := PolicyEvaluated(call.id, Deny(code)), ToolExecutionFailed(call.id, failure);
    assert events == [ToolCallProposed(call)] + ([denial] + [end]);
    LearnAppend(f, [ToolCallProposed(call)], [denial] + [end]);
    LearnOne(f, ToolCallProposed(call));
    LearnAppend(proposed, [denial], [end]);
    LearnOne(proposed, denial);
    LearnOne(proposed, end);
    assert events[1].PolicyEvaluated? && events[1].decision.Deny?;
  }

  /** A call that was never proposed neither started nor finished. */
  lemma NeverProposed(log: seq<EventKind>, f: Facts, id: CallId)
    requires Recorded(log, f) && id !in f.proposed
    ensures id !in f.started && id !in f.terminal
  {
  }

  lemma StartedRecorded(w: World, f: Facts, before: seq<EventKind>, g: Facts, call: ToolCall, cost: CostClass,
                        next: Snapshot, driver: Driver)
    requires Recorded(w.log, f) && LearnAll(f, before) == Ok(g) && !Denied(before)
    requires g == f.(latestModel := g.latestModel) && Unfinished(f) == {} && call.id !in f.proposed
    ensures Recorded(Commit(w, before + Started(call, cost), next, driver).log, StartedFacts(g, call, cost))
    ensures Unfinished(StartedFacts(g, call, cost)) == {call.id}
  {
    NeverProposed(w.log, f, call.id);
    StartLearned(g, call, cost);
    LearnAppend(f, before, Started(call, cost));
    DeniedAppend(before, Started(call, cost));
    var after := StartedFacts(g, call, cost);
    assert Unfinished(after) == Unfinished(f) + {call.id};
    assert !(f.terminal <= f.started.Keys) ==> !(after.terminal <= after.started.Keys);
    CommitRecorded(w, f, before + Started(call, cost), next, driver, after);
  }

  lemma RejectedRecorded(w: World, f: Facts, before: seq<EventKind>, g: Facts, call: ToolCall, code: string,
                         failure: ToolFailure, next: Snapshot, driver: Driver)
    requires Recorded(w.log, f) && LearnAll(f, before) == Ok(g)
    requires g == f.(latestModel := g.latestModel) && Unfinished(f) == {} && call.id !in f.proposed
    ensures Recorded(Commit(w, before + Rejected(call, code, failure), next, driver).log, RejectedFacts(g, call))
    ensures Unfinished(RejectedFacts(g, call)) == {}
  {
    NeverProposed(w.log, f, call.id);
    RejectLearned(g, call, code, failure);
    LearnAppend(f, before, Rejected(call, code, failure));
    DeniedAppend(before, Rejected(call, code, failure));
    assert call.id in RejectedFacts(g, call).terminal;
    CommitRecorded(w, f, before + Rejected(call, code, failure), next, driver, RejectedFacts(g, call));
  }

  lemma ModelToolKeeps(w: World, f: Facts, step: Step)
    requires Ledger(w, f) && (step.StartTool? || step.RejectTool?)
    ensures Sound(DriverStep(w, step))
  {
    var after := DriverStep(w, step);
    if ModelAnswers(w) {
      var id := w.driver.modelCall;
      ResponseLearned(f, id, []);
      assert [ModelResponded(id)] + [] == [ModelResponded(id)];
      var g := Answered(f, id);
      if step.StartTool? {
        var call := ToolCall(w.nextCall, step.name, step.arguments, step.version);
        StartedRecorded(w, f, [ModelResponded(id)], g, call, step.cost, after.snapshot, after.driver);
        assert Ledger(after, StartedFacts(g, call, step.cost));
      } else {
        var call := ToolCall(w.nextCall, step.rejectedName, step.rejectedArguments, "");
        RejectedRecorded(w, f, [ModelResponded(id)], g, call, step.denial, step.rejection, after.snapshot,
                         after.driver);
        assert Ledger(after, RejectedFacts(g, call));
      }
    } else {
      assert Ledger(after, f);
    }
  }

  lemma StartRecoveredKeeps(w: World, f: Facts)
    requires Ledger(w, f) && AtWork(w) && w.snapshot.state.pendingCall.Some?
    ensures Sound(DriverStep(w, StartRecovered))
  {
    var after := DriverStep(w, StartRecovered);
    var call := w.snapshot.state.pendingCall.value;
    var cost := if w.snapshot.state.pendingCost.Some? then w.snapshot.state.pendingCost.value else Unknown;
    StartedRecorded(w, f, [], f, call, cost, after.snapshot, after.driver);
    assert [] + Started(call, cost) == Started(call, cost);
    assert Ledger(after, StartedFacts(f, call, cost));
  }

  lemma RejectRecoveredKeeps(w: World, f: Facts, step: Step)
    requires Ledger(w, f) && AtWork(w) && w.snapshot.state.pendingCall.Some? && step.RejectRecovered?
    ensures Sound(DriverStep(w, step))
  {
    var after := DriverStep(w, step);
    var call := w.snapshot.state.pendingCall.value;
    RejectedRecorded(w, f, [], f, call, step.deny, step.refusal, after.snapshot, after.driver);
    assert [] + Rejected(call, step.deny, step.refusal) == Rejected(call, step.deny, step.refusal);
    assert Ledger(after, RejectedFacts(f, call));
  }

  lemma RecoveredToolKeeps(w: World, f: Facts, step: Step)
    requires Ledger(w, f) && (step.StartRecovered? || step.RejectRecovered?)
    ensures Sound(DriverStep(w, step))
  {
    if AtWork(w) && w.snapshot.state.pendingCall.Some? {
      if step.StartRecovered? { StartRecoveredKeeps(w, f); } else { RejectRecoveredKeeps(w, f, step); }
    } else {
      assert Ledger(DriverStep(w, step), f);
    }
  }

  function FinishedFacts(f: Facts, id: CallId): Facts {
    f.(terminal := f.terminal + {id})
  }

  lemma FinishKeeps(w: World, f: Facts, step: Step)
    requires Ledger(w, f) && step.FinishTool?
    ensures Sound(DriverStep(w, step))
  {
    var after := DriverStep(w, step);
    if w.driver.ToolPending? && w.driver.toolVersion == w.snapshot.version {
      var id := w.driver.call;
      var finished := if step.outcome.ToolSucceeded? then ToolExecutionSucceeded(id)
                      else ToolExecutionFailed(id, step.outcome.failure);
      assert id in Unfinished(f);
      PlainLearned(f, Artifacts(step.produced));
      LearnAppend(f, Artifacts(step.produced), [finished]);
      LearnOne(f, finished);
      DeniedAppend(Artifacts(step.produced), [finished]);
      assert Unfinished(FinishedFacts(f, id)) == {};
      CommitRecorded(w, f, Artifacts(step.produced) + [finished], after.snapshot, after.driver, FinishedFacts(f, id));
      assert Ledger(after, FinishedFacts(f, id));
    } else {
      assert Ledger(after, f);
    }
  }

  lemma DriverStepKeeps(w: World, f: Facts, step: Step)
    requires Ledger(w, f)
    ensures Sound(DriverStep(w, step))
  {
    match step
    case Advance(_, _) => AdvanceKeeps(w, f, step);
    case AskUser(_, _) => AskStepsKeep(w, f, step);
    case CommitWait(_) => AskStepsKeep(w, f, step);
    case Verify(_, _, _) => VerifyKeeps(w, f, step);
    case FailTerminal(_) => FailKeeps(w, f, step);
    case RequestModel(_) => RequestKeeps(w, f, step);
    case StartTool(_, _, _, _) => ModelToolKeeps(w, f, step);
    case RejectTool(_, _, _, _, _) => ModelToolKeeps(w, f, step);
    case StartRecovered => RecoveredToolKeeps(w, f, step);
    case RejectRecovered(_, _, _) => RecoveredToolKeeps(w, f, step);
    case FinishTool(_, _, _) => FinishKeeps(w, f, step);
    case Break => QuietStepsKeep(w, f, step);
    case FailLost => QuietStepsKeep(w, f, step);
    case Exit => QuietStepsKeep(w, f, step);
    case Crash => QuietStepsKeep(w, f, step);
    case AcceptResponse(_, _) => ResponseKeeps(w, f, step);
    case AcceptWait(_) => ResponseKeeps(w, f, step);
    case Complete(_) => ResponseKeeps(w, f, step);
    case RefuseCompletion => ResponseKeeps(w, f, step);
    case _ =>
  }
}
