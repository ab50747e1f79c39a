/** Recovery, answers, cancellations and retries keep the ledger; and what recovery may rely on in
    every reachable state. */
module RecoverySafety {
  import opened Wrappers
  import opened RunTypes
  import opened RecoveryFacts
  import opened RecoveryProtocol
  import opened RecoveryLedger

  // ---------- what assessing finds ----------

  /** Under the ledger recovery can read the history exactly when no tool call was denied. */
  lemma AssessUnderLedger(w: World, f: Facts, request: RecoveryRequest)
    requires Ledger(w, f)
    ensures Assess(w.log, w.snapshot.status, request).Ok? <==> !Denied(w.log)
    ensures Denied(w.log) ==> Assess(w.log, w.snapshot.status, request) == Err(TerminalToolWithoutStart)
  {
    AtMostOne(Unfinished(f));
    if !Denied(w.log) {
      assert forall id | id in f.terminal :: id in f.started;
    }
  }

  lemma AtMostOne(s: set<CallId>)
    requires forall a, b | a in s && b in s :: a == b
    ensures |s| <= 1
  {
    if s != {} {
      var a :| a in s;
      assert s == {a};
    }
  }

  /** The remote reconciliation branch is never taken: the only indeterminate outcomes a history
      holds are the ones recovery wrote itself, and they name no remote query. */
  lemma NeverReconciles(w: World, f: Facts, request: RecoveryRequest)
    requires Ledger(w, f) && Assess(w.log, w.snapshot.status, request).Ok?
    ensures !Assess(w.log, w.snapshot.status, request).value.ReconcileRemoteQuery?
  {
  }

  // ---------- recovery ----------

  /** The unfinished call that recovery marks. */
  ghost predicate Marks(f: Facts, tool: StartedTool) {
    && Unfinished(f) == {tool.call.id} && tool.call.id in f.proposed && f.proposed[tool.call.id] == tool.call
  }

  lemma MarksUnfinished(w: World, f: Facts, request: RecoveryRequest)
    requires Ledger(w, f) && Assess(w.log, w.snapshot.status, request).Ok?
    requires Assess(w.log, w.snapshot.status, request).value.MarkToolIndeterminate?
    ensures Marks(f, Assess(w.log, w.snapshot.status, request).value.tool) && w.snapshot.status.Running?
  {
    AtMostOne(Unfinished(f));
    var started := StartedWithoutTerminal(f);
    assert started.Ok? && started.value.Some?;
    var id := started.value.value.call.id;
    forall a | a in Unfinished(f) ensures a == id {
      assert f.proposed[a].id == a;
    }
  }

  function MarkedFacts(f: Facts, tool: StartedTool): Facts {
    f.(terminal := f.terminal + {tool.call.id}, indeterminate := Some((tool.call.id, Interrupted(tool).failure)))
  }

  lemma MarkLearned(f: Facts, tool: StartedTool, rest: seq<EventKind>)
    requires tool.call.id !in f.terminal
    ensures LearnAll(f, [Interrupted(tool)] + rest) == LearnAll(MarkedFacts(f, tool), rest)
    ensures Denied([Interrupted(tool)] + rest) <==> Denied(rest)
  {
    LearnAppend(f, [Interrupted(tool)], rest);
    LearnOne(f, Interrupted(tool));
    DeniedAppend([Interrupted(tool)], rest);
  }

  function Resumed(f: Facts): Facts {
    f.(indeterminate := None)
  }

  lemma Witnessed(w: World, f: Facts)
    requires Ledger(w, f)
    ensures Sound(w)
  {
  }

  /** Queuing a retry with a new call identity. */
  lemma RequeueKeeps(w: World, f: Facts, previous: ToolCall, cost: CostClass, granted: bool, confirmed: bool,
                     before: seq<EventKind>, g: Facts, scheduled: bool)
    requires Ledger(w, f) && w.snapshot.status.Running?
    requires LearnAll(f, before) == Ok(g) && !Denied(before)
    requires g == f.(terminal := g.terminal, indeterminate := g.indeterminate)
    requires f.terminal <= g.terminal <= f.terminal + Unfinished(f) && Unfinished(g) == {}
    requires granted == (confirmed || w.consented) && (granted ==> !cost.Low?)
    ensures Sound(Requeue(w, previous, cost, granted, confirmed, before, scheduled))
  {
    var after := Requeue(w, previous, cost, granted, confirmed, before, scheduled);
    LearnAppend(f, before, [RunResumed]);
    LearnOne(g, RunResumed);
    DeniedAppend(before, [RunResumed]);
    CommitRecorded(w, f, before + [RunResumed], after.snapshot, w.driver, Resumed(g));
    assert Unfinished(Resumed(g)) == {};
    assert Ledger(after, Resumed(g));
  }

  lemma AskConfirmationKeeps(w: World, f: Facts, previous: ToolCall, cost: CostClass, before: seq<EventKind>, g: Facts)
    requires Ledger(w, f) && w.snapshot.status.Running? && w.snapshot.state.pendingCall.None?
    requires LearnAll(f, before) == Ok(g) && !Denied(before)
    requires g == f.(terminal := g.terminal, indeterminate := g.indeterminate)
    requires f.terminal <= g.terminal <= f.terminal + Unfinished(f) && Unfinished(g) == {}
    requires g.indeterminate.Some? && g.indeterminate.value.0 in g.proposed
             && g.indeterminate.value.1.remoteQueryId.None?
    requires !cost.Low? && previous.id in f.proposed
    ensures Sound(AskConfirmation(w, previous, cost, before))
  {
    var after := AskConfirmation(w, previous, cost, before);
    var rest := [ClarificationRequested(ClarificationId(true, "retry")), RunWaiting("confirm_high_cost_retry")];
    LearnAppend(f, before, rest);
    PlainLearned(g, rest);
    DeniedAppend(before, rest);
    CommitRecorded(w, f, before + rest, after.snapshot, w.driver, g);
    assert Ledger(after, g);
  }

  lemma MarkKeeps(w: World, f: Facts, tool: StartedTool, request: RecoveryRequest, scheduled: bool)
    requires Ledger(w, f) && Marks(f, tool) && w.snapshot.status.Running?
    ensures Sound(MarkIndeterminate(w, tool, request, scheduled))
  {
    var g := MarkedFacts(f, tool);
    var event := Interrupted(tool);
    assert tool.call.id in Unfinished(f);
    assert Unfinished(g) == {};
    MarkLearned(f, tool, []);
    assert [event] + [] == [event];
    if !request.explicitResume {
      var after := MarkIndeterminate(w, tool, request, scheduled);
      CommitRecorded(w, f, [event], after.snapshot, w.driver, g);
      assert Ledger(after, g);
    } else if tool.cost.Low? {
      RequeueKeeps(w, f, tool.call, Low, w.snapshot.state.granted, false, [event], g, scheduled);
    } else if request.costlyRetryConfirmed {
      RequeueKeeps(w, f, tool.call, tool.cost, true, true, [event], g, scheduled);
    } else {
      AskConfirmationKeeps(w, f, tool.call, tool.cost, [event], g);
    }
  }

  lemma ScheduleKeeps(w: World, f: Facts, scheduled: bool)
    requires Ledger(w, f) && Unfinished(f) == {}
    ensures Sound(Schedule(w, scheduled))
  {
    assert Ledger(Schedule(w, scheduled), f);
  }

  /** Deciding on an interrupted call that was marked earlier. */
  lemma IndeterminateKeeps(w: World, f: Facts, request: RecoveryRequest, scheduled: bool)
    requires Ledger(w, f) && w.snapshot.status.Running? && Unfinished(f) == {} && LatestIndeterminate(f).Some?
    ensures var latest := LatestIndeterminate(f).value;
            Sound(ApplyDecision(w, DecideIndeterminate(latest.0, latest.1, request), request, scheduled))
  {
    var latest := LatestIndeterminate(f).value;
    assert !Denied([]);
    Witnessed(w, f);
    match DecideIndeterminate(latest.0, latest.1, request)
    case RetryLowCostWithNewCall(previous) => RequeueKeeps(w, f, previous, Low, false, false, [], f, scheduled);
    case RetryConfirmedHighCostWithNewCall(previous, cost) =>
      RequeueKeeps(w, f, previous, cost, true, true, [], f, scheduled);
    case ConfirmHighCostRetry(previous, cost) => AskConfirmationKeeps(w, f, previous, cost, [], f);
    case _ =>
  }

  lemma RecoverRunningKeeps(w: World, f: Facts, request: RecoveryRequest, scheduled: bool)
    requires Ledger(w, f) && w.snapshot.status.Running? && !Denied(w.log) && Unfinished(f) == {}
    ensures Sound(RecoverStep(w, request, scheduled))
  {
    AssessUnderLedger(w, f, request);
    if LatestIndeterminate(f).Some? {
      IndeterminateKeeps(w, f, request, scheduled);
    } else {
      ScheduleKeeps(w, f, scheduled);
    }
  }

  lemma RecoverStoppedKeeps(w: World, f: Facts, request: RecoveryRequest, scheduled: bool)
    requires Ledger(w, f) && !w.snapshot.status.Running?
    ensures Sound(RecoverStep(w, request, scheduled))
  {
    Witnessed(w, f);
    if w.snapshot.status.Queued? { ScheduleKeeps(w, f, scheduled); }
  }

  lemma RecoverMarkingKeeps(w: World, f: Facts, request: RecoveryRequest, scheduled: bool)
    requires Ledger(w, f) && w.snapshot.status.Running? && !Denied(w.log) && Unfinished(f) != {}
    ensures Sound(RecoverStep(w, request, scheduled))
  {
    AssessUnderLedger(w, f, request);
    AtMostOne(Unfinished(f));
    assert StartedWithoutTerminal(f).value.Some?;
    MarksUnfinished(w, f, request);
    MarkKeeps(w, f, Assess(w.log, w.snapshot.status, request).value.tool, request, scheduled);
  }

  lemma RecoverKeeps(w: World, f: Facts, request: RecoveryRequest, scheduled: bool)
    requires Ledger(w, f)
    ensures Sound(RecoverStep(w, request, scheduled))
  {
    if Denied(w.log) {
      AssessUnderLedger(w, f, request);
      Witnessed(w, f);
    } else if !w.snapshot.status.Running? {
      RecoverStoppedKeeps(w, f, request, scheduled);
    } else if Unfinished(f) == {} {
      RecoverRunningKeeps(w, f, request, scheduled);
    } else {
      RecoverMarkingKeeps(w, f, request, scheduled);
    }
  }

  // ---------- answers, cancellations, retries ----------

  lemma AnswerKeeps(w: World, f: Facts, affirmative: bool, artifact: ArtifactId, scheduled: bool)
    requires Ledger(w, f)
    ensures Sound(AnswerStep(w, affirmative, artifact, scheduled))
  {
    var after := AnswerStep(w, affirmative, artifact, scheduled);
    if after != w {
      var id := Answerable(w.snapshot).value;
      var events := [ClarificationAnswered(id, artifact), RunResumed];
      PlainLearned(f, [ClarificationAnswered(id, artifact)]);
      LearnAppend(f, [ClarificationAnswered(id, artifact)], [RunResumed]);
      LearnOne(f, RunResumed);
      DeniedAppend([ClarificationAnswered(id, artifact)], [RunResumed]);
      assert [ClarificationAnswered(id, artifact)] + [RunResumed] == events;
      CommitRecorded(w, f, events, after.snapshot, w.driver, Resumed(f));
      assert Unfinished(Resumed(f)) == {};
      assert Ledger(after, Resumed(f));
    } else {
      assert Ledger(after, f);
    }
  }

  lemma CancelKeeps(w: World, f: Facts, reason: string)
    requires Ledger(w, f)
    ensures Sound(CancelStep(w, reason))
  {
    var after := CancelStep(w, reason);
    if after != w { PlainCommit(w, f, [RunCancelled(reason)], after.snapshot, w.driver); }
    assert Ledger(after, f);
  }

  lemma RetryKeeps(w: World, f: Facts, runId: RunId, fingerprint: string, scheduled: bool)
    requires Ledger(w, f)
    ensures Sound(RetryStep(w, runId, fingerprint, scheduled))
  {
    var after := RetryStep(w, runId, fingerprint, scheduled);
    if w.snapshot.status.Failed? {
      PlainLearned(NoFacts, after.log);
      assert Ledger(after, NoFacts);
    } else {
      assert Ledger(after, f);
    }
  }

  predicate IsCommand(step: Step) { step.Recover? || step.Answer? || step.Cancel? || step.Retry? }

  lemma RecoverIsNext(w: World, step: Step)
    requires step.Recover?
    ensures Next(w, step) == RecoverStep(w, step.request, step.scheduled)
  {
  }

  lemma CommandKeeps(w: World, f: Facts, step: Step)
    requires Ledger(w, f) && IsCommand(step)
    ensures Sound(Next(w, step))
  {
    if step.Recover? {
      RecoverKeeps(w, f, step.request, step.scheduled);
      RecoverIsNext(w, step);
    } else {
      OtherCommandKeeps(w, f, step);
    }
  }

  lemma OtherCommandKeeps(w: World, f: Facts, step: Step)
    requires Ledger(w, f) && (step.Answer? || step.Cancel? || step.Retry?)
    ensures Sound(Next(w, step))
  {
    match step
    case Answer(affirmative, artifact, scheduled) => AnswerKeeps(w, f, affirmative, artifact, scheduled);
    case Cancel(reason) => CancelKeeps(w, f, reason);
    case Retry(runId, fingerprint, scheduled) => RetryKeeps(w, f, runId, fingerprint, scheduled);
  }

  lemma DriverIsNext(w: World, step: Step)
    requires !IsCommand(step)
    ensures Next(w, step) == DriverStep(w, step)
  {
  }

  lemma NextKeeps(w: World, step: Step)
    requires Sound(w)
    ensures Sound(Next(w, step))
  {
    var f :| Ledger(w, f);
    if IsCommand(step) {
      CommandKeeps(w, f, step);
    } else {
      DriverStepKeeps(w, f, step);
      DriverIsNext(w, step);
    }
  }

  lemma {:induction false} EveryRunIsSound(w: World, steps: seq<Step>)
    requires Sound(w)
    ensures Sound(Reached(w, steps))
    decreases |steps|
  {
    if steps != [] {
      NextKeeps(w, steps[0]);
      EveryRunIsSound(Next(w, steps[0]), steps[1..]);
    }
  }
}
