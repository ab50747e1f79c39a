/** What holds over every history of a Run: readability of the ledger, identities of retried calls,
    and consent to costly retries; with the histories that show why the conditions are there. */
module RecoveryTheorems {
  import opened Wrappers
  import opened RunStatuses
  import opened RunTypes
  import opened RecoveryFacts
  import opened RecoveryProtocol
  import opened RecoveryLedger
  import opened RecoverySafety

  lemma HistoriesAreSound(start: World, steps: seq<Step>)
    requires Created(start)
    ensures Sound(Reached(start, steps))
  {
    CreatedIsSound(start);
    EveryRunIsSound(start, steps);
  }

  // ---------- readability ----------

  /** For every history of driver steps, crashes, recoveries, answers, cancellations and retries, and
      whoever else is alive meanwhile: the events are accepted one by one, at most one started call
      is unfinished, and recovery reaches a decision exactly when no tool call was denied. The
      decision is never to reconcile a remote query. */
  lemma RecoveryDecides(start: World, steps: seq<Step>, request: RecoveryRequest)
    requires Created(start)
    ensures var w := Reached(start, steps);
            var decision := Assess(w.log, w.snapshot.status, request);
            && LearnAll(NoFacts, w.log).Ok?
            && |Unfinished(LearnAll(NoFacts, w.log).value)| <= 1
            && (decision.Ok? <==> !Denied(w.log))
            && (decision.Ok? ==> !decision.value.ReconcileRemoteQuery?)
  {
    var w := Reached(start, steps);
    HistoriesAreSound(start, steps);
    var f :| Ledger(w, f);
    AtMostOne(Unfinished(f));
    AssessUnderLedger(w, f, request);
    if !Denied(w.log) { NeverReconciles(w, f, request); }
  }

  // ---------- identities ----------

  lemma {:induction false} ProposalsAreLearned(f: Facts, kinds: seq<EventKind>, i: nat)
    requires LearnAll(f, kinds).Ok? && i < |kinds| && kinds[i].ToolCallProposed?
    ensures kinds[i].call.id in LearnAll(f, kinds).value.proposed
    decreases |kinds|
  {
    var next := Learn(f, kinds[0]).value;
    if i == 0 {
      ProposedStays(next, kinds[1..], kinds[0].call.id);
    } else {
      ProposalsAreLearned(next, kinds[1..], i - 1);
    }
  }

  lemma {:induction false} ProposedStays(f: Facts, kinds: seq<EventKind>, id: CallId)
    requires LearnAll(f, kinds).Ok? && id in f.proposed
    ensures id in LearnAll(f, kinds).value.proposed
    decreases |kinds|
  {
    if kinds != [] { ProposedStays(Learn(f, kinds[0]).value, kinds[1..], id); }
  }

  /** A call queued for retry in a running Run has an identity that no proposal of its log has. */
  lemma QueuedCallIsNew(start: World, steps: seq<Step>, i: nat)
    requires Created(start)
    requires var w := Reached(start, steps);
             && w.snapshot.status.Running? && w.snapshot.state.pendingCall.Some?
             && i < |w.log| && w.log[i].ToolCallProposed?
    ensures var w := Reached(start, steps);
            w.log[i].call.id != w.snapshot.state.pendingCall.value.id
  {
    var w := Reached(start, steps);
    HistoriesAreSound(start, steps);
    var f :| Ledger(w, f);
    ProposalsAreLearned(NoFacts, w.log, i);
  }

  // ---------- consent ----------

  /** Whoever is alive: a recovered call carries the grant exactly when its retry was confirmed, and a
      cheap one never does. */
  lemma GrantsAreConfirmed(start: World, steps: seq<Step>, i: nat)
    requires Created(start) && i < |Reached(start, steps).issued|
    ensures var issue := Reached(start, steps).issued[i];
            issue.granted == issue.consented && (issue.cost.Low? ==> !issue.granted)
  {
    HistoriesAreSound(start, steps);
    var w := Reached(start, steps);
    var f :| Ledger(w, f);
  }

  /** A queued costly call has been confirmed. */
  ghost predicate Cleared(state: WorkflowState) {
    state.pendingCall.Some? ==> state.pendingCost.Some? && (!state.pendingCost.value.Low? ==> state.granted)
  }

  /** The driver gives a Run up: it does not look at the status, only whether its append applies. */
  ghost predicate Careless(w: World, step: Step) {
    step.FailTerminal? && w.driver.Failing? && !Cleared(w.snapshot.state)
  }

  /** No driver gives up a Run that waits for the confirmation of a costly call. */
  ghost predicate Careful(w: World, steps: seq<Step>)
    decreases |steps|
  {
    steps == [] || (!Careless(w, steps[0]) && Careful(Next(w, steps[0]), steps[1..]))
  }

  ghost predicate CostlyConfirmed(issued: seq<Issue>) {
    forall i | 0 <= i < |issued| :: !issued[i].cost.Low? ==> issued[i].granted
  }

  /** What a driver or a retry may take up has been confirmed. */
  ghost predicate Guarded(w: World) {
    && (w.snapshot.status.Queued? || w.snapshot.status.Running? || w.snapshot.status.Failed? ==>
        Cleared(w.snapshot.state))
    && CostlyConfirmed(w.issued)
  }

  lemma TakeGuards(w: World, f: Facts, step: Step)
    requires Ledger(w, f) && Guarded(w) && (step.StartRecovered? || step.RejectRecovered?)
    ensures Guarded(DriverStep(w, step))
  {
  }

  lemma FailGuards(w: World, step: Step)
    requires Guarded(w) && !Careless(w, step) && step.FailTerminal?
    ensures Guarded(DriverStep(w, step))
  {
  }

  lemma PlainGuards(w: World, f: Facts, step: Step)
    requires Ledger(w, f) && Guarded(w) && !step.FailTerminal? && !step.StartRecovered? && !step.RejectRecovered?
    ensures Guarded(DriverStep(w, step))
  {
  }

  lemma DriverStepGuards(w: World, f: Facts, step: Step)
    requires Ledger(w, f) && Guarded(w) && !Careless(w, step)
    ensures Guarded(DriverStep(w, step))
  {
    if step.FailTerminal? {
      FailGuards(w, step);
    } else if step.StartRecovered? || step.RejectRecovered? {
      TakeGuards(w, f, step);
    } else {
      PlainGuards(w, f, step);
    }
  }

  /** The decisions that leave the queued call alone are taken on runs that guard it already. */
  lemma AssessStatus(kinds: seq<EventKind>, status: RunStatus, request: RecoveryRequest)
    requires Assess(kinds, status, request).Ok?
    ensures var decision := Assess(kinds, status, request).value;
            && (decision.StartSameRun? ==> status.Queued?)
            && (decision.ContinueSameRun? || decision.RetryModelWithNewCallId? || decision.MarkToolIndeterminate? ==>
                  status.Running?)
  {
  }

  lemma ApplyGuards(w: World, decision: Decision, request: RecoveryRequest, scheduled: bool)
    requires Guarded(w)
    requires decision.StartSameRun? ==> w.snapshot.status.Queued?
    requires decision.ContinueSameRun? || decision.RetryModelWithNewCallId? || decision.MarkToolIndeterminate? ==>
               w.snapshot.status.Running?
    ensures Guarded(ApplyDecision(w, decision, request, scheduled))
  {
  }

  lemma RecoverGuards(w: World, request: RecoveryRequest, scheduled: bool)
    requires Guarded(w)
    ensures Guarded(RecoverStep(w, request, scheduled))
  {
    var decision := Assess(w.log, w.snapshot.status, request);
    if decision.Ok? {
      AssessStatus(w.log, w.snapshot.status, request);
      ApplyGuards(w, decision.value, request, scheduled);
    }
  }

  lemma AnswerGuards(w: World, f: Facts, affirmative: bool, artifact: ArtifactId, scheduled: bool)
    requires Ledger(w, f) && Guarded(w)
    ensures Guarded(AnswerStep(w, affirmative, artifact, scheduled))
  {
  }

  lemma CancelGuards(w: World, reason: string)
    requires Guarded(w)
    ensures Guarded(CancelStep(w, reason))
  {
  }

  lemma RetryGuards(w: World, runId: RunId, fingerprint: string, scheduled: bool)
    requires Guarded(w)
    ensures Guarded(RetryStep(w, runId, fingerprint, scheduled))
  {
  }

  lemma CommandGuards(w: World, f: Facts, step: Step)
    requires Ledger(w, f) && Guarded(w) && IsCommand(step)
    ensures Guarded(Next(w, step))
  {
    match step
    case Recover(request, scheduled) => RecoverGuards(w, request, scheduled);
    case Answer(affirmative, artifact, scheduled) => AnswerGuards(w, f, affirmative, artifact, scheduled);
    case Cancel(reason) => CancelGuards(w, reason);
    case Retry(runId, fingerprint, scheduled) => RetryGuards(w, runId, fingerprint, scheduled);
  }

  lemma NextGuards(w: World, step: Step)
    requires Sound(w) && Guarded(w) && !Careless(w, step)
    ensures Guarded(Next(w, step))
  {
    var f :| Ledger(w, f);
    if IsCommand(step) {
      CommandGuards(w, f, step);
    } else {
      DriverStepGuards(w, f, step);
      DriverIsNext(w, step);
    }
  }

  lemma {:induction false} GuardedRuns(w: World, steps: seq<Step>)
    requires Sound(w) && Guarded(w) && Careful(w, steps)
    ensures Sound(Reached(w, steps)) && Guarded(Reached(w, steps))
    decreases |steps|
  {
    if steps != [] {
      NextGuards(w, steps[0]);
      NextKeeps(w, steps[0]);
      GuardedRuns(Next(w, steps[0]), steps[1..]);
    }
  }

  lemma CreatedIsGuarded(w: World)
    requires Created(w)
    ensures Sound(w) && Guarded(w)
  {
    CreatedIsSound(w);
  }

  /** Whoever is alive, as long as no driver gives up a Run that waits for a confirmation: every recovered
      call whose cost is high or unknown is handed out with the grant, hence after an explicit
      confirmation, and no cheap one is. */
  lemma CostlyRetriesAreConfirmed(start: World, steps: seq<Step>, i: nat)
    requires Created(start) && Careful(start, steps)
    requires i < |Reached(start, steps).issued|
    ensures var issue := Reached(start, steps).issued[i];
            !issue.cost.Low? <==> issue.granted
  {
    CreatedIsGuarded(start);
    GuardedRuns(start, steps);
    GrantsAreConfirmed(start, steps, i);
  }

  // ---------- exactly which step loses a confirmation ----------

  /** However the Run goes on carefully, no costly call is handed out unconfirmed. */
  ghost predicate StaysConfirmed(w: World) {
    forall more | Careful(w, more) :: CostlyConfirmed(Reached(w, more).issued)
  }

  lemma GuardedStays(w: World)
    requires Sound(w) && Guarded(w)
    ensures StaysConfirmed(w)
  {
    forall more | Careful(w, more) ensures CostlyConfirmed(Reached(w, more).issued) {
      GuardedRuns(w, more);
    }
  }

  /** A Run that was given up carelessly hands its unconfirmed call out in its retry. */
  lemma CarelessHandsOut(w: World, f: Facts, code: string)
    requires Ledger(w, f) && Careless(w, FailTerminal(code))
    ensures var retried := RetryStep(DriverStep(w, FailTerminal(code)), w.snapshot.runId + 1, "", true);
            var taken := DriverStep(retried, StartRecovered);
            |taken.issued| > 0 && !taken.issued[|taken.issued| - 1].cost.Low?
            && !taken.issued[|taken.issued| - 1].granted
  {
  }

  lemma CarelessLoses(w: World, step: Step)
    requires Sound(w) && Careless(w, step)
    ensures !StaysConfirmed(Next(w, step))
  {
    var f :| Ledger(w, f);
    CarelessHandsOut(w, f, step.code);
    var failed := Next(w, step);
    var retry := Retry(w.snapshot.runId + 1, "", true);
    var retried := Next(failed, retry);
    var more := [retry, StartRecovered];
    assert more[1..] == [StartRecovered] && [StartRecovered][1..] == [];
    assert Careful(Next(retried, StartRecovered), []);
    assert Careful(retried, [StartRecovered]);
    assert Careful(failed, more);
    assert Reached(failed, more) == Reached(retried, [StartRecovered]) == Next(retried, StartRecovered);
  }

  /** After any careful history, a step keeps every careful continuation confirmed exactly when it is not
      a driver giving up a Run whose queued costly call has not been confirmed. */
  lemma ConfirmationIsKeptExactly(start: World, steps: seq<Step>, step: Step)
    requires Created(start) && Careful(start, steps)
    ensures StaysConfirmed(Next(Reached(start, steps), step)) <==> !Careless(Reached(start, steps), step)
  {
    var w := Reached(start, steps);
    CreatedIsGuarded(start);
    GuardedRuns(start, steps);
    if Careless(w, step) {
      CarelessLoses(w, step);
    } else {
      NextGuards(w, step);
      NextKeeps(w, step);
      GuardedStays(Next(w, step));
    }
  }

  /** Such a Run waits for its confirmation or has already ended: a check of the status would do. */
  lemma CarelessStatus(start: World, steps: seq<Step>, step: Step)
    requires Created(start) && Careful(start, steps) && Careless(Reached(start, steps), step)
    ensures var status := Reached(start, steps).snapshot.status;
            status.WaitingForInput? || status.Succeeded? || status.Cancelled?
  {
    CreatedIsGuarded(start);
    GuardedRuns(start, steps);
  }

  // ---------- recovery that waits for the driver's death ----------

  /** Recovery runs only when the driver of the Run has died. */
  ghost predicate DriverDead(w: World, step: Step) {
    step.Recover? ==> w.driver.Idle?
  }

  ghost predicate Disciplined(w: World, steps: seq<Step>)
    decreases |steps|
  {
    steps == [] || (DriverDead(w, steps[0]) && Disciplined(Next(w, steps[0]), steps[1..]))
  }

  /** Whatever a living driver may fail has been confirmed. */
  ghost predicate DriverCleared(w: World) {
    Guarded(w) && (!w.driver.Idle? ==> Cleared(w.snapshot.state))
  }

  lemma DriverStepClears(w: World, f: Facts, step: Step)
    requires Ledger(w, f) && DriverCleared(w)
    ensures !DriverStep(w, step).driver.Idle? ==> Cleared(DriverStep(w, step).snapshot.state)
  {
  }

  lemma CommandClears(w: World, f: Facts, step: Step)
    requires Ledger(w, f) && DriverCleared(w) && DriverDead(w, step)
    requires IsCommand(step)
    ensures Guarded(Next(w, step)) && !Next(w, step).driver.Idle? ==> Cleared(Next(w, step).snapshot.state)
  {
    if step.Recover? { RecoverClears(w, step.request, step.scheduled); }
  }

  lemma RecoverClears(w: World, request: RecoveryRequest, scheduled: bool)
    requires Guarded(w) && w.driver.Idle?
    ensures !RecoverStep(w, request, scheduled).driver.Idle? ==>
              Cleared(RecoverStep(w, request, scheduled).snapshot.state)
  {
    var decision := Assess(w.log, w.snapshot.status, request);
    if decision.Ok? {
      AssessStatus(w.log, w.snapshot.status, request);
      ApplyClears(w, decision.value, request, scheduled);
    }
  }

  lemma ApplyClears(w: World, decision: Decision, request: RecoveryRequest, scheduled: bool)
    requires Guarded(w) && w.driver.Idle?
    requires decision.StartSameRun? ==> w.snapshot.status.Queued?
    requires decision.ContinueSameRun? || decision.RetryModelWithNewCallId? || decision.MarkToolIndeterminate? ==>
               w.snapshot.status.Running?
    ensures var after := ApplyDecision(w, decision, request, scheduled);
            !after.driver.Idle? ==> Cleared(after.snapshot.state)
  {
  }

  /** When recovery waits for the driver's death, every history is careful. */
  lemma {:induction false} DisciplinedIsCareful(w: World, steps: seq<Step>)
    requires Sound(w) && DriverCleared(w) && Disciplined(w, steps)
    ensures Careful(w, steps)
    decreases |steps|
  {
    if steps != [] {
      var step := steps[0];
      var f :| Ledger(w, f);
      NextGuards(w, step);
      if IsCommand(step) {
        CommandClears(w, f, step);
      } else {
        DriverStepClears(w, f, step);
      }
      NextKeeps(w, step);
      DisciplinedIsCareful(Next(w, step), steps[1..]);
    }
  }

  lemma DisciplinedRunsAreCareful(start: World, steps: seq<Step>)
    requires Created(start) && Disciplined(start, steps)
    ensures Careful(start, steps)
  {
    CreatedIsGuarded(start);
    DisciplinedIsCareful(start, steps);
  }

  // ---------- why the conditions are there ----------

  const Nobody := ToolFailure("sql_budget_exceeded", None, High)

  const FirstCreated := Initial(1, 1, "", "")
  const Asked := DriverStep(FirstCreated, RequestModel(0))
  const Refusal := RejectTool("query", "", "sql_budget_exceeded", Nobody, "")

  lemma RefusalIsDenied()
    ensures DriverStep(Asked, Refusal).snapshot.status.Running? && Denied(DriverStep(Asked, Refusal).log)
  {
    var w := DriverStep(Asked, Refusal);
    var events := [ModelResponded(0)] + Rejected(ToolCall(0, "query", "", ""), "sql_budget_exceeded", Nobody);
    assert w.log == Asked.log + (events + [RunStateProjected(w.snapshot)]);
    assert events[2] == PolicyEvaluated(0, Deny("sql_budget_exceeded"));
    assert w.log[|Asked.log| + 2] == events[2];
  }

  /** A rejected tool call that the workflow tolerates is committed without having started, and from
      then on recovery reports a corrupt history. */
  lemma RejectionBlocksRecovery(request: RecoveryRequest)
    ensures var w := Reached(FirstCreated, [RequestModel(0), Refusal]);
            w.snapshot.status.Running? && Assess(w.log, w.snapshot.status, request) == Err(TerminalToolWithoutStart)
  {
    var steps := [RequestModel(0), Refusal];
    Unfold(FirstCreated, steps, 0);
    Unfold(Asked, steps, 1);
    assert steps[0..] == steps && steps[2..] == [];
    RefusalIsDenied();
    HistoriesAreSound(FirstCreated, steps);
    DeniedBlocks(DriverStep(Asked, Refusal), request);
  }

  lemma DeniedBlocks(w: World, request: RecoveryRequest)
    requires Sound(w) && Denied(w.log)
    ensures Assess(w.log, w.snapshot.status, request) == Err(TerminalToolWithoutStart)
  {
    var f :| Ledger(w, f);
    AssessUnderLedger(w, f, request);
  }

  const Costly := ToolCall(0, "query", "", "")
  const Underway := DriverStep(Asked, StartTool("query", "", "", High))

  lemma AskedFacts()
    ensures LearnAll(NoFacts, Asked.log) == Ok(NoFacts.(latestModel := Some((0, false))))
  {
    var before, request := [StepStarted("query::model"), ArtifactCreated(0)], ModelRequested(0);
    PlainLearned(NoFacts, FirstCreated.log);
    PlainLearned(NoFacts, before);
    LearnAppend(NoFacts, before, [request]);
    LearnOne(NoFacts, request);
    assert before + [request] == [StepStarted("query::model"), ArtifactCreated(0), ModelRequested(0)];
    CommitLearned(FirstCreated, NoFacts, before + [request], Asked.snapshot, Asked.driver);
  }

  lemma UnderwayEvents(asked: Facts)
    requires asked == NoFacts.(latestModel := Some((0, false)))
    ensures LearnAll(asked, [ModelResponded(0)] + Started(Costly, High))
            == Ok(StartedFacts(Answered(NoFacts, 0), Costly, High))
  {
    ResponseLearned(asked, 0, Started(Costly, High));
    StartLearned(Answered(asked, 0), Costly, High);
  }

  lemma UnderwayLog()
    ensures Underway.log
            == Asked.log + ([ModelResponded(0)] + Started(Costly, High) + [RunStateProjected(Underway.snapshot)])
  {
  }

  lemma UnderwayFacts()
    ensures LearnAll(NoFacts, Underway.log) == Ok(StartedFacts(Answered(NoFacts, 0), Costly, High))
  {
    AskedFacts();
    UnderwayEvents(NoFacts.(latestModel := Some((0, false))));
    UnderwayLog();
    CommitLearned(Asked, NoFacts.(latestModel := Some((0, false))), [ModelResponded(0)] + Started(Costly, High),
                  Underway.snapshot, Underway.driver);
  }

  lemma UnderwayDecision()
    ensures Assess(Underway.log, Underway.snapshot.status, RecoveryRequest(true, false))
            == Ok(MarkToolIndeterminate(StartedTool(Costly, High)))
  {
    UnderwayFacts();
    var f := StartedFacts(Answered(NoFacts, 0), Costly, High);
    assert Unfinished(f) == {0};
  }

  const Overtook := AskConfirmation(Underway, Costly, High, [Interrupted(StartedTool(Costly, High))])
  const Lost := DriverStep(DriverStep(Overtook, Break), FailTerminal("concurrency_conflict"))
  const Respawned := RetryStep(Lost, 2, "", true)

  lemma RespawnedHandsOut()
    ensures DriverStep(Respawned, StartRecovered).issued == [Issue(Costly, High, false, false)]
  {
  }

  const LosingSteps: seq<Step> := [
    RequestModel(0), StartTool("query", "", "", High), Recover(RecoveryRequest(true, false), false),
    Break, FailTerminal("concurrency_conflict"), Retry(2, "", true), StartRecovered]

  lemma LosesTheRace()
    ensures Reached(FirstCreated, LosingSteps) == Reached(Overtook, LosingSteps[3..])
  {
    UnderwayDecision();
    Unfold(FirstCreated, LosingSteps, 0);
    Unfold(Asked, LosingSteps, 1);
    Unfold(Underway, LosingSteps, 2);
    assert LosingSteps[0..] == LosingSteps;
  }

  lemma RetriesUnconfirmed()
    ensures Reached(Overtook, LosingSteps[3..]) == DriverStep(Respawned, StartRecovered)
  {
    Unfold(Overtook, LosingSteps, 3);
    Unfold(DriverStep(Overtook, Break), LosingSteps, 4);
    Unfold(Lost, LosingSteps, 5);
    Unfold(Respawned, LosingSteps, 6);
    assert LosingSteps[7..] == [];
  }

  /** A driver that is still alive when its Run is recovered: it loses the race, fails the Run, and the
      retry hands out the costly call that nobody confirmed. */
  lemma LiveDriverLosesConsent()
    ensures Reached(FirstCreated, LosingSteps).issued == [Issue(Costly, High, false, false)]
  {
    LosesTheRace();
    RetriesUnconfirmed();
    RespawnedHandsOut();
  }

  lemma Unfold(w: World, steps: seq<Step>, i: nat)
    requires i < |steps|
    ensures Reached(w, steps[i..]) == Reached(Next(w, steps[i]), steps[i + 1..])
  {
    assert steps[i..][1..] == steps[i + 1..];
  }
}
