/** Clients of the Run store that carry out the steps of the protocol: the guards of those steps make
    each write the successor of what was loaded, and keep a terminal Run terminal. */
module RunDrivers {
  import opened RunStatuses
  import opened RunTypes
  import opened RunStore
  import opened RunLog
  import opened RunClients
  import opened RecoveryFacts
  import P = RecoveryProtocol
  import L = RecoveryLedger
  import S = RecoverySafety
  import T = RecoveryTheorems
  import PS = ProviderStore
  import PSteps = ProviderSteps

  // ---------- what a step commits ----------

  /** One append: events that announce and project nothing, and the successor of the snapshot. */
  ghost predicate Commits(w: P.World, next: P.World, events: seq<EventKind>) {
    && next.log == w.log + (events + [RunStateProjected(next.snapshot)])
    && Unbound(events) && Unprojected(events) && Succeeds(w.snapshot, next.snapshot)
  }

  ghost predicate Quiet(w: P.World, next: P.World) {
    next.log == w.log && next.snapshot == w.snapshot
  }

  ghost predicate StepsOnce(w: P.World, next: P.World) {
    Quiet(w, next) || exists events :: Commits(w, next, events)
  }

  /** A commit of these events whose status does not leave a terminal one. */
  lemma CommitSteps(w: P.World, after: P.World, events: seq<EventKind>, next: Snapshot, driver: P.Driver)
    requires after.log == P.Commit(w, events, next, driver).log && after.snapshot == next
    requires Unbound(events) && Unprojected(events) && Succeeds(w.snapshot, next)
    ensures StepsOnce(w, after)
  {
    assert Commits(w, after, events);
  }

  lemma QuietArtifacts(ids: seq<ArtifactId>)
    ensures Unbound(P.Artifacts(ids)) && Unprojected(P.Artifacts(ids))
  {
  }

  lemma LoopSteps(w: P.World, f: Facts, step: P.Step)
    requires L.Ledger(w, f)
    requires step.Advance? || step.AskUser? || step.RequestModel? || step.CommitWait? || step.Verify?
             || step.FailTerminal?
    ensures StepsOnce(w, P.DriverStep(w, step))
  {
    var after := P.DriverStep(w, step);
    if !Quiet(w, after) {
      var events := match step
        case Advance(name, _) => [StepStarted(name)]
        case AskUser(id, reason) => [StepStarted("query::clarify")] + [ClarificationRequested(id), RunWaiting(reason)]
        case RequestModel(manifest) =>
          [StepStarted("query::model"), ArtifactCreated(manifest), ModelRequested(w.nextModel)]
        case CommitWait(reason) =>
          [StepStarted("query::clarify")] + [ClarificationRequested(w.driver.clarification), RunWaiting(reason)]
        case Verify(report, passed, _) =>
          if passed then [ArtifactCreated(report)] else [ArtifactCreated(report), RunFailed("verification_failed")]
        case FailTerminal(code) => [RunFailed(code)]
        case _ => [];
      CommitSteps(w, after, events, after.snapshot, after.driver);
    }
  }

  lemma ResponseSteps(w: P.World, f: Facts, step: P.Step)
    requires L.Ledger(w, f) && (step.AcceptResponse? || step.AcceptWait? || step.Complete? || step.RefuseCompletion?)
    ensures StepsOnce(w, P.DriverStep(w, step))
  {
    var after := P.DriverStep(w, step);
    if P.ModelAnswers(w) {
      L.ResponseCommits(w, step);
      if step.AcceptResponse? { QuietArtifacts(step.artifacts); }
      CommitSteps(w, after, [ModelResponded(w.driver.modelCall)] + L.Following(step), after.snapshot, after.driver);
    }
  }

  lemma ModelToolSteps(w: P.World, f: Facts, step: P.Step)
    requires L.Ledger(w, f) && (step.StartTool? || step.RejectTool?)
    ensures StepsOnce(w, P.DriverStep(w, step))
  {
    var after := P.DriverStep(w, step);
    if P.ModelAnswers(w) {
      var calls :=
        if step.StartTool? then P.Started(ToolCall(w.nextCall, step.name, step.arguments, step.version), step.cost)
        else P.Rejected(ToolCall(w.nextCall, step.rejectedName, step.rejectedArguments, ""), step.denial,
                        step.rejection);
      CommitSteps(w, after, [ModelResponded(w.driver.modelCall)] + calls, after.snapshot, after.driver);
    }
  }

  lemma ToolSteps(w: P.World, f: Facts, step: P.Step)
    requires L.Ledger(w, f) && (step.FinishTool? || step.StartRecovered? || step.RejectRecovered?)
    ensures StepsOnce(w, P.DriverStep(w, step))
  {
    var after, s := P.DriverStep(w, step), w.snapshot.state;
    if step.FinishTool? && w.driver.ToolPending? && w.driver.toolVersion == w.snapshot.version {
      QuietArtifacts(step.produced);
      var finished := if step.outcome.ToolSucceeded? then ToolExecutionSucceeded(w.driver.call)
                      else ToolExecutionFailed(w.driver.call, step.outcome.failure);
      CommitSteps(w, after, P.Artifacts(step.produced) + [finished], after.snapshot, after.driver);
    } else if !step.FinishTool? && P.AtWork(w) && s.pendingCall.Some? {
      var cost := if s.pendingCost.Some? then s.pendingCost.value else Unknown;
      var calls := if step.StartRecovered? then P.Started(s.pendingCall.value, cost)
                   else P.Rejected(s.pendingCall.value, step.deny, step.refusal);
      CommitSteps(w, after, calls, after.snapshot, after.driver);
    }
  }

  lemma QuietSteps(w: P.World, step: P.Step)
    requires step.Break? || step.FailLost? || step.Exit? || step.Crash?
    ensures Quiet(w, P.DriverStep(w, step))
  {
  }

  lemma DriverSteps(w: P.World, f: Facts, step: P.Step)
    requires L.Ledger(w, f) && !S.IsCommand(step)
    ensures StepsOnce(w, P.DriverStep(w, step))
  {
    if step.Break? || step.FailLost? || step.Exit? || step.Crash? {
      QuietSteps(w, step);
    } else if step.AcceptResponse? || step.AcceptWait? || step.Complete? || step.RefuseCompletion? {
      ResponseSteps(w, f, step);
    } else if step.StartTool? || step.RejectTool? {
      ModelToolSteps(w, f, step);
    } else if step.FinishTool? || step.StartRecovered? || step.RejectRecovered? {
      ToolSteps(w, f, step);
    } else {
      LoopSteps(w, f, step);
    }
  }

  lemma RequeueSteps(w: P.World, previous: ToolCall, cost: CostClass, granted: bool, confirmed: bool,
                     before: seq<EventKind>, scheduled: bool)
    requires w.snapshot.status.Running? && Unbound(before) && Unprojected(before)
    ensures StepsOnce(w, P.Requeue(w, previous, cost, granted, confirmed, before, scheduled))
  {
    var after := P.Requeue(w, previous, cost, granted, confirmed, before, scheduled);
    CommitSteps(w, after, before + [RunResumed], after.snapshot, w.driver);
  }

  lemma AskingSteps(w: P.World, previous: ToolCall, cost: CostClass, before: seq<EventKind>)
    requires w.snapshot.status.Running? && Unbound(before) && Unprojected(before)
    ensures StepsOnce(w, P.AskConfirmation(w, previous, cost, before))
  {
    var after := P.AskConfirmation(w, previous, cost, before);
    CommitSteps(w, after,
                before + [ClarificationRequested(ClarificationId(true, "retry")),
                          RunWaiting("confirm_high_cost_retry")],
                after.snapshot, w.driver);
  }

  lemma MarkSteps(w: P.World, tool: StartedTool, request: RecoveryRequest, scheduled: bool)
    requires w.snapshot.status.Running?
    ensures StepsOnce(w, P.MarkIndeterminate(w, tool, request, scheduled))
  {
    var event := P.Interrupted(tool);
    if !request.explicitResume {
      var after := P.MarkIndeterminate(w, tool, request, scheduled);
      CommitSteps(w, after, [event], after.snapshot, w.driver);
    } else if tool.cost.Low? {
      RequeueSteps(w, tool.call, Low, w.snapshot.state.granted, false, [event], scheduled);
    } else if request.costlyRetryConfirmed {
      RequeueSteps(w, tool.call, tool.cost, true, true, [event], scheduled);
    } else {
      AskingSteps(w, tool.call, tool.cost, [event]);
    }
  }

  /** Only for a running Run does recovery decide to commit anything. */
  lemma DecisionSteps(w: P.World, decision: Decision, request: RecoveryRequest, scheduled: bool)
    requires w.snapshot.status.Running? || decision.StartSameRun? || decision.WaitForInput? || decision.ReturnTerminal?
             || decision.CreateRetryRun?
    ensures StepsOnce(w, P.ApplyDecision(w, decision, request, scheduled))
  {
    match decision
    case MarkToolIndeterminate(tool) => MarkSteps(w, tool, request, scheduled);
    case RetryLowCostWithNewCall(previous) => RequeueSteps(w, previous, Low, false, false, [], scheduled);
    case RetryConfirmedHighCostWithNewCall(previous, cost) =>
      RequeueSteps(w, previous, cost, true, true, [], scheduled);
    case ConfirmHighCostRetry(previous, cost) => AskingSteps(w, previous, cost, []);
    case ReconcileRemoteQuery(_, _) =>
      var after := P.ApplyDecision(w, decision, request, scheduled);
      CommitSteps(w, after, [RunWaiting("reconcile_remote_query")], after.snapshot, w.driver);
    case _ =>
  }

  lemma AssessRuns(kinds: seq<EventKind>, status: RunStatus, request: RecoveryRequest)
    requires Assess(kinds, status, request).Ok? && !status.Running?
    ensures var decision := Assess(kinds, status, request).value;
            decision.StartSameRun? || decision.WaitForInput? || decision.ReturnTerminal? || decision.CreateRetryRun?
  {
  }

  lemma RecoverSteps(w: P.World, request: RecoveryRequest, scheduled: bool)
    ensures StepsOnce(w, P.RecoverStep(w, request, scheduled))
  {
    var decision := Assess(w.log, w.snapshot.status, request);
    if decision.Ok? {
      if !w.snapshot.status.Running? { AssessRuns(w.log, w.snapshot.status, request); }
      DecisionSteps(w, decision.value, request, scheduled);
    }
  }

  lemma AnswerSteps(w: P.World, affirmative: bool, artifact: ArtifactId, scheduled: bool)
    ensures StepsOnce(w, P.AnswerStep(w, affirmative, artifact, scheduled))
  {
    var after := P.AnswerStep(w, affirmative, artifact, scheduled);
    if !Quiet(w, after) {
      var id := P.Answerable(w.snapshot).value;
      CommitSteps(w, after, [ClarificationAnswered(id, artifact), RunResumed], after.snapshot, w.driver);
    }
  }

  lemma CancelSteps(w: P.World, reason: string)
    ensures StepsOnce(w, P.CancelStep(w, reason))
  {
    var after := P.CancelStep(w, reason);
    if !Quiet(w, after) { CommitSteps(w, after, [RunCancelled(reason)], after.snapshot, w.driver); }
  }

  lemma CommandSteps(w: P.World, step: P.Step)
    requires S.IsCommand(step) && !step.Retry?
    ensures StepsOnce(w, P.Next(w, step))
  {
    match step
    case Recover(request, scheduled) => RecoverSteps(w, request, scheduled);
    case Answer(affirmative, artifact, scheduled) => AnswerSteps(w, affirmative, artifact, scheduled);
    case Cancel(reason) => CancelSteps(w, reason);
  }

  lemma NextSteps(w: P.World, step: P.Step)
    requires L.Sound(w) && !step.Retry?
    ensures StepsOnce(w, P.Next(w, step))
  {
    if S.IsCommand(step) {
      CommandSteps(w, step);
    } else {
      var f :| L.Ledger(w, f);
      DriverSteps(w, f, step);
      S.DriverIsNext(w, step);
    }
  }

  /** After every history, whoever is alive: a step of the driver, of recovery or of a command commits
      nothing, or one append whose snapshot is the successor of the current one, of the same Run and
      task, and terminal if that one was. */
  lemma StepsSucceed(start: P.World, steps: seq<P.Step>, step: P.Step)
    requires P.Created(start) && !step.Retry?
    ensures StepsOnce(P.Reached(start, steps), P.Next(P.Reached(start, steps), step))
  {
    T.HistoriesAreSound(start, steps);
    NextSteps(P.Reached(start, steps), step);
  }

  // ---------- terminal Runs ----------

  ghost predicate NoRetry(steps: seq<P.Step>) {
    forall i | 0 <= i < |steps| :: !steps[i].Retry?
  }

  lemma {:induction false} TerminalStaysReached(w: P.World, more: seq<P.Step>)
    requires L.Sound(w) && NoRetry(more) && w.snapshot.status.Terminal()
    ensures P.Reached(w, more).snapshot.status.Terminal() && P.Reached(w, more).snapshot.runId == w.snapshot.runId
    decreases |more|
  {
    if more != [] {
      NextSteps(w, more[0]);
      S.NextKeeps(w, more[0]);
      TerminalStaysReached(P.Next(w, more[0]), more[1..]);
    }
  }

  /** A Run that has once been terminal is terminal after everything that follows, and only a retry, which
      is another Run, starts over. */
  lemma TerminalForGood(start: P.World, steps: seq<P.Step>, more: seq<P.Step>)
    requires P.Created(start) && NoRetry(more) && P.Reached(start, steps).snapshot.status.Terminal()
    ensures var later := P.Reached(P.Reached(start, steps), more).snapshot;
            later.status.Terminal() && later.runId == P.Reached(start, steps).snapshot.runId
  {
    T.HistoriesAreSound(start, steps);
    TerminalStaysReached(P.Reached(start, steps), more);
  }

  // ---------- clients that carry the steps out ----------

  ghost predicate Possible(w: P.World) {
    exists start, steps :: P.Created(start) && w == P.Reached(start, steps)
  }

  /** In some possible state with the loaded snapshot, a step commits these events and this snapshot. */
  ghost predicate Drives(basis: Snapshot, events: seq<EventKind>, next: Snapshot) {
    exists w, step :: StepWrites(w, step, basis, events, next)
  }

  ghost predicate StepWrites(w: P.World, step: P.Step, basis: Snapshot, events: seq<EventKind>, next: Snapshot) {
    && Possible(w) && !step.Retry? && w.snapshot == basis && next != basis
    && P.Next(w, step).snapshot == next && P.Next(w, step).log == w.log + (events + [RunStateProjected(next)])
  }

  /** Every write of the client is a step of the protocol on what it loaded; other transactions create
      Runs and update none. */
  ghost predicate Driven(w: World, op: ClientOp) {
    match op
    case Load(_, _) => true
    case Write(c, _, events, next) => c in w.loaded && Drives(w.loaded[c], events, next)
    case Submit(c, batch) =>
      c in w.loaded && batch.create.None? && batch.update.Some? && Drives(w.loaded[c], batch.events, batch.update.value)
    case Other(_) => Behaves(w, op)
  }

  lemma SameEvents(log: seq<EventKind>, a: seq<EventKind>, b: seq<EventKind>, last: EventKind)
    requires log + (a + [last]) == log + (b + [last])
    ensures a == b
  {
    assert (log + (a + [last]))[|log|..] == a + [last] && (log + (b + [last]))[|log|..] == b + [last];
    assert (a + [last])[..|a|] == a && (b + [last])[..|b|] == b;
  }

  lemma DrivesSucceeds(basis: Snapshot, events: seq<EventKind>, next: Snapshot)
    requires Drives(basis, events, next)
    ensures Succeeds(basis, next) && Unbound(events) && Unprojected(events)
  {
    var w, step :| StepWrites(w, step, basis, events, next);
    var start, steps :| P.Created(start) && w == P.Reached(start, steps);
    StepsSucceed(start, steps, step);
    var committed :| Commits(w, P.Next(w, step), committed);
    SameEvents(w.log, events, committed, RunStateProjected(next));
  }

  lemma DrivenBehaves(w: World, op: ClientOp)
    requires Driven(w, op)
    ensures Behaves(w, op)
  {
    match op
    case Write(c, _, events, next) => DrivesSucceeds(w.loaded[c], events, next);
    case Submit(c, batch) => DrivesSucceeds(w.loaded[c], batch.events, batch.update.value);
    case _ =>
  }

  ghost predicate AllDriven(w: World, ops: seq<ClientOp>)
    decreases |ops|
  {
    ops == [] || (Driven(w, ops[0]) && (Behaves(w, ops[0]) ==> AllDriven(Turn(w, ops[0]), ops[1..])))
  }

  lemma {:induction false} AllDrivenBehave(w: World, ops: seq<ClientOp>)
    requires AllDriven(w, ops)
    ensures AllBehave(w, ops)
    decreases |ops|
  {
    if ops != [] {
      DrivenBehaves(w, ops[0]);
      AllDrivenBehave(Turn(w, ops[0]), ops[1..]);
    }
  }

  /** From the empty store, when every update is a step of the protocol on what its client had loaded,
      however long ago: no update is lost, and a Run that has once been terminal stays terminal. */
  lemma DriversLoseNothing(ops: seq<ClientOp>)
    requires AllDriven(Nothing, ops)
    ensures AllBehave(Nothing, ops)
    ensures forall run | run in Played(Nothing, ops).db.runs :: NoneLost(Played(Nothing, ops), run)
  {
    AllDrivenBehave(Nothing, ops);
    NoUpdateIsLostFromStart(ops);
  }

  // ---------- the statuses that hold credentials ----------

  /** The provider tables follow a Run's history, snapshot by snapshot. */
  function Following(run: RunId, history: seq<Snapshot>): seq<PSteps.Op> {
    if history == [] then [] else [PSteps.AdvanceRun(run, history[0].status)] + Following(run, history[1..])
  }

  ghost predicate StaysTerminal(history: seq<Snapshot>) {
    forall i, j | 0 <= i < j < |history| :: history[i].status.Terminal() ==> history[j].status.Terminal()
  }

  /** Following a history that keeps terminal statuses, no move is ever refused, and the provider tables
      end with its last status. */
  lemma {:induction false} HistoryIsFollowed(db: PS.Db, run: RunId, history: seq<Snapshot>)
    requires history != [] && StaysTerminal(history) && run in db.runs && db.runs[run] == history[0].status
    ensures PSteps.After(db, Following(run, history[1..]))
            == db.(runs := db.runs[run := history[|history| - 1].status])
    decreases |history|
  {
    if |history| > 1 {
      var moved := PSteps.Step(db, PSteps.AdvanceRun(run, history[1].status));
      assert PS.MoveRun(db, run, history[1].status).result.Ok?;
      assert history[1..][1..] == history[2..];
      HistoryIsFollowed(moved, run, history[1..]);
      assert Following(run, history[1..])[1..] == Following(run, history[2..]);
      assert moved.runs[run := history[|history| - 1].status] == db.runs[run := history[|history| - 1].status];
    } else {
      assert db.runs[run := history[0].status] == db.runs;
    }
  }

  /** The snapshots of a Run from its creation on. */
  ghost function Lived(w: World, run: RunId): seq<Snapshot>
    requires Chained(History(w.db, run), Updates(w, run))
  {
    History(w.db, run)[|History(w.db, run)| - |Updates(w, run)| - 1..]
  }

  lemma WorldIsFollowed(w: World, run: RunId, db: PS.Db)
    requires NoneLost(w, run) && RunFits(w.db, run)
    requires run in db.runs && db.runs[run] == Lived(w, run)[0].status
    ensures PSteps.After(db, Following(run, Lived(w, run)[1..])) == db.(runs := db.runs[run := w.db.runs[run].status])
  {
    var history := Lived(w, run);
    assert StaysTerminal(history);
    HistoryIsFollowed(db, run, history);
    assert history[|history| - 1] == Latest(Log(w.db, run));
  }

  lemma PlayedFits(ops: seq<ClientOp>, run: RunId)
    requires AllBehave(Nothing, ops) && run in Played(Nothing, ops).db.runs
    ensures NoneLost(Played(Nothing, ops), run) && RunFits(Played(Nothing, ops).db, run)
  {
    EmptyWorld();
    NoUpdateIsLost(Nothing, ops);
  }

  /** So the provider tables never refuse what the Run store has committed: from the snapshot a Run was
      created with, they follow it to its current one. */
  lemma RunsAreFollowed(ops: seq<ClientOp>, run: RunId, db: PS.Db)
    requires AllDriven(Nothing, ops) && AllBehave(Nothing, ops) && run in Played(Nothing, ops).db.runs
    ensures NoneLost(Played(Nothing, ops), run)
    ensures var lived := Lived(Played(Nothing, ops), run);
            run in db.runs && db.runs[run] == lived[0].status ==>
              PSteps.After(db, Following(run, lived[1..]))
              == db.(runs := db.runs[run := Played(Nothing, ops).db.runs[run].status])
  {
    PlayedFits(ops, run);
    var w := Played(Nothing, ops);
    if run in db.runs && db.runs[run] == Lived(w, run)[0].status { WorldIsFollowed(w, run, db); }
  }
}
