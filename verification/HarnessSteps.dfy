/** The harness against the Run store: each step loads the Run and commits its appends in order, while
    other clients may commit in between. Every append leaves in the store exactly the state that the
    protocol's steps describe, or nothing. */
module HarnessSteps {
  import opened Wrappers
  import opened RunStatuses
  import opened RunTypes
  import opened RunStore
  import opened RunLog
  import opened RunCommands
  import opened RunRepository
  import P = RecoveryProtocol
  import opened RecoveryStore

  /** What is logged when a call that the policy allows is started. */
  function Starting(call: ToolCall, cost: CostClass): (events: seq<EventKind>)
    ensures events == [ToolCallProposed(call), PolicyEvaluated(call.id, Allow), ToolExecutionStarted(call.id, cost)]
  {
    P.Started(call, cost)
  }

  /** The artifacts a call produced, and then how it ended: with success exactly when its outcome is one. */
  function Ending(id: CallId, outcome: P.Outcome, artifacts: seq<Artifact>): (events: seq<EventKind>)
    ensures |events| == |artifacts| + 1
    ensures forall i | 0 <= i < |artifacts| :: events[i] == ArtifactCreated(artifacts[i].id)
    ensures events[|artifacts|] == ToolExecutionSucceeded(id) <==> outcome.ToolSucceeded?
    ensures outcome.ToolFailed? ==> events[|artifacts|] == ToolExecutionFailed(id, outcome.failure)
  {
    P.Artifacts(Ids(artifacts)) + [Terminal(id, outcome)]
  }

  lemma ArtifactsAreQuiet(artifacts: seq<ArtifactId>, terminal: EventKind)
    requires !terminal.ProviderBound? && !terminal.RunStateProjected?
    ensures Unbound(P.Artifacts(artifacts) + [terminal]) && Unprojected(P.Artifacts(artifacts) + [terminal])
  {
  }

  function Terminal(id: CallId, outcome: P.Outcome): EventKind {
    if outcome.ToolSucceeded? then ToolExecutionSucceeded(id) else ToolExecutionFailed(id, outcome.failure)
  }

  /** A queued call without a recorded cost counts as one of unknown cost. */
  function CostOf(state: WorkflowState): (cost: CostClass)
    ensures state.pendingCost == Some(cost) || (state.pendingCost.None? && cost.Unknown?)
  {
    if state.pendingCost.Some? then state.pendingCost.value else Unknown
  }

  function Ids(artifacts: seq<Artifact>): (ids: seq<ArtifactId>)
    ensures |ids| == |artifacts| && forall i | 0 <= i < |ids| :: ids[i] == artifacts[i].id
  {
    if artifacts == [] then [] else [artifacts[0].id] + Ids(artifacts[1..])
  }

  /** A snapshot of this Run that is current if its version is. */
  ghost predicate LoadedFrom(current: Snapshot, w: P.World) {
    && current.runId == w.snapshot.runId && current.taskId == w.snapshot.taskId
    && (current.version == w.snapshot.version ==> current == w.snapshot)
  }

  lemma FinishIs(w: P.World, outcome: P.Outcome, artifacts: seq<ArtifactId>, rest: string)
    requires w.driver.ToolPending? && w.driver.toolVersion == w.snapshot.version
    ensures P.DriverStep(w, P.FinishTool(outcome, artifacts, rest))
            == P.Commit(w, P.Artifacts(artifacts) + [Terminal(w.driver.call, outcome)],
                        P.NextSnapshot(w.snapshot, Running, w.snapshot.state.(rest := rest), None,
                                       w.snapshot.primaryArtifact),
                        P.AtLoop)
  {
  }

  lemma RequestIs(w: P.World, manifest: ArtifactId)
    requires P.AtWork(w) && P.NoRecoveredCall(w)
    ensures var next := P.NextSnapshot(w.snapshot, Running, w.snapshot.state, None, w.snapshot.primaryArtifact);
            var driver := P.ModelPending(next.version, w.nextModel);
            var events := [StepStarted("query::model"), ArtifactCreated(manifest), ModelRequested(w.nextModel)];
            var after := P.DriverStep(w, P.RequestModel(manifest));
            after.log == P.Commit(w, events, next, driver).log && after.snapshot == next && after.driver == driver
  {
  }

  lemma ToolStartedIs(w: P.World, call: ToolCall, cost: CostClass)
    requires P.ModelAnswers(w) && call.id == w.nextCall
    ensures var next := P.NextSnapshot(w.snapshot, Running, w.snapshot.state, None, w.snapshot.primaryArtifact);
            var driver := P.ToolPending(next.version, call.id);
            var committed := P.Commit(w, [ModelResponded(w.driver.modelCall)] + P.Started(call, cost), next, driver);
            var after := P.DriverStep(w, P.StartTool(call.name, call.arguments, call.version, cost));
            after.log == committed.log && after.snapshot == next && after.driver == driver
  {
  }

  lemma StartedIs(w: P.World)
    requires P.AtWork(w) && w.snapshot.state.pendingCall.Some?
    ensures var s := w.snapshot.state;
            var cost := if s.pendingCost.Some? then s.pendingCost.value else Unknown;
            var next := P.NextSnapshot(w.snapshot, Running, P.Taken(s), None, w.snapshot.primaryArtifact);
            var driver := P.ToolPending(next.version, s.pendingCall.value.id);
            var committed := P.Commit(w, P.Started(s.pendingCall.value, cost), next, driver);
            var after := P.DriverStep(w, P.StartRecovered);
            after.log == committed.log && after.snapshot == next && after.driver == driver
  {
  }

  lemma FailIs(w: P.World, code: string)
    requires w.driver.Failing?
    ensures P.DriverStep(w, P.FailTerminal(code))
            == P.Commit(w, [RunFailed(code)],
                        P.NextSnapshot(w.snapshot, Failed, w.snapshot.state, None, w.snapshot.primaryArtifact), P.Idle)
  {
  }

  /** An append without artifacts stores none. */
  lemma ArtifactsKept(db: Db, run: RunId, expected: nat, events: seq<EventKind>, next: Snapshot)
    ensures Append(db, run, expected, [], events, next).db.artifacts == db.artifacts
  {
  }

  lemma SameNew(db: Db, later: Db, run: RunId, task: TaskId, artifacts: seq<Artifact>)
    requires later.artifacts == db.artifacts
    ensures NewArtifacts(later, run, task, artifacts) <==> NewArtifacts(db, run, task, artifacts)
  {
  }

  /** The tables after a commit show the log grown by its events. */
  lemma ShownGrows(db: Db, after: Db, run: RunId, w: P.World, events: seq<EventKind>, next: Snapshot, driver: P.Driver)
    requires Shows(db, run, w) && Shows(after, run, P.Commit(w, events, next, driver))
    ensures run in after.runs && after.runs[run].cached == Some(next)
    ensures Kinds(Log(after, run)) == Kinds(Log(db, run)) + events + [RunStateProjected(next)]
  {
  }

  class Harness {
    const store: SqliteRuntimeStore

    constructor (store: SqliteRuntimeStore)
      ensures this.store == store
    {
      this.store := store;
    }

    /** The store holds this state of the Run, and its invariant holds. */
    ghost predicate Holds(run: RunId, w: P.World)
      reads store
    {
      LogInv(store.Tables()) && Shows(store.Tables(), run, w) && w.snapshot.runId == run
    }

    /** The kinds of the Run's logged events. */
    ghost function Events(run: RunId): seq<EventKind>
      reads store
    {
      Kinds(Log(store.Tables(), run))
    }

    /** One append has added these events and the projection of this snapshot, which the row now holds. */
    ghost predicate Grew(run: RunId, before: seq<EventKind>, added: seq<EventKind>, next: Snapshot)
      reads store
    {
      && run in store.runs && store.runs[run].cached == Some(next)
      && Events(run) == before + added + [RunStateProjected(next)]
    }

    ghost predicate New(run: RunId, task: TaskId, artifacts: seq<Artifact>)
      reads store
    {
      NewArtifacts(store.Tables(), run, task, artifacts)
    }

    /** One append under the version that was loaded: it applies exactly when nobody has committed
        since and its artifacts are new and of the Run, and otherwise changes nothing. */
    method Append(run: RunId, current: Snapshot, artifacts: seq<Artifact>, events: seq<EventKind>, next: Snapshot,
                  ghost w: P.World, ghost driver: P.Driver) returns (applied: bool)
      requires Holds(run, w) && Unbound(events) && Unprojected(events)
      requires next.runId == run && next.version == current.version + 1 && next.taskId == w.snapshot.taskId
      modifies store
      ensures applied <==> current.version == w.snapshot.version && old(New(run, next.taskId, artifacts))
      ensures applied ==> Holds(run, P.Commit(w, events, next, driver)) && Holding(store.Tables(), artifacts)
      ensures applied ==> Grew(run, old(Events(run)), events, next)
      ensures !applied ==> store.Tables() == old(store.Tables())
      ensures artifacts == [] ==> store.artifacts == old(store.artifacts)
    {
      if artifacts == [] { ArtifactsKept(store.Tables(), run, current.version, events, next); }
      CommitIsAppend(store.Tables(), run, w, current.version, artifacts, events, next, driver);
      ghost var before := store.Tables();
      var result := store.Append(run, current.version, artifacts, events, next);
      applied := result.Ok?;
      if applied { ShownGrows(before, store.Tables(), run, w, events, next, driver); }
    }

    /** Asks the model, after recording the request. When somebody has committed since the Run was
        loaded, or the manifest's artifact is not new, nothing is recorded. */
    method RequestModel(run: RunId, current: Snapshot, manifest: Artifact, modelCall: nat, ghost w: P.World)
      returns (applied: bool, started: Snapshot)
      requires Holds(run, w) && LoadedFrom(current, w) && modelCall == w.nextModel
      requires current == w.snapshot ==> P.AtWork(w) && P.NoRecoveredCall(w)
      modifies store
      ensures applied <==> current.version == w.snapshot.version && old(New(run, current.taskId, [manifest]))
      ensures applied ==> Holds(run, P.DriverStep(w, P.RequestModel(manifest.id)))
      ensures applied ==> started == P.DriverStep(w, P.RequestModel(manifest.id)).snapshot
      ensures started == current.(status := Running, version := current.version + 1, wait := None)
      ensures applied ==> Grew(run, old(Events(run)),
                               [StepStarted("query::model"), ArtifactCreated(manifest.id), ModelRequested(modelCall)],
                               started)
      ensures !applied ==> store.Tables() == old(store.Tables())
    {
      if current == w.snapshot { RequestIs(w, manifest.id); }
      started := P.NextSnapshot(current, Running, current.state, None, current.primaryArtifact);
      var events := [StepStarted("query::model"), ArtifactCreated(manifest.id), ModelRequested(modelCall)];
      applied := Append(run, current, [manifest], events, started, w, P.ModelPending(started.version, modelCall));
    }

    /** Starts a tool call that passed the policy. An overtaken append records nothing. */
    method StartTool(run: RunId, started: Snapshot, modelCall: nat, call: ToolCall, cost: CostClass, ghost w: P.World)
      returns (applied: bool, running: Snapshot)
      requires Holds(run, w) && LoadedFrom(started, w) && w.driver == P.ModelPending(started.version, modelCall)
      requires call.id == w.nextCall
      modifies store
      ensures applied <==> P.ModelAnswers(w)
      ensures Holds(run, P.DriverStep(w, P.StartTool(call.name, call.arguments, call.version, cost)))
      ensures applied ==>
                running == P.DriverStep(w, P.StartTool(call.name, call.arguments, call.version, cost)).snapshot
      ensures applied ==> P.DriverStep(w, P.StartTool(call.name, call.arguments, call.version, cost)).driver
                          == P.ToolPending(running.version, call.id)
      ensures running == started.(status := Running, version := started.version + 1, wait := None)
      ensures applied ==> Grew(run, old(Events(run)), [ModelResponded(modelCall)] + Starting(call, cost), running)
      ensures !applied ==> store.Tables() == old(store.Tables())
      ensures store.artifacts == old(store.artifacts)
    {
      if P.ModelAnswers(w) { ToolStartedIs(w, call, cost); }
      var events := [ModelResponded(modelCall)] + P.Started(call, cost);
      running := P.NextSnapshot(started, Running, started.state, None, started.primaryArtifact);
      applied := Append(run, started, [], events, running, w, P.ToolPending(running.version, call.id));
    }

    /** Records the outcome of the started call, after the artifacts it produced. When somebody has
        committed since the call was started, or an artifact is not new, nothing is recorded. */
    method FinishTool(run: RunId, running: Snapshot, id: CallId, outcome: P.Outcome, artifacts: seq<Artifact>,
                      rest: string,
                      ghost w: P.World) returns (applied: bool)
      requires Holds(run, w) && LoadedFrom(running, w) && w.driver == P.ToolPending(running.version, id)
      modifies store
      ensures applied <==> running.version == w.snapshot.version && old(New(run, running.taskId, artifacts))
      ensures applied ==> Holds(run, P.DriverStep(w, P.FinishTool(outcome, Ids(artifacts), rest)))
      ensures applied ==> Holding(store.Tables(), artifacts)
      ensures applied ==>
                Grew(run, old(Events(run)), Ending(id, outcome, artifacts),
                     running.(status := Running, version := running.version + 1,
                              state := running.state.(rest := rest), wait := None))
      ensures !applied ==> store.Tables() == old(store.Tables())
    {
      if running.version == w.snapshot.version { FinishIs(w, outcome, Ids(artifacts), rest); }
      var events := Ending(id, outcome, artifacts);
      ArtifactsAreQuiet(Ids(artifacts), Terminal(id, outcome));
      var next := P.NextSnapshot(running, Running, running.state.(rest := rest), None, running.primaryArtifact);
      applied := Append(run, running, artifacts, events, next, w, P.AtLoop);
    }

    /** Runs a tool call that passed the policy: it is started in one append, and its outcome and the
        artifacts it produced follow in another. */
    method RunTool(run: RunId, started: Snapshot, modelCall: nat, call: ToolCall, cost: CostClass, outcome: P.Outcome,
                   artifacts: seq<Artifact>, rest: string, ghost w: P.World) returns (finished: bool)
      requires Holds(run, w) && P.ModelAnswers(w) && started == w.snapshot
      requires modelCall == w.driver.modelCall && call.id == w.nextCall
      modifies store
      ensures finished <==> old(New(run, started.taskId, artifacts))
      ensures var begun := P.DriverStep(w, P.StartTool(call.name, call.arguments, call.version, cost));
              Holds(run, if finished then P.DriverStep(begun, P.FinishTool(outcome, Ids(artifacts), rest)) else begun)
      ensures var running := started.(status := Running, version := started.version + 1, wait := None);
              var starting := [ModelResponded(modelCall)] + Starting(call, cost);
              if !finished then Grew(run, old(Events(run)), starting, running)
              else Grew(run, old(Events(run)) + starting + [RunStateProjected(running)],
                        Ending(call.id, outcome, artifacts),
                        running.(version := running.version + 1, state := running.state.(rest := rest)))
      ensures finished ==> Holding(store.Tables(), artifacts)
    {
      ghost var begun := P.DriverStep(w, P.StartTool(call.name, call.arguments, call.version, cost));
      ghost var isNew := New(run, w.snapshot.taskId, artifacts);
      var applied, running := StartTool(run, started, modelCall, call, cost, w);
      assert running.taskId == w.snapshot.taskId && Holds(run, begun);
      SameNew(old(store.Tables()), store.Tables(), run, w.snapshot.taskId, artifacts);
      assert New(run, w.snapshot.taskId, artifacts) == isNew;
      finished := FinishTool(run, running, call.id, outcome, artifacts, rest, begun);
    }

    /** Takes the recovered call out of the workflow state, with its grant, and starts it; the append
        that starts the call uses the grant up. An overtaken append records nothing. */
    method StartRecovered(run: RunId, current: Snapshot, ghost w: P.World)
      returns (applied: bool, running: Snapshot, call: ToolCall, confirmationGranted: bool)
      requires Holds(run, w) && LoadedFrom(current, w) && current.state.pendingCall.Some?
      requires current == w.snapshot ==> P.AtWork(w)
      modifies store
      ensures applied <==> current.version == w.snapshot.version
      ensures applied ==>
                Holds(run, P.DriverStep(w, P.StartRecovered)) && running == P.DriverStep(w, P.StartRecovered).snapshot
      ensures applied ==> P.DriverStep(w, P.StartRecovered).driver == P.ToolPending(running.version, call.id)
      ensures !applied ==> store.Tables() == old(store.Tables())
      ensures call == current.state.pendingCall.value && confirmationGranted == current.state.granted
      ensures running == current.(status := Running, version := current.version + 1, wait := None,
                                  state := current.state.(pendingCall := None, pendingCost := None, granted := false))
      ensures applied ==> Grew(run, old(Events(run)), Starting(call, CostOf(current.state)), running)
      ensures store.artifacts == old(store.artifacts)
    {
      if current == w.snapshot { StartedIs(w); }
      var state := current.state;
      call := state.pendingCall.value;
      state := state.(pendingCall := None);
      var cost := if state.pendingCost.Some? then state.pendingCost.value else Unknown;
      state := state.(pendingCost := None);
      confirmationGranted := state.granted;
      state := state.(granted := false);
      running := P.NextSnapshot(current, Running, state, None, current.primaryArtifact);
      applied := Append(run, current, [], P.Started(call, cost), running, w, P.ToolPending(running.version, call.id));
    }

    /** Runs the recovered call, in the same two appends as any other. */
    method RecoveredToolStep(run: RunId, current: Snapshot, outcome: P.Outcome, artifacts: seq<Artifact>, rest: string,
                             ghost w: P.World) returns (finished: bool, confirmationGranted: bool)
      requires Holds(run, w) && P.AtWork(w) && current == w.snapshot && current.state.pendingCall.Some?
      modifies store
      ensures finished <==> old(New(run, current.taskId, artifacts))
      ensures var begun := P.DriverStep(w, P.StartRecovered);
              Holds(run, if finished then P.DriverStep(begun, P.FinishTool(outcome, Ids(artifacts), rest)) else begun)
      ensures confirmationGranted == current.state.granted
      ensures var call := current.state.pendingCall.value;
              var running := current.(status := Running, version := current.version + 1, wait := None,
                                      state := current.state.(pendingCall := None, pendingCost := None,
                                                              granted := false));
              var starting := Starting(call, CostOf(current.state));
              if !finished then Grew(run, old(Events(run)), starting, running)
              else Grew(run, old(Events(run)) + starting + [RunStateProjected(running)],
                        Ending(call.id, outcome, artifacts),
                        running.(version := running.version + 1, state := running.state.(rest := rest)))
      ensures finished ==> Holding(store.Tables(), artifacts)
    {
      ghost var begun := P.DriverStep(w, P.StartRecovered);
      ghost var isNew := New(run, w.snapshot.taskId, artifacts);
      var applied, running, call, granted := StartRecovered(run, current, w);
      assert running.taskId == w.snapshot.taskId && Holds(run, begun);
      SameNew(old(store.Tables()), store.Tables(), run, w.snapshot.taskId, artifacts);
      assert New(run, w.snapshot.taskId, artifacts) == isNew;
      finished := FinishTool(run, running, call.id, outcome, artifacts, rest, begun);
      confirmationGranted := granted;
    }

    /** Fails the Run in whatever status it was loaded, unless somebody has committed since. */
    method FailTerminal(run: RunId, current: Snapshot, code: string, ghost w: P.World)
      returns (applied: bool, failed: Snapshot)
      requires Holds(run, w) && LoadedFrom(current, w) && w.driver.Failing?
      modifies store
      ensures applied <==> current.version == w.snapshot.version
      ensures Holds(run, P.DriverStep(w, if applied then P.FailTerminal(code) else P.FailLost))
      ensures !applied ==> store.Tables() == old(store.Tables())
      ensures failed == current.(status := Failed, version := current.version + 1, wait := None)
      ensures applied ==> Grew(run, old(Events(run)), [RunFailed(code)], failed)
    {
      failed := P.NextSnapshot(current, Failed, current.state, None, current.primaryArtifact);
      if current == w.snapshot { FailIs(w, code); }
      applied := Append(run, current, [], [RunFailed(code)], failed, w, P.Idle);
    }
  }
}
