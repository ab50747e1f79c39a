/** Any number of clients that load a snapshot and write its successor later: no update is lost. */
module RunClients {
  import opened Wrappers
  import opened RunTypes
  import opened RunStore
  import opened RunLog

  type ClientId = nat

  /** One committed update: the snapshot its client had loaded, and the one it wrote. */
  datatype Update = Update(basis: Snapshot, next: Snapshot)

  datatype World = World(db: Db, loaded: map<ClientId, Snapshot>, updates: map<RunId, seq<Update>>)

  datatype ClientOp =
    | Load(client: ClientId, run: RunId)
    | Write(writer: ClientId, artifacts: seq<Artifact>, events: seq<EventKind>, next: Snapshot)
    | Submit(submitter: ClientId, batch: Batch)
    | Other(op: Op)

  /** A client writes the successor of what it loaded; other transactions update no Run. */
  ghost predicate Behaves(w: World, op: ClientOp) {
    match op
    case Load(_, _) => true
    case Write(c, _, events, next) =>
      c in w.loaded && Succeeds(w.loaded[c], next) && Unbound(events) && Unprojected(events)
    case Submit(c, batch) =>
      && c in w.loaded && batch.create.None? && batch.update.Some? && Succeeds(w.loaded[c], batch.update.value)
      && Unbound(batch.events) && Unprojected(batch.events)
    case Other(op) => (op.Command? ==> op.batch.update.None?) && !op.Appending? && Honest(w.db, op)
  }

  ghost predicate Succeeds(basis: Snapshot, next: Snapshot) {
    && next.runId == basis.runId && next.taskId == basis.taskId && next.version == basis.version + 1
    && (basis.status.Terminal() ==> next.status.Terminal())
  }

  function Updates(w: World, run: RunId): seq<Update> {
    if run in w.updates then w.updates[run] else []
  }

  function Recorded(w: World, db: Db, update: Update): World {
    w.(db := db, updates := w.updates[update.next.runId := Updates(w, update.next.runId) + [update]])
  }

  ghost function Turn(w: World, op: ClientOp): World
    requires Behaves(w, op)
  {
    match op
    case Load(c, run) =>
      if run in w.db.runs && w.db.runs[run].cached.Some?
      then w.(loaded := w.loaded[c := w.db.runs[run].cached.value]) else w
    case Write(c, artifacts, events, next) =>
      var basis := w.loaded[c];
      var tx := Append(w.db, basis.runId, basis.version, artifacts, events, next);
      if tx.result.Ok? then Recorded(w, tx.db, Update(basis, next)) else w
    case Submit(c, batch) =>
      var tx := CommitCommand(w.db, batch);
      if tx.result.Ok? && batch.commandId !in w.db.receipts
      then Recorded(w, tx.db, Update(w.loaded[c], batch.update.value)) else w
    case Other(op) => w.(db := Step(w.db, op))
  }

  // ---------- the invariant ----------

  ghost function History(db: Db, run: RunId): seq<Snapshot> {
    Projections(Log(db, run))
  }

  /** What a client has loaded is one of the snapshots the Run went through. */
  ghost predicate Loaded(db: Db, s: Snapshot) {
    && s.runId in db.runs && 1 <= s.version <= |History(db, s.runId)|
    && History(db, s.runId)[s.version - 1] == s
  }

  /** The updates of a Run are the steps of its history after its creation: each was computed from
      the snapshot committed immediately before it. */
  ghost predicate Chained(history: seq<Snapshot>, updates: seq<Update>) {
    && |updates| < |history|
    && (forall i | 0 <= i < |updates| ::
          && updates[i].basis == history[|history| - |updates| + i - 1]
          && updates[i].next == history[|history| - |updates| + i])
  }

  /** From its creation on, a Run that has reached a terminal status keeps one. */
  ghost predicate TerminalStays(history: seq<Snapshot>, updates: seq<Update>)
    requires |updates| < |history|
  {
    forall i, j | |history| - |updates| - 1 <= i < j < |history| ::
      history[i].status.Terminal() ==> history[j].status.Terminal()
  }

  ghost predicate NoneLost(w: World, run: RunId) {
    && Chained(History(w.db, run), Updates(w, run))
    && TerminalStays(History(w.db, run), Updates(w, run))
  }

  ghost predicate LoadsKept(db: Db, loaded: map<ClientId, Snapshot>) {
    forall c | c in loaded :: Loaded(db, loaded[c])
  }

  ghost predicate LosesNothing(w: World) {
    && w.updates.Keys <= w.db.runs.Keys
    && (forall run | run in w.db.runs :: NoneLost(w, run))
  }

  ghost predicate WorldInv(w: World) {
    LogInv(w.db) && LoadsKept(w.db, w.loaded) && LosesNothing(w)
  }

  /** Only this Run's history grew, by one snapshot. */
  ghost predicate Grew(db: Db, after: Db, next: Snapshot) {
    && after.runs.Keys == db.runs.Keys && next.runId in db.runs
    && History(after, next.runId) == History(db, next.runId) + [next]
    && (forall run | run in db.runs && run != next.runId :: History(after, run) == History(db, run))
  }

  lemma ChainGrows(history: seq<Snapshot>, updates: seq<Update>, basis: Snapshot, next: Snapshot)
    requires Chained(history, updates) && TerminalStays(history, updates)
    requires basis == history[|history| - 1] && (basis.status.Terminal() ==> next.status.Terminal())
    ensures Chained(history + [next], updates + [Update(basis, next)])
    ensures TerminalStays(history + [next], updates + [Update(basis, next)])
  {
  }

  lemma LoadedStays(db: Db, after: Db, next: Snapshot, s: Snapshot)
    requires Grew(db, after, next) && Loaded(db, s)
    ensures Loaded(after, s)
  {
  }

  lemma UpdateKeeps(w: World, after: Db, basis: Snapshot, next: Snapshot)
    requires WorldInv(w) && LogInv(after) && Grew(w.db, after, next) && Succeeds(basis, next)
    requires History(w.db, next.runId) != [] && basis == History(w.db, next.runId)[|History(w.db, next.runId)| - 1]
    ensures WorldInv(Recorded(w, after, Update(basis, next)))
  {
    UpdateKeepsLoads(w, after, next);
    UpdateLosesNothing(w, after, basis, next);
  }

  lemma UpdateKeepsLoads(w: World, after: Db, next: Snapshot)
    requires LoadsKept(w.db, w.loaded) && Grew(w.db, after, next)
    ensures LoadsKept(after, w.loaded)
  {
    forall c | c in w.loaded ensures Loaded(after, w.loaded[c]) {
      LoadedStays(w.db, after, next, w.loaded[c]);
    }
  }

  lemma UpdateLosesNothing(w: World, after: Db, basis: Snapshot, next: Snapshot)
    requires LosesNothing(w) && Grew(w.db, after, next) && Succeeds(basis, next)
    requires History(w.db, next.runId) != [] && basis == History(w.db, next.runId)[|History(w.db, next.runId)| - 1]
    ensures LosesNothing(Recorded(w, after, Update(basis, next)))
  {
    forall run | run in after.runs ensures NoneLost(Recorded(w, after, Update(basis, next)), run) {
      NoneLostGrows(w, after, basis, next, run);
    }
  }

  lemma NoneLostGrows(w: World, after: Db, basis: Snapshot, next: Snapshot, run: RunId)
    requires NoneLost(w, run) && run in w.db.runs && Grew(w.db, after, next)
    requires basis.status.Terminal() ==> next.status.Terminal()
    requires History(w.db, next.runId) != [] && basis == History(w.db, next.runId)[|History(w.db, next.runId)| - 1]
    ensures NoneLost(Recorded(w, after, Update(basis, next)), run)
  {
    var turned := Recorded(w, after, Update(basis, next));
    if run == next.runId {
      ChainGrows(History(w.db, run), Updates(w, run), basis, next);
      assert Updates(turned, run) == Updates(w, run) + [Update(basis, next)];
    } else {
      assert Updates(turned, run) == Updates(w, run) && History(after, run) == History(w.db, run);
    }
  }

  lemma AppendedGrew(db: Db, basis: Snapshot, artifacts: seq<Artifact>, events: seq<EventKind>, next: Snapshot)
    requires RunFits(db, basis.runId) && basis.taskId == db.runs[basis.runId].cached.value.taskId
    requires db.tasks[basis.taskId].id == basis.taskId
    requires Succeeds(basis, next) && Unbound(events) && Unprojected(events)
    requires AppendRows(db, basis.runId, basis.version, artifacts, events, next).Ok?
    ensures var after := AppendRows(db, basis.runId, basis.version, artifacts, events, next).value;
            && after.runs.Keys == db.runs.Keys
            && History(after, basis.runId) == History(db, basis.runId) + [next]
            && (forall run | run in db.runs && run != basis.runId :: History(after, run) == History(db, run))
  {
    var run := basis.runId;
    AppendWrites(db, run, basis.version, artifacts, events, next);
    ExtendedFits(db.tasks[basis.taskId], run, db.logs[run], db.runs[run], events, next);
  }

  /** A snapshot of the Run's history with the cached version is the latest one. */
  lemma VersionDetermines(db: Db, s: Snapshot)
    requires LogInv(db) && Loaded(db, s) && db.runs[s.runId].version == s.version
    ensures RunFits(db, s.runId) && s == Latest(Log(db, s.runId)) && db.runs[s.runId].cached == Some(s)
  {
    assert RunFits(db, s.runId);
  }

  /** The version check makes the basis of a successful append the latest snapshot. */
  lemma AppendBuildsOnLatest(db: Db, basis: Snapshot, artifacts: seq<Artifact>, events: seq<EventKind>, next: Snapshot)
    requires LogInv(db) && Loaded(db, basis) && Succeeds(basis, next) && Unbound(events) && Unprojected(events)
    requires AppendRows(db, basis.runId, basis.version, artifacts, events, next).Ok?
    ensures var after := AppendRows(db, basis.runId, basis.version, artifacts, events, next).value;
            && basis == Latest(Log(db, basis.runId)) && LogInv(after) && Grew(db, after, next)
  {
    VersionDetermines(db, basis);
    AppendedGrew(db, basis, artifacts, events, next);
    AppendKeepsExactly(db, basis.runId, basis.version, artifacts, events, next);
  }

  /** A command that updates a Run is an append to it. */
  lemma SubmitBuildsOnLatest(db: Db, basis: Snapshot, batch: Batch)
    requires LogInv(db) && Loaded(db, basis) && batch.create.None? && batch.update.Some?
    requires Succeeds(basis, batch.update.value) && Unbound(batch.events) && Unprojected(batch.events)
    requires CommitCommand(db, batch).result.Ok? && batch.commandId !in db.receipts
    ensures basis == Latest(Log(db, basis.runId))
    ensures LogInv(CommitCommand(db, batch).db) && Grew(db, CommitCommand(db, batch).db, batch.update.value)
  {
    var next := batch.update.value;
    var stocked := Stocked(db, batch).value;
    PreparedSurrounds(db, batch);
    SurroundsKeeps(db, stocked);
    assert Loaded(stocked, basis);
    AppendBuildsOnLatest(stocked, basis, [], batch.events, next);
    var rows := BatchRows(db, batch).value;
    ReceiptsIrrelevant(rows, CommitCommand(db, batch).db);
  }

  /** A creation leaves the histories of the other Runs alone. */
  lemma CommandKeepsHistories(db: Db, batch: Batch)
    requires LogInv(db) && batch.update.None? && CommitCommand(db, batch).result.Ok? && batch.commandId !in db.receipts
    ensures var after := CommitCommand(db, batch).db;
            && db.runs.Keys <= after.runs.Keys
            && (forall run | run in db.runs :: History(after, run) == History(db, run))
  {
    PreparedSurrounds(db, batch);
    if batch.create.Some? {
      CreateWrites(db, batch);
    } else {
      assert BatchRows(db, batch).value.logs == db.logs;
    }
  }

  lemma OtherKeepsHistories(w: World, op: Op)
    requires WorldInv(w) && Behaves(w, Other(op))
    ensures LogInv(Step(w.db, op)) && w.db.runs.Keys <= Step(w.db, op).runs.Keys
    ensures forall run | run in w.db.runs :: History(Step(w.db, op), run) == History(w.db, run)
  {
    StepKeepsLog(w.db, op);
    if op.Command? && op.batch.commandId !in w.db.receipts && CommitCommand(w.db, op.batch).result.Ok? {
      CommandKeepsHistories(w.db, op.batch);
    }
  }

  lemma OtherKeeps(w: World, op: Op)
    requires WorldInv(w) && Behaves(w, Other(op))
    ensures WorldInv(Turn(w, Other(op)))
  {
    OtherKeepsHistories(w, op);
    OldHistoriesKeep(w, Step(w.db, op));
  }

  /** Nothing but new Runs has appeared in the histories. */
  lemma OldHistoriesKeep(w: World, after: Db)
    requires WorldInv(w) && LogInv(after) && w.db.runs.Keys <= after.runs.Keys
    requires forall run | run in w.db.runs :: History(after, run) == History(w.db, run)
    ensures WorldInv(w.(db := after))
  {
    forall c | c in w.loaded ensures Loaded(after, w.loaded[c]) {
      assert Loaded(w.db, w.loaded[c]);
    }
    forall run | run in after.runs ensures NoneLost(w.(db := after), run) {
      if run in w.db.runs { SameHistory(w, after, run); } else { NewHistory(w, after, run); }
    }
  }

  lemma SameHistory(w: World, after: Db, run: RunId)
    requires NoneLost(w, run) && History(after, run) == History(w.db, run)
    ensures NoneLost(w.(db := after), run)
  {
    assert Updates(w.(db := after), run) == Updates(w, run);
  }

  lemma NewHistory(w: World, after: Db, run: RunId)
    requires run !in w.updates && LogInv(after) && run in after.runs
    ensures NoneLost(w.(db := after), run)
  {
    assert RunFits(after, run);
    assert Updates(w.(db := after), run) == [];
  }

  /** A client that has committed the successor of what it loaded. */
  lemma CommittedKeeps(w: World, after: Db, basis: Snapshot, next: Snapshot)
    requires WorldInv(w) && LogInv(after) && Grew(w.db, after, next) && Succeeds(basis, next)
    requires |Projections(Log(w.db, basis.runId))| > 0 && basis == Latest(Log(w.db, basis.runId))
    ensures WorldInv(Recorded(w, after, Update(basis, next)))
  {
    UpdateKeeps(w, after, basis, next);
  }

  lemma WriteKeeps(w: World, op: ClientOp)
    requires WorldInv(w) && Behaves(w, op) && op.Write?
    ensures WorldInv(Turn(w, op))
  {
    var basis := w.loaded[op.writer];
    assert Loaded(w.db, basis);
    WriteTurn(w, op);
    var rows := AppendRows(w.db, basis.runId, basis.version, op.artifacts, op.events, op.next);
    if rows.Ok? {
      AppendBuildsOnLatest(w.db, basis, op.artifacts, op.events, op.next);
      CommittedKeeps(w, rows.value, basis, op.next);
    }
  }

  lemma WriteTurn(w: World, op: ClientOp)
    requires Behaves(w, op) && op.Write?
    ensures var basis := w.loaded[op.writer];
            var rows := AppendRows(w.db, basis.runId, basis.version, op.artifacts, op.events, op.next);
            Turn(w, op) == if rows.Ok? then Recorded(w, rows.value, Update(basis, op.next)) else w
  {
  }

  lemma SubmitTurn(w: World, op: ClientOp)
    requires Behaves(w, op) && op.Submit?
    ensures Turn(w, op)
            == if CommitCommand(w.db, op.batch).result.Ok? && op.batch.commandId !in w.db.receipts
               then Recorded(w, CommitCommand(w.db, op.batch).db, Update(w.loaded[op.submitter], op.batch.update.value))
               else w
  {
  }

  lemma SubmitKeeps(w: World, op: ClientOp)
    requires WorldInv(w) && Behaves(w, op) && op.Submit?
    ensures WorldInv(Turn(w, op))
  {
    SubmitTurn(w, op);
    if CommitCommand(w.db, op.batch).result.Ok? && op.batch.commandId !in w.db.receipts {
      SubmittedKeeps(w, w.loaded[op.submitter], op.batch);
    }
  }

  lemma SubmittedKeeps(w: World, basis: Snapshot, batch: Batch)
    requires WorldInv(w) && Loaded(w.db, basis) && batch.create.None? && batch.update.Some?
    requires Succeeds(basis, batch.update.value) && Unbound(batch.events) && Unprojected(batch.events)
    requires CommitCommand(w.db, batch).result.Ok? && batch.commandId !in w.db.receipts
    ensures WorldInv(Recorded(w, CommitCommand(w.db, batch).db, Update(basis, batch.update.value)))
  {
    SubmitBuildsOnLatest(w.db, basis, batch);
    CommittedKeeps(w, CommitCommand(w.db, batch).db, basis, batch.update.value);
  }

  lemma CachedIsLoaded(db: Db, run: RunId)
    requires LogInv(db) && run in db.runs
    ensures db.runs[run].cached.Some? && Loaded(db, db.runs[run].cached.value)
  {
    assert RunFits(db, run);
  }

  lemma LoadingLosesNone(w: World, loaded: map<ClientId, Snapshot>)
    requires LosesNothing(w)
    ensures LosesNothing(w.(loaded := loaded))
  {
    forall run | run in w.db.runs ensures NoneLost(w.(loaded := loaded), run) {
      assert NoneLost(w, run) && Updates(w.(loaded := loaded), run) == Updates(w, run);
    }
  }

  lemma LoadedGrows(w: World, c: ClientId, s: Snapshot)
    requires WorldInv(w) && Loaded(w.db, s)
    ensures WorldInv(w.(loaded := w.loaded[c := s]))
  {
    LoadingLosesNone(w, w.loaded[c := s]);
    LoadingKeepsLoads(w.db, w.loaded, c, s);
  }

  lemma LoadingKeepsLoads(db: Db, loaded: map<ClientId, Snapshot>, c: ClientId, s: Snapshot)
    requires LoadsKept(db, loaded) && Loaded(db, s)
    ensures LoadsKept(db, loaded[c := s])
  {
  }

  lemma LoadKeeps(w: World, op: ClientOp)
    requires WorldInv(w) && op.Load?
    ensures WorldInv(Turn(w, op))
  {
    if op.run in w.db.runs {
      CachedIsLoaded(w.db, op.run);
      LoadedGrows(w, op.client, w.db.runs[op.run].cached.value);
    }
  }

  lemma TurnKeeps(w: World, op: ClientOp)
    requires WorldInv(w) && Behaves(w, op)
    ensures WorldInv(Turn(w, op))
  {
    match op
    case Load(_, _) => LoadKeeps(w, op);
    case Write(_, _, _, _) => WriteKeeps(w, op);
    case Submit(_, _) => SubmitKeeps(w, op);
    case Other(other) => OtherKeeps(w, other);
  }

  // ---------- every interleaving ----------

  ghost predicate AllBehave(w: World, ops: seq<ClientOp>)
    decreases |ops|
  {
    ops == [] || (Behaves(w, ops[0]) && AllBehave(Turn(w, ops[0]), ops[1..]))
  }

  ghost function Played(w: World, ops: seq<ClientOp>): World
    requires AllBehave(w, ops)
    decreases |ops|
  {
    if ops == [] then w else Played(Turn(w, ops[0]), ops[1..])
  }

  /** In every interleaving of loads, appends, commands and creations, each committed update was
      computed from the snapshot committed immediately before it, and a Run that has once been
      terminal is terminal in every later snapshot. */
  lemma {:induction false} NoUpdateIsLost(w: World, ops: seq<ClientOp>)
    requires WorldInv(w) && AllBehave(w, ops)
    ensures WorldInv(Played(w, ops))
    ensures forall run | run in Played(w, ops).db.runs :: NoneLost(Played(w, ops), run)
    decreases |ops|
  {
    if ops != [] {
      TurnKeeps(w, ops[0]);
      NoUpdateIsLost(Turn(w, ops[0]), ops[1..]);
    }
  }

  /** No table has a row, and nobody has loaded anything. */
  const Nothing := World(EmptyDb, map[], map[])

  lemma EmptyWorld()
    ensures WorldInv(Nothing)
  {
  }

  /** The same from the empty store. */
  lemma NoUpdateIsLostFromStart(ops: seq<ClientOp>)
    requires AllBehave(Nothing, ops)
    ensures forall run | run in Played(Nothing, ops).db.runs :: NoneLost(Played(Nothing, ops), run)
  {
    EmptyWorld();
    NoUpdateIsLost(Nothing, ops);
  }
}
