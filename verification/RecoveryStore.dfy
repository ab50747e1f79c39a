/** The protocol's commits are appends of the Run store, and the version a driver holds is what makes
    an overtaken append fail. */
module RecoveryStore {
  import opened Wrappers
  import opened RunTypes
  import opened RunStore
  import opened RunLog
  import opened RunCommands
  import P = RecoveryProtocol

  function Kinds(log: seq<Envelope>): (kinds: seq<EventKind>)
    ensures |kinds| == |log| && forall i | 0 <= i < |log| :: kinds[i] == log[i].kind
  {
    if log == [] then [] else [log[0].kind] + Kinds(log[1..])
  }

  /** The tables hold this state of the Run. */
  ghost predicate Shows(db: Db, run: RunId, w: P.World) {
    && run in db.runs && db.runs[run].cached == Some(w.snapshot)
    && Kinds(Log(db, run)) == w.log
  }

  lemma {:induction false} KindsAppend(a: seq<Envelope>, b: seq<Envelope>)
    ensures Kinds(a + b) == Kinds(a) + Kinds(b)
  {
  }

  lemma SealedKinds(task: Task, run: RunId, last: nat, kinds: seq<EventKind>)
    ensures Kinds(Sealed(task, run, last, kinds)) == kinds
  {
  }

  /** The artifacts of an append are stored with it. */
  ghost predicate Holding(db: Db, artifacts: seq<Artifact>) {
    forall i | 0 <= i < |artifacts| :: artifacts[i].id in db.artifacts && db.artifacts[artifacts[i].id] == artifacts[i]
  }

  lemma AppendHolds(db: Db, run: RunId, expected: nat, artifacts: seq<Artifact>, events: seq<EventKind>, next: Snapshot)
    requires AppendRows(db, run, expected, artifacts, events, next).Ok?
    ensures Holding(AppendRows(db, run, expected, artifacts, events, next).value, artifacts)
  {
    ArtifactsStored(db, run, next.taskId, artifacts);
  }

  lemma MatchingAppend(db: Db, run: RunId, w: P.World, artifacts: seq<Artifact>, events: seq<EventKind>, next: Snapshot,
                       driver: P.Driver)
    requires LogInv(db) && Shows(db, run, w) && NewArtifacts(db, run, next.taskId, artifacts)
    requires next.runId == run && next.version == w.snapshot.version + 1 && next.taskId == w.snapshot.taskId
    requires Unbound(events) && Unprojected(events)
    ensures var tx := Append(db, run, w.snapshot.version, artifacts, events, next);
            tx.result.Ok? && LogInv(tx.db) && Shows(tx.db, run, P.Commit(w, events, next, driver))
            && Holding(tx.db, artifacts)
  {
    assert RunFits(db, run);
    AppendSucceedsExactly(db, run, w.snapshot.version, artifacts, events, next);
    AppendHolds(db, run, w.snapshot.version, artifacts, events, next);
    AppendKeepsExactly(db, run, w.snapshot.version, artifacts, events, next);
    AppendShows(db, run, w, artifacts, events, next, driver);
  }

  lemma AppendShows(db: Db, run: RunId, w: P.World, artifacts: seq<Artifact>, events: seq<EventKind>, next: Snapshot,
                    driver: P.Driver)
    requires RunFits(db, run) && Shows(db, run, w)
    requires AppendRows(db, run, w.snapshot.version, artifacts, events, next).Ok?
    ensures Shows(AppendRows(db, run, w.snapshot.version, artifacts, events, next).value, run,
                  P.Commit(w, events, next, driver))
  {
    AppendWrites(db, run, w.snapshot.version, artifacts, events, next);
    var task := db.tasks[db.runs[run].cached.value.taskId];
    var sealed := Sealed(task, run, |db.logs[run]|, events + [RunStateProjected(next)]);
    KindsAppend(db.logs[run], sealed);
    SealedKinds(task, run, |db.logs[run]|, events + [RunStateProjected(next)]);
  }

  /** An append by a client that holds some version succeeds exactly when nobody has committed since and
      its artifacts are new and of its Run and task; then the tables hold the protocol's next state and
      the artifacts. Otherwise they are unchanged, and an overtaken client is told of the conflict. */
  lemma CommitIsAppend(db: Db, run: RunId, w: P.World, held: nat, artifacts: seq<Artifact>, events: seq<EventKind>,
                       next: Snapshot, driver: P.Driver)
    requires LogInv(db) && Shows(db, run, w)
    requires next.runId == run && next.version == held + 1 && next.taskId == w.snapshot.taskId
    requires Unbound(events) && Unprojected(events)
    ensures var tx := Append(db, run, held, artifacts, events, next);
            if held != w.snapshot.version then tx == Tx(db, Err(ConcurrencyConflict(run)))
            else if NewArtifacts(db, run, next.taskId, artifacts)
            then tx.result.Ok? && LogInv(tx.db) && Shows(tx.db, run, P.Commit(w, events, next, driver))
                 && Holding(tx.db, artifacts)
            else tx.result.Err? && tx.db == db
  {
    assert RunFits(db, run);
    if held == w.snapshot.version {
      if NewArtifacts(db, run, next.taskId, artifacts) {
        MatchingAppend(db, run, w, artifacts, events, next, driver);
      } else {
        AppendSucceedsExactly(db, run, held, artifacts, events, next);
      }
    }
  }

  /** Rebuilding the Run from its log yields the protocol's snapshot and writes nothing. */
  lemma ReconstructShows(db: Db, run: RunId, w: P.World)
    requires LogInv(db) && Shows(db, run, w)
    ensures Reconstruct(db, run) == Tx(db, Ok(w.snapshot))
  {
    ReconstructRestores(db, run, db.runs[run]);
  }
}
