/** Publication of a workspace identifier by any number of processes, each of which may stop at any
    point: a lock, temporary files, and a hard link that appears at once or not at all. */
module WorkspacePublication {
  import opened Wrappers

  type WorkspaceId = nat
  type ProcessId = nat

  /** What a file holds: nothing usable yet, or one identifier. */
  datatype Content = Partial | Complete(id: WorkspaceId)

  datatype Error = Malformed | StorageFailure

  function LoadId(file: Option<Content>): Result<Option<WorkspaceId>, Error> {
    match file
    case None => Ok(None)
    case Some(Partial) => Err(Malformed)
    case Some(Complete(id)) => Ok(Some(id))
  }

  /** The identifier that must be there. */
  function Found(loaded: Result<Option<WorkspaceId>, Error>): Result<WorkspaceId, Error> {
    match loaded
    case Ok(Some(id)) => Ok(id)
    case Ok(None) => Err(StorageFailure)
    case Err(error) => Err(error)
  }

  // ---------- one process alone ----------

  /** Which filesystem calls fail. */
  datatype Faults = Faults(sweep: bool, create: bool, write: bool, link: bool, sync: bool, remove: bool)

  class WorkspaceDirectory {
    var published: Option<Content>
    var temporaries: map<WorkspaceId, Content>

    constructor ()
      ensures published == None && temporaries == map[]
    {
      published, temporaries := None, map[];
    }

    /** Removes every temporary file that an earlier process left behind. */
    method RecoverTemporaryFiles(fails: bool) returns (ok: bool)
      modifies this`temporaries
      ensures temporaries.Keys <= old(temporaries.Keys)
      ensures ok ==> temporaries == map[]
      ensures !fails ==> ok
    {
      var remaining := temporaries.Keys;
      while remaining != {}
        invariant remaining <= temporaries.Keys == remaining
        invariant temporaries.Keys <= old(temporaries.Keys)
        decreases |remaining|
      {
        var name :| name in remaining;
        if fails { return false; }
        temporaries := temporaries - {name};
        remaining := remaining - {name};
      }
      return true;
    }

    /** Resolves the identifier while holding the lock; `newId` names no temporary file. Whatever call
        fails, a published identifier stays; on success it is the published one, and no temporary file
        is left. */
    method Resolve(newId: WorkspaceId, faults: Faults) returns (result: Result<WorkspaceId, Error>)
      modifies this
      ensures old(published).Some? ==> published == old(published)
      ensures published == old(published) || published == Some(Complete(newId))
      ensures result.Ok? ==> published == Some(Complete(result.value)) && temporaries == map[]
      ensures published == Some(Partial) ==> result == Err(Malformed)
      ensures published != Some(Partial) && faults == Faults(false, false, false, false, false, false) ==> result.Ok?
    {
      var loaded := LoadId(published);
      if loaded.Err? { return Err(loaded.error); }
      var swept := RecoverTemporaryFiles(faults.sweep);
      if !swept { return Err(StorageFailure); }
      if loaded.value.Some? { return Ok(loaded.value.value); }
      loaded := LoadId(published);
      if loaded != Ok(None) { return Found(loaded); }

      if faults.create { return Err(StorageFailure); }
      temporaries := temporaries[newId := Partial];
      if faults.write {
        if !faults.remove { temporaries := temporaries - {newId}; }
        return Err(StorageFailure);
      }
      temporaries := temporaries[newId := Complete(newId)];
      if !faults.link && published.None? {
        published := Some(temporaries[newId]);
        if faults.remove { return Err(StorageFailure); }
        temporaries := temporaries - {newId};
        if faults.sync { return Err(StorageFailure); }
        return Ok(newId);
      }
      if faults.remove { return Err(StorageFailure); }
      temporaries := temporaries - {newId};
      if faults.link { return Err(StorageFailure); }
      return Found(LoadId(published));
    }
  }

  // ---------- every process ----------

  /** Where the process that holds the lock is. */
  datatype Stage =
    | Loading
    | Sweeping(found: Option<WorkspaceId>, remaining: set<WorkspaceId>)
    | LoadingAgain
    | Creating
    | Writing(written: WorkspaceId)
    | Linking(linked: WorkspaceId)
    | Removing(temporary: WorkspaceId, outcome: Option<WorkspaceId>)
    | Reloading(overtaken: WorkspaceId)
    | LoadingLast
    | Returning(id: WorkspaceId)

  datatype Holder = Holder(process: ProcessId, stage: Stage)

  /** A successful call, with the temporary files that existed when it released the lock. */
  datatype Success = Success(process: ProcessId, id: WorkspaceId, left: set<WorkspaceId>)

  datatype World = World(published: Option<Content>, temporaries: map<WorkspaceId, Content>, holder: Option<Holder>,
                         newId: WorkspaceId, successes: seq<Success>)

  /** A process takes the free lock; the holder does its next call; its next call fails and it gives
      up, with or without removing what it wrote; it stops dead and the system frees the lock. */
  datatype Step = Acquire(process: ProcessId) | Proceed | GiveUp(cleaned: bool) | Crash

  function At(w: World, stage: Stage): World
    requires w.holder.Some?
  {
    w.(holder := Some(w.holder.value.(stage := stage)))
  }

  ghost function Proceeded(w: World): World
    requires w.holder.Some?
  {
    match w.holder.value.stage
    case Loading =>
      var loaded := LoadId(w.published);
      if loaded.Err? then w.(holder := None) else At(w, Sweeping(loaded.value, w.temporaries.Keys))
    case Sweeping(found, remaining) =>
      if remaining == {} then At(w, if found.Some? then Returning(found.value) else LoadingAgain)
      else
        var name := PickAny(remaining);
        At(w, Sweeping(found, remaining - {name})).(temporaries := w.temporaries - {name})
    case LoadingAgain =>
      var loaded := LoadId(w.published);
      if loaded.Err? then w.(holder := None)
      else At(w, if loaded.value.Some? then Returning(loaded.value.value) else Creating)
    case Creating => At(w, Writing(w.newId)).(temporaries := w.temporaries[w.newId := Partial], newId := w.newId + 1)
    case Writing(id) => At(w, Linking(id)).(temporaries := w.temporaries[id := Complete(id)])
    case Linking(id) =>
      if w.published.Some? then At(w, Reloading(id))
      else if id !in w.temporaries then w.(holder := None)
      else At(w, Removing(id, Some(id))).(published := Some(w.temporaries[id]))
    case Removing(id, outcome) =>
      var removed := w.(temporaries := w.temporaries - {id});
      if outcome.Some? then At(removed, Returning(outcome.value)) else removed.(holder := None)
    case Reloading(id) => At(w, LoadingLast).(temporaries := w.temporaries - {id})
    case LoadingLast =>
      var loaded := LoadId(w.published);
      if loaded.Err? || loaded.value.None? then w.(holder := None) else At(w, Returning(loaded.value.value))
    case Returning(id) =>
      w.(holder := None, successes := w.successes + [Success(w.holder.value.process, id, w.temporaries.Keys)])
  }

  /** Some file of the directory listing; the order does not matter. */
  ghost function PickAny(names: set<WorkspaceId>): WorkspaceId
    requires names != {}
    ensures PickAny(names) in names
  {
    var name :| name in names;
    name
  }

  /** The temporary file that the failing process is working on. */
  function Own(stage: Stage): set<WorkspaceId> {
    match stage
    case Writing(id) => {id}
    case Linking(id) => {id}
    case Removing(id, _) => {id}
    case Reloading(id) => {id}
    case _ => {}
  }

  ghost function Next(w: World, step: Step): World {
    match step
    case Acquire(process) => if w.holder.None? then w.(holder := Some(Holder(process, Loading))) else w
    case Proceed => if w.holder.Some? then Proceeded(w) else w
    case GiveUp(cleaned) =>
      if w.holder.None? then w
      else w.(holder := None,
              temporaries := if cleaned then w.temporaries - Own(w.holder.value.stage) else w.temporaries)
    case Crash => w.(holder := None)
  }

  ghost function Reached(w: World, steps: seq<Step>): World
    decreases |steps|
  {
    if steps == [] then w else Reached(Next(w, steps[0]), steps[1..])
  }

  /** What the holder of the lock knows at each of its calls. */
  ghost predicate StageFits(w: World, stage: Stage) {
    match stage
    case Loading => true
    case Sweeping(found, remaining) =>
      w.temporaries.Keys == remaining && (found.Some? ==> w.published == Some(Complete(found.value)))
    case LoadingAgain => w.temporaries == map[]
    case Creating => w.temporaries == map[] && w.published.None?
    case Writing(id) => w.temporaries.Keys == {id} && w.published.None?
    case Linking(id) => w.temporaries == map[id := Complete(id)] && w.published.None?
    case Removing(id, outcome) =>
      w.temporaries.Keys == {id} && (outcome.Some? ==> w.published == Some(Complete(outcome.value)))
    case Reloading(id) => w.temporaries.Keys == {id} && w.published.Some?
    case LoadingLast => w.temporaries == map[] && w.published.Some?
    case Returning(id) => w.temporaries == map[] && w.published == Some(Complete(id))
  }

  ghost predicate Agreed(w: World) {
    forall i | 0 <= i < |w.successes| :: w.published == Some(Complete(w.successes[i].id)) && w.successes[i].left == {}
  }

  ghost predicate Inv(w: World) {
    && w.published != Some(Partial)
    && (w.holder.Some? ==> StageFits(w, w.holder.value.stage))
    && Agreed(w)
  }

  lemma ProceedKeeps(w: World)
    requires Inv(w) && w.holder.Some?
    ensures Inv(Proceeded(w)) && (w.published.Some? ==> Proceeded(w).published == w.published)
  {
    var after := Proceeded(w);
    match w.holder.value.stage
    case Sweeping(found, remaining) =>
      if remaining == {} {
        assert w.temporaries == map[];
      } else {
        assert after.temporaries.Keys == remaining - {PickAny(remaining)};
      }
    case Creating => assert after.temporaries.Keys == {w.newId};
    case Writing(id) => assert after.temporaries == map[id := Complete(id)];
    case Removing(id, _) => assert after.temporaries == map[];
    case Reloading(id) => assert after.temporaries == map[];
    case Returning(id) => assert w.temporaries.Keys == {};
    case _ =>
  }

  lemma NextKeeps(w: World, step: Step)
    requires Inv(w)
    ensures Inv(Next(w, step)) && (w.published.Some? ==> Next(w, step).published == w.published)
  {
    if step.Proceed? && w.holder.Some? { ProceedKeeps(w); }
  }

  lemma {:induction false} RunKeeps(w: World, steps: seq<Step>)
    requires Inv(w)
    ensures Inv(Reached(w, steps)) && (w.published.Some? ==> Reached(w, steps).published == w.published)
    decreases |steps|
  {
    if steps != [] {
      NextKeeps(w, steps[0]);
      RunKeeps(Next(w, steps[0]), steps[1..]);
    }
  }

  /** A directory as any earlier processes may have left it. */
  ghost predicate LeftBehind(w: World) {
    w.published != Some(Partial) && w.holder.None? && w.successes == []
  }

  /** However processes take turns, fail and stop: the published file is absent or one complete
      identifier that never changes; every successful call returns that one; and no temporary file
      exists when it releases the lock. */
  lemma WorkspaceIdAgreement(w: World, steps: seq<Step>, more: seq<Step>)
    requires LeftBehind(w)
    ensures var now := Reached(w, steps); var later := Reached(now, more);
            && (now.published.Some? ==> now.published.value.Complete? && later.published == now.published)
            && (forall i | 0 <= i < |later.successes| ::
                  later.published == Some(Complete(later.successes[i].id)) && later.successes[i].left == {})
            && (forall i, j | 0 <= i < |later.successes| && 0 <= j < |later.successes| ::
                  later.successes[i].id == later.successes[j].id)
  {
    RunKeeps(w, steps);
    RunKeeps(Reached(w, steps), more);
  }

  // ---------- a process that nothing disturbs ----------

  /** That many calls of the holder. */
  function Calls(n: nat): (steps: seq<Step>)
    ensures |steps| == n && forall i | 0 <= i < n :: steps[i] == Proceed
  {
    if n == 0 then [] else [Proceed] + Calls(n - 1)
  }

  function Rank(stage: Stage): nat {
    match stage
    case Loading => 9
    case Sweeping(_, _) => 8
    case LoadingAgain => 7
    case Creating => 6
    case Writing(_) => 5
    case Linking(_) => 4
    case Removing(_, _) => 3
    case Reloading(_) => 2
    case LoadingLast => 1
    case Returning(_) => 0
  }

  function Remaining(stage: Stage): set<WorkspaceId> {
    if stage.Sweeping? then stage.remaining else {}
  }

  /** The identifier that the holder returns if nothing disturbs it. */
  function Returned(w: World): WorkspaceId
    requires w.holder.Some?
  {
    if w.published.Some? && w.published.value.Complete? then w.published.value.id
    else
      match w.holder.value.stage
      case Writing(id) => id
      case Linking(id) => id
      case _ => w.newId
  }

  ghost predicate Returns(w: World, n: nat, process: ProcessId, id: WorkspaceId) {
    var later := Reached(w, Calls(n));
    && later.holder.None? && later.published == Some(Complete(id)) && later.temporaries == map[]
    && later.successes == w.successes + [Success(process, id, {})]
  }

  /** A holder that works on what it has: it returns, or goes on to a later call. */
  lemma ProceedingGoesOn(w: World)
    requires Inv(w) && w.holder.Some? && w.holder.value.stage != Returning(Returned(w))
    requires w.holder.value.stage.Removing? ==> w.holder.value.stage.outcome.Some?
    ensures var after := Proceeded(w);
            && after.holder.Some? && after.holder.value.process == w.holder.value.process
            && after.successes == w.successes && Returned(after) == Returned(w)
            && (after.holder.value.stage.Removing? ==> after.holder.value.stage.outcome.Some?)
            && var stage, next := w.holder.value.stage, after.holder.value.stage;
               Rank(next) < Rank(stage) || (Rank(next) == Rank(stage) && |Remaining(next)| < |Remaining(stage)|)
  {
  }

  lemma ReachedMore(w: World, n: nat)
    requires w.holder.Some?
    ensures Reached(w, Calls(n + 1)) == Reached(Proceeded(w), Calls(n))
  {
    assert Calls(n + 1)[1..] == Calls(n);
  }

  lemma {:induction false} HolderReturns(w: World) returns (n: nat)
    requires Inv(w) && w.holder.Some?
    requires w.holder.value.stage.Removing? ==> w.holder.value.stage.outcome.Some?
    ensures Returns(w, n, w.holder.value.process, Returned(w))
    decreases Rank(w.holder.value.stage), |Remaining(w.holder.value.stage)|
  {
    if w.holder.value.stage == Returning(Returned(w)) {
      n := 1;
      ReachedMore(w, 0);
      assert w.temporaries.Keys == {};
    } else {
      ProceedingGoesOn(w);
      ProceedKeeps(w);
      var more := HolderReturns(Proceeded(w));
      n := more + 1;
      ReachedMore(w, more);
    }
  }

  /** Whatever happened before, a process that takes the free lock and is not disturbed returns the published
      identifier, or publishes the new one and returns that; no temporary file is left. */
  lemma UndisturbedCallSucceeds(w: World, steps: seq<Step>, process: ProcessId)
    requires LeftBehind(w) && Reached(w, steps).holder.None?
    ensures var now := Reached(w, steps);
            var id := if now.published.Some? && now.published.value.Complete?
                      then now.published.value.id else now.newId;
            exists n :: Returns(Next(now, Acquire(process)), n, process, id)
  {
    RunKeeps(w, steps);
    var n := HolderReturns(Next(Reached(w, steps), Acquire(process)));
  }
}
