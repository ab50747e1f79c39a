/** The credential service over its two stores, the provider tables and the vault of secrets: replacing and
    deleting keys, deleting profiles, and cleaning up after abandoned mutations. Every call on a store is
    one step, the calls of all clients interleave anywhere, each may fail, and a client may stop between
    any two. Keyed providers only: the OAuth sign-in keeps its tokens by another protocol. */
module ProviderVault {
  import opened Wrappers
  import opened ProviderDomain
  import opened ProviderStore
  import opened ProviderSteps
  import opened ProviderWrites
  import opened ProviderInvariants
  import opened ProviderRuns

  type ClientId = nat

  /** Where the vault keeps one secret. */
  type Place = (ProfileId, nat)

  // ---------- clients ----------

  /** The call that a credential mutation makes next. */
  datatype Stage =
    | Protecting | Copying | Writing | Recording | Pointing
    | CheckingRuns | CheckingSlot | Erasing | Retiring | DroppingCopy | Completing
    | Unstaging | RollingBack | Blocking

  /** The call that the deletion of a profile makes next. From `Deciding` on it bears the only copy of the
      secret it removed. */
  datatype DeletionStage = Guarding | Reading | Removing | Deciding | Restoring

  datatype Client =
    | Mutating(stage: Stage, commit: PointerCommit)
    | Cleaning(abandoned: OperationId)
    | Abandoning(abandoned: OperationId)
    | Deleting(step: DeletionStage, request: DeleteRequest, credential: Option<nat>)

  datatype World = World(db: Db, vault: set<Place>, clients: map<ClientId, Client>)

  const EmptyWorld := World(EmptyDb, {}, map[])

  /** A call works, fails without effect, or fails although it had its effect. A transaction of the tables
      that fails has none. */
  datatype Outcome = Works | Fails | Unclear

  // ---------- one call ----------

  function Places(p: ProfileId, g: Option<nat>): set<Place> {
    if g.Some? then {(p, g.value)} else {}
  }

  function StagedAt(db: Db, id: OperationId): set<Place> {
    if id in db.journal then Places(db.journal[id].profileId, db.journal[id].Staged()) else {}
  }

  function OldAt(db: Db, id: OperationId): set<Place> {
    if id in db.journal then Places(db.journal[id].profileId, db.journal[id].oldGen) else {}
  }

  function CopyAt(db: Db, id: OperationId): set<Place> {
    if id in db.journal then Places(db.journal[id].profileId, db.journal[id].rollbackGen) else {}
  }

  /** The secrets that the client's next call deletes. */
  function Erases(db: Db, client: Client): set<Place> {
    match client
    case Mutating(Erasing, commit) => OldAt(db, commit.mutationId)
    case Mutating(DroppingCopy, commit) => CopyAt(db, commit.mutationId)
    case Mutating(Unstaging, commit) => StagedAt(db, commit.mutationId)
    case Cleaning(id) => StagedAt(db, id)
    case Deleting(Removing, request, Some(g)) => {(request.profileId, g)}
    case _ => {}
  }

  /** The secrets that it writes. */
  function Stores(db: Db, client: Client): set<Place> {
    match client
    case Mutating(Writing, commit) => StagedAt(db, commit.mutationId)
    case Deleting(Restoring, request, Some(g)) => {(request.profileId, g)}
    case _ => {}
  }

  /** The transaction of the provider tables that it is. */
  function Transaction(db: Db, client: Client): Option<Op> {
    match client
    case Mutating(Recording, commit) => Some(VaultWrite(commit.mutationId))
    case Mutating(Pointing, commit) => Some(PointTo(commit))
    case Mutating(Retiring, commit) =>
      if commit.mutationId in db.journal && db.journal[commit.mutationId].oldGen.Some?
      then Some(Retire(Generation(commit.profileId, db.journal[commit.mutationId].oldGen.value, ApiKey))) else None
    case Mutating(Completing, commit) => Some(Complete(commit.mutationId))
    case Mutating(RollingBack, commit) => Some(Rollback(commit.mutationId))
    case Mutating(Blocking, commit) => Some(Block(commit.mutationId, ProtectionUnavailableCode))
    case Abandoning(id) => Some(Rollback(id))
    case Deleting(Deciding, request, _) => Some(Remove(request))
    case _ => None
  }

  predicate Accepted(db: Db, op: Op) {
    match op
    case VaultWrite(id) => RecordVaultWrite(db, id).result.Ok?
    case PointTo(commit) => CommitPointer(db, commit).result.Ok?
    case Retire(generation) => RetireGeneration(db, generation).result.Ok?
    case Complete(id) => CompleteMutation(db, id).result.Ok?
    case Rollback(id) => RollbackMutation(db, id).result.Ok?
    case Block(id, code) => BlockMutation(db, id, code).result.Ok?
    case Remove(request) => DeleteProfile(db, request).result.Ok?
    case _ => true
  }

  /** A call that works may still refuse: a transaction by its guards, reading a secret that is not there,
      and writing one that is. */
  predicate Succeeds(w: World, client: Client) {
    match client
    case Mutating(Copying, commit) => OldAt(w.db, commit.mutationId) <= w.vault
    case Mutating(Writing, commit) => StagedAt(w.db, commit.mutationId) !! w.vault
    case Mutating(CheckingSlot, _) => SlotReads(w.db)
    case Deleting(Guarding, request, _) => !LiveProfile(w.db, request.profileId)
    case Deleting(Reading, request, credential) => credential.Some? && (request.profileId, credential.value) in w.vault
    case _ => Transaction(w.db, client).Some? ==> Accepted(w.db, Transaction(w.db, client).value)
  }

  /** The active snapshot and its revision can be read. */
  predicate SlotReads(db: Db) {
    && Active(db).Ok?
    && (Active(db).value.Some? ==>
          LoadRevision(db, Active(db).value.value.profileId, Active(db).value.value.revision).Ok?)
  }

  /** The revision of the active snapshot names this credential. */
  predicate SlotNames(db: Db, p: ProfileId, g: nat) {
    && SlotReads(db) && Active(db).value.Some? && Active(db).value.value.profileId == p
    && Number(LoadRevision(db, p, Active(db).value.value.revision).value.generation) == Some(g)
  }

  /** The old credential is done with: a deletion drops its rollback copy. */
  function OldSettled(db: Db, id: OperationId): Stage {
    if id in db.journal && db.journal[id].rollbackGen.Some? then DroppingCopy else Completing
  }

  predicate OldLive(db: Db, id: OperationId) {
    exists place | place in OldAt(db, id) :: LiveCredential(db, place.0, place.1)
  }

  predicate OldInSlot(db: Db, id: OperationId) {
    exists place | place in OldAt(db, id) :: SlotNames(db, place.0, place.1)
  }

  /** What a mutation does after a call that succeeded or not; nothing once it has returned. */
  function Onward(db: Db, stage: Stage, commit: PointerCommit, ok: bool): Option<Stage> {
    var id := commit.mutationId;
    match stage
    case Protecting => Some(if !ok then Blocking else if CopyAt(db, id) != {} then Copying else Writing)
    case Copying => Some(if ok then Writing else Unstaging)
    case Writing => Some(if ok then Recording else Unstaging)
    case Recording => Some(if ok then Pointing else Blocking)
    case Pointing => Some(if !ok then Unstaging else if OldAt(db, id) != {} then CheckingRuns else OldSettled(db, id))
    case CheckingRuns => Some(if !ok then Blocking else if OldLive(db, id) then OldSettled(db, id) else CheckingSlot)
    case CheckingSlot => Some(if !ok then Blocking else if OldInSlot(db, id) then OldSettled(db, id) else Erasing)
    case Erasing => Some(if ok then Retiring else Blocking)
    case Retiring => Some(if ok then OldSettled(db, id) else Blocking)
    case DroppingCopy => Some(if ok then Completing else Blocking)
    case Completing => if ok then None else Some(Blocking)
    case Unstaging => Some(if ok then RollingBack else Blocking)
    case RollingBack => if ok then None else Some(Blocking)
    case Blocking => None
  }

  function Then(db: Db, client: Client, ok: bool): Option<Client> {
    match client
    case Mutating(stage, commit) =>
      var next := Onward(db, stage, commit, ok);
      if next.Some? then Some(Mutating(next.value, commit)) else None
    case Cleaning(id) => if ok then Some(Abandoning(id)) else None
    case Abandoning(_) => None
    case Deleting(step, request, credential) =>
      match step
      case Guarding =>
        if ok then Some(Deleting(if credential.Some? then Reading else Deciding, request, credential)) else None
      case Reading => if ok then Some(Deleting(Removing, request, credential)) else None
      case Removing => if ok then Some(Deleting(Deciding, request, credential)) else None
      case Deciding => if ok || credential.None? then None else Some(Deleting(Restoring, request, credential))
      case Restoring => None
  }

  /** The client's next call, with its outcome. */
  function Called(w: World, c: ClientId, outcome: Outcome): World
    requires c in w.clients
  {
    var client := w.clients[c];
    var op := Transaction(w.db, client);
    var db := if outcome.Works? && op.Some? then Step(w.db, op.value) else w.db;
    var vault := if outcome.Fails? then w.vault else w.vault - Erases(w.db, client) + Stores(w.db, client);
    var next := Then(w.db, client, outcome.Works? && Succeeds(w, client));
    World(db, vault, if next.Some? then w.clients[c := next.value] else w.clients - {c})
  }

  // ---------- steps ----------

  datatype VaultStep =
    | Use(op: Op)
    | Mutate(client: ClientId, intent: Intent, commit: PointerCommit)
    | Sweep(client: ClientId, id: OperationId)
    | Discard(client: ClientId, request: DeleteRequest)
    | Call(client: ClientId, outcome: Outcome)
    | Stop(client: ClientId)

  /** The transactions of everyone else: saves that carry the current credential over, validation,
      activation and Runs. */
  ghost predicate Elsewhere(db: Db, op: Op) {
    match op
    case Save(request) => Carries(db, request)
    case Validate(_) => true
    case Select(_) => true
    case StartRun(_, _, _) => true
    case AdvanceRun(_, _) => true
    case _ => false
  }

  /** The commit that a mutation prepares: the next revision, with the configuration of the current one. */
  predicate Announces(db: Db, intent: Intent, commit: PointerCommit) {
    && intent.kind.ApiKey? && commit.mutationId == intent.operationId
    && commit.profileId == intent.profileId && commit.expectedRevision == intent.expectedRevision
    && Number(commit.replacement.generation) == intent.newGen
    && (commit.profileId, commit.expectedRevision) in db.revisions
    && commit.replacement.config == db.revisions[(commit.profileId, commit.expectedRevision)].config
  }

  ghost function Next(w: World, step: VaultStep): World {
    match step
    case Use(op) => if Elsewhere(w.db, op) then w.(db := Step(w.db, op)) else w
    case Mutate(c, intent, commit) =>
      if c !in w.clients && Announces(w.db, intent, commit) && BeginMutation(w.db, intent).result.Ok?
      then w.(db := Step(w.db, Begin(intent)), clients := w.clients[c := Mutating(Protecting, commit)])
      else w
    case Sweep(c, id) =>
      if c !in w.clients && id in w.db.journal && w.db.journal[id].phase.IntentRecorded?
      then w.(clients := w.clients[c := Cleaning(id)])
      else w
    case Discard(c, request) =>
      var key := (request.profileId, request.expectedRevision);
      if c !in w.clients && CurrentRevision(w.db, request.profileId) == Some(request.expectedRevision)
         && key in w.db.revisions
      then w.(clients := w.clients[c := Deleting(Guarding, request, w.db.revisions[key].generation)])
      else w
    case Call(c, outcome) => if c in w.clients then Called(w, c, outcome) else w
    case Stop(c) => w.(clients := w.clients - {c})
  }

  ghost function Played(w: World, steps: seq<VaultStep>): World
    decreases |steps|
  {
    if steps == [] then w else Played(Next(w, steps[0]), steps[1..])
  }

  // ---------- which secrets are needed, and where they are ----------

  ghost predicate Held(db: Db, p: ProfileId, g: nat) {
    !NotInUse(db, p, g)
  }

  ghost predicate Current(db: Db, p: ProfileId, g: nat) {
    Existing(db, p) && CurrentGeneration(db, p) == Some(g)
  }

  /** The mutation has written its secret, and its next transactions will make it current. */
  ghost predicate Promises(db: Db, client: Client, p: ProfileId, g: nat) {
    && client.Mutating? && client.commit.mutationId in db.journal
    && var m := db.journal[client.commit.mutationId];
       && m.profileId == p && m.newGen == Some(g)
       && Existing(db, p) && db.profiles[p].current == m.expectedRevision
       && (|| (client.stage.Recording? && m.phase.IntentRecorded? && HasStatus(db, p, g, Retained))
           || (client.stage.Pointing? && m.phase.VaultWritten?))
  }

  /** A secret that someone uses or can come to use: the active slot or an unfinished Run holds it, it is
      the current credential of a profile, or a mutation is about to make it that. */
  ghost predicate Needed(w: World, p: ProfileId, g: nat) {
    Held(w.db, p, g) || Current(w.db, p, g) || exists c | c in w.clients :: Promises(w.db, w.clients[c], p, g)
  }

  /** A deletion that has removed the secret and can still write it back. */
  predicate Bears(client: Client, p: ProfileId, g: nat) {
    && client.Deleting? && (client.step.Deciding? || client.step.Restoring?)
    && client.credential == Some(g) && client.request.profileId == p
  }

  ghost predicate Safe(w: World, p: ProfileId, g: nat) {
    (p, g) in w.vault || exists c | c in w.clients :: Bears(w.clients[c], p, g)
  }

  /** Every secret that the active slot or an unfinished Run holds is in the vault, or a deletion under way
      has it in hand. */
  ghost predicate Secured(w: World) {
    forall p, g | Held(w.db, p, g) :: Safe(w, p, g)
  }

  // ---------- the steps that lose one ----------

  /** Nobody but this client could write the secret back. */
  ghost predicate OnlyHere(w: World, c: ClientId, p: ProfileId, g: nat) {
    forall d | d in w.clients && d != c :: !Bears(w.clients[d], p, g)
  }

  /** A secret that is needed is lost by erasing an old one that an unfinished Run has taken up since it was
      looked for, by cleaning up a mutation that is still going on, by a deletion that fails although it
      erased, and by a deletion that stops or cannot write back what it erased. */
  ghost predicate Rash(w: World, step: VaultStep) {
    match step
    case Call(c, outcome) =>
      && c in w.clients
      && (match w.clients[c]
          case Mutating(Erasing, commit) =>
            !outcome.Fails? && exists place | place in OldAt(w.db, commit.mutationId) ::
              LiveCredential(w.db, place.0, place.1) && OnlyHere(w, c, place.0, place.1)
          case Cleaning(id) =>
            !outcome.Fails? && exists place | place in StagedAt(w.db, id) ::
              Needed(w, place.0, place.1) && OnlyHere(w, c, place.0, place.1)
          case Deleting(Removing, request, Some(g)) =>
            outcome.Unclear? && Needed(w, request.profileId, g) && OnlyHere(w, c, request.profileId, g)
          case Deleting(Restoring, request, Some(g)) => outcome.Fails? && LeavesNone(w, c, request.profileId, g)
          case _ => false)
    case Stop(c) =>
      c in w.clients && w.clients[c].Deleting? && w.clients[c].credential.Some?
      && (w.clients[c].step.Deciding? || w.clients[c].step.Restoring?)
      && LeavesNone(w, c, w.clients[c].request.profileId, w.clients[c].credential.value)
    case _ => false
  }

  ghost predicate LeavesNone(w: World, c: ClientId, p: ProfileId, g: nat) {
    Needed(w, p, g) && (p, g) !in w.vault && OnlyHere(w, c, p, g)
  }

  ghost predicate Careful(w: World, steps: seq<VaultStep>)
    decreases |steps|
  {
    steps == [] || (!Rash(w, steps[0]) && Careful(Next(w, steps[0]), steps[1..]))
  }
}
