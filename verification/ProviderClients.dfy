/** What the clients of the credential service rely on at each of their calls, and that every step of the
    two stores keeps it. */
module ProviderClients {
  import opened Wrappers
  import opened ProviderDomain
  import opened ProviderStore
  import opened ProviderSteps
  import opened ProviderTables
  import opened ProviderInvariants
  import opened ProviderRuns
  import opened ProviderJournal
  import opened ProviderHistory
  import opened ProviderVault
  import opened ProviderNeeds

  // ---------- what holds at each stage ----------

  /** Nothing it staged can have been named by a revision yet, nor will be. */
  predicate Early(stage: Stage) {
    || stage.Protecting? || stage.Copying? || stage.Writing? || stage.Recording? || stage.Pointing?
    || stage.Unstaging? || stage.RollingBack?
  }

  predicate Unrecorded(stage: Stage) {
    stage.Protecting? || stage.Copying? || stage.Writing? || stage.Recording?
  }

  predicate OnOld(stage: Stage) {
    stage.CheckingRuns? || stage.CheckingSlot? || stage.Erasing? || stage.Retiring?
  }

  ghost predicate InSlot(db: Db, p: ProfileId, g: nat) {
    db.active.Some? && db.active.value.profileId == p && db.active.value.generation == g
  }

  /** The client's commit is the one that its stored record announced. */
  ghost predicate Matches(db: Db, commit: PointerCommit) {
    && commit.mutationId in db.journal
    && var m, key := db.journal[commit.mutationId], (commit.profileId, commit.expectedRevision);
       && m.profileId == commit.profileId && m.expectedRevision == commit.expectedRevision
       && Number(commit.replacement.generation) == m.newGen
       && (m.newGen.Some? ==> HasKind(db, m, commit.replacement.generation.value.kind))
       && key in db.revisions && db.revisions[key].config == commit.replacement.config
       && db.revisions[key].generation == m.oldGen
  }

  ghost predicate Unnamed(db: Db, p: ProfileId, g: Option<nat>) {
    g.Some? ==> Unreferenced(db, p, g.value)
  }

  /** Where the record is when the client is at this stage. */
  ghost predicate PhaseFits(stage: Stage, m: Mutation) {
    && (Early(stage) ==> !m.phase.PointerCommitted? && !m.phase.Completed?)
    && (Unrecorded(stage) ==> m.phase.IntentRecorded? || m.phase.RolledBack?)
    && (OnOld(stage) ==> m.oldGen.Some? && m.phase.PointerCommitted?)
  }

  ghost predicate NamesFit(db: Db, stage: Stage, m: Mutation) {
    && (Early(stage) ==> Unnamed(db, m.profileId, m.Staged()))
    && Unnamed(db, m.profileId, m.rollbackGen)
    && (stage.Erasing? || stage.Retiring? ==> m.oldGen.Some? && !InSlot(db, m.profileId, m.oldGen.value))
  }

  ghost predicate Follows(db: Db, stage: Stage, commit: PointerCommit) {
    && Matches(db, commit)
    && PhaseFits(stage, db.journal[commit.mutationId]) && NamesFit(db, stage, db.journal[commit.mutationId])
  }

  ghost predicate ClientFits(db: Db, client: Client) {
    match client
    case Mutating(stage, commit) => Follows(db, stage, commit)
    case Cleaning(id) => id in db.journal
    case Abandoning(id) => id in db.journal
    case Deleting(_, _, _) => true
  }

  /** The mutation that a client carries out. */
  function Owned(client: Client): Option<OperationId> {
    if client.Mutating? then Some(client.commit.mutationId) else None
  }

  ghost predicate Owners(clients: map<ClientId, Client>) {
    forall c, d | c in clients && d in clients && c != d && Owned(clients[c]).Some? ::
      Owned(clients[c]) != Owned(clients[d])
  }

  ghost predicate ClientsFit(db: Db, clients: map<ClientId, Client>) {
    forall c | c in clients :: ClientFits(db, clients[c])
  }

  ghost predicate Fits(w: World) {
    Inv(w.db) && Owners(w.clients) && ClientsFit(w.db, w.clients)
  }

  // ---------- what every transaction keeps ----------

  lemma MatchesLater(db: Db, later: Db, commit: PointerCommit)
    requires JournalFits(db) && Extends(db, later) && Matches(db, commit)
    ensures Matches(later, commit)
  {
    var id := commit.mutationId;
    var m, next := db.journal[id], later.journal[id];
    assert MutationFits(db, m);
    if m.newGen.Some? {
      assert References(next) == References(m);
      assert HasKind(later, next, commit.replacement.generation.value.kind);
    }
  }

  /** A transaction that commits another pointer leaves what this mutation staged unnamed. */
  lemma StagedNotPointed(db: Db, op: Op, id: OperationId, g: nat)
    requires Tables(db) && id in db.journal && db.journal[id].Staged() == Some(g)
    requires op.PointTo? ==> op.pointer.mutationId != id
    ensures !PointsTo(db, op, db.journal[id].profileId, g)
  {
    if op.PointTo? && op.pointer.mutationId in db.journal {
      assert MutationFits(db, db.journal[op.pointer.mutationId]);
    }
  }

  lemma CopyNotPointed(db: Db, op: Op, id: OperationId, g: nat)
    requires Tables(db) && id in db.journal && db.journal[id].rollbackGen == Some(g)
    ensures !PointsTo(db, op, db.journal[id].profileId, g)
  {
    assert MutationFits(db, db.journal[id]);
    if op.PointTo? && op.pointer.mutationId == id {
      assert db.journal[id].newGen.None?;
    } else {
      assert db.journal[id].Staged() == Some(g);
      StagedNotPointed(db, op, id, g);
    }
  }

  /** The rollback copy of a mutation stays unnamed. */
  lemma CopyStays(db: Db, op: Op, id: OperationId)
    requires Tables(db) && (op.Save? ==> Carries(db, op.save)) && id in db.journal
    requires Unnamed(db, db.journal[id].profileId, db.journal[id].rollbackGen)
    ensures Unnamed(Step(db, op), db.journal[id].profileId, db.journal[id].rollbackGen)
  {
    var m := db.journal[id];
    if m.rollbackGen.Some? {
      CopyNotPointed(db, op, id, m.rollbackGen.value);
      NamingSteps(db, op, m.profileId, m.rollbackGen.value);
    }
  }

  lemma StagedStays(db: Db, op: Op, id: OperationId)
    requires Tables(db) && (op.Save? ==> Carries(db, op.save)) && id in db.journal
    requires op.PointTo? && op.pointer.mutationId == id ==> !PointerMoves(db, op.pointer)
    requires Unnamed(db, db.journal[id].profileId, db.journal[id].Staged())
    ensures Unnamed(Step(db, op), db.journal[id].profileId, db.journal[id].Staged())
  {
    var m := db.journal[id];
    if m.Staged().Some? {
      if !op.PointTo? || op.pointer.mutationId != id { StagedNotPointed(db, op, id, m.Staged().value); }
      NamingSteps(db, op, m.profileId, m.Staged().value);
    }
  }

  /** Once the pointer has moved on, the old credential does not come back to the slot. */
  lemma SlotStays(db: Db, op: Op, id: OperationId)
    requires Inv(db) && id in db.journal && db.journal[id].phase.PointerCommitted? && db.journal[id].oldGen.Some?
    requires !InSlot(db, db.journal[id].profileId, db.journal[id].oldGen.value)
    ensures !InSlot(Step(db, op), db.journal[id].profileId, db.journal[id].oldGen.value)
  {
    SlotSteps(db, op);
    assert PhaseStatus(db, db.journal[id]);
  }

  // ---------- another client's transaction ----------

  /** A transaction that is not about this mutation, or one that rolls it back. */
  predicate NotAbout(op: Op, id: OperationId) {
    Subject(op) != Some(id) || op.Rollback?
  }

  lemma PhaseStays(db: Db, op: Op, id: OperationId, stage: Stage)
    requires id in db.journal && NotAbout(op, id) && PhaseFits(stage, db.journal[id])
    ensures id in Step(db, op).journal && PhaseFits(stage, Step(db, op).journal[id])
    ensures var m, next := db.journal[id], Step(db, op).journal[id]; next == m.(phase := next.phase)
  {
    if Subject(op) == Some(id) { RollbackSteps(db, id); } else { OthersStay(db, op, id); }
  }

  lemma NamesStay(db: Db, op: Op, id: OperationId, stage: Stage)
    requires Inv(db) && (op.Save? ==> Carries(db, op.save)) && id in db.journal && NotAbout(op, id)
    requires PhaseFits(stage, db.journal[id]) && NamesFit(db, stage, db.journal[id])
    ensures NamesFit(Step(db, op), stage, db.journal[id])
  {
    if Early(stage) { StagedStays(db, op, id); }
    CopyStays(db, op, id);
    if stage.Erasing? || stage.Retiring? { SlotStays(db, op, id); }
  }

  lemma NamesSame(db: Db, stage: Stage, m: Mutation, next: Mutation)
    requires NamesFit(db, stage, m) && next == m.(phase := next.phase)
    ensures NamesFit(db, stage, next)
  {
  }

  lemma OthersFollow(db: Db, op: Op, stage: Stage, commit: PointerCommit)
    requires Inv(db) && (op.Save? ==> Carries(db, op.save)) && NotAbout(op, commit.mutationId)
    requires Follows(db, stage, commit)
    ensures Follows(Step(db, op), stage, commit)
  {
    StepExtends(db, op);
    MatchesLater(db, Step(db, op), commit);
    PhaseStays(db, op, commit.mutationId, stage);
    NamesStay(db, op, commit.mutationId, stage);
    NamesSame(Step(db, op), stage, db.journal[commit.mutationId], Step(db, op).journal[commit.mutationId]);
  }

  lemma ClientsStay(db: Db, op: Op, client: Client)
    requires Inv(db) && (op.Save? ==> Carries(db, op.save)) && ClientFits(db, client)
    requires client.Mutating? ==> NotAbout(op, client.commit.mutationId)
    ensures ClientFits(Step(db, op), client)
  {
    match client
    case Mutating(stage, commit) => OthersFollow(db, op, stage, commit);
    case Deleting(_, _, _) =>
    case _ => StepExtends(db, op);
  }

  // ---------- the client's own call ----------

  /** What a reader of the active slot is told about a credential is so. */
  lemma SlotRead(db: Db, p: ProfileId, g: nat)
    requires RevisionTables(db) && ActiveFits(db) && SlotReads(db) && !SlotNames(db, p, g)
    ensures !InSlot(db, p, g)
  {
    if db.active.Some? {
      var a := db.active.value;
      PassingNames(db, a);
      RevisionLoads(db, a.profileId, a.revision);
    }
  }

  predicate Settled(stage: Stage) {
    stage.DroppingCopy? || stage.Completing? || stage.Blocking?
  }

  /** These stages ask nothing more of the record. */
  lemma SettledFollows(db: Db, stage: Stage, commit: PointerCommit)
    requires Settled(stage) && Matches(db, commit)
    requires Unnamed(db, db.journal[commit.mutationId].profileId, db.journal[commit.mutationId].rollbackGen)
    ensures Follows(db, stage, commit)
  {
  }

  lemma SettledAfter(db: Db, op: Op, stage: Stage, commit: PointerCommit)
    requires Inv(db) && !op.Save? && Settled(stage) && Matches(db, commit)
    requires Unnamed(db, db.journal[commit.mutationId].profileId, db.journal[commit.mutationId].rollbackGen)
    ensures Follows(Step(db, op), stage, commit)
  {
    StepExtends(db, op);
    MatchesLater(db, Step(db, op), commit);
    CopyStays(db, op, commit.mutationId);
    SettledFollows(Step(db, op), stage, commit);
  }

  /** How the stages follow one another. */
  lemma StagesFollow(db: Db, stage: Stage, commit: PointerCommit, ok: bool)
    requires Onward(db, stage, commit, ok).Some? && !(stage.Pointing? && ok) && !(stage.Recording? && ok)
    ensures var next := Onward(db, stage, commit, ok).value;
            || Settled(next)
            || (Early(stage) && Early(next) && !next.Pointing? && (Unrecorded(next) ==> Unrecorded(stage)))
            || (OnOld(stage) && OnOld(next) && (next.Retiring? ==> stage.Erasing?)
                && (next.Erasing? ==> stage.CheckingSlot? && ok && !OldInSlot(db, commit.mutationId)))
  {
  }

  lemma OldNotInSlot(db: Db, commit: PointerCommit)
    requires Tables(db) && Follows(db, CheckingSlot, commit) && SlotReads(db) && !OldInSlot(db, commit.mutationId)
    ensures var m := db.journal[commit.mutationId]; m.oldGen.Some? && !InSlot(db, m.profileId, m.oldGen.value)
  {
    var m := db.journal[commit.mutationId];
    assert (m.profileId, m.oldGen.value) in OldAt(db, commit.mutationId);
    SlotRead(db, m.profileId, m.oldGen.value);
  }

  lemma EarlyFollows(db: Db, stage: Stage, next: Stage, commit: PointerCommit)
    requires Follows(db, stage, commit) && Early(stage) && Early(next) && (Unrecorded(next) ==> Unrecorded(stage))
    ensures Follows(db, next, commit)
  {
  }

  lemma LaterFollows(db: Db, stage: Stage, next: Stage, commit: PointerCommit)
    requires Follows(db, stage, commit) && OnOld(stage) && OnOld(next) && (next.Retiring? ==> stage.Erasing?)
    requires var m := db.journal[commit.mutationId];
             next.Erasing? ==> m.oldGen.Some? && !InSlot(db, m.profileId, m.oldGen.value)
    ensures Follows(db, next, commit)
  {
  }

  /** A call that is no transaction, or fails as one. */
  lemma IdleFollows(db: Db, stage: Stage, commit: PointerCommit, ok: bool)
    requires Tables(db) && Follows(db, stage, commit)
    requires stage.CheckingSlot? && ok ==> SlotReads(db)
    requires Transaction(db, Mutating(stage, commit)).None? || !ok
    ensures var next := Onward(db, stage, commit, ok); next.Some? ==> Follows(db, next.value, commit)
  {
    if Onward(db, stage, commit, ok).Some? {
      var next := Onward(db, stage, commit, ok).value;
      StagesFollow(db, stage, commit, ok);
      if Settled(next) {
        SettledFollows(db, next, commit);
      } else if Early(stage) {
        EarlyFollows(db, stage, next, commit);
      } else {
        if next.Erasing? { OldNotInSlot(db, commit); }
        LaterFollows(db, stage, next, commit);
      }
    }
  }

  /** A transaction that moves the client's record on, to a phase that fits its next stage. */
  lemma OwnFollows(db: Db, op: Op, next: Stage, commit: PointerCommit)
    requires Tables(db) && Matches(db, commit) && commit.mutationId in Step(db, op).journal
    requires PhaseFits(next, Step(db, op).journal[commit.mutationId])
    requires NamesFit(Step(db, op), next, db.journal[commit.mutationId])
    requires var m, after := db.journal[commit.mutationId], Step(db, op).journal[commit.mutationId];
             after == m.(phase := after.phase)
    ensures Follows(Step(db, op), next, commit)
  {
    StepExtends(db, op);
    MatchesLater(db, Step(db, op), commit);
    NamesSame(Step(db, op), next, db.journal[commit.mutationId], Step(db, op).journal[commit.mutationId]);
  }

  lemma EarlyNames(db: Db, op: Op, stage: Stage, next: Stage, id: OperationId)
    requires Tables(db) && !op.Save? && id in db.journal && Early(stage) && Early(next)
    requires NamesFit(db, stage, db.journal[id]) && (op.PointTo? ==> !PointerMoves(db, op.pointer))
    ensures NamesFit(Step(db, op), next, db.journal[id])
  {
    StagedStays(db, op, id);
    CopyStays(db, op, id);
  }

  lemma VaultWriteOutcome(db: Db, id: OperationId)
    requires id in db.journal && RecordVaultWrite(db, id).result.Ok?
    ensures var after := RecordVaultWrite(db, id).db;
            id in after.journal && after.journal[id] == db.journal[id].(phase := VaultWritten)
  {
  }

  lemma RecordingFollows(db: Db, commit: PointerCommit)
    requires Inv(db) && Follows(db, Recording, commit)
    ensures var id := commit.mutationId;
            Follows(Step(db, VaultWrite(id)), if Accepted(db, VaultWrite(id)) then Pointing else Blocking, commit)
  {
    var id, op := commit.mutationId, VaultWrite(commit.mutationId);
    if Accepted(db, op) {
      VaultWriteOutcome(db, id);
      EarlyNames(db, op, Recording, Pointing, id);
      OwnFollows(db, op, Pointing, commit);
    } else {
      SettledAfter(db, op, Blocking, commit);
    }
  }

  /** An accepted commit has moved the pointer, and a refused one has at most noted that it is stale. */
  lemma PointerOutcome(db: Db, commit: PointerCommit)
    requires RevisionTables(db) && JournalFits(db) && commit.mutationId in db.journal
    requires !db.journal[commit.mutationId].phase.PointerCommitted?
    ensures var tx, id, m := CommitPointer(db, commit), commit.mutationId, db.journal[commit.mutationId];
            && (tx.result.Ok? <==> PointerMoves(db, commit))
            && id in tx.db.journal
            && tx.db.journal[id] == m.(phase := if tx.result.Ok? then PointerCommitted else tx.db.journal[id].phase)
            && (tx.result.Err? ==> tx.db.journal[id].phase == m.phase || tx.db.journal[id].phase.CleanupPending?)
  {
    if db.journal[commit.mutationId].phase.VaultWritten? { CommitCases(db, commit); }
  }

  lemma PointedNames(db: Db, commit: PointerCommit)
    requires Tables(db) && commit.mutationId in db.journal
    requires Unnamed(db, db.journal[commit.mutationId].profileId, db.journal[commit.mutationId].rollbackGen)
    ensures NamesFit(Step(db, PointTo(commit)), CheckingRuns, db.journal[commit.mutationId])
  {
    CopyStays(db, PointTo(commit), commit.mutationId);
  }

  lemma PointedFollows(db: Db, commit: PointerCommit)
    requires Inv(db) && Follows(db, Pointing, commit) && Accepted(db, PointTo(commit))
    requires db.journal[commit.mutationId].oldGen.Some?
    ensures Follows(Step(db, PointTo(commit)), CheckingRuns, commit)
  {
    PointerOutcome(db, commit);
    PointedNames(db, commit);
    OwnFollows(db, PointTo(commit), CheckingRuns, commit);
  }

  lemma UnpointedFollows(db: Db, commit: PointerCommit)
    requires Inv(db) && Follows(db, Pointing, commit) && !Accepted(db, PointTo(commit))
    ensures Follows(Step(db, PointTo(commit)), Unstaging, commit)
  {
    PointerOutcome(db, commit);
    EarlyNames(db, PointTo(commit), Pointing, Unstaging, commit.mutationId);
    OwnFollows(db, PointTo(commit), Unstaging, commit);
  }

  lemma TransactionFollows(db: Db, stage: Stage, commit: PointerCommit)
    requires Inv(db) && Follows(db, stage, commit) && Transaction(db, Mutating(stage, commit)).Some?
    ensures var op := Transaction(db, Mutating(stage, commit)).value;
            var next := Onward(db, stage, commit, Accepted(db, op));
            next.Some? ==> Follows(Step(db, op), next.value, commit)
  {
    var op := Transaction(db, Mutating(stage, commit)).value;
    var next := Onward(db, stage, commit, Accepted(db, op));
    if stage.Recording? {
      RecordingFollows(db, commit);
    } else if stage.Pointing? {
      if !Accepted(db, op) {
        UnpointedFollows(db, commit);
      } else if Settled(next.value) {
        SettledAfter(db, op, next.value, commit);
      } else {
        PointedFollows(db, commit);
      }
    } else if next.Some? {
      SettledAfter(db, op, next.value, commit);
    }
  }

  // ---------- beginning a mutation ----------

  /** A mutation begins under the current revision of its profile, whose credential it replaces, with a
      credential of the kind that the provider asks for. */
  lemma BegunUnder(db: Db, intent: Intent)
    requires RevisionTables(db) && BeginMutation(db, intent).result.Ok?
    requires (intent.profileId, intent.expectedRevision) in db.revisions
    ensures var row := db.revisions[(intent.profileId, intent.expectedRevision)];
            row.generation == intent.oldGen && intent.kind == RequiredKind(row.config.provider)
  {
    RevisionLoads(db, intent.profileId, intent.expectedRevision);
  }

  lemma BegunKind(db: Db, intent: Intent)
    requires RevisionTables(db) && BeginMutation(db, intent).result.Ok?
    ensures HasKind(BeginMutation(db, intent).db, Record(intent), intent.kind)
  {
    BeginFacts(db, intent);
    var after, m := BeginMutation(db, intent).db, Record(intent);
    assert m.Staged().value in References(m) && after.generations[(m.profileId, m.Staged().value)].kind == intent.kind;
  }

  lemma BegunFollows(db: Db, intent: Intent, commit: PointerCommit)
    requires Tables(db) && Announces(db, intent, commit) && BeginMutation(db, intent).result.Ok?
    ensures Follows(Step(db, Begin(intent)), Protecting, commit)
  {
    var m := Record(intent);
    BeginFacts(db, intent);
    BegunUnder(db, intent);
    BegunKind(db, intent);
    UnstoredUnreferenced(db, m.profileId, m.Staged().value);
  }

  // ---------- every step of the two stores ----------

  lemma TransactionIs(db: Db, client: Client)
    requires Transaction(db, client).Some?
    ensures var op := Transaction(db, client).value;
            !op.Save? && (op.Rollback? || Subject(op) == Owned(client) || Subject(op).None?)
  {
  }

  lemma TransactionNotAbout(clients: map<ClientId, Client>, db: Db, c: ClientId, d: ClientId)
    requires Owners(clients) && c in clients && d in clients && c != d && clients[d].Mutating?
    requires Transaction(db, clients[c]).Some?
    ensures NotAbout(Transaction(db, clients[c]).value, clients[d].commit.mutationId)
  {
    TransactionIs(db, clients[c]);
    assert Owned(clients[d]) != Owned(clients[c]);
  }

  /** The tables after a call. */
  function CalledDb(db: Db, client: Client, outcome: Outcome): Db {
    if outcome.Works? && Transaction(db, client).Some? then Step(db, Transaction(db, client).value) else db
  }

  lemma CallKeepsInv(db: Db, client: Client, outcome: Outcome)
    requires Inv(db)
    ensures Inv(CalledDb(db, client, outcome))
  {
    var op := Transaction(db, client);
    if outcome.Works? && op.Some? {
      TransactionIs(db, client);
      StepKeeps(db, op.value);
    }
  }

  lemma OpKeepsOther(db: Db, op: Op, client: Client)
    requires Inv(db) && !op.Save? && ClientFits(db, client)
    requires client.Mutating? ==> NotAbout(op, client.commit.mutationId)
    ensures ClientFits(Step(db, op), client)
  {
    ClientsStay(db, op, client);
  }

  lemma CallKeepsOther(db: Db, clients: map<ClientId, Client>, c: ClientId, outcome: Outcome, d: ClientId)
    requires Inv(db) && Owners(clients) && c in clients && d in clients && d != c && ClientFits(db, clients[d])
    ensures ClientFits(CalledDb(db, clients[c], outcome), clients[d])
  {
    var op := Transaction(db, clients[c]);
    if outcome.Works? && op.Some? {
      TransactionIs(db, clients[c]);
      if clients[d].Mutating? { TransactionNotAbout(clients, db, c, d); }
      OpKeepsOther(db, op.value, clients[d]);
    }
  }

  lemma CallKeepsOwn(w: World, client: Client, outcome: Outcome)
    requires Inv(w.db) && ClientFits(w.db, client)
    ensures var next := Then(w.db, client, outcome.Works? && Succeeds(w, client));
            next.Some? ==> ClientFits(CalledDb(w.db, client, outcome), next.value)
  {
    match client
    case Mutating(stage, commit) =>
      if outcome.Works? && Transaction(w.db, client).Some? {
        TransactionFollows(w.db, stage, commit);
      } else {
        IdleFollows(w.db, stage, commit, outcome.Works? && Succeeds(w, client));
      }
    case _ =>
  }

  lemma CallIs(w: World, c: ClientId, outcome: Outcome)
    requires c in w.clients
    ensures var client, after := w.clients[c], Called(w, c, outcome);
            var next := Then(w.db, client, outcome.Works? && Succeeds(w, client));
            && after.db == CalledDb(w.db, client, outcome)
            && after.clients == (if next.Some? then w.clients[c := next.value] else w.clients - {c})
            && (next.Some? ==> Owned(next.value) == Owned(client))
  {
  }

  lemma OwnersStay(clients: map<ClientId, Client>, c: ClientId, next: Option<Client>)
    requires Owners(clients) && c in clients && (next.Some? ==> Owned(next.value) == Owned(clients[c]))
    ensures Owners(if next.Some? then clients[c := next.value] else clients - {c})
  {
  }

  lemma CallKeepsClients(w: World, c: ClientId, outcome: Outcome)
    requires Inv(w.db) && Owners(w.clients) && ClientsFit(w.db, w.clients) && c in w.clients
    ensures ClientsFit(Called(w, c, outcome).db, Called(w, c, outcome).clients)
  {
    var after := Called(w, c, outcome);
    CallIs(w, c, outcome);
    forall d | d in after.clients ensures ClientFits(after.db, after.clients[d]) {
      if d == c { CallKeepsOwn(w, w.clients[c], outcome); } else { CallKeepsOther(w.db, w.clients, c, outcome, d); }
    }
  }

  lemma CallFits(w: World, c: ClientId, outcome: Outcome)
    requires Fits(w) && c in w.clients
    ensures Fits(Called(w, c, outcome))
  {
    CallIs(w, c, outcome);
    CallKeepsInv(w.db, w.clients[c], outcome);
    OwnersStay(w.clients, c, Then(w.db, w.clients[c], outcome.Works? && Succeeds(w, w.clients[c])));
    CallKeepsClients(w, c, outcome);
  }

  lemma ClientsKeep(db: Db, op: Op, clients: map<ClientId, Client>)
    requires Inv(db) && (op.Save? ==> Carries(db, op.save)) && Subject(op).None? && ClientsFit(db, clients)
    ensures ClientsFit(Step(db, op), clients)
  {
    forall d | d in clients ensures ClientFits(Step(db, op), clients[d]) {
      ClientsStay(db, op, clients[d]);
    }
  }

  lemma OwnersJoin(clients: map<ClientId, Client>, c: ClientId, client: Client)
    requires Owners(clients) && c !in clients
    requires Owned(client).None? || forall d | d in clients :: Owned(clients[d]) != Owned(client)
    ensures Owners(clients[c := client])
  {
  }

  /** Every client's own mutation is recorded. */
  lemma OwnedRecorded(db: Db, clients: map<ClientId, Client>)
    requires ClientsFit(db, clients)
    ensures forall d | d in clients && Owned(clients[d]).Some? :: Owned(clients[d]).value in db.journal
  {
    forall d | d in clients && Owned(clients[d]).Some? ensures Owned(clients[d]).value in db.journal {
      assert ClientFits(db, clients[d]);
    }
  }

  lemma OwnerBegins(db: Db, clients: map<ClientId, Client>, c: ClientId, intent: Intent, commit: PointerCommit)
    requires Owners(clients) && ClientsFit(db, clients) && c !in clients && commit.mutationId == intent.operationId
    requires BeginMutation(db, intent).result.Ok?
    ensures Owners(clients[c := Mutating(Protecting, commit)])
  {
    OwnedRecorded(db, clients);
    BeginWrites(db, intent);
    OwnersJoin(clients, c, Mutating(Protecting, commit));
  }

  lemma MutateFits(w: World, c: ClientId, intent: Intent, commit: PointerCommit)
    requires Fits(w) && c !in w.clients && Announces(w.db, intent, commit) && BeginMutation(w.db, intent).result.Ok?
    ensures Fits(World(Step(w.db, Begin(intent)), w.vault, w.clients[c := Mutating(Protecting, commit)]))
  {
    StepKeeps(w.db, Begin(intent));
    BegunFollows(w.db, intent, commit);
    ClientsKeep(w.db, Begin(intent), w.clients);
    OwnerBegins(w.db, w.clients, c, intent, commit);
  }

  lemma UseFits(w: World, op: Op)
    requires Fits(w) && Elsewhere(w.db, op)
    ensures Fits(w.(db := Step(w.db, op)))
  {
    if op.Save? { CarryIsSafe(w.db, op.save); }
    StepKeeps(w.db, op);
    ClientsKeep(w.db, op, w.clients);
  }

  lemma JoinFits(w: World, c: ClientId, client: Client)
    requires Fits(w) && c !in w.clients && !client.Mutating? && ClientFits(w.db, client)
    ensures Fits(w.(clients := w.clients[c := client]))
  {
    OwnersJoin(w.clients, c, client);
  }

  /** Every step keeps what the clients rely on. */
  lemma FitsStep(w: World, step: VaultStep)
    requires Fits(w)
    ensures Fits(Next(w, step))
  {
    match step
    case Use(op) => if Elsewhere(w.db, op) { UseFits(w, op); }
    case Mutate(c, intent, commit) =>
      if c !in w.clients && Announces(w.db, intent, commit) && BeginMutation(w.db, intent).result.Ok? {
        MutateFits(w, c, intent, commit);
      }
    case Call(c, outcome) => if c in w.clients { CallFits(w, c, outcome); }
    case Sweep(c, id) => if Next(w, step) != w { JoinFits(w, c, Cleaning(id)); }
    case Discard(c, request) => if Next(w, step) != w { JoinFits(w, c, Next(w, step).clients[c]); }
    case Stop(c) =>
  }

  lemma EmptyFits()
    ensures Fits(EmptyWorld)
  {
    EmptyInv();
  }
}
