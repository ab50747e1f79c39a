/** A credential mutation that nobody disturbs, through all its calls on the provider tables and the vault. */
module ProviderErrands {
  import opened Wrappers
  import opened ProviderDomain
  import opened ProviderStore
  import opened ProviderSteps
  import opened ProviderWrites
  import opened ProviderTables
  import opened ProviderVault
  import opened ProviderTheorems
  import opened ProviderOutcomes
  import opened ProviderJournalOutcomes
  import opened ProviderDeletions

  // ---------- calls that work ----------

  /** That many calls of one client, all of which work. */
  function Working(c: ClientId, n: nat): (steps: seq<VaultStep>)
    ensures |steps| == n && forall i | 0 <= i < n :: steps[i] == Call(c, Works)
  {
    if n == 0 then [] else [Call(c, Works)] + Working(c, n - 1)
  }

  /** Some calls of the client that all work lead from here to there. */
  ghost predicate Brings(w: World, c: ClientId, later: World) {
    exists n: nat :: Played(w, Working(c, n)) == later
  }

  lemma OneCall(w: World, c: ClientId, later: World)
    requires c in w.clients && Brings(Called(w, c, Works), c, later)
    ensures Brings(w, c, later)
  {
    var n: nat :| Played(Called(w, c, Works), Working(c, n)) == later;
    assert Working(c, n + 1)[1..] == Working(c, n);
    assert Played(w, Working(c, n + 1)) == later;
  }

  lemma NoCall(w: World, c: ClientId)
    ensures Brings(w, c, w)
  {
    assert Played(w, Working(c, 0)) == w;
  }

  /** The mutation at this call, with these tables and this vault. */
  function At(w: World, c: ClientId, commit: PointerCommit, stage: Stage, db: Db, vault: set<Place>): World {
    World(db, vault, w.clients[c := Mutating(stage, commit)])
  }

  /** A call that succeeds and goes on. */
  lemma GoesOn(w: World, c: ClientId, commit: PointerCommit, stage: Stage, db: Db, vault: set<Place>,
               next: Stage, db': Db, vault': set<Place>, later: World)
    requires Succeeds(At(w, c, commit, stage, db, vault), Mutating(stage, commit))
    requires Onward(db, stage, commit, true) == Some(next)
    requires var op := Transaction(db, Mutating(stage, commit)); db' == if op.Some? then Step(db, op.value) else db
    requires vault' == vault - Erases(db, Mutating(stage, commit)) + Stores(db, Mutating(stage, commit))
    requires Brings(At(w, c, commit, next, db', vault'), c, later)
    ensures Brings(At(w, c, commit, stage, db, vault), c, later)
  {
    var here := At(w, c, commit, stage, db, vault);
    assert Called(here, c, Works).clients == here.clients[c := Mutating(next, commit)];
    assert here.clients[c := Mutating(next, commit)] == w.clients[c := Mutating(next, commit)];
    assert Called(here, c, Works) == At(w, c, commit, next, db', vault');
    OneCall(here, c, later);
  }

  // ---------- what the journal tells the client ----------

  ghost predicate Recorded(db: Db, intent: Intent, commit: PointerCommit) {
    && commit.mutationId == intent.operationId && intent.operationId in db.journal
    && var m := db.journal[intent.operationId]; m == Record(intent).(phase := m.phase, error := m.error)
  }

  /** The place of the secret that the mutation brings: the new one, or the copy that a deletion keeps. */
  function Brought(intent: Intent): Place {
    (intent.profileId, if intent.newGen.Some? then intent.newGen.value
                       else if intent.rollbackGen.Some? then intent.rollbackGen.value else 0)
  }

  function Old(intent: Intent): set<Place> { Places(intent.profileId, intent.oldGen) }

  function Copy(intent: Intent): set<Place> { Places(intent.profileId, intent.rollbackGen) }

  lemma IntentFacts(intent: Intent)
    ensures Record(intent).Staged() == Some(Brought(intent).1)
    ensures intent.newGen.Some? <==> intent.rollbackGen.None?
    ensures intent.rollbackGen.Some? ==> intent.oldGen.Some? && intent.oldGen != intent.rollbackGen
    ensures intent.newGen.Some? ==> intent.oldGen != intent.newGen
  {
  }

  lemma RecordedPlaces(db: Db, intent: Intent, commit: PointerCommit)
    requires Recorded(db, intent, commit)
    ensures StagedAt(db, commit.mutationId) == {Brought(intent)}
    ensures CopyAt(db, commit.mutationId) == Copy(intent) && OldAt(db, commit.mutationId) == Old(intent)
  {
    IntentFacts(intent);
    assert db.journal[intent.operationId].Staged() == Record(intent).Staged();
  }

  // ---------- up to the vault write ----------

  /** The secret that the mutation brings is not in the vault yet, and one that it copies is. */
  ghost predicate VaultFits(vault: set<Place>, intent: Intent) {
    Brought(intent) !in vault && (intent.rollbackGen.Some? ==> Old(intent) <= vault)
  }

  /** Protecting the stores, copying the old secret where there is to be a copy, and writing. */
  lemma WritesSecret(w: World, c: ClientId, intent: Intent, commit: PointerCommit, db: Db, vault: set<Place>,
                     later: World)
    requires Recorded(db, intent, commit) && VaultFits(vault, intent)
    requires Brings(At(w, c, commit, Recording, db, vault + {Brought(intent)}), c, later)
    ensures Brings(At(w, c, commit, Protecting, db, vault), c, later)
  {
    RecordedPlaces(db, intent, commit);
    assert vault - {} + {} == vault && vault - {} + {Brought(intent)} == vault + {Brought(intent)};
    GoesOn(w, c, commit, Writing, db, vault, Recording, db, vault + {Brought(intent)}, later);
    if intent.rollbackGen.Some? {
      GoesOn(w, c, commit, Copying, db, vault, Writing, db, vault, later);
      assert CopyAt(db, commit.mutationId) != {};
      GoesOn(w, c, commit, Protecting, db, vault, Copying, db, vault, later);
    } else {
      GoesOn(w, c, commit, Protecting, db, vault, Writing, db, vault, later);
    }
  }

  // ---------- the two transactions ----------

  lemma RecordsWrite(w: World, c: ClientId, commit: PointerCommit, db: Db, vault: set<Place>, later: World)
    requires RecordVaultWrite(db, commit.mutationId).result.Ok?
    requires Brings(At(w, c, commit, Pointing, RecordVaultWrite(db, commit.mutationId).db, vault), c, later)
    ensures Brings(At(w, c, commit, Recording, db, vault), c, later)
  {
    assert vault - {} + {} == vault;
    GoesOn(w, c, commit, Recording, db, vault, Pointing, RecordVaultWrite(db, commit.mutationId).db, vault, later);
  }

  lemma MovesPointer(w: World, c: ClientId, commit: PointerCommit, db: Db, vault: set<Place>, next: Stage, later: World)
    requires CommitPointer(db, commit).result.Ok? && Onward(db, Pointing, commit, true) == Some(next)
    requires Brings(At(w, c, commit, next, CommitPointer(db, commit).db, vault), c, later)
    ensures Brings(At(w, c, commit, Pointing, db, vault), c, later)
  {
    assert vault - {} + {} == vault;
    GoesOn(w, c, commit, Pointing, db, vault, next, CommitPointer(db, commit).db, vault, later);
  }

  // ---------- the old secret ----------

  /** The active slot holds this secret. */
  ghost predicate InSlot(db: Db, p: ProfileId, g: nat) {
    db.active.Some? && db.active.value.profileId == p && db.active.value.generation == g
  }

  /** Its profile, if it has one, has no blocked mutation. */
  ghost predicate SlotOpen(db: Db) {
    db.active.Some? ==> !BlockedProfile(db, db.active.value.profileId)
  }

  lemma SlotIsRead(db: Db, p: ProfileId, g: nat)
    requires Tables(db)
    ensures SlotReads(db) <==> SlotOpen(db)
    ensures SlotNames(db, p, g) <==> SlotOpen(db) && InSlot(db, p, g)
  {
    TablesFailClosed(db);
    if db.active.Some? {
      var a := db.active.value;
      RevisionLoads(db, a.profileId, a.revision);
      assert Validated(db, (a.profileId, a.revision), db.revisions[(a.profileId, a.revision)]);
    }
  }

  /** No unfinished Run holds the old secret, and the active slot does not. */
  predicate Unheld(db: Db, intent: Intent) {
    && intent.oldGen.Some? && !LiveCredential(db, intent.profileId, intent.oldGen.value)
    && !(db.active.Some? && db.active.value.profileId == intent.profileId
         && db.active.value.generation == intent.oldGen.value)
  }

  function Erased(db: Db, intent: Intent): set<Place> {
    if Unheld(db, intent) then Old(intent) else {}
  }

  /** The tables when the pointer has been moved, as the client finds them. */
  ghost predicate Moved(db: Db, intent: Intent, commit: PointerCommit) {
    && Tables(db) && Recorded(db, intent, commit) && db.journal[intent.operationId].phase.PointerCommitted?
    && SlotOpen(db)
    && (intent.oldGen.Some? ==> HasStatus(db, intent.profileId, intent.oldGen.value, Retained))
  }

  /** Looking whether the old secret is still held, and erasing and retiring it if it is not. */
  lemma SettlesOld(w: World, c: ClientId, intent: Intent, commit: PointerCommit, db: Db, vault: set<Place>,
                   later: World)
    requires Moved(db, intent, commit) && intent.oldGen.Some? && commit.profileId == intent.profileId
    requires !Unheld(db, intent) ==> Brings(At(w, c, commit, OldSettled(db, commit.mutationId), db, vault), c, later)
    requires Unheld(db, intent) ==>
               var db' := RetireGeneration(db, Generation(intent.profileId, intent.oldGen.value, ApiKey)).db;
               Brings(At(w, c, commit, OldSettled(db, commit.mutationId), db', vault - Old(intent)), c, later)
    ensures Brings(At(w, c, commit, CheckingRuns, db, vault), c, later)
  {
    OldIsHeld(db, intent, commit);
    SlotIsRead(db, intent.profileId, intent.oldGen.value);
    assert vault - {} + {} == vault;
    if OldLive(db, commit.mutationId) {
      GoesOn(w, c, commit, CheckingRuns, db, vault, OldSettled(db, commit.mutationId), db, vault, later);
    } else {
      if Unheld(db, intent) { ErasesOld(w, c, intent, commit, db, vault, later); }
      LooksAtSlot(w, c, commit, db, vault, later);
      GoesOn(w, c, commit, CheckingRuns, db, vault, CheckingSlot, db, vault, later);
    }
  }

  lemma OldIsHeld(db: Db, intent: Intent, commit: PointerCommit)
    requires Moved(db, intent, commit) && intent.oldGen.Some?
    ensures OldLive(db, commit.mutationId) <==> LiveCredential(db, intent.profileId, intent.oldGen.value)
    ensures OldInSlot(db, commit.mutationId) <==> InSlot(db, intent.profileId, intent.oldGen.value)
  {
    RecordedPlaces(db, intent, commit);
    SlotIsRead(db, intent.profileId, intent.oldGen.value);
    assert (intent.profileId, intent.oldGen.value) in Old(intent);
  }

  lemma LooksAtSlot(w: World, c: ClientId, commit: PointerCommit, db: Db, vault: set<Place>, later: World)
    requires SlotReads(db)
    requires Brings(At(w, c, commit, if OldInSlot(db, commit.mutationId) then OldSettled(db, commit.mutationId)
                                     else Erasing, db, vault), c, later)
    ensures Brings(At(w, c, commit, CheckingSlot, db, vault), c, later)
  {
    assert vault - {} + {} == vault;
    GoesOn(w, c, commit, CheckingSlot, db, vault,
           if OldInSlot(db, commit.mutationId) then OldSettled(db, commit.mutationId) else Erasing, db, vault, later);
  }

  lemma ErasesOld(w: World, c: ClientId, intent: Intent, commit: PointerCommit, db: Db, vault: set<Place>, later: World)
    requires Moved(db, intent, commit) && Unheld(db, intent) && commit.profileId == intent.profileId
    requires var db' := RetireGeneration(db, Generation(intent.profileId, intent.oldGen.value, ApiKey)).db;
             Brings(At(w, c, commit, OldSettled(db, commit.mutationId), db', vault - Old(intent)), c, later)
    ensures Brings(At(w, c, commit, Erasing, db, vault), c, later)
  {
    RecordedPlaces(db, intent, commit);
    var retired := Generation(intent.profileId, intent.oldGen.value, ApiKey);
    var left := vault - Old(intent);
    assert vault - Old(intent) + {} == left && left - {} + {} == left;
    assert RetireGeneration(db, retired).result.Ok?;
    assert db.journal[commit.mutationId].oldGen == intent.oldGen;
    GoesOn(w, c, commit, Retiring, db, left, OldSettled(db, commit.mutationId), RetireGeneration(db, retired).db, left,
           later);
    GoesOn(w, c, commit, Erasing, db, vault, Retiring, db, left, later);
  }

  // ---------- completing ----------

  /** The last call of a mutation, after which its client is gone. */
  lemma LastCall(w: World, c: ClientId, commit: PointerCommit, db: Db, vault: set<Place>)
    requires c !in w.clients && CompleteMutation(db, commit.mutationId).result.Ok?
    ensures Brings(At(w, c, commit, Completing, db, vault), c,
                   World(CompleteMutation(db, commit.mutationId).db, vault, w.clients))
  {
    var last, done := At(w, c, commit, Completing, db, vault),
                      World(CompleteMutation(db, commit.mutationId).db, vault, w.clients);
    assert vault - {} + {} == vault;
    assert last.clients - {c} == w.clients;
    assert Called(last, c, Works) == done;
    NoCall(done, c);
    OneCall(last, c, done);
  }

  /** Dropping the copy, if there is one, and completing. */
  lemma Completes(w: World, c: ClientId, intent: Intent, commit: PointerCommit, db: Db, vault: set<Place>)
    requires c !in w.clients && Recorded(db, intent, commit) && CompleteMutation(db, commit.mutationId).result.Ok?
    ensures Brings(At(w, c, commit, OldSettled(db, commit.mutationId), db, vault), c,
                   World(CompleteMutation(db, commit.mutationId).db, vault - Copy(intent), w.clients))
  {
    RecordedPlaces(db, intent, commit);
    var left := vault - Copy(intent);
    LastCall(w, c, commit, db, left);
    if intent.rollbackGen.Some? {
      assert vault - Copy(intent) + {} == left;
      GoesOn(w, c, commit, DroppingCopy, db, vault, Completing, db, left,
             World(CompleteMutation(db, commit.mutationId).db, left, w.clients));
    } else {
      assert left == vault;
    }
  }

  lemma LaterStatusWins(db: Db, p: ProfileId, g: nat, before: GenerationStatus, after: GenerationStatus)
    ensures WithStatus(WithStatus(db, p, g, before), p, g, after) == WithStatus(db, p, g, after)
  {
  }

  /** Completing a mutation keeps nothing of what retiring its old credential did. */
  lemma CompletingForgetsRetiring(db: Db, id: OperationId)
    requires Tables(db) && id in db.journal && db.journal[id].phase.PointerCommitted? && db.journal[id].oldGen.Some?
    ensures var m := db.journal[id];
            var retired := RetireGeneration(db, Generation(m.profileId, m.oldGen.value, ApiKey)).db;
            CompleteMutation(retired, id) == CompleteMutation(db, id)
  {
    var m := db.journal[id];
    var retired := RetireGeneration(db, Generation(m.profileId, m.oldGen.value, ApiKey)).db;
    if retired != db {
      StatusTables(db, m.profileId, m.oldGen.value, GenerationStatus.Deleted);
      LaterStatusWins(db, m.profileId, m.oldGen.value, GenerationStatus.Deleted, Retained);
      CompletionShape(db, id);
      CompletionShape(retired, id);
    }
  }

  // ---------- the tables along the way ----------

  /** The mutation can be begun, by a client that has prepared its commit; its old credential, if it has one, is no
      tombstone, and the active slot can be read. */
  ghost predicate Prepared(db: Db, intent: Intent, commit: PointerCommit) {
    && Tables(db) && Announces(db, intent, commit) && BeginMutation(db, intent).result.Ok?
    && (intent.oldGen.Some? ==>
          SlotOpen(db) && !HasStatus(db, intent.profileId, intent.oldGen.value, GenerationStatus.Deleted))
  }

  /** These tables differ from those before in the credential the mutation brings and in its record. */
  ghost predicate IsBrought(db: Db, after: Db, intent: Intent, phase: Phase, status: GenerationStatus) {
    after == db.(generations := db.generations[Brought(intent) := GenerationRow(ApiKey, status)],
                 journal := db.journal[intent.operationId := Record(intent).(phase := phase)])
  }

  lemma BegunFacts(db: Db, begun: Db, intent: Intent, commit: PointerCommit)
    requires Prepared(db, intent, commit) && begun == BeginMutation(db, intent).db
    ensures Tables(begun) && IsBrought(db, begun, intent, IntentRecorded, Retained)
    ensures Brought(intent) !in db.generations && intent.operationId !in db.journal
    ensures Existing(db, intent.profileId) && db.profiles[intent.profileId].current == intent.expectedRevision
    ensures (intent.profileId, intent.expectedRevision) in db.revisions
            && db.revisions[(intent.profileId, intent.expectedRevision)].generation == intent.oldGen
    ensures !db.revisions[(intent.profileId, intent.expectedRevision)].config.provider.ChatGptSubscription?
    ensures intent.oldGen.Some? ==> (intent.profileId, intent.oldGen.value) in db.generations
  {
    BeginExactly(db, intent);
    BeginTables(db, intent);
    var key := (intent.profileId, intent.expectedRevision);
    assert CredentialFits(db, key.0, db.revisions[key].config, db.revisions[key].generation);
  }

  lemma WriteIsRecorded(begun: Db, intent: Intent)
    requires Tables(begun) && intent.operationId in begun.journal && begun.journal[intent.operationId] == Record(intent)
    requires HasStatus(begun, Brought(intent).0, Brought(intent).1, Retained)
    ensures RecordVaultWrite(begun, intent.operationId).result.Ok?
    ensures MovesOne(begun, RecordVaultWrite(begun, intent.operationId).db, intent.operationId, VaultWritten,
                     Brought(intent).1, Available)
  {
    IntentFacts(intent);
    VaultWriteExactly(begun, intent.operationId);
  }

  lemma WrittenFacts(db: Db, begun: Db, written: Db, intent: Intent)
    requires Tables(begun) && IsBrought(db, begun, intent, IntentRecorded, Retained)
    requires written == RecordVaultWrite(begun, intent.operationId).db
    ensures RecordVaultWrite(begun, intent.operationId).result.Ok?
    ensures Tables(written) && IsBrought(db, written, intent, VaultWritten, Available)
  {
    WriteIsRecorded(begun, intent);
    VaultWriteTables(begun, intent.operationId);
    MovedIsBrought(db, begun, written, intent);
  }

  lemma MovedIsBrought(db: Db, begun: Db, written: Db, intent: Intent)
    requires IsBrought(db, begun, intent, IntentRecorded, Retained)
    requires MovesOne(begun, written, intent.operationId, VaultWritten, Brought(intent).1, Available)
    ensures IsBrought(db, written, intent, VaultWritten, Available)
  {
    LaterRowWins(db.generations, Brought(intent), GenerationRow(ApiKey, Retained), GenerationRow(ApiKey, Available));
    LaterRowWins(db.journal, intent.operationId, Record(intent), Record(intent).(phase := VaultWritten));
  }

  lemma LaterRowWins<K, V>(m: map<K, V>, k: K, x: V, y: V)
    ensures m[k := x][k := y] == m[k := y]
  {
  }

  lemma CommitIsFulfilled(db: Db, written: Db, intent: Intent, commit: PointerCommit)
    requires Announces(db, intent, commit) && IsBrought(db, written, intent, VaultWritten, Available)
    requires Existing(db, intent.profileId) && db.profiles[intent.profileId].current == intent.expectedRevision
    requires !db.revisions[(commit.profileId, commit.expectedRevision)].config.provider.ChatGptSubscription?
    ensures Recorded(written, intent, commit) && written.journal[commit.mutationId].phase.VaultWritten?
    ensures Fulfils(written, written.journal[commit.mutationId], commit)
  {
    IntentFacts(intent);
  }

  lemma PointedFacts(written: Db, pointed: Db, intent: Intent, commit: PointerCommit)
    requires Tables(written) && Recorded(written, intent, commit)
    requires written.journal[commit.mutationId].phase.VaultWritten?
    requires Fulfils(written, written.journal[commit.mutationId], commit)
    requires pointed == CommitPointer(written, commit).db
    ensures CommitPointer(written, commit).result.Ok? && Tables(pointed)
    ensures Points(written, pointed, intent.operationId)
  {
    CommitExactly(written, commit);
    CommitTables(written, commit);
  }

  /** Moving the pointer changes neither who holds the old secret nor whether the active slot can be read. */
  lemma PointingKeepsHolders(db: Db, written: Db, pointed: Db, intent: Intent)
    requires IsBrought(db, written, intent, VaultWritten, Available) && Points(written, pointed, intent.operationId)
    ensures Unheld(pointed, intent) == Unheld(db, intent) && (SlotOpen(db) ==> SlotOpen(pointed))
    ensures pointed.journal == db.journal[intent.operationId := Record(intent).(phase := PointerCommitted)]
    ensures intent.oldGen.Some? && (intent.profileId, intent.oldGen.value) in db.generations
            && !HasStatus(db, intent.profileId, intent.oldGen.value, GenerationStatus.Deleted)
            ==> HasStatus(pointed, intent.profileId, intent.oldGen.value, Retained)
  {
    IntentFacts(intent);
    LaterRowWins(db.journal, intent.operationId, Record(intent).(phase := VaultWritten),
                 Record(intent).(phase := PointerCommitted));
  }

  // ---------- the whole errand ----------

  /** What the errand leaves: its client is gone and its record completed; the next revision names the new credential,
      if there is one, whose secret is in the vault; the old credential is retained, and its secret erased exactly
      when no unfinished Run and not the active slot holds it; of a copy nothing is left, and no other secret has
      changed. */
  ghost predicate Accomplished(w: World, later: World, intent: Intent) {
    var p, done := intent.profileId, later.db;
    && later.clients == w.clients
    && later.vault == w.vault + Places(p, intent.newGen) - Erased(w.db, intent)
    && done.journal == w.db.journal[intent.operationId := Record(intent).(phase := Completed)]
    && var n := intent.expectedRevision;
    && (p, n) in w.db.revisions && CurrentRevision(done, p) == Some(n + 1)
    && done.revisions == w.db.revisions[(p, n + 1) := RevisionRow(w.db.revisions[(p, n)].config, intent.newGen, Draft,
                                                                  None)]
    && (intent.newGen.Some? ==> HasStatus(done, p, intent.newGen.value, Available))
    && (intent.oldGen.Some? ==> HasStatus(done, p, intent.oldGen.value, Retained))
    && (intent.rollbackGen.Some? ==> HasStatus(done, p, intent.rollbackGen.value, GenerationStatus.Deleted))
    && done.active == w.db.active
  }

  /** Once the pointer has been moved, the errand goes through. */
  lemma MovedGoesThrough(w: World, c: ClientId, intent: Intent, commit: PointerCommit, db: Db, vault: set<Place>)
    requires c !in w.clients && commit.profileId == intent.profileId
    requires Tables(db) && Recorded(db, intent, commit) && db.journal[intent.operationId].phase.PointerCommitted?
    requires intent.oldGen.Some? ==> Moved(db, intent, commit)
    ensures var next := if intent.oldGen.Some? then CheckingRuns else OldSettled(db, commit.mutationId);
            Brings(At(w, c, commit, next, db, vault), c,
                   World(CompleteMutation(db, commit.mutationId).db, vault - Erased(db, intent) - Copy(intent),
                         w.clients))
  {
    CompleteExactly(db, commit.mutationId);
    if intent.oldGen.Some? && Unheld(db, intent) {
      UnheldGoesThrough(w, c, intent, commit, db, vault);
    } else {
      assert vault - Erased(db, intent) == vault;
      Completes(w, c, intent, commit, db, vault);
      if intent.oldGen.Some? {
        SettlesOld(w, c, intent, commit, db, vault,
                   World(CompleteMutation(db, commit.mutationId).db, vault - Copy(intent), w.clients));
      }
    }
  }

  lemma UnheldGoesThrough(w: World, c: ClientId, intent: Intent, commit: PointerCommit, db: Db, vault: set<Place>)
    requires c !in w.clients && commit.profileId == intent.profileId
    requires Moved(db, intent, commit) && intent.oldGen.Some? && Unheld(db, intent)
    requires CompleteMutation(db, commit.mutationId).result.Ok?
    ensures Brings(At(w, c, commit, CheckingRuns, db, vault), c,
                   World(CompleteMutation(db, commit.mutationId).db, vault - Old(intent) - Copy(intent), w.clients))
  {
    var id := commit.mutationId;
    var retired := RetireGeneration(db, Generation(intent.profileId, intent.oldGen.value, ApiKey)).db;
    CompletingForgetsRetiring(db, id);
    assert OldSettled(retired, id) == OldSettled(db, id);
    Completes(w, c, intent, commit, retired, vault - Old(intent));
    SettlesOld(w, c, intent, commit, db, vault,
               World(CompleteMutation(db, id).db, vault - Old(intent) - Copy(intent), w.clients));
  }

  /** Where the client is when it has moved the pointer. */
  function AfterPointing(db: Db, intent: Intent): Stage {
    if intent.oldGen.Some? then CheckingRuns else OldSettled(db, intent.operationId)
  }

  lemma PointingGoesOn(db: Db, intent: Intent, commit: PointerCommit)
    requires Recorded(db, intent, commit)
    ensures Onward(db, Pointing, commit, true) == Some(AfterPointing(db, intent))
  {
    RecordedPlaces(db, intent, commit);
    if intent.oldGen.Some? { assert (intent.profileId, intent.oldGen.value) in Old(intent); }
  }

  /** The calls up to the pointer commit. */
  lemma GoesUpToPointing(w: World, c: ClientId, intent: Intent, commit: PointerCommit, begun: Db, written: Db,
                         pointed: Db, later: World)
    requires Recorded(begun, intent, commit) && Recorded(written, intent, commit) && VaultFits(w.vault, intent)
    requires written == RecordVaultWrite(begun, intent.operationId).db
             && RecordVaultWrite(begun, intent.operationId).result.Ok?
    requires pointed == CommitPointer(written, commit).db && CommitPointer(written, commit).result.Ok?
    requires Brings(At(w, c, commit, AfterPointing(written, intent), pointed, w.vault + {Brought(intent)}), c, later)
    ensures Brings(At(w, c, commit, Protecting, begun, w.vault), c, later)
  {
    var vault := w.vault + {Brought(intent)};
    PointingGoesOn(written, intent, commit);
    MovesPointer(w, c, commit, written, vault, AfterPointing(written, intent), later);
    RecordsWrite(w, c, commit, begun, vault, later);
    WritesSecret(w, c, intent, commit, begun, w.vault, later);
  }

  lemma VaultLeft(vault: set<Place>, intent: Intent, erased: set<Place>)
    requires VaultFits(vault, intent)
    ensures vault + {Brought(intent)} - erased - Copy(intent)
            == vault + Places(intent.profileId, intent.newGen) - erased
  {
    IntentFacts(intent);
    if intent.rollbackGen.Some? {
      assert Copy(intent) == {Brought(intent)} && Places(intent.profileId, intent.newGen) == {};
    } else {
      assert Copy(intent) == {} && Places(intent.profileId, intent.newGen) == {Brought(intent)};
    }
  }

  /** The tables at each of the calls that change them. */
  ghost predicate Course(db: Db, begun: Db, written: Db, pointed: Db, intent: Intent, commit: PointerCommit) {
    && Recorded(begun, intent, commit) && Recorded(written, intent, commit) && Recorded(pointed, intent, commit)
    && begun == BeginMutation(db, intent).db
    && written == RecordVaultWrite(begun, intent.operationId).db
    && RecordVaultWrite(begun, intent.operationId).result.Ok?
    && pointed == CommitPointer(written, commit).db && CommitPointer(written, commit).result.Ok?
    && Tables(pointed) && pointed.journal[intent.operationId].phase.PointerCommitted?
    && IsBrought(db, written, intent, VaultWritten, Available) && Points(written, pointed, intent.operationId)
    && (intent.oldGen.Some? ==> Moved(pointed, intent, commit)) && Unheld(pointed, intent) == Unheld(db, intent)
  }

  lemma TakesCourse(db: Db, begun: Db, written: Db, pointed: Db, intent: Intent, commit: PointerCommit)
    requires Prepared(db, intent, commit)
    requires begun == BeginMutation(db, intent).db && written == RecordVaultWrite(begun, intent.operationId).db
    requires pointed == CommitPointer(written, commit).db
    ensures Course(db, begun, written, pointed, intent, commit)
  {
    BegunFacts(db, begun, intent, commit);
    WrittenFacts(db, begun, written, intent);
    CommitIsFulfilled(db, written, intent, commit);
    PointedFacts(written, pointed, intent, commit);
    PointingKeepsHolders(db, written, pointed, intent);
  }

  lemma CourseIsDone(w: World, written: Db, pointed: Db, intent: Intent, later: World)
    requires IsBrought(w.db, written, intent, VaultWritten, Available) && Points(written, pointed, intent.operationId)
    requires Closes(pointed, later.db, intent.operationId) && Unheld(pointed, intent) == Unheld(w.db, intent)
    requires (intent.profileId, intent.expectedRevision) in w.db.revisions && Existing(w.db, intent.profileId)
    requires VaultFits(w.vault, intent)
    requires later.vault == w.vault + {Brought(intent)} - Erased(pointed, intent) - Copy(intent)
    requires later.clients == w.clients
    ensures Accomplished(w, later, intent)
  {
    IntentFacts(intent);
    VaultLeft(w.vault, intent, Erased(w.db, intent));
    LaterRowWins(w.db.journal, intent.operationId, Record(intent).(phase := VaultWritten),
                 Record(intent).(phase := PointerCommitted));
    LaterRowWins(w.db.journal, intent.operationId, Record(intent).(phase := PointerCommitted),
                 Record(intent).(phase := Completed));
  }

  lemma ErrandGoesThrough(w: World, c: ClientId, begun: Db, written: Db, pointed: Db, intent: Intent,
                          commit: PointerCommit, later: World)
    requires c !in w.clients && commit.profileId == intent.profileId && VaultFits(w.vault, intent)
    requires Course(w.db, begun, written, pointed, intent, commit)
    requires later == World(CompleteMutation(pointed, intent.operationId).db,
                            w.vault + {Brought(intent)} - Erased(pointed, intent) - Copy(intent), w.clients)
    ensures Brings(At(w, c, commit, Protecting, begun, w.vault), c, later)
  {
    MovedGoesThrough(w, c, intent, commit, pointed, w.vault + {Brought(intent)});
    assert AfterPointing(written, intent) == AfterPointing(pointed, intent);
    GoesUpToPointing(w, c, intent, commit, begun, written, pointed, later);
  }

  lemma ErrandStarts(w: World, c: ClientId, intent: Intent, commit: PointerCommit)
    requires Prepared(w.db, intent, commit) && c !in w.clients
    ensures Next(w, Mutate(c, intent, commit)) == At(w, c, commit, Protecting, BeginMutation(w.db, intent).db, w.vault)
  {
  }

  lemma ErrandEnds(w: World, c: ClientId, start: World, later: World, intent: Intent)
    requires Brings(start, c, later) && Accomplished(w, later, intent)
    ensures exists n: nat :: Accomplished(w, Played(start, Working(c, n)), intent)
  {
    var n: nat :| Played(start, Working(c, n)) == later;
  }

  lemma ErrandWorks(w: World, c: ClientId, begun: Db, written: Db, pointed: Db, intent: Intent, commit: PointerCommit)
    requires Prepared(w.db, intent, commit) && c !in w.clients && VaultFits(w.vault, intent)
    requires begun == BeginMutation(w.db, intent).db && written == RecordVaultWrite(begun, intent.operationId).db
    requires pointed == CommitPointer(written, commit).db
    ensures exists n: nat ::
              Accomplished(w, Played(At(w, c, commit, Protecting, begun, w.vault), Working(c, n)), intent)
  {
    var id := intent.operationId;
    var later := World(CompleteMutation(pointed, id).db,
                       w.vault + {Brought(intent)} - Erased(pointed, intent) - Copy(intent), w.clients);
    TakesCourse(w.db, begun, written, pointed, intent, commit);
    ErrandGoesThrough(w, c, begun, written, pointed, intent, commit, later);
    BegunFacts(w.db, begun, intent, commit);
    CompleteExactly(pointed, id);
    CourseIsDone(w, written, pointed, intent, later);
    ErrandEnds(w, c, At(w, c, commit, Protecting, begun, w.vault), later, intent);
  }

  /** A mutation that nobody disturbs does its errand: from its beginning, some number of its calls, all of which
      work, leave what it was for. */
  lemma MutationErrand(w: World, c: ClientId, intent: Intent, commit: PointerCommit)
    requires Prepared(w.db, intent, commit) && c !in w.clients && VaultFits(w.vault, intent)
    ensures exists n: nat :: Accomplished(w, Played(Next(w, Mutate(c, intent, commit)), Working(c, n)), intent)
  {
    var begun := BeginMutation(w.db, intent).db;
    var written := RecordVaultWrite(begun, intent.operationId).db;
    ErrandStarts(w, c, intent, commit);
    ErrandWorks(w, c, begun, written, CommitPointer(written, commit).db, intent, commit);
  }

  // ---------- errands that come to nothing ----------

  /** The mutation is rolled back: its record says so, and what it staged is a tombstone. */
  ghost predicate IsRolledBack(db: Db, after: Db, id: OperationId) {
    && id in db.journal && db.journal[id].Staged().Some?
    && (db.journal[id].profileId, db.journal[id].Staged().value) in db.generations
    && MovesOne(db, after, id, RolledBack, db.journal[id].Staged().value, GenerationStatus.Deleted)
  }

  lemma RollsBack(db: Db, id: OperationId)
    requires Tables(db) && id in db.journal
    requires db.journal[id].phase.IntentRecorded? || db.journal[id].phase.VaultWritten?
             || db.journal[id].phase.CleanupPending?
    ensures RollbackMutation(db, id).result.Ok? && IsRolledBack(db, RollbackMutation(db, id).db, id)
  {
    RollbackExactly(db, id);
    BringsOne(db, db.journal[id]);
  }

  /** The calls before the pointer has moved whose failure the mutation undoes. */
  predicate Undoable(stage: Stage) { stage.Copying? || stage.Writing? || stage.Pointing? }

  /** Such a call fails: the store says so, what is to be copied is not there, what is to be written is, or the pointer
      commit is refused. */
  predicate FailsAt(w: World, stage: Stage, commit: PointerCommit, outcome: Outcome) {
    || !outcome.Works?
    || (stage.Copying? && !(OldAt(w.db, commit.mutationId) <= w.vault))
    || (stage.Writing? && !(StagedAt(w.db, commit.mutationId) !! w.vault))
    || (stage.Pointing? && CommitPointer(w.db, commit).result.Err?)
  }

  /** The tables after such a call: a pointer commit that is refused may ask for cleanup. */
  function FailedDb(w: World, stage: Stage, commit: PointerCommit, outcome: Outcome): Db {
    if stage.Pointing? && outcome.Works? then CommitPointer(w.db, commit).db else w.db
  }

  /** Whatever it may have left is then to be taken away. */
  lemma CallFails(w: World, c: ClientId, stage: Stage, commit: PointerCommit, outcome: Outcome)
    requires c in w.clients && w.clients[c] == Mutating(stage, commit) && Undoable(stage)
    requires FailsAt(w, stage, commit, outcome)
    ensures var staged := StagedAt(w.db, commit.mutationId);
            && Called(w, c, outcome).db == FailedDb(w, stage, commit, outcome)
            && Called(w, c, outcome).clients == w.clients[c := Mutating(Unstaging, commit)]
            && Called(w, c, outcome).vault - staged == w.vault - staged
  {
  }

  lemma Unstages(w: World, c: ClientId, commit: PointerCommit)
    requires c in w.clients && w.clients[c] == Mutating(Unstaging, commit)
    ensures Called(w, c, Works)
            == World(w.db, w.vault - StagedAt(w.db, commit.mutationId), w.clients[c := Mutating(RollingBack, commit)])
  {
    assert w.vault - StagedAt(w.db, commit.mutationId) + {} == w.vault - StagedAt(w.db, commit.mutationId);
  }

  lemma RollsBackLast(w: World, c: ClientId, id: OperationId)
    requires c in w.clients && RollbackMutation(w.db, id).result.Ok?
    requires w.clients[c] == Abandoning(id)
             || (w.clients[c].Mutating? && w.clients[c].stage.RollingBack? && w.clients[c].commit.mutationId == id)
    ensures Called(w, c, Works) == World(RollbackMutation(w.db, id).db, w.vault, w.clients - {c})
  {
    assert w.vault - {} + {} == w.vault;
  }

  /** The last call of a client that ends by rolling back. */
  lemma EndsRolledBack(w: World, c: ClientId, id: OperationId, clients: map<ClientId, Client>)
    requires c in w.clients && RollbackMutation(w.db, id).result.Ok? && w.clients - {c} == clients
    requires w.clients[c] == Abandoning(id)
             || (w.clients[c].Mutating? && w.clients[c].stage.RollingBack? && w.clients[c].commit.mutationId == id)
    ensures Brings(w, c, World(RollbackMutation(w.db, id).db, w.vault, clients))
  {
    RollsBackLast(w, c, id);
    NoCall(Called(w, c, Works), c);
    OneCall(w, c, Called(w, c, Works));
  }

  /** The record may still be rolled back, and is of the same mutation. */
  ghost predicate StillOpen(db: Db, after: Db, id: OperationId) {
    && id in db.journal && id in after.journal
    && after.journal[id] == db.journal[id].(phase := after.journal[id].phase)
    && var phase := after.journal[id].phase; phase.IntentRecorded? || phase.VaultWritten? || phase.CleanupPending?
  }

  lemma FailedStaysOpen(w: World, stage: Stage, commit: PointerCommit, outcome: Outcome)
    requires Tables(w.db) && commit.mutationId in w.db.journal && FailsAt(w, stage, commit, outcome)
    requires var phase := w.db.journal[commit.mutationId].phase; phase.IntentRecorded? || phase.VaultWritten?
    ensures Tables(FailedDb(w, stage, commit, outcome))
    ensures StillOpen(w.db, FailedDb(w, stage, commit, outcome), commit.mutationId)
  {
    CommitTables(w.db, commit);
    CommitExactly(w.db, commit);
  }

  /** A mutation whose copy, write or pointer commit fails, for sure or not, takes away what it staged and rolls
      back. */
  lemma FailureIsUndone(w: World, c: ClientId, stage: Stage, commit: PointerCommit, outcome: Outcome)
    requires c in w.clients && w.clients[c] == Mutating(stage, commit) && Undoable(stage)
    requires FailsAt(w, stage, commit, outcome)
    requires Tables(w.db) && commit.mutationId in w.db.journal
    requires var phase := w.db.journal[commit.mutationId].phase; phase.IntentRecorded? || phase.VaultWritten?
    ensures var id, failed := commit.mutationId, FailedDb(w, stage, commit, outcome);
            && Brings(Called(w, c, outcome), c,
                      World(RollbackMutation(failed, id).db, w.vault - StagedAt(w.db, id), w.clients - {c}))
            && IsRolledBack(failed, RollbackMutation(failed, id).db, id)
  {
    var id, failed := commit.mutationId, FailedDb(w, stage, commit, outcome);
    CallFails(w, c, stage, commit, outcome);
    FailedStaysOpen(w, stage, commit, outcome);
    RollsBack(failed, id);
    UnstagedEnds(w, Called(w, c, outcome), c, commit, failed);
  }

  lemma UnstagedEnds(w: World, unstaging: World, c: ClientId, commit: PointerCommit, failed: Db)
    requires StillOpen(w.db, failed, commit.mutationId) && RollbackMutation(failed, commit.mutationId).result.Ok?
    requires unstaging.db == failed && unstaging.clients == w.clients[c := Mutating(Unstaging, commit)]
    requires unstaging.vault - StagedAt(w.db, commit.mutationId) == w.vault - StagedAt(w.db, commit.mutationId)
    ensures Brings(unstaging, c,
                   World(RollbackMutation(failed, commit.mutationId).db, w.vault - StagedAt(w.db, commit.mutationId),
                         w.clients - {c}))
  {
    var id := commit.mutationId;
    assert failed.journal[id].Staged() == w.db.journal[id].Staged();
    assert StagedAt(failed, id) == StagedAt(w.db, id);
    Unstages(unstaging, c, commit);
    assert unstaging.clients[c := Mutating(RollingBack, commit)] - {c} == w.clients - {c};
    EndsRolledBack(Called(unstaging, c, Works), c, id, w.clients - {c});
    OneCall(unstaging, c, World(RollbackMutation(failed, id).db, w.vault - StagedAt(w.db, id), w.clients - {c}));
  }

  /** The calls whose failure leaves the stores in doubt. */
  predicate Doubtful(stage: Stage) {
    || stage.Protecting? || stage.Recording? || stage.CheckingRuns? || stage.Erasing? || stage.Retiring?
    || stage.DroppingCopy? || stage.Completing? || stage.Unstaging? || stage.RollingBack?
  }

  /** When such a call reports a failure, the mutation is blocked, and its client is gone. */
  lemma DoubtBlocks(w: World, c: ClientId, stage: Stage, commit: PointerCommit, outcome: Outcome)
    requires c in w.clients && w.clients[c] == Mutating(stage, commit) && Doubtful(stage) && !outcome.Works?
    requires BlockMutation(w.db, commit.mutationId, ProtectionUnavailableCode).result.Ok?
    ensures Brings(Called(w, c, outcome), c,
                   World(BlockMutation(w.db, commit.mutationId, ProtectionUnavailableCode).db,
                         Called(w, c, outcome).vault, w.clients - {c}))
  {
    var failed := Called(w, c, outcome);
    assert failed.db == w.db && failed.clients == w.clients[c := Mutating(Blocking, commit)];
    BlockingEnds(failed, c, commit);
    assert failed.clients - {c} == w.clients - {c};
  }

  lemma BlockingEnds(w: World, c: ClientId, commit: PointerCommit)
    requires c in w.clients && w.clients[c] == Mutating(Blocking, commit)
    requires BlockMutation(w.db, commit.mutationId, ProtectionUnavailableCode).result.Ok?
    ensures Brings(w, c, World(BlockMutation(w.db, commit.mutationId, ProtectionUnavailableCode).db, w.vault,
                               w.clients - {c}))
  {
    assert w.vault - {} + {} == w.vault;
    NoCall(Called(w, c, Works), c);
    OneCall(w, c, Called(w, c, Works));
  }

  lemma Sweeps(w: World, c: ClientId, id: OperationId)
    requires c !in w.clients && id in w.db.journal && w.db.journal[id].phase.IntentRecorded?
    ensures var cleaning := Next(w, Sweep(c, id));
            && c in cleaning.clients
            && Called(cleaning, c, Works)
               == World(w.db, w.vault - StagedAt(w.db, id), w.clients[c := Cleaning(id)][c := Abandoning(id)])
  {
    assert w.vault - StagedAt(w.db, id) + {} == w.vault - StagedAt(w.db, id);
  }

  lemma SweptEnds(w: World, cleaning: World, c: ClientId, id: OperationId)
    requires c !in w.clients && c in cleaning.clients && RollbackMutation(w.db, id).result.Ok?
    requires Called(cleaning, c, Works)
             == World(w.db, w.vault - StagedAt(w.db, id), w.clients[c := Cleaning(id)][c := Abandoning(id)])
    ensures Brings(cleaning, c, World(RollbackMutation(w.db, id).db, w.vault - StagedAt(w.db, id), w.clients))
  {
    assert w.clients[c := Cleaning(id)][c := Abandoning(id)] - {c} == w.clients;
    EndsRolledBack(Called(cleaning, c, Works), c, id, w.clients);
    OneCall(cleaning, c, World(RollbackMutation(w.db, id).db, w.vault - StagedAt(w.db, id), w.clients));
  }

  /** Cleaning up after an abandoned mutation takes away what it staged and rolls it back. */
  lemma CleanupErrand(w: World, c: ClientId, id: OperationId)
    requires Tables(w.db) && c !in w.clients && id in w.db.journal && w.db.journal[id].phase.IntentRecorded?
    ensures var undone := RollbackMutation(w.db, id).db;
            && Brings(Next(w, Sweep(c, id)), c, World(undone, w.vault - StagedAt(w.db, id), w.clients))
            && IsRolledBack(w.db, undone, id)
  {
    Sweeps(w, c, id);
    RollsBack(w.db, id);
    SweptEnds(w, Next(w, Sweep(c, id)), c, id);
  }

  // ---------- deleting a profile ----------

  /** The deletion at this call, with this vault. */
  function DeletingAt(w: World, c: ClientId, request: DeleteRequest, credential: Option<nat>, step: DeletionStage,
                      vault: set<Place>): World
  {
    World(w.db, vault, w.clients[c := Deleting(step, request, credential)])
  }

  /** A call of the deletion that leaves the tables alone and goes on. */
  lemma DeletionGoesOn(w: World, c: ClientId, request: DeleteRequest, credential: Option<nat>, step: DeletionStage,
                       vault: set<Place>, next: DeletionStage, vault': set<Place>, later: World)
    requires var here := DeletingAt(w, c, request, credential, step, vault);
             && Then(w.db, here.clients[c], Succeeds(here, here.clients[c]))
                == Some(Deleting(next, request, credential))
             && vault' == vault - Erases(w.db, here.clients[c]) + Stores(w.db, here.clients[c])
    requires step.Deciding? ==> DeleteProfile(w.db, request).db == w.db
    requires Brings(DeletingAt(w, c, request, credential, next, vault'), c, later)
    ensures Brings(DeletingAt(w, c, request, credential, step, vault), c, later)
  {
    var here := DeletingAt(w, c, request, credential, step, vault);
    assert here.clients[c := Deleting(next, request, credential)]
           == w.clients[c := Deleting(next, request, credential)];
    assert Called(here, c, Works) == DeletingAt(w, c, request, credential, next, vault');
    OneCall(here, c, later);
  }

  /** The last call of a deletion that is accepted. */
  lemma DeletionEnds(w: World, c: ClientId, request: DeleteRequest, credential: Option<nat>, vault: set<Place>)
    requires c !in w.clients && DeleteProfile(w.db, request).result.Ok?
    ensures Brings(DeletingAt(w, c, request, credential, Deciding, vault), c,
                   World(DeleteProfile(w.db, request).db, vault, w.clients))
  {
    var here := DeletingAt(w, c, request, credential, Deciding, vault);
    assert vault - {} + {} == vault && here.clients - {c} == w.clients;
    assert Called(here, c, Works) == World(DeleteProfile(w.db, request).db, vault, w.clients);
    NoCall(Called(here, c, Works), c);
    OneCall(here, c, Called(here, c, Works));
  }

  /** The last call of one that is refused: it writes back what it removed. */
  lemma RestoringEnds(w: World, c: ClientId, request: DeleteRequest, g: nat, vault: set<Place>)
    requires c !in w.clients
    ensures Brings(DeletingAt(w, c, request, Some(g), Restoring, vault), c,
                   World(w.db, vault + {(request.profileId, g)}, w.clients))
  {
    var here := DeletingAt(w, c, request, Some(g), Restoring, vault);
    assert vault - {} + {(request.profileId, g)} == vault + {(request.profileId, g)} && here.clients - {c} == w.clients;
    NoCall(Called(here, c, Works), c);
    OneCall(here, c, Called(here, c, Works));
  }

  /** Reading and removing the secret. */
  lemma RemovesSecret(w: World, c: ClientId, request: DeleteRequest, g: nat, later: World)
    requires !LiveProfile(w.db, request.profileId) && (request.profileId, g) in w.vault
    requires Brings(DeletingAt(w, c, request, Some(g), Deciding, w.vault - {(request.profileId, g)}), c, later)
    ensures Brings(DeletingAt(w, c, request, Some(g), Guarding, w.vault), c, later)
  {
    var left := w.vault - {(request.profileId, g)};
    assert left + {} == left && w.vault - {} + {} == w.vault;
    DeletionGoesOn(w, c, request, Some(g), Removing, w.vault, Deciding, left, later);
    DeletionGoesOn(w, c, request, Some(g), Reading, w.vault, Removing, w.vault, later);
    DeletionGoesOn(w, c, request, Some(g), Guarding, w.vault, Reading, w.vault, later);
  }

  /** A deletion may begin: its author saw the current revision, and what that names is in the vault. */
  ghost predicate MayDelete(w: World, c: ClientId, request: DeleteRequest) {
    var key := (request.profileId, request.expectedRevision);
    && c !in w.clients && CurrentRevision(w.db, key.0) == Some(key.1) && key in w.db.revisions
    && Places(key.0, w.db.revisions[key].generation) <= w.vault
  }

  /** A deletion that nobody disturbs deletes the profile and its secret, and nothing else. */
  lemma DeletionErrand(w: World, c: ClientId, request: DeleteRequest)
    requires MayDelete(w, c, request) && DeleteProfile(w.db, request).result.Ok?
    ensures var key, deleted := (request.profileId, request.expectedRevision), DeleteProfile(w.db, request).db;
            && Brings(Next(w, Discard(c, request)), c,
                      World(deleted, w.vault - Places(key.0, w.db.revisions[key].generation), w.clients))
            && Deletes(w.db, deleted, request.profileId)
  {
    var key := (request.profileId, request.expectedRevision);
    var credential, deleted := w.db.revisions[key].generation, DeleteProfile(w.db, request).db;
    var left := w.vault - Places(key.0, credential);
    DeleteExactly(w.db, request);
    DeletionEnds(w, c, request, credential, left);
    if credential.Some? {
      RemovesSecret(w, c, request, credential.value, World(deleted, left, w.clients));
    } else {
      assert left == w.vault && w.vault - {} + {} == w.vault;
      DeletionGoesOn(w, c, request, credential, Guarding, w.vault, Deciding, w.vault, World(deleted, left, w.clients));
    }
    assert Next(w, Discard(c, request)) == DeletingAt(w, c, request, credential, Guarding, w.vault);
  }

  /** One that is refused leaves everything as it was: the secret it removed is written back. */
  lemma RefusedDeletionIsUndone(w: World, c: ClientId, request: DeleteRequest)
    requires MayDelete(w, c, request) && DeleteProfile(w.db, request).result.Err?
    requires !LiveProfile(w.db, request.profileId)
    requires w.db.revisions[(request.profileId, request.expectedRevision)].generation.Some?
    ensures Brings(Next(w, Discard(c, request)), c, w)
  {
    var p, g := request.profileId, w.db.revisions[(request.profileId, request.expectedRevision)].generation.value;
    var left := w.vault - {(p, g)};
    DeleteExactly(w.db, request);
    RestoringEnds(w, c, request, g, left);
    assert left + {(p, g)} == w.vault && left - {} + {} == left;
    DeletionGoesOn(w, c, request, Some(g), Deciding, left, Restoring, left, w);
    RemovesSecret(w, c, request, g, w);
    assert Next(w, Discard(c, request)) == DeletingAt(w, c, request, Some(g), Guarding, w.vault);
  }
}
