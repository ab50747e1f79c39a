/** The vault holds every secret that someone uses or can come to use, as long as no step is rash. */
module ProviderSecrets {
  import opened Wrappers
  import opened ProviderDomain
  import opened ProviderStore
  import opened ProviderSteps
  import opened ProviderWrites
  import opened ProviderTables
  import opened ProviderInvariants
  import opened ProviderRuns
  import opened ProviderJournal
  import opened ProviderHistory
  import opened ProviderVault
  import opened ProviderNeeds
  import opened ProviderClients

  ghost predicate Kept(w: World) {
    forall p: ProfileId, g: nat | Needed(w, p, g) :: Safe(w, p, g)
  }

  // ---------- promises ----------

  lemma PromiseRecord(db: Db, op: Op, client: Client, p: ProfileId, g: nat)
    requires client.Mutating? && client.commit.mutationId in db.journal && NotAbout(op, client.commit.mutationId)
    requires Promises(Step(db, op), client, p, g)
    ensures var id := client.commit.mutationId;
            Step(db, op).journal[id] == db.journal[id] && (Step(db, op) == db || Subject(op) != Some(id))
  {
    var id := client.commit.mutationId;
    if Subject(op) == Some(id) { RollbackWrites(db, id); } else { OthersStay(db, op, id); }
  }

  /** Another client's transaction makes a mutation promise nothing new. */
  lemma PromiseSteps(db: Db, op: Op, client: Client, p: ProfileId, g: nat)
    requires Tables(db) && client.Mutating? && client.commit.mutationId in db.journal
    requires NotAbout(op, client.commit.mutationId) && Promises(Step(db, op), client, p, g)
    ensures Promises(db, client, p, g)
  {
    var id := client.commit.mutationId;
    var m := db.journal[id];
    PromiseRecord(db, op, client, p, g);
    if Subject(op) != Some(id) {
      StepExtends(db, op);
      assert MutationFits(db, m);
      assert g in References(m);
      if m.phase.IntentRecorded? { RetainedSteps(db, op, id, g); }
    }
  }

  lemma RecordedPromises(db: Db, commit: PointerCommit, p: ProfileId, g: nat)
    requires Follows(db, Recording, commit) && Accepted(db, VaultWrite(commit.mutationId))
    requires Promises(Step(db, VaultWrite(commit.mutationId)), Mutating(Pointing, commit), p, g)
    ensures Promises(db, Mutating(Recording, commit), p, g)
  {
    VaultWriteOutcome(db, commit.mutationId);
    VaultWrites(db, commit.mutationId);
    JournalNames(db, commit.mutationId);
  }

  /** A mutation that is about to record its write has just made it. */
  lemma WrittenPromises(w: World, c: ClientId, outcome: Outcome, p: ProfileId, g: nat)
    requires JournalFits(w.db) && c in w.clients && w.clients[c].Mutating? && w.clients[c].stage.Writing?
    requires outcome.Works? && w.clients[c].commit.mutationId in w.db.journal
    requires var m := w.db.journal[w.clients[c].commit.mutationId]; m.profileId == p && m.newGen == Some(g)
    ensures (p, g) in Called(w, c, outcome).vault
  {
    assert MutationFits(w.db, w.db.journal[w.clients[c].commit.mutationId]);
    assert (p, g) in Stores(w.db, w.clients[c]);
  }

  /** How a mutation comes to be about to record its write, or to move the pointer. */
  lemma OwnStages(w: World, c: ClientId, outcome: Outcome)
    requires c in w.clients && c in Called(w, c, outcome).clients && w.clients[c].Mutating?
    ensures var client, after := w.clients[c], Called(w, c, outcome);
            && after.clients[c].Mutating? && after.clients[c].commit == client.commit
            && (after.clients[c].stage.Recording? ==> client.stage.Writing? && outcome.Works? && after.db == w.db)
            && (after.clients[c].stage.Pointing? ==>
                  && client.stage.Recording? && Accepted(w.db, VaultWrite(client.commit.mutationId))
                  && after.db == Step(w.db, VaultWrite(client.commit.mutationId)))
  {
  }

  /** What the client's own call makes it promise it has just written, or promised before. */
  lemma OwnPromise(w: World, c: ClientId, outcome: Outcome, p: ProfileId, g: nat)
    requires JournalFits(w.db) && c in w.clients && ClientFits(w.db, w.clients[c])
    requires var after := Called(w, c, outcome); c in after.clients && Promises(after.db, after.clients[c], p, g)
    ensures Promises(w.db, w.clients[c], p, g) || (p, g) in Called(w, c, outcome).vault
  {
    CallIs(w, c, outcome);
    OwnStages(w, c, outcome);
    if Called(w, c, outcome).clients[c].stage.Pointing? {
      RecordedPromises(w.db, w.clients[c].commit, p, g);
    } else {
      WrittenPromises(w, c, outcome, p, g);
    }
  }

  // ---------- what is needed later was needed before ----------

  ghost predicate Used(db: Db, p: ProfileId, g: nat) {
    Held(db, p, g) || Current(db, p, g)
  }

  lemma OpUses(db: Db, op: Op, p: ProfileId, g: nat)
    requires Tables(db) && (op.Save? ==> Carries(db, op.save)) && !PointsTo(db, op, p, g) && Used(Step(db, op), p, g)
    ensures Used(db, p, g)
  {
    if Held(Step(db, op), p, g) { HeldSteps(db, op, p, g); } else { NamingSteps(db, op, p, g); }
  }

  /** A pointer that moves was promised by its client. */
  lemma PointerPromised(db: Db, commit: PointerCommit, p: ProfileId, g: nat)
    requires RevisionTables(db) && JournalFits(db) && PointsTo(db, PointTo(commit), p, g)
    ensures Promises(db, Mutating(Pointing, commit), p, g)
  {
    CommitCases(db, commit);
  }

  lemma TransactionPoints(db: Db, client: Client)
    requires Transaction(db, client).Some?
    ensures var op := Transaction(db, client).value;
            !op.Save? && (op.PointTo? ==> client == Mutating(Pointing, op.pointer))
  {
  }

  lemma TransactionUses(db: Db, client: Client, op: Op, p: ProfileId, g: nat)
    requires Tables(db) && !op.Save? && (op.PointTo? ==> client == Mutating(Pointing, op.pointer))
    requires Used(Step(db, op), p, g)
    ensures Used(db, p, g) || Promises(db, client, p, g)
  {
    if PointsTo(db, op, p, g) {
      PointerPromised(db, op.pointer, p, g);
    } else {
      OpUses(db, op, p, g);
    }
  }

  lemma CallPromise(w: World, c: ClientId, outcome: Outcome, d: ClientId, p: ProfileId, g: nat)
    requires Tables(w.db) && Owners(w.clients) && ClientsFit(w.db, w.clients) && c in w.clients
    requires var after := Called(w, c, outcome); d in after.clients && Promises(after.db, after.clients[d], p, g)
    ensures Needed(w, p, g) || (p, g) in Called(w, c, outcome).vault
  {
    CallIs(w, c, outcome);
    if d == c {
      OwnPromise(w, c, outcome, p, g);
    } else {
      var op := Transaction(w.db, w.clients[c]);
      assert ClientFits(w.db, w.clients[d]);
      if outcome.Works? && op.Some? {
        TransactionNotAbout(w.clients, w.db, c, d);
        PromiseSteps(w.db, op.value, w.clients[d], p, g);
      }
    }
  }

  lemma CallNeeds(w: World, c: ClientId, outcome: Outcome, p: ProfileId, g: nat)
    requires Tables(w.db) && Owners(w.clients) && ClientsFit(w.db, w.clients) && c in w.clients
    requires Needed(Called(w, c, outcome), p, g)
    ensures Needed(w, p, g) || (p, g) in Called(w, c, outcome).vault
  {
    var after := Called(w, c, outcome);
    CallIs(w, c, outcome);
    if d :| d in after.clients && Promises(after.db, after.clients[d], p, g) {
      CallPromise(w, c, outcome, d, p, g);
    } else if outcome.Works? && Transaction(w.db, w.clients[c]).Some? {
      TransactionPoints(w.db, w.clients[c]);
      TransactionUses(w.db, w.clients[c], Transaction(w.db, w.clients[c]).value, p, g);
    }
  }

  // ---------- erasing what nobody needs ----------

  lemma PromiseStages(db: Db, client: Client, p: ProfileId, g: nat)
    requires JournalFits(db) && ClientFits(db, client)
    ensures Promises(db, client, p, g) ==>
              && db.journal[client.commit.mutationId].Staged() == Some(g) && Unreferenced(db, p, g)
              && db.journal[client.commit.mutationId].profileId == p
  {
    if Promises(db, client, p, g) { assert MutationFits(db, db.journal[client.commit.mutationId]); }
  }

  /** Nobody needs what a mutation staged, when no revision names it and no client is about to record or to
      point to it. */
  lemma StagedUnneeded(w: World, id: OperationId, p: ProfileId, g: nat)
    requires Tables(w.db) && ClientsFit(w.db, w.clients) && id in w.db.journal
    requires w.db.journal[id].profileId == p && w.db.journal[id].Staged() == Some(g) && Unreferenced(w.db, p, g)
    requires forall d | d in w.clients && Owned(w.clients[d]) == Some(id) ::
               !w.clients[d].stage.Recording? && !w.clients[d].stage.Pointing?
    ensures !Needed(w, p, g)
  {
    UnreferencedIdle(w.db, p, g);
    forall d | d in w.clients ensures !Promises(w.db, w.clients[d], p, g) {
      assert ClientFits(w.db, w.clients[d]);
      PromiseStages(w.db, w.clients[d], p, g);
    }
  }

  /** Cleaning up a mutation that has not moved the pointer and that nobody carries on is never rash, as
      after a restart. */
  lemma AbandonedCleanupIsSafe(w: World, c: ClientId, outcome: Outcome)
    requires Fits(w) && c in w.clients && w.clients[c].Cleaning?
    requires var id := w.clients[c].abandoned;
             && id in w.db.journal && BeforePointer(w.db.journal[id].phase)
             && (forall d | d in w.clients :: Owned(w.clients[d]) != Some(id))
    ensures !Rash(w, Call(c, outcome))
  {
    var id := w.clients[c].abandoned;
    assert MutationFits(w.db, w.db.journal[id]) && StagedHidden(w.db, w.db.journal[id]);
    StagedUnneeded(w, id, w.db.journal[id].profileId, w.db.journal[id].Staged().value);
  }

  /** The old credential, when it is about to be erased, is needed only by an unfinished Run. */
  lemma OldNeeds(w: World, c: ClientId, p: ProfileId, g: nat)
    requires Inv(w.db) && ClientsFit(w.db, w.clients) && c in w.clients
    requires w.clients[c].Mutating? && w.clients[c].stage.Erasing?
    requires (p, g) in OldAt(w.db, w.clients[c].commit.mutationId)
    ensures Needed(w, p, g) <==> LiveCredential(w.db, p, g)
  {
    var commit := w.clients[c].commit;
    assert ClientFits(w.db, w.clients[c]);
    assert PhaseStatus(w.db, w.db.journal[commit.mutationId]);
    assert w.db.revisions[(p, commit.expectedRevision)].generation == Some(g);
    forall d | d in w.clients ensures !Promises(w.db, w.clients[d], p, g) {
      assert ClientFits(w.db, w.clients[d]);
      PromiseStages(w.db, w.clients[d], p, g);
    }
  }

  /** A profile that is deleted needs no secret any more. */
  lemma DeletedUnneeded(db: Db, request: DeleteRequest, clients: map<ClientId, Client>, vault: set<Place>, g: nat)
    requires BindingsFit(db) && DeleteProfile(db, request).result.Ok?
    ensures !Needed(World(DeleteProfile(db, request).db, vault, clients), request.profileId, g)
  {
  }

  // ---------- one call ----------

  /** A secret that the client erases, and that is still needed, is in hand, unless the call was rash. */
  lemma ErasedSafe(w: World, c: ClientId, outcome: Outcome, p: ProfileId, g: nat)
    requires Fits(w) && c in w.clients && !Rash(w, Call(c, outcome)) && !outcome.Fails?
    requires (p, g) in Erases(w.db, w.clients[c]) && Needed(w, p, g) && OnlyHere(w, c, p, g)
    ensures Safe(Called(w, c, outcome), p, g)
  {
    var client := w.clients[c];
    assert ClientFits(w.db, client);
    match client
    case Mutating(stage, commit) =>
      if stage.Erasing? {
        OldNeeds(w, c, p, g);
        assert false;
      } else {
        ErasedUnneeded(w, c, p, g);
        assert false;
      }
    case Cleaning(id) => assert false;
    case Deleting(step, request, credential) =>
      CallIs(w, c, outcome);
      assert Bears(Called(w, c, outcome).clients[c], p, g);
    case _ =>
  }

  lemma ErasedUnneeded(w: World, c: ClientId, p: ProfileId, g: nat)
    requires Fits(w) && c in w.clients && (p, g) in Erases(w.db, w.clients[c])
    requires w.clients[c].Mutating? && !w.clients[c].stage.Erasing?
    ensures !Needed(w, p, g)
  {
    var id := w.clients[c].commit.mutationId;
    assert ClientFits(w.db, w.clients[c]) && MutationFits(w.db, w.db.journal[id]);
    forall d | d in w.clients && Owned(w.clients[d]) == Some(id)
      ensures !w.clients[d].stage.Recording? && !w.clients[d].stage.Pointing?
    {
      assert Owned(w.clients[c]) == Some(id);
      assert d == c;
    }
    StagedUnneeded(w, id, p, g);
  }

  /** A deletion that is refused keeps the secret in hand, and one that goes through leaves nobody to need it. */
  lemma DecidedSafe(w: World, c: ClientId, outcome: Outcome, p: ProfileId, g: nat)
    requires BindingsFit(w.db) && c in w.clients && Bears(w.clients[c], p, g) && w.clients[c].step.Deciding?
    ensures !Needed(Called(w, c, outcome), p, g) || Safe(Called(w, c, outcome), p, g)
  {
    var client, after := w.clients[c], Called(w, c, outcome);
    CallIs(w, c, outcome);
    if outcome.Works? && Succeeds(w, client) {
      DeletedUnneeded(w.db, client.request, after.clients, after.vault, g);
    } else {
      assert Bears(after.clients[c], p, g);
    }
  }

  lemma RestoredSafe(w: World, c: ClientId, outcome: Outcome, p: ProfileId, g: nat)
    requires c in w.clients && Bears(w.clients[c], p, g) && w.clients[c].step.Restoring? && !outcome.Fails?
    ensures Safe(Called(w, c, outcome), p, g)
  {
    assert (p, g) in Stores(w.db, w.clients[c]);
  }

  lemma OtherBears(w: World, c: ClientId, outcome: Outcome, p: ProfileId, g: nat)
    requires c in w.clients && !OnlyHere(w, c, p, g)
    ensures Safe(Called(w, c, outcome), p, g)
  {
    var d :| d in w.clients && d != c && Bears(w.clients[d], p, g);
    CallIs(w, c, outcome);
    assert Bears(Called(w, c, outcome).clients[d], p, g);
  }

  lemma BorneSafe(w: World, c: ClientId, outcome: Outcome, p: ProfileId, g: nat)
    requires BindingsFit(w.db) && c in w.clients && !Rash(w, Call(c, outcome)) && OnlyHere(w, c, p, g)
    requires Bears(w.clients[c], p, g) && (p, g) !in w.vault && Needed(w, p, g) && Needed(Called(w, c, outcome), p, g)
    ensures Safe(Called(w, c, outcome), p, g)
  {
    if w.clients[c].step.Deciding? { DecidedSafe(w, c, outcome, p, g); } else { RestoredSafe(w, c, outcome, p, g); }
  }

  lemma VaultSafe(w: World, c: ClientId, outcome: Outcome, p: ProfileId, g: nat)
    requires c in w.clients && (p, g) in w.vault && (outcome.Fails? || (p, g) !in Erases(w.db, w.clients[c]))
    ensures Safe(Called(w, c, outcome), p, g)
  {
  }

  lemma CallSafe(w: World, c: ClientId, outcome: Outcome, p: ProfileId, g: nat)
    requires Fits(w) && c in w.clients && !Rash(w, Call(c, outcome))
    requires Safe(w, p, g) && Needed(w, p, g) && Needed(Called(w, c, outcome), p, g)
    ensures Safe(Called(w, c, outcome), p, g)
  {
    if !OnlyHere(w, c, p, g) {
      OtherBears(w, c, outcome, p, g);
    } else if (p, g) !in w.vault {
      BorneSafe(w, c, outcome, p, g);
    } else if !outcome.Fails? && (p, g) in Erases(w.db, w.clients[c]) {
      ErasedSafe(w, c, outcome, p, g);
    } else {
      VaultSafe(w, c, outcome, p, g);
    }
  }

  lemma CallKept(w: World, c: ClientId, outcome: Outcome)
    requires Fits(w) && Kept(w) && c in w.clients && !Rash(w, Call(c, outcome))
    ensures Kept(Called(w, c, outcome))
  {
    var after := Called(w, c, outcome);
    forall p: ProfileId, g: nat | Needed(after, p, g) ensures Safe(after, p, g) {
      if (p, g) !in after.vault {
        CallNeeds(w, c, outcome, p, g);
        CallSafe(w, c, outcome, p, g);
      }
    }
  }

  // ---------- every step ----------

  lemma OthersNeed(db: Db, op: Op, clients: map<ClientId, Client>, vault: set<Place>, p: ProfileId, g: nat)
    requires Tables(db) && (op.Save? ==> Carries(db, op.save)) && Subject(op).None? && ClientsFit(db, clients)
    requires Needed(World(Step(db, op), vault, clients), p, g)
    ensures Needed(World(db, vault, clients), p, g)
  {
    if d :| d in clients && Promises(Step(db, op), clients[d], p, g) {
      assert ClientFits(db, clients[d]);
      PromiseSteps(db, op, clients[d], p, g);
    } else {
      OpUses(db, op, p, g);
    }
  }

  lemma OpKept(w: World, op: Op)
    requires Fits(w) && Kept(w) && (op.Save? ==> Carries(w.db, op.save)) && Subject(op).None?
    ensures Kept(w.(db := Step(w.db, op)))
  {
    forall p: ProfileId, g: nat | Needed(w.(db := Step(w.db, op)), p, g) ensures Safe(w, p, g) {
      OthersNeed(w.db, op, w.clients, w.vault, p, g);
    }
  }

  /** A client that neither promises nor bears anything changes nothing. */
  lemma JoinKept(w: World, c: ClientId, client: Client)
    requires Kept(w) && c !in w.clients
    requires forall p: ProfileId, g: nat :: !Promises(w.db, client, p, g)
    ensures Kept(w.(clients := w.clients[c := client]))
  {
    var after := w.(clients := w.clients[c := client]);
    forall p: ProfileId, g: nat | Needed(after, p, g) ensures Safe(after, p, g) {
      assert Needed(w, p, g);
      if d :| d in w.clients && Bears(w.clients[d], p, g) { assert d in after.clients; }
    }
  }

  /** A client that may stop without harm does not bear the only copy of a needed secret. */
  lemma AnotherBears(w: World, c: ClientId, p: ProfileId, g: nat)
    requires !Rash(w, Stop(c)) && Needed(w, p, g) && Safe(w, p, g) && (p, g) !in w.vault
    ensures !OnlyHere(w, c, p, g)
  {
    var d :| d in w.clients && Bears(w.clients[d], p, g);
    if d == c { assert !LeavesNone(w, c, p, g); }
  }

  lemma StopKept(w: World, c: ClientId)
    requires Kept(w) && !Rash(w, Stop(c))
    ensures Kept(w.(clients := w.clients - {c}))
  {
    var after := w.(clients := w.clients - {c});
    forall p: ProfileId, g: nat | Needed(after, p, g) ensures Safe(after, p, g) {
      assert Needed(w, p, g) && Safe(w, p, g);
      if (p, g) !in w.vault {
        AnotherBears(w, c, p, g);
        var e :| e in w.clients && e != c && Bears(w.clients[e], p, g);
        assert e in after.clients && Bears(after.clients[e], p, g);
      }
    }
  }

  /** A step that is not rash keeps every needed secret in the vault or in hand. */
  lemma KeptStep(w: World, step: VaultStep)
    requires Fits(w) && Kept(w) && !Rash(w, step)
    ensures Kept(Next(w, step))
  {
    match step
    case Use(op) => if Elsewhere(w.db, op) { OpKept(w, op); }
    case Mutate(c, intent, commit) =>
      if Next(w, step) != w {
        OpKept(w, Begin(intent));
        JoinKept(w.(db := Step(w.db, Begin(intent))), c, Mutating(Protecting, commit));
      }
    case Sweep(c, id) => if Next(w, step) != w { JoinKept(w, c, Cleaning(id)); }
    case Discard(c, request) => if Next(w, step) != w { JoinKept(w, c, Next(w, step).clients[c]); }
    case Call(c, outcome) => if c in w.clients { CallKept(w, c, outcome); }
    case Stop(c) => StopKept(w, c);
  }

  lemma {:induction false} CarefulKeeps(w: World, steps: seq<VaultStep>)
    requires Fits(w) && Kept(w) && Careful(w, steps)
    ensures Fits(Played(w, steps)) && Kept(Played(w, steps))
    decreases |steps|
  {
    if steps != [] {
      FitsStep(w, steps[0]);
      KeptStep(w, steps[0]);
      CarefulKeeps(Next(w, steps[0]), steps[1..]);
    }
  }

  /** However the calls of mutations, deletions, cleanups and everyone else interleave, fail and stop, without
      a rash step every secret that the active slot or an unfinished Run holds is in the vault, or in the hands
      of a deletion that has just removed it. */
  lemma SecretsSurvive(steps: seq<VaultStep>)
    requires Careful(EmptyWorld, steps)
    ensures Secured(Played(EmptyWorld, steps))
  {
    EmptyFits();
    CarefulKeeps(EmptyWorld, steps);
    KeptSecures(Played(EmptyWorld, steps));
  }

  lemma KeptSecures(w: World)
    requires Kept(w)
    ensures Secured(w)
  {
    forall p: ProfileId, g: nat | Held(w.db, p, g) ensures Safe(w, p, g) {
      assert Needed(w, p, g);
    }
  }
}
