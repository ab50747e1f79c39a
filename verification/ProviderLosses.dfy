/** A rash step is exactly what can lose a secret: after it some continuation without a rash step ends with a
    secret in use that is neither in the vault nor in anyone's hands. */
module ProviderLosses {
  import opened Wrappers
  import opened ProviderDomain
  import opened ProviderStore
  import opened ProviderSteps
  import opened ProviderWrites
  import opened ProviderTables
  import opened ProviderInvariants
  import opened ProviderRuns
  import opened ProviderSaves
  import opened ProviderVault
  import opened ProviderNeeds
  import opened ProviderClients
  import opened ProviderSecrets

  /** However things go on without a rash step, every secret in use stays. */
  ghost predicate SecuredForever(w: World) {
    forall steps | Careful(w, steps) :: Secured(Played(w, steps))
  }

  lemma HeldLoses(w: World, p: ProfileId, g: nat)
    requires Held(w.db, p, g) && !Safe(w, p, g)
    ensures !SecuredForever(w)
  {
    assert Careful(w, []) && Played(w, []) == w;
    assert !Secured(w);
  }

  lemma StepLoses(w: World, step: VaultStep)
    requires !Rash(w, step) && !SecuredForever(Next(w, step))
    ensures !SecuredForever(w)
  {
    var steps :| Careful(Next(w, step), steps) && !Secured(Played(Next(w, step), steps));
    assert ([step] + steps)[1..] == steps;
    assert Careful(w, [step] + steps) && Played(w, [step] + steps) == Played(Next(w, step), steps);
  }

  // ---------- a current credential ----------

  lemma ReadyLoses(w: World, p: ProfileId, g: nat)
    requires Poised(w.db, p, g) && !Safe(w, p, g)
    ensures !SecuredForever(w)
  {
    var op := Activating(w.db, p, g);
    HeldLoses(w.(db := Step(w.db, op)), p, g);
    StepLoses(w, Use(op));
  }

  lemma DraftLoses(w: World, p: ProfileId, g: nat)
    requires Tables(w.db) && Current(w.db, p, g) && !Safe(w, p, g)
    requires w.db.revisions[(p, w.db.profiles[p].current)].state.Draft?
    ensures !SecuredForever(w)
  {
    var op := Validating(w.db, p, g);
    ReadyLoses(w.(db := Step(w.db, op)), p, g);
    StepLoses(w, Use(op));
  }

  /** The current credential carried over into a new draft. */
  ghost function Redraft(db: Db, p: ProfileId, g: nat, name: string): SaveRequest
    requires p in db.profiles && (p, db.profiles[p].current) in db.revisions && (p, g) in db.generations
  {
    var n := db.profiles[p].current;
    SaveRequest(p, Some(n), name,
                Revision(p, n + 1, db.revisions[(p, n)].config, Some(Generation(p, g, db.generations[(p, g)].kind)),
                         Draft, None))
  }

  lemma Redrafting(db: Db, p: ProfileId, g: nat) returns (request: SaveRequest)
    requires Tables(db) && Current(db, p, g)
    ensures Carries(db, request) && Tables(SaveRevision(db, request).db)
    ensures var after := SaveRevision(db, request).db;
            Current(after, p, g) && after.revisions[(p, after.profiles[p].current)].state.Draft?
  {
    var n := db.profiles[p].current;
    var name := FreshName(db);
    assert CredentialFits(db, p, db.revisions[(p, n)].config, db.revisions[(p, n)].generation);
    request := Redraft(db, p, g, name);
    RedraftSaves(db, p, g, name);
    SaveAppends(db, request);
    SaveTables(db, request);
  }

  lemma RedraftSaves(db: Db, p: ProfileId, g: nat, name: string)
    requires RevisionTables(db) && Current(db, p, g) && (p, g) in db.generations
    requires CredentialFits(db, p, db.revisions[(p, db.profiles[p].current)].config, Some(g))
    requires forall q | q in db.profiles :: db.profiles[q].name != name
    ensures SaveRevision(db, Redraft(db, p, g, name)).result.Ok?
  {
    assert NextRevision(db, p, db.profiles[p].current + 1);
  }

  lemma CurrentLoses(w: World, p: ProfileId, g: nat)
    requires Tables(w.db) && Current(w.db, p, g) && !Safe(w, p, g)
    ensures !SecuredForever(w)
  {
    var key := (p, w.db.profiles[p].current);
    if w.db.revisions[key].state.Ready? {
      ReadyLoses(w, p, g);
    } else if w.db.revisions[key].state.Draft? {
      DraftLoses(w, p, g);
    } else {
      var request := Redrafting(w.db, p, g);
      DraftLoses(w.(db := Step(w.db, Save(request))), p, g);
      StepLoses(w, Use(Save(request)));
    }
  }

  // ---------- a promised credential ----------

  /** A promised pointer commit goes through. */
  lemma PromisedPoints(db: Db, commit: PointerCommit, p: ProfileId, g: nat)
    requires Tables(db) && Follows(db, Pointing, commit) && Promises(db, Mutating(Pointing, commit), p, g)
    ensures PointsTo(db, PointTo(commit), p, g)
  {
    var m := db.journal[commit.mutationId];
    assert MutationFits(db, m);
    assert g in References(m);
    RevisionLoads(db, p, commit.expectedRevision);
    assert db.generations[(p, g)].kind == commit.replacement.generation.value.kind;
  }

  lemma AddedIsCurrent(db: Db, after: Db, p: ProfileId, g: nat)
    requires NameAdded(db, after, p, Some(g))
    ensures Current(after, p, g)
  {
  }

  lemma PointedCurrent(db: Db, commit: PointerCommit, p: ProfileId, g: nat)
    requires Tables(db) && PointsTo(db, PointTo(commit), p, g)
    ensures Current(CommitPointer(db, commit).db, p, g)
  {
    PointNames(db, commit);
    AddedIsCurrent(db, CommitPointer(db, commit).db, p, g);
  }

  /** A call that moves no secret and is made by nobody who bears one leaves every secret where it is. */
  lemma CallMovesNothing(w: World, c: ClientId, p: ProfileId, g: nat)
    requires c in w.clients && w.clients[c].Mutating? && (w.clients[c].stage.Recording? || w.clients[c].stage.Pointing?)
    ensures !Rash(w, Call(c, Works))
    ensures Safe(Called(w, c, Works), p, g) ==> Safe(w, p, g)
  {
    var after := Called(w, c, Works);
    assert after.vault == w.vault;
    if d :| d in after.clients && Bears(after.clients[d], p, g) { assert d in w.clients && Bears(w.clients[d], p, g); }
  }

  lemma PointingCall(w: World, c: ClientId)
    requires c in w.clients && w.clients[c].Mutating? && w.clients[c].stage.Pointing?
    ensures Called(w, c, Works).db == CommitPointer(w.db, w.clients[c].commit).db
  {
  }

  lemma PointingMakesCurrent(w: World, c: ClientId, p: ProfileId, g: nat)
    requires Tables(w.db) && c in w.clients && ClientFits(w.db, w.clients[c])
    requires Promises(w.db, w.clients[c], p, g) && w.clients[c].stage.Pointing?
    ensures Tables(Called(w, c, Works).db) && Current(Called(w, c, Works).db, p, g)
  {
    var commit := w.clients[c].commit;
    PointingCall(w, c);
    PromisedPoints(w.db, commit, p, g);
    PointedCurrent(w.db, commit, p, g);
    CommitTables(w.db, commit);
  }

  lemma CallLoses(w: World, c: ClientId, outcome: Outcome)
    requires c in w.clients && !Rash(w, Call(c, outcome)) && !SecuredForever(Called(w, c, outcome))
    ensures !SecuredForever(w)
  {
    StepLoses(w, Call(c, outcome));
  }

  lemma PointingLoses(w: World, c: ClientId, p: ProfileId, g: nat)
    requires Tables(w.db) && c in w.clients && ClientFits(w.db, w.clients[c])
    requires Promises(w.db, w.clients[c], p, g) && w.clients[c].stage.Pointing? && !Safe(w, p, g)
    ensures !SecuredForever(w)
  {
    var after := Called(w, c, Works);
    PointingMakesCurrent(w, c, p, g);
    CallMovesNothing(w, c, p, g);
    CurrentLoses(after, p, g);
    CallLoses(w, c, Works);
  }

  /** A promised vault write is recorded, and the pointer commit is promised then. */
  lemma PromisedRecords(db: Db, commit: PointerCommit, p: ProfileId, g: nat)
    requires Tables(db) && Promises(db, Mutating(Recording, commit), p, g)
    ensures Accepted(db, VaultWrite(commit.mutationId))
    ensures Promises(Step(db, VaultWrite(commit.mutationId)), Mutating(Pointing, commit), p, g)
  {
    var id := commit.mutationId;
    assert MutationFits(db, db.journal[id]);
    MutationLoads(db, id);
    VaultWriteOutcome(db, id);
    JournalNames(db, id);
    VaultWrites(db, id);
  }

  lemma RecordingCall(w: World, c: ClientId)
    requires c in w.clients && w.clients[c].Mutating? && w.clients[c].stage.Recording?
    requires Accepted(w.db, VaultWrite(w.clients[c].commit.mutationId))
    ensures var after, commit := Called(w, c, Works), w.clients[c].commit;
            && after.db == Step(w.db, VaultWrite(commit.mutationId))
            && c in after.clients && after.clients[c] == Mutating(Pointing, commit)
  {
  }

  lemma RecordingPromises(w: World, c: ClientId, p: ProfileId, g: nat)
    requires Inv(w.db) && c in w.clients && ClientFits(w.db, w.clients[c])
    requires Promises(w.db, w.clients[c], p, g) && w.clients[c].stage.Recording?
    ensures var after := Called(w, c, Works);
            && Tables(after.db) && c in after.clients && ClientFits(after.db, after.clients[c])
            && Promises(after.db, after.clients[c], p, g) && after.clients[c].stage.Pointing?
  {
    PromisedRecords(w.db, w.clients[c].commit, p, g);
    RecordingCall(w, c);
    RecordingFollows(w.db, w.clients[c].commit);
    VaultWriteTables(w.db, w.clients[c].commit.mutationId);
  }

  lemma RecordingLoses(w: World, c: ClientId, p: ProfileId, g: nat)
    requires Inv(w.db) && c in w.clients && ClientFits(w.db, w.clients[c])
    requires Promises(w.db, w.clients[c], p, g) && w.clients[c].stage.Recording? && !Safe(w, p, g)
    ensures !SecuredForever(w)
  {
    var after := Called(w, c, Works);
    RecordingPromises(w, c, p, g);
    CallMovesNothing(w, c, p, g);
    PointingLoses(after, c, p, g);
    CallLoses(w, c, Works);
  }

  /** Whatever is needed, but neither in the vault nor in hand, can come into use. */
  lemma NeededLoses(w: World, p: ProfileId, g: nat)
    requires Fits(w) && Needed(w, p, g) && !Safe(w, p, g)
    ensures !SecuredForever(w)
  {
    if Held(w.db, p, g) {
      HeldLoses(w, p, g);
    } else if Current(w.db, p, g) {
      CurrentLoses(w, p, g);
    } else {
      var c :| c in w.clients && Promises(w.db, w.clients[c], p, g);
      assert ClientFits(w.db, w.clients[c]);
      if w.clients[c].stage.Recording? { RecordingLoses(w, c, p, g); } else { PointingLoses(w, c, p, g); }
    }
  }

  // ---------- rash steps ----------

  /** The client that acts promises nothing, and the tables stay as they are. */
  lemma StaysNeeded(w: World, after: World, c: ClientId, p: ProfileId, g: nat)
    requires Needed(w, p, g) && after.db == w.db && c in w.clients && !Promises(w.db, w.clients[c], p, g)
    requires forall d | d in w.clients && d != c :: d in after.clients && after.clients[d] == w.clients[d]
    ensures Needed(after, p, g)
  {
    if !Held(w.db, p, g) && !Current(w.db, p, g) {
      var d :| d in w.clients && Promises(w.db, w.clients[d], p, g);
      assert Promises(after.db, after.clients[d], p, g);
    }
  }

  /** Nobody bears the secret after the client has acted, and the vault does not hold it. */
  lemma BecomesUnsafe(w: World, after: World, c: ClientId, p: ProfileId, g: nat)
    requires OnlyHere(w, c, p, g) && (p, g) !in after.vault
    requires forall d | d in after.clients && d != c :: d in w.clients && after.clients[d] == w.clients[d]
    requires c in after.clients ==> !Bears(after.clients[c], p, g)
    ensures !Safe(after, p, g)
  {
  }

  lemma GoneLoses(w: World, after: World, c: ClientId, p: ProfileId, g: nat)
    requires Fits(after) && Needed(w, p, g) && after.db == w.db && c in w.clients && !Promises(w.db, w.clients[c], p, g)
    requires after.clients - {c} == w.clients - {c} && OnlyHere(w, c, p, g) && (p, g) !in after.vault
    requires c in after.clients ==> !Bears(after.clients[c], p, g)
    ensures !SecuredForever(after)
  {
    forall d | d != c
      ensures d in after.clients <==> d in w.clients
      ensures d in w.clients ==> after.clients[d] == w.clients[d]
    {
      assert d in after.clients - {c} <==> d in w.clients - {c};
      if d in w.clients { assert (after.clients - {c})[d] == (w.clients - {c})[d]; }
    }
    StaysNeeded(w, after, c, p, g);
    BecomesUnsafe(w, after, c, p, g);
    NeededLoses(after, p, g);
  }

  /** A call that erases a secret for good. */
  lemma ErasureIs(w: World, c: ClientId, outcome: Outcome, place: Place)
    requires c in w.clients && !w.clients[c].Deleting? && !outcome.Fails? && place in Erases(w.db, w.clients[c])
    ensures var after := Called(w, c, outcome);
            && after.db == w.db && place !in after.vault && after.clients - {c} == w.clients - {c}
            && (c in after.clients ==> !after.clients[c].Deleting?)
            && !Promises(w.db, w.clients[c], place.0, place.1)
  {
  }

  lemma ErasureLoses(w: World, c: ClientId, outcome: Outcome, place: Place)
    requires Fits(w) && c in w.clients && !w.clients[c].Deleting? && !outcome.Fails?
    requires place in Erases(w.db, w.clients[c]) && Needed(w, place.0, place.1) && OnlyHere(w, c, place.0, place.1)
    ensures !SecuredForever(Called(w, c, outcome))
  {
    ErasureIs(w, c, outcome, place);
    CallFits(w, c, outcome);
    GoneLoses(w, Called(w, c, outcome), c, place.0, place.1);
  }

  lemma ErasingLoses(w: World, c: ClientId, outcome: Outcome)
    requires Fits(w) && Rash(w, Call(c, outcome)) && w.clients[c].Mutating?
    ensures !SecuredForever(Called(w, c, outcome))
  {
    var place :| place in OldAt(w.db, w.clients[c].commit.mutationId)
                 && LiveCredential(w.db, place.0, place.1) && OnlyHere(w, c, place.0, place.1);
    ErasureLoses(w, c, outcome, place);
  }

  lemma CleaningLoses(w: World, c: ClientId, outcome: Outcome)
    requires Fits(w) && Rash(w, Call(c, outcome)) && w.clients[c].Cleaning?
    ensures !SecuredForever(Called(w, c, outcome))
  {
    var place :| place in StagedAt(w.db, w.clients[c].abandoned)
                 && Needed(w, place.0, place.1) && OnlyHere(w, c, place.0, place.1);
    ErasureLoses(w, c, outcome, place);
  }

  lemma DeletingLoses(w: World, c: ClientId, outcome: Outcome)
    requires Fits(w) && Rash(w, Call(c, outcome)) && w.clients[c].Deleting?
    ensures !SecuredForever(Called(w, c, outcome))
  {
    FitsStep(w, Call(c, outcome));
    GoneLoses(w, Called(w, c, outcome), c, w.clients[c].request.profileId, w.clients[c].credential.value);
  }

  lemma StopLoses(w: World, c: ClientId)
    requires Fits(w) && Rash(w, Stop(c))
    ensures !SecuredForever(Next(w, Stop(c)))
  {
    FitsStep(w, Stop(c));
    GoneLoses(w, Next(w, Stop(c)), c, w.clients[c].request.profileId, w.clients[c].credential.value);
  }

  lemma RashLoses(w: World, step: VaultStep)
    requires Fits(w) && Rash(w, step)
    ensures !SecuredForever(Next(w, step))
  {
    if step.Stop? {
      StopLoses(w, step.client);
    } else if w.clients[step.client].Mutating? {
      ErasingLoses(w, step.client, step.outcome);
    } else if w.clients[step.client].Cleaning? {
      CleaningLoses(w, step.client, step.outcome);
    } else {
      DeletingLoses(w, step.client, step.outcome);
    }
  }

  lemma KeptForever(w: World)
    requires Fits(w) && Kept(w)
    ensures SecuredForever(w)
  {
    forall steps | Careful(w, steps) ensures Secured(Played(w, steps)) {
      CarefulKeeps(w, steps);
      KeptSecures(Played(w, steps));
    }
  }

  /** After every history without a rash step, the next step keeps every secret in use, in every continuation
      without a rash step, exactly when it is not rash itself. */
  lemma RashExactly(steps: seq<VaultStep>, step: VaultStep)
    requires Careful(EmptyWorld, steps)
    ensures SecuredForever(Next(Played(EmptyWorld, steps), step)) <==> !Rash(Played(EmptyWorld, steps), step)
  {
    var w := Played(EmptyWorld, steps);
    EmptyFits();
    CarefulKeeps(EmptyWorld, steps);
    FitsStep(w, step);
    if Rash(w, step) {
      RashLoses(w, step);
    } else {
      KeptStep(w, step);
      KeptForever(Next(w, step));
    }
  }
}
