/** Putting a history of the two stores together from its single steps. */
module ProviderTraces {
  import opened Wrappers
  import opened ProviderDomain
  import opened ProviderStore
  import opened ProviderSteps
  import opened ProviderVault

  /** One step of a history. */
  ghost predicate Leads(w: World, step: VaultStep, later: World) {
    !Rash(w, step) && Next(w, step) == later
  }

  /** A history that has no rash step from here and leads there. */
  ghost predicate LeadsOn(w: World, steps: seq<VaultStep>, later: World) {
    Careful(w, steps) && Played(w, steps) == later
  }

  /** After this history, which has no rash step, the next one is rash. */
  ghost predicate EndsRashly(steps: seq<VaultStep>, end: World, step: VaultStep) {
    LeadsOn(EmptyWorld, steps, end) && Rash(end, step)
  }

  lemma {:induction false} Continues(w: World, steps: seq<VaultStep>, i: nat, next: World, later: World)
    requires i < |steps| && Leads(w, steps[i], next) && LeadsOn(next, steps[i + 1..], later)
    ensures LeadsOn(w, steps[i..], later)
  {
    assert steps[i..][1..] == steps[i + 1..];
  }

  lemma {:induction false} Joins(w: World, a: seq<VaultStep>, next: World, b: seq<VaultStep>, later: World)
    requires LeadsOn(w, a, next) && LeadsOn(next, b, later)
    ensures LeadsOn(w, a + b, later)
    decreases |a|
  {
    if a == [] {
      assert a + b == b;
    } else {
      assert (a + b)[1..] == a[1..] + b;
      Joins(Next(w, a[0]), a[1..], next, b, later);
    }
  }

  lemma UseLeads(w: World, op: Op, later: Db)
    requires Elsewhere(w.db, op) && Step(w.db, op) == later
    ensures Leads(w, Use(op), w.(db := later))
  {
  }

  /** The only client records its write. */
  lemma RecordingLeads(w: World, commit: PointerCommit, later: Db)
    requires w.clients == map[0 := Mutating(Recording, commit)]
    requires RecordVaultWrite(w.db, commit.mutationId).db == later
             && RecordVaultWrite(w.db, commit.mutationId).result.Ok?
    ensures Leads(w, Call(0, Works), World(later, w.vault, map[0 := Mutating(Pointing, commit)]))
  {
  }

  lemma PointingCalls(w: World, commit: PointerCommit, tx: Tx<Mutation>, next: Stage)
    requires w.clients == map[0 := Mutating(Pointing, commit)] && Onward(w.db, Pointing, commit, true) == Some(next)
    requires CommitPointer(w.db, commit) == tx && tx.result.Ok?
    ensures Called(w, 0, Works) == World(tx.db, w.vault, map[0 := Mutating(next, commit)])
  {
    assert Transaction(w.db, w.clients[0]) == Some(PointTo(commit)) && Succeeds(w, w.clients[0]);
  }

  /** It moves the pointer. */
  lemma PointingLeads(w: World, commit: PointerCommit, tx: Tx<Mutation>, next: Stage)
    requires w.clients == map[0 := Mutating(Pointing, commit)] && Onward(w.db, Pointing, commit, true) == Some(next)
    requires CommitPointer(w.db, commit) == tx && tx.result.Ok?
    ensures Leads(w, Call(0, Works), World(tx.db, w.vault, map[0 := Mutating(next, commit)]))
  {
    PointingCalls(w, commit, tx, next);
  }

  lemma SlotLeads(w: World, commit: PointerCommit)
    requires w.clients == map[0 := Mutating(CheckingSlot, commit)]
    requires SlotReads(w.db) && !OldInSlot(w.db, commit.mutationId)
    ensures Leads(w, Call(0, Works), w.(clients := map[0 := Mutating(Erasing, commit)]))
  {
  }

  lemma ValidationIs(db: Db, commit: ValidationCommit, revision: Revision)
    requires CurrentRevision(db, commit.profileId) == Some(commit.revision)
    requires LoadRevision(db, commit.profileId, commit.revision) == Ok(revision)
    requires revision.generation == Some(commit.generation) && revision.state.Draft?
    requires DraftAccepted(revision.profileId, revision.number, revision.config, revision.generation)
    requires commit.evidence.digest == commit.digest == revision.Inputs(commit.versions) && commit.evidence.passed
    requires commit.evidence.id !in db.validations
    requires forall id | id in db.validations :: db.validations[id].digest != commit.digest
    requires (commit.profileId, commit.revision) in db.revisions
    ensures var key := (commit.profileId, commit.revision);
            SaveValidation(db, commit).db
            == db.(validations := db.validations[commit.evidence.id :=
                     ValidationRow(key.0, key.1, commit.generation.number, commit.digest, true)],
                   revisions := db.revisions[key :=
                                             db.revisions[key].(state := Ready,
                                                                validation := Some(commit.evidence.id))])
  {
  }

  lemma SelectionIs(db: Db, request: ActivateRequest, revision: Revision, slot: Activation)
    requires CurrentRevision(db, request.profileId) == Some(request.revision)
    requires LoadRevision(db, request.profileId, request.revision) == Ok(revision)
    requires revision.state.Ready? && revision.validation.Some?
             && ActivationNumber(db.active) == request.expectedActivation
    requires revision.validation.value.id == request.validationId && revision.validation.value.digest == request.digest
    requires FromReady(revision, if db.active.Some? then db.active.value.activation + 1 else 1) == Ok(slot)
    requires PassingValidation(db, slot)
    ensures Activate(db, request).db == db.(active := Some(slot))
  {
  }
}
