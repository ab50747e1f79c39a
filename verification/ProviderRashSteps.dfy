/** Histories without a rash step that end before one: a cleanup that races the write of its mutation, a
    deletion that stops or is refused and cannot write back, and a replacement whose old credential a Run
    takes up. */
module ProviderRashSteps {
  import opened Wrappers
  import opened ProviderDomain
  import opened ProviderStore
  import opened ProviderSteps
  import opened ProviderWrites
  import opened ProviderTables
  import opened RunStatuses
  import opened ProviderTombstones
  import opened ProviderVault
  import opened ProviderTraces
  import opened ProviderLosses

  // ---------- the first key of a profile ----------

  function Creator(stage: Stage): Client { Mutating(stage, CreateCommit) }

  const SavedWorld := World(Saved, {}, map[])

  function Staged(stage: Stage, vault: set<Place>): World {
    World(CreatingDb(IntentRecorded, Retained), vault, map[0 := Creator(stage)])
  }

  lemma Saves()
    ensures Leads(EmptyWorld, Use(Trace[0]), SavedWorld)
  {
    FirstIsCreated();
  }

  lemma Begins()
    ensures Leads(SavedWorld, Mutate(0, Creating, CreateCommit), Staged(Protecting, {}))
  {
    FirstIsCreated();
    assert LoadRevision(Saved, 0, 1) == Ok(Draft1);
    assert BeginMutation(Saved, Creating).result.Ok?;
  }

  lemma Protects()
    ensures Leads(Staged(Protecting, {}), Call(0, Works), Staged(Writing, {}))
  {
  }

  // ---------- cleaning up a mutation that goes on ----------

  function Swept(stage: Stage, vault: set<Place>): World {
    Staged(stage, vault).(clients := map[0 := Creator(stage), 1 := Cleaning(7)])
  }

  lemma Sweeps()
    ensures Leads(Staged(Writing, {}), Sweep(1, 7), Swept(Writing, {}))
  {
  }

  lemma WritesAfterSweep()
    ensures Leads(Swept(Writing, {}), Call(0, Works), Swept(Recording, {(0, 1)}))
  {
  }

  const CleanupHistory: seq<VaultStep> := [
    Use(Trace[0]), Mutate(0, Creating, CreateCommit), Call(0, Works), Sweep(1, 7), Call(0, Works)]

  lemma CleanupIsRash()
    ensures Rash(Swept(Recording, {(0, 1)}), Call(1, Works))
  {
    var w := Swept(Recording, {(0, 1)});
    assert (0, 1) in StagedAt(w.db, 7);
    assert Promises(w.db, w.clients[0], 0, 1);
  }

  lemma WritesBehindTheCleanup()
    ensures LeadsOn(EmptyWorld, CleanupHistory, Swept(Recording, {(0, 1)}))
  {
    var steps, end := CleanupHistory, Swept(Recording, {(0, 1)});
    assert steps[0..] == steps && steps[5..] == [];
    WritesAfterSweep();
    Continues(Swept(Writing, {}), steps, 4, end, end);
    Sweeps();
    Continues(Staged(Writing, {}), steps, 3, Swept(Writing, {}), end);
    Protects();
    Continues(Staged(Protecting, {}), steps, 2, Staged(Writing, {}), end);
    Begins();
    Continues(SavedWorld, steps, 1, Staged(Protecting, {}), end);
    Saves();
    Continues(EmptyWorld, steps, 0, SavedWorld, end);
  }

  /** A cancelled mutation is found unrecorded; it writes its secret; the cleanup erases it. */
  lemma CleanupRacesTheWrite()
    ensures EndsRashly(CleanupHistory, Swept(Recording, {(0, 1)}), Call(1, Works))
    ensures !SecuredForever(Next(Swept(Recording, {(0, 1)}), Call(1, Works)))
  {
    WritesBehindTheCleanup();
    CleanupIsRash();
    RashExactly(CleanupHistory, Call(1, Works));
  }

  // ---------- deleting a profile ----------

  /** The caller saw an active slot that has been emptied since. */
  const Request := DeleteRequest(0, 2, Some(ExpectedActive(0, 2, 1)), true)

  const WrittenWorld := World(CreatingDb(VaultWritten, Available), {(0, 1)}, map[0 := Creator(Pointing)])
  const KeyedWorld := World(PointedDb(PointerCommitted), {(0, 1)}, map[0 := Creator(Completing)])

  function AtDeletion(step: DeletionStage, vault: set<Place>): World {
    World(PointedDb(PointerCommitted), vault, map[0 := Creator(Completing), 1 := Deleting(step, Request, Some(1))])
  }

  lemma WritesKey()
    ensures Leads(Staged(Writing, {}), Call(0, Works), Staged(Recording, {(0, 1)}))
  {
  }

  lemma KeyIsRecorded()
    ensures RecordVaultWrite(CreatingDb(IntentRecorded, Retained), 7).result.Ok?
  {
    MadeLoads(CreatingDb(IntentRecorded, Retained), IntentRecorded);
  }

  lemma RecordsKey()
    ensures Leads(Staged(Recording, {(0, 1)}), Call(0, Works), WrittenWorld)
  {
    FirstIsWritten();
    KeyIsRecorded();
    RecordingLeads(Staged(Recording, {(0, 1)}), CreateCommit, WrittenWorld.db);
  }

  lemma KeyIsAccepted()
    ensures CommitPointer(CreatingDb(VaultWritten, Available), CreateCommit).result.Ok?
  {
    var db := CreatingDb(VaultWritten, Available);
    MadeLoads(db, VaultWritten);
    assert LoadRevision(db, 0, 1) == Ok(Draft1);
    assert (0, 1) in db.revisions;
  }

  lemma PointsToKey()
    ensures Leads(WrittenWorld, Call(0, Works), KeyedWorld)
  {
    KeyIsAccepted();
    FirstIsPointed();
    PointingLeads(WrittenWorld, CreateCommit, CommitPointer(WrittenWorld.db, CreateCommit), Completing);
  }

  lemma Deletes()
    ensures Leads(KeyedWorld, Discard(1, Request), AtDeletion(Guarding, {(0, 1)}))
  {
  }

  lemma Guards()
    ensures Leads(AtDeletion(Guarding, {(0, 1)}), Call(1, Works), AtDeletion(Reading, {(0, 1)}))
  {
  }

  lemma Reads()
    ensures Leads(AtDeletion(Reading, {(0, 1)}), Call(1, Works), AtDeletion(Removing, {(0, 1)}))
  {
  }

  lemma Removes()
    ensures Leads(AtDeletion(Removing, {(0, 1)}), Call(1, Works), AtDeletion(Deciding, {}))
  {
  }

  lemma Refuses()
    ensures Leads(AtDeletion(Deciding, {}), Call(1, Works), AtDeletion(Restoring, {}))
  {
  }

  lemma StoppingIsRash(step: DeletionStage)
    requires step.Deciding? || step.Restoring?
    ensures Rash(AtDeletion(step, {}), Stop(1))
    ensures step.Restoring? ==> Rash(AtDeletion(step, {}), Call(1, Fails))
  {
    assert Current(AtDeletion(step, {}).db, 0, 1);
  }

  const WriteSteps: seq<VaultStep> := [
    Use(Trace[0]), Mutate(0, Creating, CreateCommit), Call(0, Works), Call(0, Works)]

  lemma KeyIsStored()
    ensures LeadsOn(EmptyWorld, WriteSteps, Staged(Recording, {(0, 1)}))
  {
    var steps, end := WriteSteps, Staged(Recording, {(0, 1)});
    assert steps[0..] == steps && steps[4..] == [];
    WritesKey();
    Continues(Staged(Writing, {}), steps, 3, end, end);
    Protects();
    Continues(Staged(Protecting, {}), steps, 2, Staged(Writing, {}), end);
    Begins();
    Continues(SavedWorld, steps, 1, Staged(Protecting, {}), end);
    Saves();
    Continues(EmptyWorld, steps, 0, SavedWorld, end);
  }

  const PointSteps: seq<VaultStep> := [Call(0, Works), Call(0, Works)]

  const KeyHistory := WriteSteps + PointSteps

  lemma KeyIsMade()
    ensures LeadsOn(EmptyWorld, KeyHistory, KeyedWorld)
  {
    var steps, end := PointSteps, KeyedWorld;
    assert steps[0..] == steps && steps[2..] == [];
    PointsToKey();
    Continues(WrittenWorld, steps, 1, end, end);
    RecordsKey();
    Continues(Staged(Recording, {(0, 1)}), steps, 0, WrittenWorld, end);
    KeyIsStored();
    Joins(EmptyWorld, WriteSteps, Staged(Recording, {(0, 1)}), PointSteps, end);
  }

  const DeletionSteps: seq<VaultStep> := [Discard(1, Request), Call(1, Works), Call(1, Works), Call(1, Works)]

  lemma SecretIsRemoved()
    ensures LeadsOn(EmptyWorld, KeyHistory + DeletionSteps, AtDeletion(Deciding, {}))
  {
    var steps, end := DeletionSteps, AtDeletion(Deciding, {});
    assert steps[0..] == steps && steps[4..] == [];
    Removes();
    Continues(AtDeletion(Removing, {(0, 1)}), steps, 3, end, end);
    Reads();
    Continues(AtDeletion(Reading, {(0, 1)}), steps, 2, AtDeletion(Removing, {(0, 1)}), end);
    Guards();
    Continues(AtDeletion(Guarding, {(0, 1)}), steps, 1, AtDeletion(Reading, {(0, 1)}), end);
    Deletes();
    Continues(KeyedWorld, steps, 0, AtDeletion(Guarding, {(0, 1)}), end);
    KeyIsMade();
    Joins(EmptyWorld, KeyHistory, KeyedWorld, steps, end);
  }

  /** A deletion erases the current secret and stops before its transaction. */
  lemma DeletionStopsHalfway()
    ensures EndsRashly(KeyHistory + DeletionSteps, AtDeletion(Deciding, {}), Stop(1))
    ensures !SecuredForever(Next(AtDeletion(Deciding, {}), Stop(1)))
  {
    SecretIsRemoved();
    StoppingIsRash(Deciding);
    RashExactly(KeyHistory + DeletionSteps, Stop(1));
  }

  /** A deletion erases the current secret, its transaction refuses, and writing the secret back fails. */
  lemma DeletionIsRefused()
    ensures var steps := KeyHistory + DeletionSteps + [Call(1, Works)];
            EndsRashly(steps, AtDeletion(Restoring, {}), Call(1, Fails))
    ensures !SecuredForever(Next(AtDeletion(Restoring, {}), Call(1, Fails)))
  {
    var steps := KeyHistory + DeletionSteps + [Call(1, Works)];
    SecretIsRemoved();
    Refuses();
    assert [Call(1, Works)][0..] == [Call(1, Works)] && [Call(1, Works)][1..] == [];
    Continues(AtDeletion(Deciding, {}), [Call(1, Works)], 0, AtDeletion(Restoring, {}), AtDeletion(Restoring, {}));
    Joins(EmptyWorld, KeyHistory + DeletionSteps, AtDeletion(Deciding, {}), [Call(1, Works)],
          AtDeletion(Restoring, {}));
    StoppingIsRash(Restoring);
    RashExactly(steps, Call(1, Fails));
  }

  // ---------- a Run that takes up the old credential ----------

  const FirstProof := Digest(0, 2, Setup, Some(First), "v")
  const SecondProof := Digest(0, 3, Setup, Some(Second), "v")
  const FirstSlot := Activation(0, 2, 3, 1, FirstProof, 1)
  const SecondSlot := Activation(0, 3, 4, 2, SecondProof, 2)
  const ReadyFirst := Revision(0, 2, Setup, Some(First), Ready, Some(Evidence(3, FirstProof, true)))
  const ReadySecond := Revision(0, 3, Setup, Some(Second), Ready, Some(Evidence(4, SecondProof, true)))

  /** The second revision is validated. */
  function Checked(db: Db): Db {
    db.(validations := map[3 := ValidationRow(0, 2, 1, FirstProof, true)],
        revisions := db.revisions[(0, 2) := RevisionRow(Setup, Some(1), Ready, Some(3))])
  }

  /** It is active. */
  function Live(db: Db): Db { Checked(db).(active := Some(FirstSlot)) }

  const Switched := Live(ReplacedDb(PointerCommitted, Retained))

  /** A Run is bound to it. */
  const Bound := Switched.(runs := map[5 := Running], bindings := map[5 := FirstSlot])

  /** The third revision is validated. */
  const Rechecked := Bound.(validations := Bound.validations[4 := ValidationRow(0, 3, 2, SecondProof, true)],
                         revisions := Bound.revisions[(0, 3) := RevisionRow(Setup, Some(2), Ready, Some(4))])

  /** It is active instead. */
  const Moved := Rechecked.(active := Some(SecondSlot))

  function Replacer(stage: Stage): Client { Mutating(stage, ReplaceCommit) }

  function AtReplacement(db: Db, stage: Stage): World { World(db, {(0, 1), (0, 2)}, map[0 := Replacer(stage)]) }

  function BeforeWrite(db: Db, stage: Stage): World { World(db, {(0, 1)}, map[0 := Replacer(stage)]) }

  function Keyed(db: Db): World { World(db, {(0, 1)}, map[]) }

  const ValidateFirst := Use(Validate(ValidationCommit(0, 2, First, FirstProof, Evidence(3, FirstProof, true), "v")))
  const ValidateSecond :=
    Use(Validate(ValidationCommit(0, 3, Second, SecondProof, Evidence(4, SecondProof, true), "v")))
  const SelectFirst := Use(Select(ActivateRequest(0, 2, 3, FirstProof, None)))
  const SelectSecond := Use(Select(ActivateRequest(0, 3, 4, SecondProof, Some(1))))

  lemma CompletesKey()
    ensures Leads(KeyedWorld, Call(0, Works), Keyed(PointedDb(Completed)))
  {
    FirstIsCompleted();
    MadeLoads(PointedDb(PointerCommitted), PointerCommitted);
  }

  lemma ChecksFirst()
    ensures Leads(Keyed(PointedDb(Completed)), ValidateFirst, Keyed(Checked(PointedDb(Completed))))
  {
    assert LoadRevision(PointedDb(Completed), 0, 2) == Ok(Draft2);
  }

  lemma SelectsFirst()
    ensures Leads(Keyed(Checked(PointedDb(Completed))), SelectFirst, Keyed(Live(PointedDb(Completed))))
  {
    assert LoadRevision(Checked(PointedDb(Completed)), 0, 2) == Ok(ReadyFirst);
  }

  lemma ReplacementIsTaken()
    ensures BeginMutation(Live(PointedDb(Completed)), Replacing).result.Ok?
  {
    assert LoadRevision(Live(PointedDb(Completed)), 0, 2) == Ok(ReadyFirst);
  }

  lemma ReplacementBegins()
    ensures BeginMutation(Live(PointedDb(Completed)), Replacing).db
            == Live(ReplacingDb(IntentRecorded, Available, Retained))
  {
    ReplacementIsTaken();
    BeginWrites(Live(PointedDb(Completed)), Replacing);
  }

  lemma BeginsReplacement()
    ensures Leads(Keyed(Live(PointedDb(Completed))), Mutate(0, Replacing, ReplaceCommit),
                  BeforeWrite(Live(ReplacingDb(IntentRecorded, Available, Retained)), Protecting))
  {
    ReplacementIsTaken();
    ReplacementBegins();
  }

  lemma ProtectsReplacement()
    ensures var db := Live(ReplacingDb(IntentRecorded, Available, Retained));
            Leads(BeforeWrite(db, Protecting), Call(0, Works), BeforeWrite(db, Writing))
  {
  }

  lemma WritesReplacement()
    ensures var db := Live(ReplacingDb(IntentRecorded, Available, Retained));
            Leads(BeforeWrite(db, Writing), Call(0, Works), AtReplacement(db, Recording))
  {
  }

  lemma ReplacementIsRecorded()
    ensures var db := Live(ReplacingDb(IntentRecorded, Available, Retained));
            RecordVaultWrite(db, 8)
            == Tx(Live(ReplacingDb(VaultWritten, Available, Available)), Ok(Replaced(VaultWritten)))
  {
    ReplacedLoads(Live(ReplacingDb(IntentRecorded, Available, Retained)), IntentRecorded);
  }

  lemma RecordsReplacement()
    ensures Leads(AtReplacement(Live(ReplacingDb(IntentRecorded, Available, Retained)), Recording), Call(0, Works),
                  AtReplacement(Live(ReplacingDb(VaultWritten, Available, Available)), Pointing))
  {
    ReplacementIsRecorded();
    RecordingLeads(AtReplacement(Live(ReplacingDb(IntentRecorded, Available, Retained)), Recording), ReplaceCommit,
                   Live(ReplacingDb(VaultWritten, Available, Available)));
  }

  lemma ReplacementMoves()
    ensures var db := Live(ReplacingDb(VaultWritten, Available, Available));
            && LoadMutation(db, 8) == Ok(Replaced(VaultWritten)) && LoadRevision(db, 0, 2) == Ok(ReadyFirst)
            && PointerMoves(db, ReplaceCommit) && NextRevision(db, 0, 3)
  {
    var db := Live(ReplacingDb(VaultWritten, Available, Available));
    ReplacedLoads(db, VaultWritten);
    assert LoadRevision(db, 0, 2) == Ok(ReadyFirst);
    assert (0, 2) in db.revisions;
  }

  lemma AppendedIs()
    ensures PointerAppended(Live(ReplacingDb(VaultWritten, Available, Available)), ReplaceCommit)
            == Live(ReplacedDb(VaultWritten, Available))
  {
    var db := Live(ReplacingDb(VaultWritten, Available, Available));
    var appended := PointerAppended(db, ReplaceCommit);
    assert appended.profiles == map[0 := ProfileRow("n", 3, false)];
    assert appended.revisions == Live(ReplacedDb(VaultWritten, Available)).revisions;
  }

  lemma SwitchedIs()
    ensures var appended := Live(ReplacedDb(VaultWritten, Available));
            WithStatus(WithMutation(appended, 8, Replaced(PointerCommitted)), 0, 1, Retained) == Switched
  {
  }

  lemma ReplacementIsPointed()
    ensures var tx := CommitPointer(Live(ReplacingDb(VaultWritten, Available, Available)), ReplaceCommit);
            tx.db == Switched && tx.result.Ok?
  {
    ReplacementMoves();
    PointerOfLoaded(Live(ReplacingDb(VaultWritten, Available, Available)), ReplaceCommit, 1);
    AppendedIs();
    SwitchedIs();
  }

  lemma ReplacementHasOld()
    ensures Onward(Live(ReplacingDb(VaultWritten, Available, Available)), Pointing, ReplaceCommit, true)
            == Some(CheckingRuns)
  {
    assert OldAt(Live(ReplacingDb(VaultWritten, Available, Available)), 8) == {(0, 1)};
  }

  lemma PointsToReplacement()
    ensures Leads(AtReplacement(Live(ReplacingDb(VaultWritten, Available, Available)), Pointing), Call(0, Works),
                  AtReplacement(Switched, CheckingRuns))
  {
    ReplacementIsPointed();
    ReplacementHasOld();
    PointingLeads(AtReplacement(Live(ReplacingDb(VaultWritten, Available, Available)), Pointing), ReplaceCommit,
                  CommitPointer(Live(ReplacingDb(VaultWritten, Available, Available)), ReplaceCommit), CheckingRuns);
  }

  lemma FindsNoRun()
    ensures Leads(AtReplacement(Switched, CheckingRuns), Call(0, Works), AtReplacement(Switched, CheckingSlot))
  {
  }

  lemma RunStarts()
    ensures Leads(AtReplacement(Switched, CheckingSlot), Use(StartRun(5, Running, FirstSlot)),
                  AtReplacement(Bound, CheckingSlot))
  {
  }

  lemma SecondLoads()
    ensures LoadRevision(Bound, 0, 3) == Ok(Draft3) && CurrentRevision(Bound, 0) == Some(3)
  {
  }

  lemma SecondIsChecked()
    ensures Step(Bound, ValidateSecond.op) == Rechecked
  {
    SecondLoads();
    ValidationIs(Bound, ValidateSecond.op.validation, Draft3);
  }

  lemma ChecksSecond()
    ensures Leads(AtReplacement(Bound, CheckingSlot), ValidateSecond, AtReplacement(Rechecked, CheckingSlot))
  {
    SecondIsChecked();
    UseLeads(AtReplacement(Bound, CheckingSlot), ValidateSecond.op, Rechecked);
  }

  lemma SecondIsSelected()
    ensures Step(Rechecked, SelectSecond.op) == Moved
  {
    assert LoadRevision(Rechecked, 0, 3) == Ok(ReadySecond);
    SelectionIs(Rechecked, SelectSecond.op.activation, ReadySecond, SecondSlot);
  }

  lemma SelectsSecond()
    ensures Leads(AtReplacement(Rechecked, CheckingSlot), SelectSecond, AtReplacement(Moved, CheckingSlot))
  {
    SecondIsSelected();
    UseLeads(AtReplacement(Rechecked, CheckingSlot), SelectSecond.op, Moved);
  }

  lemma MovedSlot()
    ensures SlotReads(Moved) && !SlotNames(Moved, 0, 1)
  {
    assert LoadRevision(Moved, 0, 3) == Ok(ReadySecond);
    assert !BlockedProfile(Moved, 0);
    assert Active(Moved) == Ok(Some(SecondSlot));
  }

  lemma OldIsNotInSlot()
    ensures !OldInSlot(Moved, 8)
  {
    MovedSlot();
    assert OldAt(Moved, 8) == {(0, 1)};
  }

  lemma FindsAnotherSlot()
    ensures Leads(AtReplacement(Moved, CheckingSlot), Call(0, Works), AtReplacement(Moved, Erasing))
  {
    MovedSlot();
    OldIsNotInSlot();
    SlotLeads(AtReplacement(Moved, CheckingSlot), ReplaceCommit);
  }

  lemma ErasingIsRash()
    ensures Rash(AtReplacement(Moved, Erasing), Call(0, Works))
  {
    assert (0, 1) in OldAt(Moved, 8);
    assert 5 in Moved.bindings;
    assert LiveCredential(Moved, 0, 1);
  }

  const ActivationSteps: seq<VaultStep> := [Call(0, Works), ValidateFirst, SelectFirst]

  lemma KeyIsActivated()
    ensures LeadsOn(KeyedWorld, ActivationSteps, Keyed(Live(PointedDb(Completed))))
  {
    var steps, end := ActivationSteps, Keyed(Live(PointedDb(Completed)));
    assert steps[0..] == steps && steps[3..] == [];
    SelectsFirst();
    Continues(Keyed(Checked(PointedDb(Completed))), steps, 2, end, end);
    ChecksFirst();
    Continues(Keyed(PointedDb(Completed)), steps, 1, Keyed(Checked(PointedDb(Completed))), end);
    CompletesKey();
    Continues(KeyedWorld, steps, 0, Keyed(PointedDb(Completed)), end);
  }

  const ReplacementSteps: seq<VaultStep> := [
    Mutate(0, Replacing, ReplaceCommit), Call(0, Works), Call(0, Works), Call(0, Works), Call(0, Works)]

  lemma KeyIsReplaced()
    ensures LeadsOn(Keyed(Live(PointedDb(Completed))), ReplacementSteps, AtReplacement(Switched, CheckingRuns))
  {
    var steps, end := ReplacementSteps, AtReplacement(Switched, CheckingRuns);
    var staged := Live(ReplacingDb(IntentRecorded, Available, Retained));
    var written := Live(ReplacingDb(VaultWritten, Available, Available));
    assert steps[0..] == steps && steps[5..] == [];
    PointsToReplacement();
    Continues(AtReplacement(written, Pointing), steps, 4, end, end);
    RecordsReplacement();
    Continues(AtReplacement(staged, Recording), steps, 3, AtReplacement(written, Pointing), end);
    WritesReplacement();
    Continues(BeforeWrite(staged, Writing), steps, 2, AtReplacement(staged, Recording), end);
    ProtectsReplacement();
    Continues(BeforeWrite(staged, Protecting), steps, 1, BeforeWrite(staged, Writing), end);
    BeginsReplacement();
    Continues(Keyed(Live(PointedDb(Completed))), steps, 0, BeforeWrite(staged, Protecting), end);
  }

  const RunSteps: seq<VaultStep> := [Call(0, Works), Use(StartRun(5, Running, FirstSlot))]

  lemma RunIsBound()
    ensures LeadsOn(AtReplacement(Switched, CheckingRuns), RunSteps, AtReplacement(Bound, CheckingSlot))
  {
    var steps, end := RunSteps, AtReplacement(Bound, CheckingSlot);
    assert steps[0..] == steps && steps[2..] == [];
    RunStarts();
    Continues(AtReplacement(Switched, CheckingSlot), steps, 1, end, end);
    FindsNoRun();
    Continues(AtReplacement(Switched, CheckingRuns), steps, 0, AtReplacement(Switched, CheckingSlot), end);
  }

  const SlotSteps: seq<VaultStep> := [ValidateSecond, SelectSecond, Call(0, Works)]

  lemma SlotMovesOn()
    ensures LeadsOn(AtReplacement(Bound, CheckingSlot), SlotSteps, AtReplacement(Moved, Erasing))
  {
    var steps, end := SlotSteps, AtReplacement(Moved, Erasing);
    assert steps[0..] == steps && steps[3..] == [];
    FindsAnotherSlot();
    Continues(AtReplacement(Moved, CheckingSlot), steps, 2, end, end);
    SelectsSecond();
    Continues(AtReplacement(Rechecked, CheckingSlot), steps, 1, AtReplacement(Moved, CheckingSlot), end);
    ChecksSecond();
    Continues(AtReplacement(Bound, CheckingSlot), steps, 0, AtReplacement(Rechecked, CheckingSlot), end);
  }

  const RunHistory := KeyHistory + (ActivationSteps + (ReplacementSteps + (RunSteps + SlotSteps)))

  /** A replacement finds no Run that holds the old credential; a Run takes it up while the slot still holds
      it; the slot moves on; the replacement finds it elsewhere, and erases the secret of the Run. */
  lemma RunRacesTheErasure()
    ensures EndsRashly(RunHistory, AtReplacement(Moved, Erasing), Call(0, Works))
    ensures !SecuredForever(Next(AtReplacement(Moved, Erasing), Call(0, Works)))
  {
    var end := AtReplacement(Moved, Erasing);
    SlotMovesOn();
    RunIsBound();
    Joins(AtReplacement(Switched, CheckingRuns), RunSteps, AtReplacement(Bound, CheckingSlot), SlotSteps, end);
    KeyIsReplaced();
    Joins(Keyed(Live(PointedDb(Completed))), ReplacementSteps, AtReplacement(Switched, CheckingRuns),
          RunSteps + SlotSteps, end);
    KeyIsActivated();
    Joins(KeyedWorld, ActivationSteps, Keyed(Live(PointedDb(Completed))), ReplacementSteps + (RunSteps + SlotSteps),
          end);
    KeyIsMade();
    Joins(EmptyWorld, KeyHistory, KeyedWorld, ActivationSteps + (ReplacementSteps + (RunSteps + SlotSteps)), end);
    ErasingIsRash();
    RashExactly(RunHistory, Call(0, Works));
  }
}
