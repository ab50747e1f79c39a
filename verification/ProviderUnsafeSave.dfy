/** Why a save has to carry the current credential over: the repository itself accepts a revision
    that names any stored generation, and then a rollback tombstones a credential in use. */
module ProviderUnsafeSave {
  import opened Wrappers
  import opened ProviderDomain
  import opened ProviderStore
  import opened ProviderSteps
  import opened ProviderWrites
  import opened ProviderInvariants

  const Setup := Config(KeyedProvider("p"), "m", "")
  const Key := Generation(0, 1, ApiKey)
  const Announced: Intent := IntentFields(7, 0, 1, Create, ApiKey, None, Some(1), None)
  const Proof := Digest(0, 2, Setup, Some(Key), "v")
  const Plain := Revision(0, 1, Setup, None, Draft, None)
  const Naming := Revision(0, 2, Setup, Some(Key), Draft, None)

  const Trace: seq<Op> := [
    Save(SaveRequest(0, None, "n", Plain)),
    Begin(Announced),
    Save(SaveRequest(0, Some(1), "n", Naming)),
    Validate(ValidationCommit(0, 2, Key, Proof, Evidence(3, Proof, true), "v")),
    Select(ActivateRequest(0, 2, 3, Proof, None)),
    Rollback(7)]

  const Saved := EmptyDb.(profiles := map[0 := ProfileRow("n", 1, false)],
                          revisions := map[(0, 1) := RevisionRow(Setup, None, Draft, None)])
  const Staged := Saved.(generations := map[(0, 1) := GenerationRow(ApiKey, Retained)],
                         journal := map[7 := Mutation(0, 1, Create, None, Some(1), None, IntentRecorded, None)])
  const Named := Staged.(profiles := map[0 := ProfileRow("n", 2, false)],
                         revisions := Staged.revisions[(0, 2) := RevisionRow(Setup, Some(1), Draft, None)])
  const Checked := Named.(validations := map[3 := ValidationRow(0, 2, 1, Proof, true)],
                          revisions := Named.revisions[(0, 2) := RevisionRow(Setup, Some(1), Ready, Some(3))])
  const Selected := Checked.(active := Some(Activation(0, 2, 3, 1, Proof, 1)))

  lemma SaveFirst()
    ensures Step(EmptyDb, Trace[0]) == Saved
  {
  }

  lemma BeginCreate()
    ensures Step(Saved, Trace[1]) == Staged
  {
    assert LoadRevision(Saved, 0, 1) == Ok(Plain);
  }

  lemma SaveStagedCredential()
    ensures Step(Staged, Trace[2]) == Named && !SaveSafe(Staged, Trace[2].save)
  {
    assert HasStatus(Staged, 0, 1, Retained);
  }

  lemma ValidateStagedCredential()
    ensures Step(Named, Trace[3]) == Checked
  {
    assert LoadRevision(Named, 0, 2) == Ok(Naming);
  }

  lemma ActivateStagedCredential()
    ensures Step(Checked, Trace[4]) == Selected
  {
    assert LoadRevision(Checked, 0, 2) == Ok(Revision(0, 2, Setup, Some(Key), Ready, Some(Evidence(3, Proof, true))));
  }

  lemma RollBackStagedCredential()
    ensures HasStatus(Step(Selected, Trace[5]), 0, 1, Deleted) && Step(Selected, Trace[5]).active == Selected.active
  {
    assert 1 in References(Selected.journal[7]);
    assert HasKind(Selected, Selected.journal[7], ApiKey);
  }

  /** Six transactions after which the active credential is deleted. */
  lemma UnsafeSaveLosesTheCredential()
    ensures !LiveCredentialsKept(After(EmptyDb, Trace))
  {
    SaveFirst();
    BeginCreate();
    SaveStagedCredential();
    ValidateStagedCredential();
    ActivateStagedCredential();
    RollBackStagedCredential();
    assert After(EmptyDb, Trace) == After(Saved, Trace[1..]);
    assert Trace[1..][1..] == Trace[2..] && Trace[2..][1..] == Trace[3..];
    assert Trace[3..][1..] == Trace[4..] && Trace[4..][1..] == Trace[5..] && Trace[5..][1..] == [];
    assert After(Saved, Trace[1..]) == After(Staged, Trace[2..]);
    assert After(Staged, Trace[2..]) == After(Named, Trace[3..]);
    assert After(Named, Trace[3..]) == After(Checked, Trace[4..]);
    assert After(Checked, Trace[4..]) == After(Selected, Trace[5..]);
  }
}
