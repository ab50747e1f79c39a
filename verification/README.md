# Verification of the Run store, the provider repository and their recovery protocols

This Dafny project models the durable core of a data-analysis agent and proves what its callers rely on.
`dafny verify dfyconfig.toml` checks all of it.

## What is modelled

- **Providers** (`Provider*.dfy`). Eight linked tables hold profiles, revisions, validations, credential
  generations, the credential-mutation journal, the active slot, Run bindings and Runs. Each transaction of the
  repository is a function on the tables (`ProviderStore`), carried out in place by a class
  (`ProviderRepository`) that restores the tables when it fails. `ProviderSteps` is any interleaving of
  the transactions. `ProviderTables` proves how the rows fit together after every run, whatever its callers save;
  `ProviderInvariants`, `ProviderSafety` and `ProviderJournal` prove the invariant that keeps live credentials, which
  a save can break; `ProviderRuns`, `ProviderSaves`, `ProviderTombstones`, `ProviderHistory`, `ProviderTheorems`,
  and `ProviderLifecycles` draw the conclusions over whole runs; `ProviderOutcomes`, `ProviderJournalOutcomes` and
  `ProviderDeletions` say of each transaction when it succeeds and which rows it writes.
- **The vault** (`ProviderVault.dfy` and the modules on it). The credential service keeps secrets in a store of their
  own. Its mutations, deletions and cleanups are clients whose every call, on the tables or on the vault, is one
  step, and so is every transaction of everyone else: saves that carry the current credential over, validation,
  activation and Runs. Any call may fail, and a client may stop between any two. `ProviderNeeds` says how one
  transaction changes which secrets are needed, `ProviderClients` what the clients rely on, `ProviderSecrets` that no
  needed secret is lost without a rash step, `ProviderLosses` that every rash step can lose one, `ProviderRashSteps` how
  each arises, and `ProviderErrands` that what nobody disturbs, or what fails in time, ends as it should.
- **Runs** (`Run*.dfy`). The Run tables, the append and command transactions, the class that carries them out
  with the source's loops, the refinement of each cached row by its event log, clients that load and write
  later, exactly-once commands, and the drivers whose steps those clients carry out (`RunDrivers`).
- **Recovery** (`Recovery*.dfy`). The accumulator of facts, the decision, and the protocol of one Run as a state
  machine: a driver that commits a step in several appends, a crash between any two of them, recovery, answers,
  cancellation and retries. A driver in the middle of a step holds the version it committed last, so that the
  store's version check decides whether its next append still applies (`RecoveryStore` ties the two, and
  `HarnessSteps` carries the steps out against the store's class). `RecoverySteps` spells out what each step commits,
  `RecoveryDecisions` what recovery decides and does in terms of the log, and `RecoveryHistory` what the log tells.
- **Smaller algorithms.** Live event subscription over a lossy channel, CSV export against a reader of section 2
  of RFC 4180, the byte-bounded preview and the canonical command fingerprints as JSON text in UTF-8 (`Json`, against a
  reader of RFC 8259), the token-bounded context manifest (`ContextBudget`, `ContextOutcomes`), and the publication of
  the workspace identifier by processes that may stop anywhere.

Assumptions, each of which the code relies on: fresh identifiers are new; a transaction is atomic and leaves no
trace when it fails; digests are injective and stored JSON comes back as it was; a snapshot is rebuilt and
written back without an append in between; scheduling a driver is part of the command that does it, and there is
at most one driver per Run.

## What is not so, and exactly when it is

- **Recovery does not always decide.** A tool call that policy rejects is committed as failed without having
  started (`tools/runtime.rs:271-295`, `harness.rs:709-735`), and recovery calls that a corrupt history
  (`recovery.rs:167-174`). Recovery decides if and only if no committed policy evaluation denied a call
  (`RecoveryDecides`, `RejectionBlocksRecovery`).
- **A costly retry can lose its confirmation** when a Run is recovered while its driver is still alive: the
  driver fails the waiting Run, whose status `fail_terminal` does not check, and the retry copies its workflow
  state (`LiveDriverLosesConsent`). That step, and no other, loses it: a driver that fails a Run whose queued
  costly call has not been confirmed (`ConfirmationIsKeptExactly`). A check of the status would do
  (`CarelessStatus`), and so does a recovery that waits for the driver's death (`DisciplinedRunsAreCareful`). In any
  case a grant means a confirmation (`GrantsAreConfirmed`).
- **A save may name any stored generation**, and then a live credential can be tombstoned
  (`UnsafeSaveLosesTheCredential`). It can in some continuation if and only if the named credential is retained,
  deleted, one that an unfinished mutation may still tombstone, or one that an unfinished mutation has just
  replaced (`SafeSavesExactly`). Everything that does not turn on the named credential holds of every run.
- **An append does not look at its events**, and takes a projection that it did not write itself, after which the
  Run cannot be rebuilt (`ForgeryCorrupts`, `AppendTakesAForgery`); `AppendKeepsExactly` and `CommandKeepsExactly`
  say what its callers owe.
- **A secret in use can be lost from the vault**, by three operations and no other (`RashExactly`). Deleting a profile
  erases its secret before the transaction that may refuse (`provider/service.rs:648-665`), so stopping in between,
  or failing to write it back, loses it (`DeletionStopsHalfway`, `DeletionIsRefused`); so does an erasure that takes
  effect although it reports a failure. A replacement looks for Runs first and at the active slot second
  (`provider/service.rs:272-295`); a Run that binds the old credential between the two reads loses its secret
  (`RunRacesTheErasure`). Cancelling a mutation that is still going on can erase what it writes afterwards
  (`CleanupRacesTheWrite`). In between, a deletion of an active profile leaves the slot without its secret.
- **A live event can go unnoticed** when the load that its notification caused fails (`service.rs:344-348`) or its
  call is dropped, which the terminal's event loop does on every tick (`tui/event_loop.rs:654-682`)
  (`GivingUpDropsAnEvent`). That loses it if and only if nothing else is unread and the channel is open
  (`CoveredExactly`); delivery stays in order all the same, and the next news or successful load finds it.
- **Rebuilding a Run's row repairs a damaged snapshot document but not a damaged status or version column beside
  an intact one** (`ReconstructRestores`).
- **The token record can overflow** at the greatest budget and only there (`BudgetIsKeptExactly`).
- **A table without columns, or with an empty row, does not read back** from its CSV (`CsvRoundTrip`). The quote
  that marks a text as no formula cannot be told from one that was there (`TextsPrintAlikeExactly`), and column
  names are not marked (`FormulasExactly`).
- **A tombstone is not for ever.** `complete_credential_mutation` returns even a deleted old generation to retained
  (`provider.rs:893-905`, `CompletionRevivesATombstone`), and blocking revokes a deleted staged one; no other
  transaction lifts a tombstone (`TombstonesLiftExactly`), and the safety results hold all the same. Every replacement
  that goes through ends so: the old credential is retained, also when its secret was erased (`MutationErrand`). Of a
  deleted profile no credential becomes available again (`DeletedCredentialsStayUnavailable`).
- The remote-reconciliation decision is never taken, because only recovery writes indeterminate outcomes and it
  names no remote query (`RecoveryDecides`).

## Model

| member | source | states |
|---|---|---|
| ProviderRuns.LiveCredentialsSurvive | crates/ys-agent-store/src/provider.rs:254-1118 | after any interleaving of the thirteen transactions whose saves name safe credentials, no generation held by the active slot or by an unfinished Run is deleted, and all table invariants hold |
| ProviderRuns.ServiceRunsKeepCredentials | crates/ys-agent-store/src/provider.rs:254-1118 | the same from empty tables for the saves the profile service makes: none or the current credential is carried over |
| ProviderRuns.CarryingRunsAreSafe | crates/ys-agent-store/src/provider.rs:1456-1473 | a run in which every save carries the current credential over is a run whose saves are safe |
| ProviderRuns.CarryIsSafe | crates/ys-agent-store/src/provider.rs:254-302 | carrying over the current credential, or none, is safe in every invariant state |
| ProviderSaves.SafeSavesExactly | crates/ys-agent-store/src/provider.rs:254-302 | a successful save leaves every continuation whose saves carry the current credential over unable to tombstone a credential in use if and only if its credential is none, or neither retained nor deleted, nor one that an unfinished mutation may still tombstone or has just replaced; and that is also when it keeps the invariants |
| ProviderSaves.SafeSavesExactlySoFar | crates/ys-agent-store/src/provider.rs:254-302 | the same after any run from empty tables whose saves were safe, with no invariant assumed |
| ProviderSaves.DeletedLoses | crates/ys-agent-store/src/provider.rs:371-449 | a ready current revision that names a deleted credential can be activated, in whatever tables fit together |
| ProviderSaves.RetainedLoses | crates/ys-agent-store/src/provider.rs:1059-1118 | a ready current revision that names a retained credential loses it in some continuation, even while the active slot or Runs hold it: the Runs end, a new profile takes the slot, the credential is retired and the revision activated |
| ProviderSaves.StagedLoses | crates/ys-agent-store/src/provider.rs:878-977 | a ready current revision that names what a mutation may still tombstone loses it by activation and then rollback or completion |
| ProviderUnsafeSave.UnsafeSaveLosesTheCredential | crates/ys-agent-store/src/provider.rs:1475-1501 | six concrete transactions after which the active credential is deleted, because a save may name a staged generation |
| ProviderRuns.StepKeeps | crates/ys-agent-store/src/provider.rs:254-1118 | each single transaction keeps the invariant that joins the tables |
| ProviderTables.StepTables | crates/ys-agent-store/src/provider.rs:254-1118 | each transaction, whichever credential a saved revision names, keeps the tables fitting together: numbering, ownership, evidence, one open mutation, the active slot and the bindings |
| ProviderTables.ReachableTables | crates/ys-agent-store/src/provider.rs:254-1118 | after every run from empty tables the rows fit together, with nothing asked of the callers |
| ProviderInvariants.SaveKeeps | crates/ys-agent-store/src/provider.rs:254-302 | a safe save keeps every invariant |
| ProviderSafety.SaveValidationKeeps | crates/ys-agent-store/src/provider.rs:304-369 | storing a validation keeps every invariant |
| ProviderSafety.ActivateKeeps | crates/ys-agent-store/src/provider.rs:371-449 | activation keeps every invariant: only a usable current credential becomes active |
| ProviderSafety.DeleteProfileKeeps | crates/ys-agent-store/src/provider.rs:490-578 | deleting a profile keeps every invariant: none of the credentials it deletes is in use |
| ProviderJournal.BeginKeeps | crates/ys-agent-store/src/provider.rs:580-683 | beginning a mutation keeps every invariant: its staged generation is new and named by nothing else |
| ProviderJournal.VaultWriteKeeps | crates/ys-agent-store/src/provider.rs:712-778 | recording the vault write keeps every invariant |
| ProviderJournal.CommitKeeps | crates/ys-agent-store/src/provider.rs:780-876 | a pointer commit keeps every invariant, also when it fails after changing the journal |
| ProviderJournal.CompleteKeeps | crates/ys-agent-store/src/provider.rs:878-931 | completing keeps every invariant although it sets the old credential to retained unconditionally |
| ProviderJournal.RollbackKeeps | crates/ys-agent-store/src/provider.rs:933-977 | rolling back tombstones only a generation that nothing names |
| ProviderJournal.BlockKeeps | crates/ys-agent-store/src/provider.rs:979-1029 | blocking keeps every invariant |
| ProviderSafety.RetireKeeps | crates/ys-agent-store/src/provider.rs:1059-1118 | retiring keeps every invariant: what is retained is neither current nor awaited |
| ProviderTables.RevisionLoads | crates/ys-agent-store/src/provider.rs:1561-1654 | in fitting tables every stored revision can be rebuilt, with its own columns, credential and evidence |
| ProviderTables.ReadyPasses | crates/ys-agent-store/migrations/0002_provider_management.sql:205-247 | the snapshot of a ready revision satisfies the trigger on the active slot |
| ProviderSafety.RunStepKeeps | crates/ys-agent-store/migrations/0004_run_binding_activation_revision.sql:1-21 | creating a Run bound to the active snapshot, and moving a Run, keep every invariant |
| ProviderHistory.RunExtends | crates/ys-agent-store/src/provider.rs:254-1118 | no run removes or rewrites a revision's configuration or credential, a validation, a generation's kind, an announced mutation, a closed or blocked record, or a binding; new generations get greater numbers |
| ProviderHistory.StepExtends | crates/ys-agent-store/migrations/0002_provider_management.sql:249-302 | each transaction, in any state of the tables, only extends that history |
| ProviderTheorems.MovesAreBounded | crates/ys-agent-core/src/provider.rs:2332-2361 | along every run the phase of a mutation changes at most as often as its rank, three times from the beginning and never after closing |
| ProviderTheorems.StepMovesOnce | crates/ys-agent-core/src/provider.rs:2247-2262 | every transaction moves a record along one valid transition, and never from a committed pointer to cleanup |
| ProviderTheorems.OpenMutationsClose | crates/ys-agent-store/src/provider.rs:878-977 | an open mutation that is not blocked is closed by exactly one of complete and rollback, and then its profile is free |
| ProviderTheorems.VaultWriteRepeats | crates/ys-agent-store/src/provider.rs:712-778 | after any later transactions that leave the phase, repeating a vault write that succeeded returns the same record and writes nothing |
| ProviderTheorems.CompleteRepeats | crates/ys-agent-store/src/provider.rs:878-931 | after any later transactions whatever, repeating a completion that succeeded returns the same record and writes nothing |
| ProviderTheorems.RollbackRepeats | crates/ys-agent-store/src/provider.rs:933-977 | the same for a rollback |
| ProviderTheorems.BlockRepeats | crates/ys-agent-store/src/provider.rs:979-1029 | the same for a block with the same code, and another code is refused for ever |
| ProviderTheorems.CommitRepeats | crates/ys-agent-store/src/provider.rs:786-806 | after any later transactions that leave the phase, whichever revisions they save, repeating a pointer commit that succeeded returns the record and writes nothing |
| ProviderTheorems.InterveningEditWins | crates/ys-agent-store/src/provider.rs:810-846 | when the profile was edited or deleted after begin, the commit fails, only the journal moves to cleanup, and a rollback from there tombstones only the staged generation, which no revision names unless an unsafe save did |
| ProviderTheorems.CommitMovesThePointer | crates/ys-agent-store/src/provider.rs:848-875 | otherwise the new current revision differs from its predecessor only in number, credential and missing validation, and only the old credential changes status |
| ProviderTheorems.ActiveFailsClosed | crates/ys-agent-store/src/provider.rs:451-488 | after every run from empty tables a reader gets nothing, a refusal when the profile is blocked, or the activated snapshot, whose profile exists and whose revision is ready by exactly one passing validation of exactly its configuration and credential |
| ProviderTheorems.BlockedForever | crates/ys-agent-store/src/provider.rs:588-607 | a blocked record never changes again; beginning on its profile and reading its activation are refused in every later state |
| ProviderTheorems.GenerationNumbersGrow | crates/ys-agent-store/src/provider.rs:1413-1432 | a later mutation of a profile stages a greater generation number than an earlier one, whatever happened to it |
| ProviderTheorems.RevisionsAreHistory | crates/ys-agent-store/src/provider.rs:1442-1501 | after every run from empty tables revision numbers are exactly 1..current, and no later run changes what a revision says |
| ProviderTheorems.OneMutationAtATime | crates/ys-agent-store/src/provider.rs:588-607 | after every run from empty tables a profile has at most one mutation outside completed and rolled back |
| ProviderLifecycles.SaveThenLoad | crates/ys-agent-store/src/provider.rs:254-302 | a saved revision is current and loads back as it was saved |
| ProviderLifecycles.ValidateThenLoad | crates/ys-agent-store/src/provider.rs:304-369 | a validated revision loads back with its evidence, ready exactly when the evidence passed |
| ProviderLifecycles.ValidateThenActivate | crates/ys-agent-store/src/provider.rs:371-488 | passing evidence activates at once under the next activation number and is what a reader then gets, unless the profile is blocked |
| ProviderLifecycles.MutationRunsThrough | crates/ys-agent-store/src/provider.rs:580-931 | a begun mutation left alone succeeds in every later step and leaves one more revision, the new credential available, the old one retained, the copy deleted and the profile free |
| ProviderLifecycles.RollbackUndoes | crates/ys-agent-store/src/provider.rs:933-977 | rolling back before or after the vault write restores all tables but a tombstone for the new generation and the closed record |
| ProviderLifecycles.BlockCloses | crates/ys-agent-store/src/provider.rs:979-1029 | blocking revokes the staged generation and empties the active slot only of that profile |
| ProviderLifecycles.DeletedForever | crates/ys-agent-store/src/provider.rs:490-578 | after every run that follows its deletion a profile is not active, no unfinished Run holds one of its credentials, and nothing can be saved, validated, activated, begun or run on it |
| ProviderTombstones.TombstonesLiftExactly | crates/ys-agent-store/src/provider.rs:878-1029 | in every reachable state a transaction lifts a tombstone if and only if it completes a mutation whose old credential it is, or blocks the mutation that staged it |
| ProviderTombstones.CompletionRevivesATombstone | crates/ys-agent-store/src/provider.rs:893-905 | ten concrete transactions after which a credential that was retired before its replacement completed is retained again |
| ProviderOutcomes.SaveExactly | crates/ys-agent-store/src/provider.rs:254-302 | a revision is saved if and only if it is an unvalidated successor of what its author saw, its profile was never deleted, its name is free and its credential exists and is of the kind its provider takes; it is then the current draft and nothing else has changed; a failure writes nothing |
| ProviderOutcomes.ValidateExactly | crates/ys-agent-store/src/provider.rs:304-369 | a validation is stored if and only if it covers exactly the current unvalidated revision with its credential and is new; that revision is then ready or invalid as the evidence says, and nothing else has changed |
| ProviderOutcomes.ActivateExactly | crates/ys-agent-store/src/provider.rs:371-449 | activation succeeds if and only if the current revision is ready by the named validation and the slot is as expected; the slot then holds its snapshot under the next number, and nothing else has changed |
| ProviderOutcomes.BeginExactly | crates/ys-agent-store/src/provider.rs:580-683 | a mutation begins if and only if none is open, revision and credential are as expected, and the staged generation fits and is the greatest so far; that generation is then stored as retained, with the record, and nothing else has changed |
| ProviderOutcomes.CreateRunExactly | crates/ys-agent-store/migrations/0004_run_binding_activation_revision.sql:1-21 | a Run is created if and only if it is new and its binding is the active snapshot, which it keeps; nothing else changes |
| ProviderJournalOutcomes.VaultWriteExactly | crates/ys-agent-store/src/provider.rs:712-778 | a vault write is recorded if and only if its intent was and the generation it brings is still retained, which alone becomes available; recording it again changes nothing |
| ProviderJournalOutcomes.CommitExactly | crates/ys-agent-store/src/provider.rs:780-876 | after the vault write a pointer commit succeeds if and only if it is the one announced and the profile is as the mutation found it; it then adds exactly the next draft with the new credential, makes it current and retains the old credential unless that is deleted; otherwise it fails and only asks for cleanup; in any other open or closed phase it is refused and changes nothing |
| ProviderJournalOutcomes.CompleteExactly | crates/ys-agent-store/src/provider.rs:878-931 | a mutation is completed if and only if its pointer was committed: the old credential is then retained and the rollback copy deleted, whatever they were, and nothing else has changed |
| ProviderJournalOutcomes.RollbackExactly | crates/ys-agent-store/src/provider.rs:933-977 | a mutation is rolled back if and only if its pointer was not committed: only the generation it brought is then deleted |
| ProviderJournalOutcomes.BlockExactly | crates/ys-agent-store/src/provider.rs:979-1029 | a mutation is blocked if and only if it is open, or blocked already with the same code: the generation it brought is then revoked, and the active slot emptied if and only if its profile had it |
| ProviderJournalOutcomes.RetireExactly | crates/ys-agent-store/src/provider.rs:1059-1118 | a credential is retired if and only if it is retained, not the active one, and held by no unfinished Run; only it is then deleted |
| ProviderJournalOutcomes.MoveRunExactly | crates/ys-agent-store/src/sqlite.rs:464-492 | a stored Run takes any status, but none that is not terminal after one that is |
| ProviderDeletions.DeleteExactly | crates/ys-agent-store/src/provider.rs:490-578 | a profile is deleted if and only if it exists, its author saw its current revision and the active slot, every Run bound to it has ended, and being left without a provider was agreed to if it is active; every credential of it is then deleted, it is not active, and no kind, other profile's credential, name or other row has changed; a refusal writes nothing |
| ProviderDeletions.DeletedCredentialsStayUnavailable | crates/ys-agent-store/src/provider.rs:490-578 | after a deletion, whatever transactions follow, none of the profile's credentials is available again, although completing a mutation that was under way may retain one |
| ProviderOutcomes.NamesStayUnique | crates/ys-agent-store/src/provider.rs:254-302 | profile names, deleted ones included, stay unique through every run |
| ProviderRepository.SqliteProviderRepository.SaveRevision | crates/ys-agent-store/src/provider.rs:254-302 | saving, with its order of checks and its rollback in place leaves exactly the tables and result of the transaction function the theorems are about |
| ProviderRepository.SqliteProviderRepository.SaveValidation | crates/ys-agent-store/src/provider.rs:304-369 | storing a validation in place leaves exactly the tables and result of the transaction function the theorems are about |
| ProviderRepository.SqliteProviderRepository.Activate | crates/ys-agent-store/src/provider.rs:371-449 | activation in place leaves exactly the tables and result of the transaction function the theorems are about |
| ProviderRepository.SqliteProviderRepository.DeleteProfile | crates/ys-agent-store/src/provider.rs:490-578 | profile deletion in place leaves exactly the tables and result of the transaction function the theorems are about |
| ProviderRepository.SqliteProviderRepository.BeginCredentialMutation | crates/ys-agent-store/src/provider.rs:580-683 | beginning a mutation in place leaves exactly the tables and result of the transaction function the theorems are about |
| ProviderRepository.SqliteProviderRepository.RecordVaultWrite | crates/ys-agent-store/src/provider.rs:712-778 | recording the vault write in place leaves exactly the tables and result of the transaction function the theorems are about |
| ProviderRepository.SqliteProviderRepository.CommitCredentialPointer | crates/ys-agent-store/src/provider.rs:780-876 | the pointer commit, which commits a phase change and fails when stale in place leaves exactly the tables and result of the transaction function the theorems are about |
| ProviderRepository.SqliteProviderRepository.CompleteCredentialMutation | crates/ys-agent-store/src/provider.rs:878-931 | completion in place leaves exactly the tables and result of the transaction function the theorems are about |
| ProviderRepository.SqliteProviderRepository.RollbackCredentialMutation | crates/ys-agent-store/src/provider.rs:933-977 | rollback in place leaves exactly the tables and result of the transaction function the theorems are about |
| ProviderRepository.SqliteProviderRepository.BlockCredentialMutation | crates/ys-agent-store/src/provider.rs:979-1029 | blocking in place leaves exactly the tables and result of the transaction function the theorems are about |
| ProviderRepository.SqliteProviderRepository.RetireCredentialGeneration | crates/ys-agent-store/src/provider.rs:1059-1118 | retiring in place leaves exactly the tables and result of the transaction function the theorems are about |
| ProviderRepository.SqliteProviderRepository.Active | crates/ys-agent-store/src/provider.rs:451-488 | reading the active slot returns what the specified reader returns and changes nothing |
| ProviderSecrets.SecretsSurvive | crates/ys-agent-runtime/src/provider/service.rs:75-668 | from empty stores, however the calls of mutations, deletions, cleanups and everyone else interleave, fail and stop, without a rash step every secret that the active slot or an unfinished Run holds is in the vault, or in the hands of a deletion that has just removed it |
| ProviderLosses.RashExactly | crates/ys-agent-runtime/src/provider/service.rs:75-668 | after every such history the next step keeps every secret in use, in every continuation without a rash step, if and only if it is not rash: it erases an old secret that an unfinished Run holds, cleans up a mutation whose secret is needed, or is a deletion that fails although it erased, stops, or cannot write back, with the only copy of a needed secret |
| ProviderLosses.NeededLoses | crates/ys-agent-runtime/src/provider/service.rs:123-236 | a secret that is held, current, or promised by a mutation, and neither in the vault nor in hand, comes into use in some continuation without a rash step |
| ProviderSecrets.KeptStep | crates/ys-agent-runtime/src/provider/service.rs:75-668 | each step that is not rash keeps every needed secret in the vault or in hand |
| ProviderSecrets.OldNeeds | crates/ys-agent-runtime/src/provider/service.rs:272-302 | when a replacement is about to erase the old secret, that secret is needed if and only if an unfinished Run holds it |
| ProviderSecrets.StagedUnneeded | crates/ys-agent-runtime/src/provider/service.rs:304-335 | nobody needs what a mutation has staged, its rollback copy included, while no revision names it and no client is about to record or to point to it |
| ProviderSecrets.AbandonedCleanupIsSafe | crates/ys-agent-runtime/src/provider/service.rs:71-121 | cleaning up a mutation that has not moved the pointer and that no client carries on, as after a restart, is never rash |
| ProviderClients.FitsStep | crates/ys-agent-runtime/src/provider/service.rs:75-668 | every step keeps what each client relies on at its next call: its record matches its commit and has the phase of its stage, and what it staged is named by no revision before its commit |
| ProviderErrands.MutationErrand | crates/ys-agent-runtime/src/provider/service.rs:123-236 | a mutation that nobody disturbs goes through all its calls: its record is completed, the next revision names the new credential, whose secret is in the vault, the old credential is retained and its secret erased if and only if neither an unfinished Run nor the active slot holds it, nothing is left of a copy, and no other secret has changed |
| ProviderErrands.FailureIsUndone | crates/ys-agent-runtime/src/provider/service.rs:158-215 | a mutation whose copy of the old secret, write to the vault or pointer commit fails, with or without effect, takes away what it staged and rolls back, and nothing else has changed |
| ProviderErrands.DoubtBlocks | crates/ys-agent-runtime/src/provider/service.rs:337-352 | a call of a mutation whose failure leaves the stores in doubt blocks the mutation and ends its client |
| ProviderErrands.CleanupErrand | crates/ys-agent-runtime/src/provider/service.rs:71-121 | cleaning up after an abandoned mutation takes away what it staged and rolls it back, and nothing else has changed |
| ProviderErrands.DeletionErrand | crates/ys-agent-runtime/src/provider/service.rs:624-668 | a deletion that nobody disturbs deletes the profile and exactly its current secret |
| ProviderErrands.RefusedDeletionIsUndone | crates/ys-agent-runtime/src/provider/service.rs:659-665 | a deletion that is refused after it removed the secret writes it back and leaves both stores as they were |
| ProviderRashSteps.RunRacesTheErasure | crates/ys-agent-runtime/src/provider/service.rs:272-302 | a concrete history in which a Run takes up the old credential between the two reads that look for it, and its secret is about to be erased |
| ProviderRashSteps.DeletionStopsHalfway | crates/ys-agent-runtime/src/provider/service.rs:629-668 | a concrete history in which a deletion has erased the current secret and stops before its transaction |
| ProviderRashSteps.DeletionIsRefused | crates/ys-agent-runtime/src/provider/service.rs:629-668 | a concrete history in which a deletion erases the current secret, its transaction refuses, and writing the secret back fails |
| ProviderRashSteps.CleanupRacesTheWrite | crates/ys-agent-runtime/src/provider/service.rs:91-121 | a concrete history in which the cleanup of a cancelled mutation is about to erase the secret that the mutation has written since it was found unrecorded |
| RunLog.LogRefinesRow | crates/ys-agent-store/src/sqlite.rs:400-542 | after any sequence of commands, appends and activations by honest callers each log is numbered 1..n, of one identity, bound once and first, projected version by version with a projection last, and its last projection is the cached row |
| RunLog.EveryRunReplays | crates/ys-agent-runtime/src/recovery.rs:294-365 | after any such sequence from the empty store every Run can be rebuilt, and rebuilding it returns exactly its row and writes nothing |
| RunLog.AppendKeepsExactly | crates/ys-agent-store/src/sqlite.rs:509-542 | a successful append keeps that invariant if and only if its events bind and project nothing and its task is the Run's |
| RunLog.CommandKeepsExactly | crates/ys-agent-store/src/sqlite.rs:562-666 | a new successful command keeps it if and only if a created Run's projected snapshots are its own, numbered from one, and an update is such an append |
| RunLog.PlainCreationIsHonest | crates/ys-agent-core/src/ports.rs:43-78 | creation at version one with events that project nothing meets that condition |
| RunForgery.ForgeryCorrupts | crates/ys-agent-store/src/sqlite.rs:509-542 | for every Run, an append that carries the current snapshot as an event of its own succeeds, and from then on rebuilding the Run reports a corrupt history |
| RunForgery.AppendTakesAForgery | crates/ys-agent-store/src/sqlite.rs:509-542 | a concrete store, made by an activation and a creating command, in which that happens |
| RunLog.AppendWrites | crates/ys-agent-store/src/sqlite.rs:464-542 | an append writes the events with the next sequence numbers, then the projection, and replaces the cached row under the version check |
| RunLog.ReconstructRestores | crates/ys-agent-runtime/src/recovery.rs:294-365 | rebuilding returns the cached snapshot and writes nothing; from any damaged row it returns the same and restores the row if and only if the damage touched the snapshot document; a second time changes nothing |
| RunRepository.ValidateEventSequence | crates/ys-agent-runtime/src/recovery.rs:667-694 | accepts exactly the events of this Run numbered from one in a supported version |
| RunRepository.Project | crates/ys-agent-runtime/src/recovery.rs:294-355 | the folding loop succeeds on exactly the replayable logs and yields their last projection |
| RunRepository.SqliteRuntimeStore.InsertEvents | crates/ys-agent-store/src/sqlite.rs:400-462 | the insertion loop numbers the events after the last stored one with the identity of the Run's task |
| RunRepository.SqliteRuntimeStore.Append | crates/ys-agent-store/src/sqlite.rs:853-878 | appending in place equals the append transaction and restores the tables on an error |
| RunRepository.SqliteRuntimeStore.CommitCommand | crates/ys-agent-store/src/sqlite.rs:562-666 | committing a command in place equals the command transaction and restores the tables on an error |
| RunRepository.SqliteRuntimeStore.Reconstruct | crates/ys-agent-runtime/src/recovery.rs:294-365 | rebuilding in place equals the specified reconstruction |
| RunClients.NoUpdateIsLost | crates/ys-agent-store/src/sqlite.rs:464-542 | in every interleaving of clients that write the successor of what they loaded, each committed update was computed from the snapshot committed immediately before it, and once a Run is terminal every later snapshot is |
| RunDrivers.DriversLoseNothing | crates/ys-agent-runtime/src/harness.rs:1074-1083 | from the empty store, when every update is a step of the driver, of recovery or of a command on what its client had loaded, however long ago: the same, with nothing else assumed of the clients |
| RunDrivers.StepsSucceed | crates/ys-agent-runtime/src/service.rs:1867-1881 | after every history, a step commits nothing, or one append whose snapshot is the successor of the current one, of the same Run and task, and terminal if that one was |
| RunDrivers.TerminalForGood | crates/ys-agent-runtime/src/service.rs:1867-1881 | a Run that has once been terminal is terminal after every later step but a retry, which is another Run |
| RunDrivers.RunsAreFollowed | crates/ys-agent-store/migrations/0002_provider_management.sql:205-247 | the provider tables, which forget credentials of terminal Runs, never refuse a status the Run store has committed and end with its current one |
| RunClients.AppendBuildsOnLatest | crates/ys-agent-store/src/sqlite.rs:493-542 | the version check makes the basis of a successful append the latest committed snapshot |
| RunClients.SubmitBuildsOnLatest | crates/ys-agent-store/src/sqlite.rs:623-640 | the same for an update carried by a command |
| RunCommands.ExactlyOnce | crates/ys-agent-store/src/sqlite.rs:544-666 | in every history of commands, appends and activations, however they fail and repeat, the tables are those of the transactions that do something: each command's first success, the appends that succeed, and the activations |
| RunCommands.WinnersAreDistinct | crates/ys-agent-store/src/sqlite.rs:578-590 | in every such history no command id is carried out twice, and none that was stored before |
| RunCommands.RepeatsReturnTheReceipt | crates/ys-agent-store/src/sqlite.rs:578-586 | after any later commands, appends and activations a repeat returns the original receipt and a changed fingerprint conflicts, writing nothing |
| RunCommands.ReceiptsAreImmutable | crates/ys-agent-store/src/sqlite.rs:650-665 | no command, append or activation ever changes a stored receipt |
| RunCommands.CommandStores | crates/ys-agent-store/src/sqlite.rs:600-665 | what a new command that succeeds leaves: its receipt, and the session, task and artifact it carries, added to tables that lacked them; a created Run with its row, its binding and a log of exactly its events and its projection, or one updated Run whose log grew by exactly its events and its projection; and nothing else |
| RunCommands.CommandSucceedsExactly | crates/ys-agent-store/src/sqlite.rs:544-666 | a new command succeeds if and only if its receipt is its own, every row it carries is new, a created Run is new, of a known task and bound to the active snapshot, an updated Run follows its stored version, and events come with an update only; otherwise nothing is written |
| RunCommands.AppendStores | crates/ys-agent-store/src/sqlite.rs:464-542 | in any tables an append succeeds if and only if its snapshot follows the stored version, its artifacts are new and its own and the stored row can be read; it then adds exactly its artifacts, sets the row to its snapshot, and numbers its events and projection on from the last one; a stale version is a conflict, and a failure writes nothing |
| RunCommands.AppendSucceedsExactly | crates/ys-agent-store/src/sqlite.rs:509-542 | an append succeeds if and only if its snapshot follows the stored version of its Run and its artifacts are new and its own; a failure writes nothing |
| RunCommands.ArtifactsAccepted | crates/ys-agent-store/src/sqlite.rs:527-537 | an append's artifacts are accepted if and only if each is of its Run and task and new |
| RunCommands.ArtifactsStored | crates/ys-agent-store/src/sqlite.rs:359-379 | exactly the append's artifacts are added |
| RecoveryTheorems.RecoveryDecides | crates/ys-agent-runtime/src/recovery.rs:215-292 | for every history, whoever is alive, the events are accepted, at most one started call is unfinished, and recovery reaches a decision if and only if no tool call was denied; it never reconciles a remote query |
| RecoveryTheorems.RejectionBlocksRecovery | crates/ys-agent-runtime/src/tools/runtime.rs:271-295 | a denied call is committed as failed without having started, after which recovery reports a corrupt history |
| RecoverySafety.EveryRunIsSound | crates/ys-agent-runtime/src/harness.rs:446-1140 | every step of driver, crash, recovery, answer, cancellation and retry keeps the ledger invariant |
| RecoverySafety.NextKeeps | crates/ys-agent-runtime/src/recovery.rs:402-647 | each single step keeps it |
| RecoveryLedger.DriverStepKeeps | crates/ys-agent-runtime/src/harness.rs:694-946 | each driver commit keeps it, with the driver's held version deciding whether its append still applies |
| RecoverySafety.RecoverKeeps | crates/ys-agent-runtime/src/recovery.rs:402-647 | applying any recovery decision keeps it |
| RecoverySafety.AnswerKeeps | crates/ys-agent-runtime/src/service.rs:1687-1850 | an answer keeps it, and grants only a pending costly call |
| RecoverySafety.CancelKeeps | crates/ys-agent-runtime/src/service.rs:1851-1908 | cancelling keeps it |
| RecoverySafety.RetryKeeps | crates/ys-agent-runtime/src/service.rs:1616-1643 | a retry Run starts with a sound, empty ledger |
| RecoveryMeaning.FactsMean | crates/ys-agent-runtime/src/recovery.rs:74-150 | the facts are exactly what the events say: proposed, started with cost, finished, and the last interruption nothing has resumed |
| RecoveryDecisions.DecisionsMean | crates/ys-agent-runtime/src/recovery.rs:244-291 | for every reachable running Run whose history can be read: a call is marked if and only if it is the one under way; with none under way, the call interrupted last and not resumed since is retried if and only if it was cheap and resuming was asked for, or costly and its retry confirmed, and otherwise waits to be resumed or is asked about; with none interrupted the model is asked again if and only if its answer is outstanding |
| RecoveryDecisions.StoppedDecisions | crates/ys-agent-runtime/src/recovery.rs:234-243 | a queued Run is started, a waiting one waits, a succeeded or cancelled one is returned as it is, and a failed one needs a retry |
| RecoveryDecisions.StrandedRecovers | crates/ys-agent-runtime/src/recovery.rs:549-617 | recovering a call that was interrupted before: the Run goes on with exactly that call queued under an identity no logged call has, without the grant when it was cheap and resuming was asked for, with it when it was costly and confirmed, and whoever is idle is woken; a costly one not confirmed is asked about, and a cheap one not resumed is left alone |
| RecoveryDecisions.UnderwayRecovers | crates/ys-agent-runtime/src/recovery.rs:425-547 | recovering a call that is under way records its interruption at its cost, after which it is the one interrupted last, and when resuming is asked for retries it or asks about it in the same append |
| RecoveryDecisions.AnswersResume | crates/ys-agent-runtime/src/service.rs:1687-1850 | an answer resumes a reachable Run if and only if it waits for that clarification, and a confirmation is affirmative and has its call, which then goes on under an identity no logged call has, with the grant |
| RecoveryDecisions.WaitingRunsCanBeAnswered | crates/ys-agent-runtime/src/service.rs:1687-1850 | a reachable Run that waits names in its workflow state the clarification it waits for, so an affirmative answer resumes it, unless it is to confirm a call that is not there |
| RecoveryDecisions.CancelAndRetry | crates/ys-agent-runtime/src/service.rs:1616-1908 | cancelling ends exactly a Run that has not ended, keeping its workflow state; retrying starts, for exactly a failed Run, a new one with its workflow state, the next attempt and an empty ledger |
| RecoveryHistory.LogTellsRow | crates/ys-agent-runtime/src/harness.rs:132-1140 | after every history of driver steps, crashes and commands the events alone tell the row's status, what it waits for, its result and its version, the log ends with the row, and a Run waits if and only if it waits for the clarification of its workflow state |
| RecoveryHistory.OutcomesWereReported | crates/ys-agent-runtime/src/harness.rs:694-946 | in every history a call is logged as succeeded only if a step of the history reported its tool's success, and as failed only with the failure that its tool reported, or with which the policy rejected it |
| RecoverySteps.LoopCommits | crates/ys-agent-runtime/src/harness.rs:144-225 | what a step that does not need the model appends, event by event, with the snapshot it leaves and where the driver then is; when the driver is not free it commits nothing |
| RecoverySteps.ResponseCommits | crates/ys-agent-runtime/src/harness.rs:571-693 | the same for what the driver makes of the model's answer: going on, acknowledging a wait, completing or refusing to |
| RecoverySteps.WaitCommits | crates/ys-agent-runtime/src/harness.rs:176-225 | the same for the wait it acknowledged |
| RecoverySteps.ProposalCommits | crates/ys-agent-runtime/src/harness.rs:694-783 | the same for a proposed tool call that is started, or rejected by the policy, under a new identity |
| RecoverySteps.RecoveredCommits | crates/ys-agent-runtime/src/harness.rs:803-946 | the same for the recovered call, which leaves the workflow state with its grant and is handed out with it |
| RecoverySteps.OutcomeCommits | crates/ys-agent-runtime/src/harness.rs:761-783 | the same for the outcome of the started call: success if and only if its tool succeeded, else failure with the tool's reason |
| RecoverySteps.EndingCommits | crates/ys-agent-runtime/src/harness.rs:1076-1140 | the same for a driver that fails the Run, and what one does that breaks, exits or crashes, none of which commits anything |
| RecoveryMeaning.QueuedCallRepeatsAProposal | crates/ys-agent-runtime/src/recovery.rs:657-665 | a retry that recovery queues is a call of the log with at most a new identity |
| RecoveryMeaning.QueuedOnlyOnRequest | crates/ys-agent-runtime/src/recovery.rs:454-568 | recovery queues a cheap retry only when resuming was asked for, and a costly one only when its retry was confirmed, with the grant |
| RecoveryTheorems.QueuedCallIsNew | crates/ys-agent-runtime/src/recovery.rs:456-470 | a call queued in a running Run has an identity no proposal of its log has |
| RecoveryTheorems.GrantsAreConfirmed | crates/ys-agent-runtime/src/service.rs:1749-1767 | a recovered call carries the grant if and only if its retry was confirmed, and never when it is cheap, whoever is alive |
| RecoveryTheorems.ConfirmationIsKeptExactly | crates/ys-agent-runtime/src/harness.rs:1113-1140 | after any careful history a step leaves every careful continuation handing out costly calls with the grant only, if and only if it is not a driver failing a Run whose queued costly call is unconfirmed |
| RecoveryTheorems.CostlyRetriesAreConfirmed | crates/ys-agent-runtime/src/harness.rs:803-849 | whoever is alive, in every history without such a step a recovered call carries the grant if and only if its cost is high or unknown |
| RecoveryTheorems.DisciplinedRunsAreCareful | crates/ys-agent-runtime/src/harness.rs:1113-1140 | a history in which recovery runs only after the driver has died has no such step |
| RecoveryTheorems.CarelessStatus | crates/ys-agent-runtime/src/harness.rs:1120-1125 | such a step is taken only on a Run that waits for its confirmation or has succeeded or been cancelled, so a check of the status would exclude it |
| RecoveryTheorems.LiveDriverLosesConsent | crates/ys-agent-runtime/src/harness.rs:1113-1140 | a concrete history with a live driver in which a failed Run's retry hands out a costly call without the grant |
| RecoveryFacts.ExternalFacts.Apply | crates/ys-agent-runtime/src/recovery.rs:75-150 | the mutable accumulator learns from one event what the specification says |
| RecoveryFacts.ExternalFacts.ApplyAll | crates/ys-agent-runtime/src/recovery.rs:222-232 | the accumulating loop learns from a whole history what the specification says |
| RecoveryStore.CommitIsAppend | crates/ys-agent-runtime/src/harness.rs:132-142 | an append by a client that holds a version succeeds if and only if nobody has committed since and its artifacts are new and of its Run and task; then the store holds the protocol's next state and the artifacts, and otherwise it is unchanged |
| RecoveryStore.ReconstructShows | crates/ys-agent-runtime/src/recovery.rs:294-365 | rebuilding yields the protocol's snapshot |
| HarnessSteps.Harness.Append | crates/ys-agent-runtime/src/harness.rs:132-142 | an append under the loaded version applies if and only if nobody has committed since and its artifacts are new and its own, and then leaves the protocol's next state and the artifacts; otherwise nothing changes |
| HarnessSteps.Harness.RequestModel | crates/ys-agent-runtime/src/harness.rs:506-537 | the model request is recorded with its manifest in one append before the model is asked, event by event as stated, or nothing is |
| HarnessSteps.Harness.StartTool | crates/ys-agent-runtime/src/harness.rs:736-760 | the call is proposed, allowed and started at its cost in one append, after the answer that proposed it, if and only if nobody has committed since the request; an overtaken append records nothing |
| HarnessSteps.Harness.FinishTool | crates/ys-agent-runtime/src/harness.rs:761-783 | the artifacts it produced and then its outcome, as a success if and only if it is one and otherwise as a failure with its reason, are recorded in a second append if and only if nobody has committed since the call was started and the artifacts are new; otherwise the call stays started and nothing changes |
| HarnessSteps.Harness.RunTool | crates/ys-agent-runtime/src/harness.rs:736-790 | left alone the two appends leave the log grown by the start of the call and then by its artifacts and its outcome, as a success if and only if it is one; when an artifact is not new only by the first |
| HarnessSteps.Harness.StartRecovered | crates/ys-agent-runtime/src/harness.rs:803-905 | the recovered call is handed out with the stored grant, which the starting append uses up, if and only if nobody has committed since the Run was loaded |
| HarnessSteps.Harness.RecoveredToolStep | crates/ys-agent-runtime/src/harness.rs:803-946 | left alone the recovered call is started and finishes in a second append with its own outcome, as any other, and has left the workflow state |
| HarnessSteps.Harness.FailTerminal | crates/ys-agent-runtime/src/harness.rs:1113-1140 | the Run is failed from whatever status it was loaded in, keeping its workflow state, if and only if nobody has committed since |
| Subscription.GapFree | crates/ys-agent-runtime/src/service.rs:316-349 | in every interleaving with commits, notifications, overflow and loads that fail or are dropped, delivery is after+1, after+2, ... without gap or repeat, what waits continues it, and an ended subscription has delivered everything announced |
| Subscription.CoveredExactly | crates/ys-agent-runtime/src/service.rs:324-349 | after every such history a step leaves each announced event delivered, waiting or still to be looked for if and only if it is not the giving up of a load with announced events beyond the cursor, nothing unread and an open channel; an event dropped that way is covered again if and only if the channel has news again; and a load that succeeds leaves nothing stored behind |
| Subscription.NothingAnnouncedIsMissed | crates/ys-agent-runtime/src/service.rs:316-349 | in every history without such a step each event notified after its commit is delivered, waiting or still to be looked for |
| Subscription.AnnouncedEventsArrive | crates/ys-agent-runtime/src/service.rs:316-349 | after every such history the subscriber's own calls can go on until everything announced has been delivered, in order and without a gap: nothing waits for another notification |
| Subscription.ReceivesInOrder | crates/ys-agent-runtime/src/service.rs:329-341 | a receiver reads what the channel still keeps in order, and skips only what it does not keep, of which it is told |
| Subscription.GivingUpDropsAnEvent | crates/ys-agent-runtime/src/service.rs:324-345 | five concrete steps after which an announced event is covered by nothing, because the load it caused was given up |
| Subscription.StepKeeps | crates/ys-agent-runtime/src/service.rs:316-349 | each step, giving up a load included, keeps the order of delivery |
| Subscription.EventSubscription.Next | crates/ys-agent-runtime/src/service.rs:317-349 | one call delivers exactly the next event; it waits, when there was news, or ends, only when everything stored has been delivered; and a load that fails ends it with nothing delivered, having used up what made it look |
| Csv.CsvRoundTrip | crates/ys-agent-runtime/src/export.rs:112-135 | a reader of section 2 of RFC 4180 gets back the header and the text of every cell if and only if there is a column and no empty row |
| Csv.TableRoundTrip | crates/ys-agent-runtime/src/export.rs:112-168 | any printed table reads back, an empty record as one empty field |
| Csv.PrintingIsInjective | crates/ys-agent-runtime/src/export.rs:112-168 | two tables print alike if and only if they differ at most in empty records, which print as one empty field; without empty records they are then equal |
| Csv.RenderCsv | crates/ys-agent-runtime/src/export.rs:112-135 | the rendering loop prints the header and the cells record by record |
| Csv.FieldRoundTrip | crates/ys-agent-runtime/src/export.rs:159-168 | a printed field followed by a comma or line end reads back as itself |
| Csv.NoTextIsAFormula | crates/ys-agent-runtime/src/export.rs:147-157 | an exported text cell never starts like a formula, and is the text behind one quote if and only if the text does |
| Csv.CellsPrint | crates/ys-agent-runtime/src/export.rs:137-157 | each cell prints as what it is: nothing, true or false, the digits, the text or the text behind a quote, or the JSON of an array or object |
| Csv.FormulasExactly | crates/ys-agent-runtime/src/export.rs:112-157 | a field of an exported table starts like a formula if and only if it is a column name that does, or a number with a sign |
| Csv.TextsPrintAlikeExactly | crates/ys-agent-runtime/src/export.rs:147-157 | two texts print the same cell if and only if they are equal or one is the other behind the quote that marks it |
| Preview.Build | crates/ys-agent-runtime/src/service.rs:2141-2211 | each error is returned if and only if its cause is there: too small a row count, else a row of another width, else a non-finite number among the visible columns of a row the preview still has room to try; otherwise the preview has the most columns that fit without rows and the most rows that fit with them, cut cell by cell, and is flagged if and only if a row, column or text was cut; its JSON text has at most 65,536 bytes and reads back as the preview; the too-small error is never returned |
| Preview.PreviewIsFull | crates/ys-agent-runtime/src/service.rs:2174-2205 | with one more row, when there is one and fewer than 100 are shown, or with more columns and no rows, its JSON text would be longer than that |
| Preview.ViewRoundTrip | crates/ys-agent-runtime/src/service.rs:2249-2258 | a reader of RFC 8259 gets every preview back from the bytes that are counted |
| Preview.ShownAsIs | crates/ys-agent-runtime/src/service.rs:2213-2247 | a cell is shown as what it is: the same Boolean, an integer with the digits of its value, a finite real as it was serialized, a text cut to its first 256 characters, a blob by its length |
| Json.QuotedIsShortest | crates/ys-agent-runtime/src/service.rs:2249-2258 | the escaping that is counted is the shortest there is: whatever text reads back as the same string has at least as many bytes |
| Json.WholeRoundTrip | crates/ys-agent-runtime/src/service.rs:2281-2284 | every JSON value is read back from its bytes |
| Preview.FitColumns | crates/ys-agent-runtime/src/service.rs:2177-2190 | dropping columns ends with the widest preview that fits, as it is measured, possibly without any column |
| Preview.VisibleExactly | crates/ys-agent-runtime/src/service.rs:2177-2190 | the visible columns fit without rows, and no wider preview, as it is measured, does |
| Preview.FillRows | crates/ys-agent-runtime/src/service.rs:2192-2210 | rows are added from the top while the preview as measured fits; it fails if and only if it reaches a non-finite visible number |
| Preview.EmptyFits | crates/ys-agent-runtime/src/service.rs:2178-2184 | a preview without columns always fits, for every 64-bit row count |
| ContextBudget.BudgetIsKeptExactly | crates/ys-agent-runtime/src/context_assembler.rs:478-502 | the budgets whose assembled manifests always pass the budget check are exactly those below the greatest 32-bit number |
| ContextBudget.AssembledIsValid | crates/ys-agent-runtime/src/context_assembler.rs:216-242 | below it every manifest's record equals the recount and stays in budget |
| ContextBudget.GreatestBudgetOverflows | crates/ys-agent-runtime/src/context_assembler.rs:235-242 | five gigantic items overflow the greatest budget |
| ContextBudget.EveryItemIsSettled | crates/ys-agent-runtime/src/context_assembler.rs:112-271 | assembling fails if and only if some candidate that repeats no earlier one is trusted as an instruction; otherwise the manifest includes, in rank order and with their own version and length, exactly the candidates that repeat no earlier one, are unrestricted and found room after those included before them, and omits everything else, in order, for exactly that reason |
| ContextBudget.RankingHolds | crates/ys-agent-runtime/src/context_assembler.rs:120-196 | the candidates are exactly the metric, the dbt manifests and the unrestricted run evidence that is a fresh schema or a freshness, each as often as it was provided, in rank order, and those of equal rank, source and version in the order they came in |
| ContextBudget.NothingIsLost | crates/ys-agent-runtime/src/context_assembler.rs:112-271 | every item provided ends in the manifest once: each candidate as often as it was provided, included at the cost of its own text or omitted by name, each other item of run evidence omitted by name, and the summary taken over or omitted |
| ContextBudget.AssembleIgnoresOrder | crates/ys-agent-runtime/src/context_assembler.rs:190-196 | without candidates sharing rank, source and version, provider order changes only the order of omissions |
| ContextBudget.AssembledIsSafe | crates/ys-agent-runtime/src/context_assembler.rs:202-243 | nothing restricted, trusted or repeated is included, and each item at the cost of its own text |
| ContextBudget.AssembleContext | crates/ys-agent-runtime/src/context_assembler.rs:112-271 | the assembling loops produce the specified manifest |
| ContextOutcomes.NeedsExactly | crates/ys-agent-runtime/src/context_assembler.rs:260-266 | the model call asks for a schema if and only if one is required and no unrestricted one was provided that was observed within its time to live, and for a freshness if and only if that is required and no unrestricted one was provided |
| ContextOutcomes.CandidateIsSettled | crates/ys-agent-runtime/src/context_assembler.rs:198-236 | every candidate in its turn is omitted as a repetition of an earlier one, or as restricted, or because it costs more than the items taken from those before it left of the budget; or else it is the next item included, at the cost of its own text |
| ContextOutcomes.RunEvidenceIsSettled | crates/ys-agent-runtime/src/context_assembler.rs:143-187 | a piece of run evidence is omitted as expired, restricted or of another source if and only if it is, and otherwise is a candidate |
| ContextOutcomes.SummaryIsSettled | crates/ys-agent-runtime/src/context_assembler.rs:238-258 | below the greatest budget the recent summary is taken over if and only if it is relevant and the rest of the budget pays for it, and otherwise omitted for that reason |
| ContextOutcomes.RankedInOrder | crates/ys-agent-runtime/src/context_assembler.rs:189-194 | candidates are settled in the order of rank, source and version |
| ContextOutcomes.TokensAreQuarters | crates/ys-agent-runtime/src/context_assembler.rs:297-300 | a text costs one token for every four bytes begun, up to the greatest 32-bit length |
| KeyOrder.LessIsByteOrder | crates/ys-agent-runtime/src/context_assembler.rs:189-194 | the order of sources, versions and object keys, by code point, is the order of their UTF-8 bytes |
| KeyOrder.LessExactly | crates/ys-agent-runtime/src/context_assembler.rs:189-194 | it is the order of the first code points that differ, a prefix before what it starts |
| Canonical.CanonicalExactly | crates/ys-agent-runtime/src/service.rs:2295-2309 | two values of any depth have the same canonical form if and only if they are equal up to the order of object keys |
| Canonical.CanonicalizeIdempotent | crates/ys-agent-runtime/src/service.rs:2295-2309 | canonicalizing twice is canonicalizing once |
| Canonical.FingerprintExactly | crates/ys-agent-runtime/src/service.rs:2277-2293 | the bytes digested for two commands are the same if and only if the operations are the same and the payloads equal up to key order |
| WorkspacePublication.WorkspaceIdAgreement | apps/ysda/src/bootstrap.rs:617-663 | however processes take turns, fail and stop, the published file is absent or one complete identifier that never changes, every success returns it, and no temporary file exists when a success releases the lock |
| WorkspacePublication.UndisturbedCallSucceeds | apps/ysda/src/bootstrap.rs:617-663 | whatever happened before, a process that takes the free lock and is not disturbed returns the published identifier, or publishes the new one and returns that, and leaves no temporary file |
| WorkspacePublication.NextKeeps | apps/ysda/src/bootstrap.rs:617-663 | each call, failure or crash keeps the lock holder's knowledge and the published identifier |
| WorkspacePublication.WorkspaceDirectory.Resolve | apps/ysda/src/bootstrap.rs:617-663 | resolving under the lock keeps a published identifier whatever call fails, and on success returns it with no temporary file left |
| WorkspacePublication.WorkspaceDirectory.RecoverTemporaryFiles | apps/ysda/src/bootstrap.rs:601-615 | the sweep removes every temporary file unless a call fails |

## Left out

- Table constraints on provider names, model identifiers and parameter documents, case folding of profile names, and the 64-bit limits of stored numbers.
- The error code carried by a refusal because of a blocked mutation, and the order of listed pending mutations.
- Event identifiers, actors and timestamps; artifacts are known by identifier, Run and task.
- The snapshot's workflow kind and last completed step, and the workflow state beyond the fields recovery reads and writes; phases, prompts, the verifier and the planner are one opaque text that any step may change.
- Recovery, answers, cancellation and retries are transitions on values, because other clients and crashes come between their appends; only the harness's appends are also carried out in place, each of them against whatever other clients have committed before it.
- Which tool outcomes the workflow tolerates: a step either commits a tolerated outcome or breaks off and the driver fails the Run.
- The connection pool, pragmas, migrations, file permissions and directory synchronization; each transaction and each filesystem call is one atomic step.
- Concurrent calls while `reconstruct` is between its reading and its writing; the source does not guard that window.
- Waking the scheduler: a dropped `schedule` while a driver is ending is not modelled, nor is liveness of the driver.
- Text of context evidence beyond its length in bytes, and the word overlap that makes a summary relevant, which is an input.
- Canonical.CommandFingerprint: the fingerprint is the bytes that are digested; the digest is taken as injective.
- Csv.RenderCsv: numbers carry their serialized text as an input.
- Preview.ShowCell: real numbers carry their serialized digits as an input.
- The OAuth sign-in, which keeps its tokens in the vault by another protocol: the histories of the two stores create keys only.
- What a secret says and how the vault encrypts it; and a transaction that is committed although it reports a failure.
- The credential service has no state of its own: its calls are the steps of clients, whose local variables are the fields of `Client`.
- Markdown export, artifact storage and expiry, telemetry, the terminal interface and provider transport.
- Terminal statuses among themselves: a cancelled or succeeded Run can still become failed, so no particular terminal status is claimed to be final.
