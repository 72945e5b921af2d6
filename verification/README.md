# cogindex, modelled and proved

cogindex keeps the documents stored in Cognee in step with the documents a CocoIndex flow declares.
The two systems share no transaction, so every write is preceded by a persisted note of what it
intends (precommit) and followed by a commit, and a process may die anywhere in between. The
repository samples the resulting convergence claim with a Hypothesis state machine and says that
this is not a proof (`docs/adr/0003-consistency-model.md:76-79`). This project states the protocol
in Dafny and proves the claim for every run, together with what it rests on: the locks, the
identities, and the canonical texts behind the fingerprints.

How the modules follow the program:

- `Identity` (`_identity.py`, `_runtime_local.py`): the netstring-style join, document ids, lock scopes.
- `Documents`, `Store` (`_spec.py`, `_records.py`, `testing.py`): records, payloads, and one Cognee
  dataset with its odd rules. Re-adding keeps old derivatives and never updates the weight, cognify
  sweeps every row but skips completed ones, and a torn hard delete leaves a completed row with no
  derivatives. `FakeCogneeRuntime` runs these per document and can die before any per-document step,
  inside a forget call too.
- `Handler`, `Engine`, `Machine` (`_target.py`, `engine_model.py`, `test_convergence_machine.py`):
  reconcile and apply, the tracking cycle, and the state machine's rules, as classes proved against
  pure specifications.
- `Convergence`, `Runs`, `Replay`, `Relabelling`, `Datasets`: the invariant over every run, the
  convergence theorem, migration, replay, batching, label-only runs, configuration signals.
- `Locks`, `Serializability`, `LockedDatasets`, `AdvisoryLock` (`_locks.py`, `_locks_postgres.py`):
  reference-counted lock entries, interleaved critical sections, the provider and the runtime driven
  together one event of such a run at a time, deadline polling.
- `CanonicalJson`, `JsonReader`, `JsonFingerprint`, `Processing`, `SpecFingerprints`: the canonical JSON
  text, a JSON reader that gets the value back from it (sections 3 to 7 of RFC 8259), and what equal
  fingerprints tell.
- `ModelArgTables`, `ModelArgKinds`, `ModelArgs`, `ModelArgLaws`, `ModelArgRefusals`,
  `ModelArgStripping`, `ModelArgSafety` (`_compat.py`): the model-argument sanitizer. Its laws hold for
  every classification of names; the tables enter through `ModelArgKinds` and `ModelArgSafety`.
- `Lexicographic`, `Verification` (`_verify.py`): code-point order, and `verify_dataset`.

The invariant that carries the main theorem (`Convergence.Inv`) says that an untracked key has no
row, that every stored id is the id of a tracked key or named in one of its records, that a stored
weight is among the recorded weights unless a record predates weights, and that when nothing may be
missing and all records agree on what shapes derivatives, the row exists, is complete and has
exactly its own derivatives under the recorded profile.

Where the code and its tests or documents disagree, the model follows the code:

- `tests/property/test_convergence_machine.py:205` asserts the declared `node_set` in its declared
  order. A reordering is outside every fingerprint (`src/cogindex/_spec.py:254-263`) and so is not
  written. `Runs.ReorderedNodeSetIsNotWritten` gives, for every document and every reordering, a run
  that ends with the wrong order; `Runs.NodeSetOrderAfterSync` says exactly when the order is right.
  The convergence theorem compares `node_set` without its order.
- `docs/adr/0005-configuration-invalidation.md:135-138` calls replays after a lossy invalidation
  no-ops when nothing changed at the document level. The code rebuilds such documents
  (`src/cogindex/_target.py:115`); `Datasets.RebuiltExactly` gives the exact condition.
- The sanitizer treats a mapping that it empties differently from one that was empty: the first is
  left out and the second kept (`ModelArgStripping.EmptiedIsNotEmpty`, with names in use in
  `ModelArgStripping.EmptiedFallbacksDisappear`). Whether excluded names were present is invisible at the
  top level, and further down it shows exactly when the arguments are not refused and a non-empty
  mapping has no other names (`ModelArgStripping.ExcludedNamesShowExactly`; what is refused is told by
  the arguments alone, `ModelArgRefusals.RefusedExactly`).
- Camel case and snake case are read alike, and hence classified alike, exactly when every token but
  the first starts with a letter and, behind a single letter that is not itself the first token, goes
  on with a letter (`ModelArgKinds.SpellingsAgree`). So `topK` is `top_k`, while `xURL` is read as two
  tokens and `x_u_r_l` as four (`ModelArgKinds.SingleLettersAreSpelledApart`).

## Model

| member | source | states |
|---|---|---|
| Runs.EveryRunConverges | tests/property/test_convergence_machine.py:107-216 | In any run of declarations, removals, config changes, completed and interrupted syncs, from an empty or an upgraded store, the state after a completed sync has nothing left to reconcile; and any reachable state with nothing to reconcile holds exactly the declared documents, complete, with declared content, label, annotations and weight, only their own derivatives under the current profile, and tracking for exactly their keys |
| Runs.StepKeepsInv | tests/common/engine_model.py:59-159 | Every rule keeps the invariant that links possible records to stored rows, for every store an interruption can leave and with or without the lossy invalidation |
| Runs.CompletedSyncIsSilent | tests/common/engine_model.py:161-163 | Fixed point: from any state at all, reconciling again after a completed sync emits nothing |
| Runs.SilenceMeansConverged | src/cogindex/_target.py:190-216 | Under the invariant, reconciliation is never silent over a missing, superfluous, incomplete, stale or wrongly weighted row |
| Runs.CompletedSyncConverges | tests/property/test_convergence_machine.py:145-148 | One completed sync from an invariant state is silent, converged and invariant again |
| Runs.UpgradeEstablishesInv | src/cogindex/_records.py:29-55 | A store left by older versions (any mix of keys with an old data id, an old schema version or no recorded weight, and keys in order) satisfies the invariant, so the convergence theorem covers migration, also after failed attempts |
| Runs.NothingUndeclaredExists | tests/property/test_convergence_machine.py:178-184 | From a fresh start, after every step each stored row belongs to a key that was declared at some time, and records carry only current ids |
| Runs.NodeSetOrderAfterSync | src/cogindex/_spec.py:254-263 | After a completed sync the stored `node_set` has the declared order if and only if the key's only possible record was not the declared one, or might have been missing, or the stored order was right before |
| Runs.WrittenExactly | src/cogindex/_target.py:190-216 | A declared document is written if and only if its record is not the only possible one or may be missing |
| Runs.ReorderedNodeSetIsNotWritten | tests/property/test_convergence_machine.py:200-206 | For every document and every reordering of its nodes there is a run (declare, sync, redeclare reordered, sync) after which the stored order is not the declared one, so the asserted order does not hold there |
| Runs.SwappingReorders | src/cogindex/_spec.py:254-263 | Two different nodes swapped are such a reordering, so there are such runs |
| Runs.ReorderingIsNeverWritten | src/cogindex/_spec.py:254-263 | In every reachable state, redeclaring a synced document with its nodes reordered and syncing leaves the stored order as it was |
| Handler.WriteExactly | src/cogindex/_target.py:81-125 | On the records alone: a declared document is left alone if and only if it cannot be missing and every possible record is what its own would be. Otherwise the write recreates if and only if some possible record carries another weight or none, replaces if and only if all weights agree and presence is in doubt or a derivative input differs, re-adds only when neither, and is a plain create if and only if nothing is recorded |
| Handler.OutputCarries | src/cogindex/_target.py:165-233 | Every output names its key and its own id, clears exactly the recorded ids that are another, carries the whole declared document and the record that fits it, or for an undeclared key deletes; an undeclared key gets none if and only if nothing is recorded and nothing may be missing |
| Handler.BatchAsksFor | src/cogindex/_target.py:245-270 | For any list of actions: an id is deleted if and only if it is recreated, or removed and not written; purged if and only if replaced and not recreated; added with the payload of its last write; cognify runs if and only if some write is more than a re-add |
| Convergence.CrashKeepsKey | src/cogindex/_target.py:81-125 | Wherever an interrupted batch stops for a key, the precommitted records still describe its row: the write op chosen from uncertain records is safe for all of them |
| Convergence.CommitSettlesKey | src/cogindex/_target.py:99-125 | After the whole batch, the single committed record describes an intact row with exactly its own derivatives, whatever was possible before; after a delete no row is left |
| Convergence.RebuildUnsettles | src/cogindex/_target.py:92-98 | A write other than a bare re-add leaves precommitted records that disagree or may be missing, so the next round cannot take the document for intact |
| Convergence.CrashKeepsInv | tests/common/engine_model.py:120-154 | A sync that dies anywhere between precommit and commit keeps the whole invariant |
| Convergence.CommitKeepsInv | tests/common/engine_model.py:100-118 | A sync that commits keeps the whole invariant |
| Convergence.StaleIdsAreForeign | src/cogindex/_target.py:183-188 | An id deleted as stale is no key's current id and is named by one of the key's own records, so removing it never hits another document |
| Convergence.RowGoesWithItsWeightOnly | src/cogindex/_target.py:99-103 | The stored row of a declared document is deleted by its batch if and only if some possible record has another weight; otherwise the row, with its weight, is there wherever the batch stops and after the sync |
| Convergence.CommitStaysCovered | src/cogindex/_target.py:253-270 | Every row left by a completed sync is still accounted for by tracking: stale ids and removed keys are gone |
| Convergence.ApplySparesSilentKeys | src/cogindex/testing.py:272-289 | Frame: an apply, complete or stopped anywhere, leaves the row of every converged document outside the batch as it was, although cognify sweeps the dataset |
| Relabelling.RelabellingKeepsDerivatives | tests/unit/test_fault_matrix.py:377-412 | Over any number of label changes, syncs and interrupted syncs a document keeps completion, derivatives, profile and weight, whatever happens to other documents |
| Relabelling.LabelOnlyBatch | src/cogindex/_target.py:117-125 | A label-only change never deletes or purges, and a round of nothing else does not cognify |
| Replay.ReplayAbsorbsCrash | docs/adr/0003-consistency-model.md:43-51 | For any store and batch, the full batch after any interrupted run of it gives the store that one uninterrupted run gives |
| Replay.ReplayIsIdempotent | src/cogindex/_target.py:271-285 | Applying a batch twice changes nothing over applying it once |
| Replay.BatchingChangesNothing | src/cogindex/_target.py:245-285 | On every invariant state, the phased batch leaves the store that running each document's own delete, purge, add and cognify one at a time leaves, in any order |
| Datasets.DatasetReconcile | src/cogindex/_target.py:348-391 | The action names its key, carries the fingerprint and the record of exactly a declared dataset, and nothing for an undeclared one. With system-managed records only, the main action is create, refresh, reset or none by what is recorded and missing, and children are invalidated if and only if some record has another processing fingerprint or layout version; nothing is done for a user-managed dataset; content is torn down if and only if an undeclared dataset has records and no user manages it |
| Datasets.RebuiltExactly | src/cogindex/_target.py:99-125 | A declared document is recreated if and only if some possible record has another weight; it is replaced if and only if none has, something is recorded, and it may be missing or some record differs in what shapes derivatives |
| Datasets.EitherSignalRebuilds | docs/adr/0005-configuration-invalidation.md:125-138 | The dataset's lossy invalidation alone, or a differing recorded fingerprint alone, has a tracked document rebuilt |
| Datasets.ChangedDatasetRebuilds | src/cogindex/_records.py:16-26 | A new processing fingerprint, or a new layout of dataset records, rebuilds every tracked document of a system-managed dataset, whether or not the dataset may be missing |
| Datasets.DatasetSink.Resume | src/cogindex/_target.py:394-460 | From its start or from a wait, the sink runs to its end, to the first refused action or into a wait for a lock that is held; one output per action, a document handler exactly for live ones carrying the action's fingerprint; hands-off actions need no runtime; the datasets change by whole teardowns, each a critical section of its own in the log, and not otherwise; no other task moves in the locks |
| Datasets.DatasetSink.DeclaredGetHandlers | src/cogindex/_target.py:348-457 | Through both operations: for any list of actions made by reconciling datasets, whatever was recorded of them or missing, the sink's output is a handler for the key with the declared fingerprint if the dataset is declared, system- or user-managed, and none if it is not |
| Datasets.DatasetSink.Children | src/cogindex/_target.py:438-457 | One output per action; a handler exactly where the action carries a fingerprint, for its key and with that fingerprint |
| Datasets.DatasetSink.RefusedWithoutRuntime | src/cogindex/_target.py:407-424 | With valid coordinates an action is refused if and only if its runtime is not bound and there is something to do: the dataset is declared, or is torn down |
| Datasets.LockScopeIsValid | src/cogindex/_locks.py:28-34 | The lock scope of valid coordinates is never refused by the lock provider |
| Datasets.DatasetSink.GiveUp | src/cogindex/_locks.py:68-82 | A teardown whose wait ends by timeout or cancellation leaves the lock's queue and fails |
| Datasets.DatasetSink.AfterAt | src/cogindex/_target.py:419-437 | Datasets torn down by an action are empty and all others are as they were |
| Handler.DiffChoiceIsIrrelevant | src/cogindex/_target.py:81-125 | When records may be missing, the write op is the same whether the diff says upsert or replace |
| Handler.CollectGathers | src/cogindex/_target.py:245-264 | Ids to delete, purge, recreate and add, and the need to cognify, are exactly those some action asks for |
| Handler.DocumentHandler.Apply | src/cogindex/_target.py:235-285 | When it finishes the store is the batch's phased result; when the runtime dies, every row stopped at a point of its own sequence |
| Handler.DocumentHandler.Run | src/cogindex/_target.py:271-285 | Deletes, then purges, then one add, then one cognify; a death in any phase is one of the modelled interruptions |
| Engine.EmulatedEngine.ReconcileRound | tests/common/engine_model.py:59-82 | Outputs for exactly the keys that are due, told on the tracked states: a declared key unless it is tracked, cannot be missing and has no record but the document's own, and an undeclared tracked key that has a state or may be missing. Each one's op is the one that its records call for |
| Engine.EmulatedEngine.Precommit | tests/common/engine_model.py:84-94 | The intended state joins the possible ones; a key without a baseline may be missing; nothing else changes |
| Engine.EmulatedEngine.ApplyNoted | tests/common/engine_model.py:84-118 | Write-ahead: the engine asks the runtime for a round's actions only once every intended state is among its key's possible states |
| Engine.EmulatedEngine.Commit | tests/common/engine_model.py:100-108 | Each output's key collapses to the intended record, or goes when a deletion was intended; nothing else changes |
| Engine.EmulatedEngine.Sync | tests/common/engine_model.py:112-154 | A completed cycle commits and leaves the batch's result; one that dies or exits early leaves precommitted tracking and an interrupted store; without a fault or exit it completes |
| Engine.RoundActsOncePerId | src/cogindex/_identity.py:69-92 | No two keys of a round act on one data id, and each writes only its own |
| Machine.ConvergenceMachine.CompleteSync | tests/property/test_convergence_machine.py:145-148 | The running machine reaches the reference state and the fixed point in one undisturbed sync |
| Machine.ConvergenceMachine.InterruptedSync | tests/property/test_convergence_machine.py:150-174 | A sync under any fault, or exiting after apply, is a step of the modelled runs and keeps the invariant |
| Machine.ConvergenceMachine.SwitchConfig | tests/property/test_convergence_machine.py:134-141 | A config change swaps the handler and, optionally, invalidates every tracked key |
| Store.BatchActsPerId | src/cogindex/testing.py:201-289 | A batch acts on each id separately, so one row's fate does not depend on other ids |
| Store.DeleteCrash | src/cogindex/testing.py:247-270 | Dying after any deletes, with or without a tear in the next, is one of the modelled interruptions |
| Store.CognifyCrash | src/cogindex/testing.py:272-289 | Dying after any part of the sweep is one of the modelled interruptions |
| Store.FakeCogneeRuntime.DeleteDocuments | src/cogindex/testing.py:247-270 | Removes all listed rows, or exactly those before the fault; the next one, when torn, keeps payload and completion and loses derivatives and profile; no other row changes |
| Store.FakeCogneeRuntime.PurgeDocumentMemory | src/cogindex/testing.py:229-245 | All listed rows, or exactly those before the fault, keep their payload and lose derivatives, profile and completion; no other row changes |
| Store.FakeCogneeRuntime.AddDocuments | src/cogindex/testing.py:201-227 | For any list of payloads, all of it or the prefix before the fault: a row that was there keeps its weight, derivatives and profile and otherwise holds the last payload for its id, complete if and only if it was and no payload changed the content; a new row has the first payload's weight, the rest of the last, no derivatives and is incomplete; other rows do not change |
| Store.AddSeqAdds | src/cogindex/testing.py:370-388 | The row that a list of adds leaves for an id it names, field by field, whatever was there before and however often the id occurs |
| Store.FakeCogneeRuntime.CognifyDataset | src/cogindex/testing.py:272-289 | Each row the sweep reaches that was incomplete is completed under the profile with its old derivatives and one of its own content, annotations and weight; completed rows are skipped, and no row comes, goes or changes its payload |
| Store.AddSeqIsAddAll | src/cogindex/testing.py:370-388 | Adding distinct ids one by one, in whatever order, adds each of them once |
| Locks.InProcessLockProvider.Enter | src/cogindex/_locks.py:56-64 | An invalid scope is refused before anything happens; otherwise the task joins the listed entry, or a fresh one that is listed in the same step |
| Locks.InProcessLockProvider.TryAcquire | src/cogindex/_locks.py:65-77 | A waiter gets the lock exactly when nobody holds the scope |
| Locks.InProcessLockProvider.Abandon | src/cogindex/_locks.py:68-82 | A timed-out or cancelled waiter leaves; the entry goes exactly when nobody is left in the scope |
| Locks.InProcessLockProvider.Exit | src/cogindex/_locks.py:75-82 | The holder leaves and the scope is free; the entry goes exactly when nobody is left in the scope |
| Locks.InProcessLockProvider.MutualExclusion | src/cogindex/_locks.py:60-82 | In every state the operations reach, at most one task holds a scope, also across reclamation of its entry |
| Locks.InProcessLockProvider.UsersCountTasks | src/cogindex/_locks.py:85-92 | An entry's `users` is the number of tasks holding or waiting for its scope |
| Locks.InProcessLockProvider.EmptyWhenIdle | src/cogindex/_locks.py:79-82 | The map of locks is empty if and only if no task is inside |
| Serializability.EveryRunIsSerializable | src/cogindex/_target.py:271-285 | Under any interleaving with waits, give-ups and sections cut short, every dataset is at every moment what the critical sections, run one after the other in order of acquisition, make of it |
| Serializability.ReachableIsSerializable | src/cogindex/_target.py:271-285 | In every state that the classes reach (each of their methods is an event of a run) mutual exclusion and serializability hold |
| Serializability.LogHoldsAllWork | src/cogindex/_target.py:426-431 | Those sections hold exactly the steps each task took, in its order: none lost, invented or reordered |
| Serializability.CompleteSectionIsTheBatch | src/cogindex/_target.py:271-285 | A section that runs to its end has the effect of one whole apply |
| Serializability.TruncatedSectionIsACrash | src/cogindex/_target.py:271-285 | A section cut short after any step, with or without a tear in the next delete or purge, leaves a store that the convergence theorem allows an interrupted sync to leave |
| Serializability.RunsAreChainsOfJobs | src/cogindex/_target.py:271-285 | When every critical section is an apply of a batch, as far as it came, or a teardown, then at every moment of every interleaving each dataset has come about by one undisturbed outcome after the other: whole batches, interruptions that the convergence theorem covers, and removals |
| Serializability.OthersLeaveTask | src/cogindex/_locks.py:60-82 | What other tasks do leaves a task where it is, waiting or holding, and leaves its critical sections as they are |
| LockedDatasets.LockedRuntime.Enter | src/cogindex/_locks.py:56-64 | On the provider itself, entering is the Enter event of the interleaved runs and the state stays reachable by a run |
| LockedDatasets.LockedRuntime.TryAcquire | src/cogindex/_locks.py:65-77 | The provider grants the lock exactly when no task holds the scope, which is the Acquire event and opens a section; otherwise nothing changes |
| LockedDatasets.LockedRuntime.Abandon | src/cogindex/_locks.py:68-82 | A waiter that gives up is the Abandon event |
| LockedDatasets.LockedRuntime.Exit | src/cogindex/_locks.py:75-82 | The holder that leaves is the Exit event |
| LockedDatasets.LockedRuntime.Work | src/cogindex/testing.py:201-299 | Only the holder of a scope calls the runtime on its dataset, and each such call for one document is the Work event |
| LockedDatasets.LockedRuntime.TearDownWhenGranted | src/cogindex/_target.py:426-437 | A queued teardown is one whole critical section that empties the dataset as soon as nobody holds the lock; until then the task keeps waiting and nothing changes |
| AdvisoryLock.PostgresAdvisoryLockProvider.Acquire | src/cogindex/_locks_postgres.py:139-161 | With a deadline: the lock is acquired if and only if the session holds it on the server at return; all answers but the last were refusals and the last decides, a timeout after refusals only and not before the deadline; there is one more attempt than sleeps, at most floor(remaining / poll interval) + 2, and every positive sleep ends by the deadline as asked |
| AdvisoryLock.PostgresAdvisoryLockProvider.Attempt | src/cogindex/_locks_postgres.py:146-161 | One round of polling asks once and succeeds if and only if the server grants the lock, which the session then holds. Without a deadline it never times out and sleeps a whole poll interval; with one it times out only after it, and sleeps a whole interval or as long as the deadline allows |
| AdvisoryLock.PostgresAdvisoryLockProvider.CleanUp | src/cogindex/_locks_postgres.py:109-137 | Unlocks exactly when the lock was taken, always closes, never masks the primary error, and otherwise raises the first clean-up error; the session keeps the lock only if closing failed and unlocking failed or was not tried |
| AdvisoryLock.PostgresAdvisoryLockProvider.Begin | src/cogindex/_locks_postgres.py:76-111 | The block is entered exactly when the server granted the lock, and then the session holds it; a timeout comes only after its time, unlocks nothing, closes the connection and leaves nothing held unless closing fails |
| AdvisoryLock.AttemptsFit | src/cogindex/_locks_postgres.py:155-161 | Full sleeps that still fit before the deadline bound the number of attempts |
| Identity.JoinIsUniquelyDecodable | src/cogindex/_identity.py:45-52 | A decoder of decimal length prefixes accepts exactly the joined texts and returns their segments, for every list of strings |
| Identity.JoinIsInjective | src/cogindex/_identity.py:45-52 | No two lists of segments are joined alike |
| Identity.IdsSeparateKeys | src/cogindex/_identity.py:69-92 | Within a dataset, different keys have different ids |
| Identity.OldIdsAreForeign | src/cogindex/_identity.py:36-39 | An id of another identity schema, of any coordinates, is never the current id of any key |
| Identity.ScopeSeparatesUsers | src/cogindex/_runtime_local.py:486-492 | The physical scope determines user and active tenant, and "none" never reads as a tenant UUID |
| Identity.LockScopeMeaning | src/cogindex/_runtime_local.py:346-355 | Two datasets share a lock scope if and only if they share physical scope, tenant and name |
| Identity.WritersOfOneIdShareALock | src/cogindex/_identity.py:69-92 | Equal document ids force equal runtime key, user, active tenant, tenant, dataset and normalized key, and hence one lock scope |
| Identity.SpellingsShareAnId | src/cogindex/_identity.py:55-92 | Two accepted keys of a dataset have one document id if and only if they are spellings of one normal form |
| Identity.IdentifiedExactly | src/cogindex/_identity.py:55-109 | A document id is derived if and only if the runtime key is 1 to 128 letters, digits, dots, underscores or hyphens starting with a letter or digit, and scope, tenant, dataset and document key are non-empty and free of NUL |
| JsonReader.PrintIsRead | src/cogindex/_identity.py:119-125 | Round trip with a reader of JSON (sections 3 to 7 of RFC 8259): reading a printed value gives the value back and stops where the print ends, for all values over Unicode scalar strings |
| JsonReader.PrintIsUnique | src/cogindex/_identity.py:112-127 | Two printed JSON values that begin one text, each followed by what may follow a value, are the same value: the canonical printer is a prefix code |
| JsonReader.PrintIsInjective | src/cogindex/_identity.py:112-127 | Different normal forms print to different texts |
| JsonReader.EscapeIsShortest | src/cogindex/_identity.py:119-125 | Each character is printed as short as the format allows in ASCII: as itself, with a two-character escape where there is one, or with one or two units of four digits |
| CanonicalJson.PrintIsAscii | src/cogindex/_identity.py:119-125 | The text of every value over Unicode scalar strings is printable ASCII |
| JsonFingerprint.FieldsAreInKeyOrder | src/cogindex/_identity.py:119-125 | An object's fields are printed in strict code-point order of their keys |
| JsonFingerprint.TextTellsSame | src/cogindex/_identity.py:112-140 | Two accepted values have one canonical text if and only if they are equal up to the order of object keys and the choice of list or tuple |
| JsonFingerprint.TextIsJson | src/cogindex/_identity.py:112-140 | The text of every accepted value is JSON, and a reader gets the very value from it, to the last character |
| Processing.ConfiguredExactly | src/cogindex/_spec.py:100-122 | What is accepted, on the raw input: a positive chunk size or none, pairs with non-blank keys and no NUL, keys distinct. The first check that fails is the error; otherwise the settings are kept and the extras are the given pairs in strict key order |
| Processing.FieldsAreNamed | src/cogindex/_spec.py:124-125 | The fingerprinted record holds each setting under its own name and each extra as key and value |
| Processing.FingerprintTellsConfig | src/cogindex/_spec.py:100-125 | Two accepted configurations have one fingerprint text if and only if their settings are equal and they name the same extras in any order |
| SpecFingerprints.AnnotationsFingerprintTells | src/cogindex/_spec.py:254-265 | Two documents share an annotations fingerprint text if and only if their metadata have one canonical text and their nodes are the same in any order |
| ModelArgKinds.SpellingsAgree | src/cogindex/_compat.py:999-1024 | For all tokens of lower-case letters and digits, camel case and snake case are read as the same tokens if and only if every token but the first starts with a letter and, behind a single letter that is not the first token, goes on with a letter; then they are classified alike |
| ModelArgKinds.CamelIsRead | src/cogindex/_compat.py:1003-1013 | What any camel-case name is read as: its tokens, grown together where the condition fails |
| ModelArgKinds.TokensDecide | src/cogindex/_compat.py:1006-1024 | In snake case, and in camel case that is read alike: a name is a generation field if and only if its table lists it; other listed names follow their table; an unlisted name is excluded if an excluded token or sequence stands anywhere in it; any other name is refused as secret-shaped if its last token is `key` or `token`, and is nested otherwise |
| ModelArgKinds.ExcludedInAnyContext | src/cogindex/_compat.py:1016-1029 | Tokens exclude a name if and only if a listed token or sequence of tokens stands among them, whatever is before and behind it |
| ModelArgKinds.OtherCapitalsAreRead | src/cogindex/_compat.py:1003-1005 | Among letters that are no ASCII capitals, a Kelvin sign is read as a k, so it disguises no name, and a dotted capital I as an i and a separator |
| ModelArgKinds.SnakeIsRead | src/cogindex/_compat.py:1003-1013 | Snake case is a normal form: reading it gives its tokens back |
| ModelArgKinds.SingleLettersAreSpelledApart | src/cogindex/_compat.py:1003-1005 | An instance of the failing condition: xURL is read as two tokens, x_u_r_l as four |
| ModelArgSafety.CopyModelArgs | src/cogindex/_compat.py:907-1024 | The sanitizer's loops compute its recursive specification, with the first error in iteration order. In what they return, outside generation payloads, no text is a URL and every name is a listed generation or nested field, or is unlisted, has no excluded token or sequence, and does not end in `key` or `token` |
| ModelArgSafety.VendorKeyIsRefused | src/cogindex/_compat.py:1019-1023 | An instance: `vendor_key` is in no table and ends like a secret, so it is refused whatever stands under it |
| ModelArgs.CopyMapping | src/cogindex/_compat.py:917-939 | The mapping loop keeps, drops or refuses entry by entry, and omits a mapping exactly when it was emptied |
| ModelArgLaws.SanitizedOnceIsEnough | src/cogindex/_compat.py:907-1024 | Every sanitized value is a mapping free of excluded or doubtful names and of URLs outside generation payloads, is unchanged by sanitizing again, and can be fingerprinted |
| ModelArgLaws.CleanIsUntouched | src/cogindex/_compat.py:917-972 | The sanitizer returns its argument unchanged if and only if it is a clean mapping |
| ModelArgRefusals.RefusedExactly | src/cogindex/_compat.py:907-1024 | Failing closed, exactly: arguments are refused if and only if they are neither nothing nor a mapping, or if outside excluded entries they hold a key that is no text, a secret-shaped name, a URL text, a number that is not finite or an unsupported value; inside generation payloads names and URLs are no ground |
| ModelArgRefusals.UrlLikeExactly | src/cogindex/_compat.py:942-949 | A text counts as a URL if and only if it is space, a letter followed by letters, digits, plus, dot or hyphen, "://", and anything |
| ModelArgLaws.ExcludedValuesAreHidden | src/cogindex/_compat.py:917-972 | Arguments that differ only in values under excluded names, in list for tuple, or in an enum member for its value, give the same copy or the same refusal; so what agrees with a clean mapping in this way is copied as that mapping |
| ModelArgStripping.ExcludedNamesAreHidden | src/cogindex/_compat.py:907-926 | At the top level the presence of excluded names makes no difference either |
| ModelArgStripping.ExcludedNamesShowExactly | src/cogindex/_compat.py:917-969 | Removing the excluded entries at every level outside generation payloads leaves the copy, or the refusal, unchanged if and only if the arguments are no mapping, or hold something that is refused, or hold no non-empty mapping below the top that has only excluded names |
| ModelArgStripping.StrippedIsBare | src/cogindex/_compat.py:922-924 | What is meant by removing them: the result has no excluded name outside generation payloads, and values without such names are unchanged by it |
| ModelArgLaws.HollowIsOmitted | src/cogindex/_compat.py:931-969 | A value is left out altogether if and only if it is a non-empty mapping or list all of whose parts are excluded or left out in turn |
| ModelArgStripping.EmptiedIsNotEmpty | src/cogindex/_compat.py:937-939 | A nested mapping emptied by the copy disappears while one that was empty stays |
| ModelArgStripping.EmptiedFallbacksDisappear | src/cogindex/_compat.py:128-143 | The same with names in use: context_window_fallbacks holding only an api_key, and holding nothing |
| Verification.VerifyDataset | src/cogindex/_verify.py:109-195 | It reports exactly the issues that hold, in identity order with completion before label, and none if and only if identities coincide and every row is complete with the expected label; it fails exactly on an invalid or repeated identity |
| Verification.CollectedIsJustified | src/cogindex/_verify.py:139-188 | An issue is collected if and only if it holds of an id that was looked at |
| Verification.VerifyDeclared | src/cogindex/_verify.py:88-195 | In the state a completed sync reaches, `verify_dataset` accepts any list that expects each declared document once, in any spelling of its key and with its label, together with any listing of the stored rows, and its report has no issue |
| Lexicographic.LessExactly | src/cogindex/_identity.py:119-125 | Code-point order: the first difference decides, by the smaller character or the end of the text |
| Lexicographic.SortingForgetsOrderOnly | src/cogindex/_identity.py:119-125 | Sorting fields by key loses their order and nothing else |

## Left out

- Cognee's SDK calls, database set-up, upload streams, run-status parsing, embedding probes, `doctor`, logging, report rendering: foreign calls and I/O.
- CocoIndex's engine internals. Its tracking cycle is modelled as `engine_model.py` emulates it, and `statediff.diff` by the contract its callers and their unit tests rely on; `statediff` is not part of this model otherwise.
- BLAKE2b, UUID5 and NFC: a fingerprint is the value or text it digests, a data id is its UUID5 preimage (section 4.3 of RFC 4122), both taken as injective; NFC is a parameter, and since it is idempotent the repeated normalisation in reconcile and verify is modelled as one.
- The cognify profile is identified with the processing fingerprint it was computed from; how a profile is derived from Cognee's configuration is left out.
- Ids are enumerated in code-point order of their preimages, or in any order where the result does not depend on it; the source orders them by UUID text.
- A stored weight is a `real`; that 0.0 and -0.0 have different fingerprint texts is not modelled.
- Possible records are a set: the source appends a state only when no equal one is there, so nothing but their order is lost.
- Derivatives remember content, annotations and weight, where the fake remembers content only: what is proved about them is stronger.
- The fake tears every id of one delete call and dies at whole calls. Interruptions here are finer: any prefix of any phase, a tear inside one forget call of a delete or a purge. They are then widened to each id stopping on its own, which covers both.
- One dataset per store in the convergence modules. Several datasets appear under locking and in the dataset sink.
- Datasets.DatasetReconcile: covers the transitions that the unit tests fix. What `resolve_system_transition` makes of a user-managed dataset that returns to system management is not shown in the repository; it is a parameter that stands for any answer, and nothing is claimed about that case.
- Datasets.DatasetSink.Resume: it is cut where a teardown waits for its lock; that resolving a dataset also suspends, and may fail, is left out, and who resumes it when is not modelled.
- Dataset key validation, `managed_by` hand-off to users beyond "do nothing", and pinning of the acting user's scope by a runtime: single checks without a property that spans operations.
- Tracking-store loss, writers that bypass cogindex, and rebinding a `ContextKey` to another user: documented as outside the guarantee (`docs/adr/0003-consistency-model.md:96-103`).
- Lock waiting has no liveness claim and any waiter may be granted a free lock; asyncio's fairness is not modelled.
- AdvisoryLock.PostgresAdvisoryLockProvider.Acquire: the loop is modelled with a deadline; without one it need not end, and only its single rounds are covered, by `Attempt`. Each advisory key has at most one holding session on the server, which other sessions take part in as any that may come and go. The outer `asyncio.timeout_at` that may cancel an attempt earlier is left out, and both providers' errors become results. `advisory_lock_key` need not be injective, since a collision only adds waiting.
- JsonFingerprint.TextTellsSame: whether an unserializable object or a non-finite number is reported first depends on print order and is one refusal here; subclasses of the built-in types are left out.
- ModelArgKinds.SpellingsAgree: letter case outside ASCII is modelled as far as the ASCII patterns see it, that is for the two characters whose lower case contains an ASCII letter.
- `add_documents` grouping, `_raise_on_errored_runs` and provenance handling in the local runtime: they depend on Cognee's result objects.
- Benchmarks, examples and audit tools.
