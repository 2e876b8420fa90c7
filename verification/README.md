# A verified model of CueFlow's core

This project models the parts of CueFlow where a mistake loses text, money or access, and proves what they promise,
for all inputs and all runs:

* **Merge and resolution** (`TextDiff`, `EditResolution`, `MergePlan`, `MergeLaws`, `MergeEffects`,
  `SelectionBatches`, `Resolution`, `ReviewStage`, `ReviewLaws`). Two corrections of one Base text are diffed, swept
  into components, settled or turned into cases, batched for a selection model, reviewed by a human, and spliced back.
  Main results: `Decomposition` with `ComponentsAreFinest`, `BuildMergePlan` with `PlanTells`,
  `BuildSelectionBatches`, `MergeAndSelect`, `EditsGiveFinalText`, `ReviewConserves`.
* **The phone reputation ledger** (`AuthCrypto`, `PhoneReputation`, `PhoneReputationService`, `LedgerSoundness`,
  `LedgerRuns`, `LedgerBridge`, `LedgerEffects`). An append-only event log beside a mutable projection, written by
  processes that hold different keys. Main results: `RunsAreSound`, `ProjectionIsReplay`, `OneRowAlways`,
  `RepeatIsIdempotent`, `IntegrityErrorIsAKey`, `CountsAreConserved`, `OverturnDecides`, `ForgeryIsFound`.
* **Sessions and rate limits** (`Sessions`, `SessionService`, `SessionLaws`, `SessionRuns`, `SessionEffects`,
  `RateLimit`). Rotation chains, token reuse, eviction, revocation, and windowed limits with doubling cooldowns. Main
  results: `NoResurrection`, `RequestEnds` with `RevocationIsFinal`, `RequestOpens`, `AnswersFollow`,
  `RotationIsLinear`, `ReuseEndsTheFamily`, `AtMostFiveFamilies`, `SpanBound` with `SpanBoundIsReached`,
  `CodesPerSpan`.
* **Paid provider calls** (`Lifecycle`, `ReferencePreparation`, `PaidCalls`, `PaidCallLaws`, `PaidCallRuns`,
  `PaidCallEffects`, `RunRegistry`). One Run as a state machine over transactions, crashes, cancellations, recoveries,
  retries and rounds. Main results: `OneLiveCallPerRound`, `NoSilentRetry`, `StartIsAnswered`,
  `SuccessCommitsItsCheckpoint`, `NeverStranded` with `SuccessHasItsCheckpoint`, `CallsSeeTheReferences`,
  `AncestrySharesTheRequest`, `IdempotencyKeyNamesOneRequest`, `SharedStagesSucceedOnce`, `RetryCarriesExactly`,
  `CarriedIsNotPaidAgain`.

`dafny verify dfyconfig.toml` checks everything.

## How to read it

Code that updates tables or local state is modelled by methods, most of them in the classes `Service`, `Limiter` and
`Registry`. Each is proved against a specification function on values (`Perform`, `Consume`, `DoStart`, ...), and the
laws are lemmas about those functions and about whole runs of them. The `Effects` modules say what each operation
achieves and when it is refused without naming the function that computes it. A run is a list of requests or events
from the empty state. A request that raises leaves the tables as they were, except where the code commits before it
raises, as `refresh_session` does for a reused token. Errors are the exception classes of `errors.py`.

Assumptions, each a parameter or a precondition of the results that need it:

* `difflib.SequenceMatcher.get_opcodes` is a function that keeps its documented contract (`DiffContract`).
  `BuildTextMap` itself is proved for arbitrary opcodes.
* A transaction is one atomic step, and one process writes at a time.
* Keyed digests are determined by phone and key and are injective; one key id names one secret, and a ciphertext opens
  under the key it was made with. Random ids and idempotency keys are not drawn twice.
* Clocks do not go back where a result speaks of time.
* Invocations of one Run are listed in creation order.

Where the code says more, or less, than one would expect:

* A span of one window length admits `2 * limit - 1` attempts, one fewer than two full windows, because the attempt
  that opens a window lies in it. `SpanBoundIsReached` shows that no smaller bound holds.
* "successful invocation is missing its atomic checkpoint" (`run_runtime.py:102`) is never raised. `invalidate`
  deletes checkpoints of the current round, but only between the preparation of its references and its first
  correction: the rows of prepared references are fixed for the round, so a resume finds the job input equal to them.
  `NeverStranded` rests on that order of `_execute`.
* The count of a phone and its open `account_qualifying_bans` rows are not always equal: erasing an account deletes
  its rows and leaves the count. `EraseLosesTheBan` is the input, `CountsAreConserved` the exact condition.
* The integrity error of the ledger is not only for damage: `decrypt` raises it for a process without the encryption
  key of a row, also when that row is sound. A row whose lookup key alone is missing is never found; an overturn,
  which finds its row by the event, then raises the contract error. `IntegrityErrorIsAKey` and `OverturnKeeps` say
  when.
* `AccountService.create_session` ignores the phone status. A session made under a blocked phone is inactive at first
  and becomes active by an unblock; `NoResurrection` therefore speaks of sessions that were active once.
* Status `normal` with a count of three or more is reachable after an unblock or an overturn; the threshold result is
  stated for bans, and for generations without an unblock event.
* A preserved gap does not always split two components: an insertion at the right edge of a component makes the next
  anchor unstable. `ComponentsAreFinest` and `ComponentsAreApart` give both directions: free text after a change
  splits exactly when no correction inserts at its left edge.
* `_check_rate_limit_tx` refuses during a cooldown that outlives its window, while `_consume_rate_limit_tx` would
  start a new window; `CheckAgrees` gives the exact condition.

## Model

| member | source | states |
|---|---|---|
| TextDiff.TextMap.FindBoundary | src/cueflow/text_diff.py:32-46 | the loop returns the smallest point that an opcode puts at the position, the largest with `after_insert`, a proportional point inside an `equal` run, nothing inside a change, and a contract error outside Base |
| TextDiff.TextMap.FindInterval | src/cueflow/text_diff.py:48-57 | both edges through the boundary map; nothing when one of them has no image, a contract error for a reversed or outside interval |
| TextDiff.BoundaryBefore | src/cueflow/text_diff.py:32-46 | for well-formed opcodes the boundary before insertions is decided by the single opcode that covers the position from the left |
| TextDiff.BoundaryAfter | src/cueflow/text_diff.py:32-46 | the boundary after insertions is decided by the opcode that covers the position from the right |
| TextDiff.GapText | src/cueflow/text_diff.py:32-57 | a non-empty interval that no change touches is copied verbatim into the variant, with exact images of both edges |
| TextDiff.IntervalIsSlice | src/cueflow/text_diff.py:48-57 | a mapped interval is never reversed and never leaves the variant |
| TextDiff.WellFormedRoundTrips | src/cueflow/text_diff.py:60-72 | replacing every recorded change of Base by its text gives back the variant, so the round-trip check passes for every diff that keeps the library's contract |
| TextDiff.ChangesApply | src/cueflow/text_diff.py:60-72 | the recorded changes, taken as edits of Base in any order, are accepted by the splice and give exactly the variant |
| TextDiff.BuildTextMap | src/cueflow/text_diff.py:60-72 | arbitrary opcodes are accepted if and only if their changes rebuild the variant; well-formed ones always are |
| EditResolution.ApplyResolvedPayload | src/cueflow/edit_resolution.py:9-24 | the right-to-left splice loop equals one left-to-right assembly of Base gaps and replacements, and raises exactly when an edit is out of range, stale, overlapping, or starts where another one starts |
| EditResolution.OrderDoesNotMatter | src/cueflow/edit_resolution.py:9-24 | acceptance and result depend on the edits as a collection, not on their order |
| EditResolution.ChainedIsAdmissible | src/cueflow/edit_resolution.py:12-21 | what the scan checks of neighbours in descending order implies the order-free acceptance condition |
| EditResolution.AdmissibleIsChained | src/cueflow/edit_resolution.py:12-21 | the order-free acceptance condition implies every check of the scan |
| EditResolution.EditsRealise | src/cueflow/edit_resolution.py:9-24 | edits that are the pieces of an ordered cover of Base, except some that restate Base, are accepted and give the text of the whole cover |
| EditResolution.AssembleAt | src/cueflow/edit_resolution.py:9-24 | the assembled text holds the Base text before each replacement, and then the replacement, at the place that the lengths before it give |
| EditResolution.RefusedExactly | src/cueflow/edit_resolution.py:9-21 | edits are refused exactly when one does not replace what Base has in its interval, or two start together or overlap |
| MergePlan.GroupChanges | src/cueflow/conflict_selection.py:43-60 | the accumulating sweep cuts the sorted changes into consecutive runs whose hulls are the components; no change is lost or moved |
| MergePlan.SortIsSorted | src/cueflow/conflict_selection.py:43-50 | the changes of both corrections are permuted into key order |
| MergePlan.SweepSeparates | src/cueflow/conflict_selection.py:20-60 | consecutive components are in order, apart by a non-empty Base interval, and separated by a stable anchor of both corrections |
| MergePlan.EdgesMap | src/cueflow/conflict_selection.py:79-84 | both edges of a component have images in a correction whose changes all lie inside components |
| MergePlan.ComponentsAreMapped | src/cueflow/conflict_selection.py:79-84 | the error for a conflict that cannot map to its source transcripts is unreachable |
| MergePlan.ArmIsRebuilt | src/cueflow/conflict_selection.py:63-98 | putting one correction's candidate into every component of Base rebuilds that correction's whole text |
| MergePlan.Decomposition | src/cueflow/conflict_selection.py:40-98 | components are strictly ordered with preserved gaps, hold every change of either correction, and their candidates rebuild both whole texts |
| MergePlan.EveryChangeInOneComponent | src/cueflow/conflict_selection.py:43-60 | every change of either correction lies in exactly one component |
| MergeEffects.KeptUnlessInserted | src/cueflow/conflict_selection.py:20-37 | an interval that a correction does not touch is kept by it exactly when it inserts nothing at the left edge |
| MergeEffects.ComponentsAreApart | src/cueflow/conflict_selection.py:47-60 | between two components lies non-empty text that no correction touches or inserts before; both edges of a component are edges of changes |
| MergeEffects.ComponentsAreFinest | src/cueflow/conflict_selection.py:47-60 | no component could be split: between two of its changes there is free text only where a correction inserts at the left edge of that text |
| MergePlan.CollectCandidates | src/cueflow/conflict_selection.py:63-84 | the candidate loop finds, for each source, the exact slice of that source |
| MergePlan.ComponentHasArms | src/cueflow/conflict_selection.py:63-84 | every component has Base, Qwen and Kimi candidates, with exactly their texts for the interval |
| MergePlan.SettleComponent | src/cueflow/conflict_selection.py:63-97 | one component becomes an accepted edit, stays Base, or becomes a case, by comparing the two candidates with Base and with each other |
| MergePlan.SettleGroups | src/cueflow/conflict_selection.py:61-97 | the settling loop gives exactly the edits and cases of the components, in order, without raising |
| MergePlan.AcceptedEditsApply | src/cueflow/conflict_selection.py:85-106 | the accepted edits never overlap and are never stale: applying them gives Base with every component replaced by its settled text |
| MergePlan.BuildMergePlan | src/cueflow/conflict_selection.py:40-106 | for all texts and every diff that keeps the library's contract no error is raised, and the plan is the specified one, preview included |
| MergeEffects.PlanTells | src/cueflow/conflict_selection.py:61-97 | the accepted edits are exactly those that carry the changed text on which two of the three texts of a component agree, with reason agreement exactly if both corrections do; the cases are exactly the components with three different texts, with each source's text and interval where it maps |
| MergeLaws.OneArmUnchanged | src/cueflow/conflict_selection.py:43-105 | if one correction equals Base the preview is exactly the other correction and there is no case |
| MergeLaws.ArmsAgree | src/cueflow/conflict_selection.py:43-105 | if both corrections are equal the preview is that text and there is no case |
| MergeLaws.Swap | src/cueflow/conflict_selection.py:43-105 | swapping the corrections leaves components, accepted edits and preview unchanged; the cases keep their intervals and exchange the two candidates |
| SelectionBatches.PlanCasesAreCases | src/cueflow/conflict_selection.py:63-98 | every case of a plan is a real three-way conflict whose candidates are exact slices of their sources |
| SelectionBatches.ContextBounds | src/cueflow/conflict_selection.py:109-116 | the context ends at the nearest sentence stop beyond the plain context, or at the maximal context, inside Base, on both sides |
| SelectionBatches.WidenContext | src/cueflow/conflict_selection.py:142-147 | the widening loops end, at the latest at the ends of Base, on the nearest positions that map |
| SelectionBatches.ContextEncloses | src/cueflow/conflict_selection.py:142-150 | the mapped context contains the mapped candidate interval |
| SelectionBatches.BuildVersion | src/cueflow/conflict_selection.py:137-160 | the error for a context that could not be mapped is unreachable, and each version quotes its source with the candidate marked at its true place |
| SelectionBatches.BuildSelectionCase | src/cueflow/conflict_selection.py:119-173 | candidates, versions and provenance of a case are those of the component, in any hash order, and each version shows the context of the configured bounds, widened to the nearest positions that map |
| SelectionBatches.FaithfulIsValid | src/cueflow/conflict_selection.py:253-287 | a case as the code emits it passes every per-case check of validate_batch |
| SelectionBatches.ValidateBatch | src/cueflow/conflict_selection.py:244-297 | the validator accepts exactly the batches of 1 to 8 cases with distinct ids, 2 to 4 distinct options, a keep option that is Base, and versions that agree with the coordinates, whose stored identity and prompt hash are those of their contents |
| SelectionBatches.PackOne | src/cueflow/conflict_selection.py:200-213 | one turn of the packing loop keeps the batches greedy, in order, and within both limits |
| SelectionBatches.BuildSelectionBatches | src/cueflow/conflict_selection.py:176-215 | batches and over-budget reviews partition the cases in order; every batch respects both limits, is filled greedily, and passes validate_batch when the configured case limit is one it accepts |
| SelectionBatches.PackedAreValid | src/cueflow/conflict_selection.py:207-215 | every packed batch meets validate_batch |
| SelectionBatches.NothingLost | src/cueflow/conflict_selection.py:207-215 | batched and over-budget cases together are all cases, each exactly once |
| SelectionBatches.SizeDecides | src/cueflow/conflict_selection.py:200-210 | a case is batched exactly when its own request is within the byte limit; one that is not goes to review |
| SelectionBatches.PlanIsReady | src/cueflow/conflict_selection.py:176-215 | the cases of a merge plan are what batching asks for |
| Resolution.ValidateDecisions | src/cueflow/conflict_selection.py:218-241 | decisions are accepted exactly when every case of the request is decided once, with one of its candidate ids |
| Resolution.ApplySelections | src/cueflow/conflict_selection.py:300-321 | one patch per decision, and it writes the text of the option that the decision names over the interval of the case it names; refused as a whole when the decisions do not cover the request or a case no longer matches Base |
| Resolution.CoveringIsChosen | src/cueflow/conflict_selection.py:300-321 | decisions that cover a valid batch on its own Base text are all taken, each as the option it names |
| Resolution.KeepChoosesOriginal | src/cueflow/conflict_selection.py:300-321 | a decision for the keep option chooses the Base text of its case |
| Resolution.EditsGiveFinalText | src/cueflow/conflict_selection.py:300-321 | for choices for any subset of the cases, in any order, edits and patches apply without error and replace every component as a whole |
| Resolution.KeepingIsPreview | src/cueflow/conflict_selection.py:300-321 | keeping Base in every chosen case gives exactly the plan's preview |
| Resolution.ChoiceDecidesComponent | src/cueflow/conflict_selection.py:300-321 | in the text that the splice returns, after the Base text before each component stands exactly one whole text: the correction that alone changed it, the agreed text, or, where all three differ, the choice for its case or else Base |
| ReviewStage.SettleBatch | src/cueflow/orchestrator.py:699-737 | a batch gives, for every decision of an accepted answer, the text of the option that the decision names, or sends all of its cases to review |
| ReviewStage.SelectionStage | src/cueflow/orchestrator.py:677-739 | every case ends up exactly once among the patches, the failed batches and the over-budget reviews, and the choices are exactly what the accepted answers name |
| ReviewStage.BatchSettled | src/cueflow/orchestrator.py:699-737 | an accepted answer settles exactly the cases of its batch, each once |
| ReviewStage.SelectPlan | src/cueflow/orchestrator.py:677-739 | batching and selection of one plan settle every case exactly once; the provider is asked about valid batches on this Base text, and its accepted answers are heeded, option by option |
| ReviewStage.MergeAndSelect | src/cueflow/orchestrator.py:677-843 | from the raw texts to the corrected preview: for every answer of the provider no step raises, the choice for a case is the text of the option that the answer names, and the preview is Base with every component replaced as a whole |
| ReviewStage.ResolveReview | src/cueflow/orchestrator.py:847-921 | the review is applied if and only if the queue and the resolution are the active ones, every decision has the fields of its action, the decisions cover the queue, and each is available; otherwise the specified error is raised |
| ReviewStage.ReviewGivesFinalText | src/cueflow/orchestrator.py:875-921 | covering decisions on the queue of a plan are refused exactly when one is not available for its item, never for a stale interval, and else give Base with each component replaced by accepted text, a selected candidate, or the human decision |
| ReviewLaws.ReviewConserves | src/cueflow/orchestrator.py:875-921 | in the place of each open component of the returned text stands what its decision names: the Qwen, the Kimi or the mapped peer text, exactly the replacement, or Base; a component without a decision has the text that the selection chose; all text between components is Base |
| ReviewStage.AvailableIsTaken | src/cueflow/orchestrator.py:884-908 | decisions are taken exactly when every action is keep, replace, or one of qwen, kimi and peer with a mapped candidate; the integrity error does not occur for items that record their Base text |
| ReviewStage.KeepEverything | src/cueflow/orchestrator.py:875-937 | keeping every case, by selection or by hand, yields exactly the preview of the plan |
| AuthCrypto.DecodesBack | src/cueflow/auth_crypto.py:209-210 | the length-prefixed encoding can be read back, for all field lists with lengths below 2^32 |
| AuthCrypto.EncodesBack | src/cueflow/auth_crypto.py:209-210 | whatever decodes is the encoding of what it decodes to |
| AuthCrypto.EncodingIsInjective | src/cueflow/auth_crypto.py:201-210 | two different field lists never share the hash input of a request fingerprint |
| PhoneReputationService.Service.ReplayGeneration | src/cueflow/phone_reputation.py:766-832 | the replay loop equals the replay function: count, status, blocked_at, last_ban_at, and the applied and overturned sets |
| PhoneReputationService.Service.ValidateOne | src/cueflow/phone_reputation.py:687-845 | the validator accepts exactly the ledgers whose operations are complete, whose generations are contiguous and replay, and whose projection matches the replay; before that it fails without the encryption key, or the lookup key, of the row |
| PhoneReputationService.Service.Find | src/cueflow/phone_reputation.py:179-200 | no row, the one row found under any key of the process, or an integrity error |
| PhoneReputationService.Service.EnsurePhone | src/cueflow/phone_reputation.py:210-287 | the transaction changes the tables as specified or fails and changes nothing |
| PhoneReputationService.Service.AdministrativeBlock | src/cueflow/phone_reputation.py:289-353 | same, for the administrative block, the repeated one included |
| PhoneReputationService.Service.AdministrativeUnblock | src/cueflow/phone_reputation.py:355-404 | same, for the administrative unblock |
| PhoneReputationService.Service.ApplyQualifyingBan | src/cueflow/phone_reputation.py:406-498 | same, for a qualifying ban with its block at three |
| PhoneReputationService.Service.OverturnQualifyingBan | src/cueflow/phone_reputation.py:500-607 | same, for an overturn in any generation |
| PhoneReputationService.Service.ResetForReassignment | src/cueflow/phone_reputation.py:609-685 | same, for a reassignment |
| LedgerSoundness.LookupIsSafe | src/cueflow/phone_reputation.py:179-200 | where every reputation is acceptable, a lookup fails if and only if it finds two rows or one whose encryption key the process lacks, and otherwise finds the phone exactly when a row under one of its keys exists |
| LedgerSoundness.OnlyTheKeyObstructs | src/cueflow/phone_reputation.py:179-200 | with one row per phone only the missing encryption key is left as a cause |
| LedgerSoundness.EnsureKeeps | src/cueflow/phone_reputation.py:161-287 | lookup, key-coverage check and insert leave a row for the phone; they fail if and only if the row found cannot be decrypted, or none is found and the process lacks a key of some row |
| LedgerSoundness.BlockKeeps | src/cueflow/phone_reputation.py:289-353 | from any state that validate_one accepts, a block, no-op or not, leads to such a state, and keeps unique rows and the block threshold where they hold; the integrity error is raised if and only if the lookup is obstructed |
| LedgerSoundness.UnblockKeeps | src/cueflow/phone_reputation.py:355-404 | same, for an unblock |
| LedgerSoundness.ApplyBanKeeps | src/cueflow/phone_reputation.py:406-498 | same, for a qualifying ban |
| LedgerSoundness.OverturnKeeps | src/cueflow/phone_reputation.py:500-607 | same, for an overturn, also of a ban of an old generation: one that is not refused for its target, its reason or a repeated id succeeds if and only if the process holds both keys of the row, and raises the integrity error if and only if it lacks the encryption key |
| LedgerSoundness.ResetKeeps | src/cueflow/phone_reputation.py:609-685 | same, for a reassignment |
| LedgerSoundness.BanBlocksAtThree | src/cueflow/phone_reputation.py:438-482 | after a ban that leaves three or more live bans in the history of the generation, the last status event of that history is a block |
| LedgerSoundness.ReplayMeans | src/cueflow/phone_reputation.py:766-832 | a replay counts applied minus overturned bans, names exactly those bans, and follows the last status change |
| LedgerSoundness.RecordCarries | src/cueflow/phone_reputation.py:899-1015 | one transaction of an operation row, its events and the projection keeps every reputation acceptable when it continues the log and follows the replay |
| LedgerRuns.StepCarries | src/cueflow/phone_reputation.py:210-685 | from any state that validate_one accepts, every request of every process, whether it succeeds or not, leads to such a state |
| LedgerRuns.RunsAreSound | src/cueflow/phone_reputation.py:210-845 | after any interleaving of operations of processes with any keys, validate_one accepts every reputation, no phone has two rows, and the block threshold holds |
| LedgerRuns.ProjectionIsReplay | src/cueflow/phone_reputation.py:687-845 | in every reachable state the projection is the replay of its generation, the count is applied minus overturned, and three with no unblock event means blocked |
| LedgerRuns.OneRowAlways | src/cueflow/phone_reputation.py:161-235 | no reachable state has two rows for one phone, whatever keyrings the processes hold |
| LedgerRuns.IntegrityErrorIsAKey | src/cueflow/phone_reputation.py:161-845 | in every reachable state a request raises the integrity error if and only if its process lacks the encryption key of the row it finds or overturns, or, for a first registration, a key of some row |
| LedgerRuns.KnownIdIsAnswered | src/cueflow/phone_reputation.py:886-896 | a known operation id is refused for another request than the recorded one and for a missing key of an overturn; in every other case it is answered without a change |
| LedgerRuns.SameRowFound | src/cueflow/phone_reputation.py:179-200 | a successful operation leaves every phone findable as before |
| LedgerRuns.RepeatIsIdempotent | src/cueflow/phone_reputation.py:886-896 | repeating a successful operation returns the ledger it left |
| LedgerBridge.StepKeepsBridge | src/cueflow/phone_reputation.py:406-607 | every request keeps the account_qualifying_bans rows in step with the events, up to the rows that an erasure deletes |
| LedgerBridge.CountIsOpenBans | src/cueflow/phone_reputation.py:687-845 | in such a ledger a count is the open ban rows of the current generation and the live bans of it whose rows are gone |
| LedgerBridge.CountsAreConserved | src/cueflow/phone_reputation.py:406-607 | in every reachable state the open ban rows never exceed the count, and equal it if and only if no user was erased with a ban of the current generation that is still live |
| LedgerEffects.BlockBlocks | src/cueflow/phone_reputation.py:289-353 | an accepted block leaves the phone blocked at the time of the call with one event, or as it was with none when it was blocked; nothing else changes |
| LedgerEffects.UnblockUnblocks | src/cueflow/phone_reputation.py:355-404 | an accepted unblock leaves the phone normal, whatever blocked it, with one event, or none when it was normal |
| LedgerEffects.BanTakesItsToll | src/cueflow/phone_reputation.py:406-498 | an accepted ban adds one to the count and one ban row, suspends the user, and blocks a normal phone that has two live bans, with the ban as the cause |
| LedgerEffects.OverturnDecides | src/cueflow/phone_reputation.py:500-607 | an accepted overturn of a ban of the current generation takes one from the count, and unblocks the phone if and only if the last status event is a block that this ban caused; a ban of an old generation leaves the row unchanged |
| LedgerEffects.ResetStartsAnew | src/cueflow/phone_reputation.py:609-685 | an accepted reassignment starts the next generation with a clean row and an empty history, for a phone that nobody owns; older generations keep their events |
| LedgerEffects.EnsureWritesOnce | src/cueflow/phone_reputation.py:210-287 | a first registration leaves a known phone alone, and writes one clean row under the active keys for a new one |
| LedgerEffects.BlockAnswers | src/cueflow/phone_reputation.py:289-404 | a block or an unblock is answered by the error of the lookup, the contract error for a bad reason or another request under the same id, and else by success |
| LedgerEffects.ResetAnswers | src/cueflow/phone_reputation.py:609-685 | same, for a reassignment; a phone with an owner is refused first |
| LedgerEffects.BanAnswers | src/cueflow/phone_reputation.py:406-498 | same, for a ban; a user without an active phone, or with a live ban under a new id, is refused |
| LedgerEffects.OverturnAnswers | src/cueflow/phone_reputation.py:500-607 | an overturn succeeds exactly on a ban that is not overturned yet, for a valid reason or as a repetition, by a process with both keys of the row |
| LedgerEffects.NamedMeans | src/cueflow/phone_reputation.py:512-532 | the target of an overturn is a ban exactly when its generation holds the ban event |
| LedgerEffects.FingerprintNamesRequest | src/cueflow/phone_reputation.py:886-896 | two requests with equal fingerprints are of one kind, on the same target, for the same reason |
| LedgerEffects.LossIsFound | src/cueflow/phone_reputation.py:687-845 | validate_one refuses a ledger that has lost an event, whichever it is |
| LedgerEffects.ForgeryIsFound | src/cueflow/phone_reputation.py:687-845 | it refuses an event more, wherever it stands and whatever operation it names |
| LedgerEffects.RewriteIsFound | src/cueflow/phone_reputation.py:687-845 | it refuses an event with another sequence number, actor or reason |
| LedgerEffects.ProjectionIsChecked | src/cueflow/phone_reputation.py:834-845 | it refuses a projection that differs in count, status, blocked_at or last_ban_at |
| PhoneReputationService.Service.EraseAccount | src/cueflow/account.py:421-431 | the erasure deletes the identity and every ban row of the user, and leaves the reputation of the phone alone |
| LedgerBridge.EraseLosesTheBan | src/cueflow/account.py:421-431 | the input for which count and rows differ: first registration, ban and erasure leave a count of one and no open ban row |
| LedgerEffects.EraseTakesTheAccount | src/cueflow/account.py:421-431 | an erasure takes the identity, the suspension and exactly the ban rows of the user; a suspended user needs the dedicated operation and a live ban, any other user the plain one |
| LedgerEffects.IdentifyTakesThePhone | src/cueflow/account.py:535-543 | a registration or a phone change takes the phone, and is refused exactly when somebody has it already |
| LedgerEffects.OneOwnerPerPhone | src/cueflow/account.py:522-543 | in no reachable state do two users have the same active phone |
| LedgerEffects.StatusIsSet | src/cueflow/account.py:133-155 | a status change is refused exactly for an unknown user, and suspends or restores that user only |
| SessionEffects.RequestEnds | src/cueflow/account.py:348-410 | every request ends exactly the sessions that it names, for good, when it is accepted, and exactly the family of a reused token when it is refused; the rows of all other sessions are live at the same instants as before |
| SessionEffects.RevocationIsFinal | src/cueflow/account.py:391-410 | after an accepted revocation of a session, a family or a user, a suspension, a ban, a block of the phone, or a change of password or phone, no session that it names is active at any instant of any continuation |
| SessionEffects.OthersAreSpared | src/cueflow/account.py:391-410 | a session that a request does not end, of a user whose status and phone it does not concern, is active exactly when it was before |
| SessionEffects.RefusalChangesNothing | src/cueflow/account.py:209-431 | a refused request leaves every table as it was, except for the reuse of a replaced token |
| SessionEffects.AccountsAreSet | src/cueflow/account.py:133-155 | status, phone and blocked phones after an accepted request are those that it asks for, and no other account changes |
| Sessions.Oldest | src/cueflow/account.py:579-596 | the first row of the eviction query is the least in (created_at, id) order |
| SessionService.Service.RevokeUsersTx | src/cueflow/account.py:621-637 | all live families and sessions of the users are stamped, nothing else changes |
| SessionService.Service.ActiveRows | src/cueflow/account.py:579-596 | the eviction query lists exactly the active families, in (created_at, id) order |
| SessionService.Service.CreateSession | src/cueflow/account.py:209-244 | the transaction does what its specification says or raises the specified error and changes nothing; it looks at the user status only |
| SessionService.Service.RotateSession | src/cueflow/account.py:293-346 | same, for a rotation of an active session |
| SessionService.Service.RevokeSession | src/cueflow/account.py:348-363 | same, for one session |
| SessionService.Service.RevokeSessionFamily | src/cueflow/account.py:365-389 | same, for one family |
| SessionService.Service.RevokeAllSessions | src/cueflow/account.py:391-410 | same, for all sessions of a user |
| SessionService.Service.SetUserStatus | src/cueflow/account.py:133-155 | same; a suspension revokes everything of the user |
| SessionService.Service.EraseAccount | src/cueflow/account.py:421-431 | same; every row of the user is deleted |
| SessionRuns.NoResurrection | src/cueflow/account.py:133-155 | a session that was active and then became inactive, for whatever reason, is inactive in every later state of every run |
| SessionRuns.StepNeverRevives | src/cueflow/account.py:476-497 | one request turns an active session into an active or a permanently dead one, and never revives a dead one |
| SessionRuns.EligibilityIsNotLostSilently | src/cueflow/account.py:133-155 | a request that takes away a user's eligibility, by status or by phone, also revokes the sessions of that user |
| SessionRuns.NeverActiveMayBecomeActive | src/cueflow/account.py:209-244 | why the law speaks of once-active sessions: a session opened under a blocked phone becomes active by an unblock |
| SessionRuns.RotationIsLinear | src/cueflow/account.py:293-346 | in every reachable state the sessions of a family form one chain without repetition; all but the last are revoked and replaced; only the last may be live |
| SessionRuns.AtMostFiveFamilies | src/cueflow/account.py:579-596 | under a clock that does not go back no user has more than five active families at any instant |
| SessionLaws.StepKeeps | src/cueflow/account.py:209-410 | every request keeps keys, uniqueness and chains intact, and rows only age |
| SessionLaws.ChainGrows | src/cueflow/account.py:293-346 | a rotation appends exactly one session to the chain of its family |
| SessionService.Service.EvictExcessFamilies | src/cueflow/auth.py:935-951 | the popping loop revokes exactly the specified set of families |
| SessionService.Service.CreateLoginStateTx | src/cueflow/auth.py:861-933 | eviction, then one new family with one session, or failure on a broken UNIQUE constraint |
| SessionService.Service.RotateTx | src/cueflow/auth.py:872-888 | revoke, insert, link: the successor replaces the session |
| SessionService.Service.RefreshSession | src/cueflow/auth.py:432-480 | rotation of an active session; a replaced token revokes its family and is refused; everything else is refused unchanged |
| SessionService.Service.CompleteRegistration | src/cueflow/auth.py:291-335 | the transaction does what its specification says or rolls back with the specified error |
| SessionService.Service.SignIn | src/cueflow/auth.py:350-430 | same, after the credentials are verified |
| SessionService.Service.ChangePassword | src/cueflow/auth.py:527-552 | same |
| SessionService.Service.CompletePhoneChange | src/cueflow/auth.py:616-664 | same; the old phone's sessions are revoked before the new one |
| SessionRuns.EvictedAreOldest | src/cueflow/auth.py:935-951 | eviction leaves min(n, 4) families, and every evicted one comes before every kept one in (created_at, id) order |
| SessionRuns.LoginKeepsTheNewest | src/cueflow/auth.py:861-951 | after a login the active families are exactly those that were not evicted, and the new one |
| SessionRuns.RefreshHandsOver | src/cueflow/auth.py:432-480 | a refresh moves activity from a session to its successor for good, and changes the activity of no other session |
| SessionRuns.ReuseEndsTheFamily | src/cueflow/auth.py:453-477 | presenting a superseded refresh token is refused and leaves every session of the family inactive in every later state |
| SessionRuns.PasswordChangeLeavesOne | src/cueflow/auth.py:527-552 | after a password change exactly the family it opened is active |
| SessionEffects.RequestOpens | src/cueflow/auth.py:861-933 | an accepted registration, sign-in, rotation, refresh, or change of password or phone opens exactly one session, for its user, in a new family or in that of its predecessor, live until its own expiry and the end of the family |
| SessionEffects.AnswersFollow | src/cueflow/auth.py:291-664 | each request is accepted exactly in the states that admit it, and otherwise its error names the cause: an unknown or suspended user, a blocked or taken phone, an inactive session, a past expiry, or colliding ids |
| RateLimit.Limiter.ConsumeRateLimitTx | src/cueflow/auth.py:1058-1107 | one consumption updates the bucket and answers as specified |
| RateLimit.Limiter.RequestPhoneCode | src/cueflow/auth.py:145-162 | three consumptions, whose longest wait is the answer |
| RateLimit.WindowBound | src/cueflow/auth.py:1058-1107 | a window admits exactly its first `limit` counted attempts |
| RateLimit.SpanBound | src/cueflow/auth.py:1058-1107 | any half-open span of one window length admits at most 2 * limit - 1 attempts |
| RateLimit.SpanBoundIsReached | src/cueflow/auth.py:1058-1107 | for every limit and every window of at least two milliseconds some attempts reach that bound |
| RateLimit.WaitsAreBounded | src/cueflow/auth.py:1027-1107 | every wait, of a check or of a consumption, is between 1 and 900 seconds |
| RateLimit.CooldownsDouble | src/cueflow/auth.py:1082-1106 | refusals wait 30 seconds doubled each time, up to 900; attempts during a cooldown change nothing and are told the exact rest of it in whole seconds |
| RateLimit.CheckAgrees | src/cueflow/auth.py:1027-1056 | the check lets an attempt pass if and only if a consumption would admit it and no cooldown outlives its window; otherwise it tells the exact rest of the cooldown, or 30 seconds |
| RateLimit.BucketsAreIndependent | src/cueflow/auth.py:145-162 | each bucket sees exactly the requests under its key, whatever the other buckets decide |
| RateLimit.LongestWaitAnswers | src/cueflow/auth.py:145-162 | a code request is told exactly the longest of the waits of its phone, its client and its address |
| RateLimit.CodesPerSpan | src/cueflow/auth.py:120-165 | for every phone, client and address under one key id, and for each purpose, at most 2 * limit - 1 codes are sent in any span of one window |
| RateLimit.AllCodesPerSpan | src/cueflow/auth.py:120-165 | over all five purposes together at most 5 * (2 * limit - 1) codes are sent in such a span |
| RateLimit.EachHasItsLimit | src/cueflow/auth.py:120-165 | the phone limit bounds the codes for each phone, the client limit those of each client, and the address limit those of each address |
| Lifecycle.Descendants | src/cueflow/lifecycle.py:43-51 | on every finite graph, cyclic ones included, the worklist ends with exactly the nodes at the end of a path of at least one edge |
| Lifecycle.JobInputReachesNoSharedStage | src/cueflow/lifecycle.py:15-31 | invalidating the job input never reaches a stage shared by all rounds |
| Lifecycle.CorrectionIsNotItsOwnDescendant | src/cueflow/lifecycle.py:15-31 | the corrections depend on the job input, and not on each other |
| RunRegistry.Registry.Invalidate | src/cueflow/lifecycle.py:109-121 | exactly the checkpoints of the job input and its descendants are deleted, each in the round it belongs to |
| RunRegistry.Registry.LatestFailures | src/cueflow/lifecycle.py:144-149 | the dictionary loop finds exactly the keys of the round whose last invocation did not succeed |
| RunRegistry.Registry.BeginRetry | src/cueflow/lifecycle.py:124-180 | the retry does what its specification says, or raises and changes nothing: the contract error for incomplete intake or an active round, the integrity error for a checkpoint that cannot be read |
| RunRegistry.Registry.Cancel | src/cueflow/lifecycle.py:66-89 | a cancellation request is recorded for the current round unless that round has ended |
| PaidCallRuns.RetryCarriesExactly | src/cueflow/lifecycle.py:145-179 | a retry of a finished round never fails and carries over exactly the results that are neither the result of a failed call nor downstream of one; without a failed call everything, except that a round that ended well makes the corrections and what depends on them anew; older rounds stay |
| PaidCallRuns.FailuresAreLast | src/cueflow/lifecycle.py:144-149 | a call counts as a failure of the round exactly when it is the last for its work in the round and did not succeed |
| PaidCallEffects.RetryIsAnswered | src/cueflow/lifecycle.py:124-180 | a retry is refused exactly before intake and while the round goes on; otherwise a new round is queued, not cancelled |
| PaidCallEffects.CancelIsRecorded | src/cueflow/lifecycle.py:66-89 | a cancellation is recorded exactly while the round is queued, running or waits for review |
| PaidCallEffects.InvalidationDrops | src/cueflow/lifecycle.py:109-121 | an invalidation of the job input drops exactly the checkpoints of this round for it and for every stage that a path of edges leads to |
| PaidCallRuns.SiblingArmSurvives | src/cueflow/lifecycle.py:155-162 | when only one correction arm failed, the transcript of the other one is carried over |
| PaidCallRuns.CarriedIsNotPaidAgain | src/cueflow/lifecycle.py:124-180 | no call is made in the new round for a carried result, unless the references prepared for that round differ from those of the job input carried over with it |
| PaidCallRuns.InvalidationWastesNoCall | src/cueflow/lifecycle.py:109-121 | when the job input is invalidated, no call below it has been made in this round |
| RunRegistry.Registry.Checkpoint | src/cueflow/run_runtime.py:47-61 | the stored artifact, nothing, or an integrity error when digest, kind or scope disagree |
| RunRegistry.Registry.RetryIdentityOf | src/cueflow/run_runtime.py:87-116 | the last invocation of key and round decides: nothing to retry, the one to retry, or the specified error |
| RunRegistry.Registry.Adopt | src/cueflow/run_runtime.py:136-147 | the last ambiguous remote job of the operation, of any round, is taken over exactly when its inputs are the same |
| RunRegistry.Registry.CreateInvocation | src/cueflow/run_runtime.py:119-177 | a new row with the identity and key of what it retries; a cancelled round makes none, and a changed request identity is refused unchanged |
| RunRegistry.Registry.StartStage | src/cueflow/run_runtime.py:71-84 | a present checkpoint is returned without a call |
| RunRegistry.Registry.RecordInvocationFailure | src/cueflow/run_runtime.py:180-210 | the outcome is sorted into three failure statuses; a success is never overwritten |
| RunRegistry.Registry.SucceedWithMetadata | src/cueflow/run_runtime.py:213-230 | checkpoint and success are written together or not at all |
| PaidCalls.Latest | src/cueflow/run_runtime.py:93-99 | the last invocation of an operation key in a round, or none |
| PaidCalls.Adopted | src/cueflow/run_runtime.py:136-147 | the last ambiguous remote job of the operation decides: it is taken over when its inputs are the same, and nothing is otherwise |
| PaidCallRuns.OneLiveCallPerRound | src/cueflow/run_runtime.py:87-116 | per key and round at most one call is open, at most one succeeds, and nothing follows a success |
| PaidCallRuns.AncestrySharesTheRequest | src/cueflow/run_runtime.py:119-177 | every call in a retry ancestry has the same operation, scope, inputs, provider, model, prompt and idempotency key, and all but the last have failed |
| PaidCallRuns.IdempotencyKeyNamesOneRequest | src/cueflow/run_runtime.py:119-177 | two calls with one idempotency key are for the same request |
| PaidCallRuns.NeverStranded | src/cueflow/run_runtime.py:101-102 | in no reachable state is the error for a success without its checkpoint raised |
| PaidCallRuns.SuccessHasItsCheckpoint | src/cueflow/run_runtime.py:87-102 | in every reachable state every success, of any round, still has its checkpoint |
| PaidCallRuns.GetIsSound | src/cueflow/run_runtime.py:47-61 | in reachable states reading a checkpoint never raises: it gives the stored artifact, or nothing when there is none |
| PaidCallEffects.StartIsAnswered | src/cueflow/run_runtime.py:71-177 | in every reachable state a start returns a result that is there, retries the last call of the round only when it has failed and is named or is a remote job that may still run, takes over the last such job of an earlier round when its inputs are the same, or makes a call under the fresh key; otherwise it raises the specified error |
| PaidCallEffects.NoSilentRetry | src/cueflow/run_runtime.py:103-116 | a start that adds a call to a round that has one for the same work retries the last of them, which has failed, and which was named or is a remote job with ambiguous delivery |
| PaidCallEffects.PlainResumeIsRefused | src/cueflow/run_runtime.py:103-106 | without a named call, and after one that is no such job, a start changes nothing and raises the provider error unless the result is there |
| PaidCallEffects.FailureIsRecorded | src/cueflow/run_runtime.py:180-210 | an unreachable provider leaves definitely_not_sent, an answer that cannot be used explicit_failure, anything else delivery_ambiguous; no other call and no checkpoint changes |
| PaidCallEffects.SuccessIsRecorded | src/cueflow/run_runtime.py:213-230 | a result makes the call that was sent successful, and no other; a call that was not sent cannot succeed |
| PaidCallEffects.SendIsRecorded | src/cueflow/run_runtime.py:119-177 | a call is sent once, from `created`, and nothing else changes |
| ReferencePreparation.PrepareReferences | src/cueflow/reference_preparation.py:91-172 | the loop leaves the rows of its turns, and returns the available references in order as the rows of the round have them |
| ReferencePreparation.TurnsAreApart | src/cueflow/reference_preparation.py:105-171 | each reference gets the row of its own turn on the rows before the loop: the latest success or the outcome of this round, else the new attempt |
| ReferencePreparation.PreparingKeeps | src/cueflow/reference_preparation.py:117-171 | a turn adds at most the row of its round, changes none, and repeats an earlier success |
| ReferencePreparation.SuccessIsReused | src/cueflow/reference_preparation.py:117-120 | what was prepared once is used in every later round, whatever a new attempt would give |
| ReferencePreparation.PreparedMeans | src/cueflow/reference_preparation.py:117-127 | the row of this round is used as it is, a success of an earlier round is used again, and a reference that was unavailable in every earlier round is tried anew |
| ReferencePreparation.EffectiveLists | src/cueflow/reference_preparation.py:160-172 | the list holds exactly the available references of the round |
| ReferencePreparation.EffectiveIsInOrder | src/cueflow/reference_preparation.py:160-172 | the list is in the order of the input and names no reference twice |
| PaidCallEffects.PrepareIsRecorded | src/cueflow/reference_preparation.py:105-171 | a reference gets its row in its turn, and in a cancelled round none does |
| PaidCallRuns.RoundReferencesAreFixed | src/cueflow/reference_preparation.py:105-168 | once the references of a round are all prepared they are the same in every continuation of the run |
| RunRegistry.Registry.RecoverRunningSourceRuns | src/cueflow/registry.py:750-798 | created becomes definitely_not_sent, sending becomes delivery_ambiguous, the run becomes interrupted; nothing unless it was running |
| PaidCallRuns.SuccessCommitsItsCheckpoint | src/cueflow/registry.py:550-598 | a call becomes successful only from `sending`, in the step that also writes its checkpoint, which was absent |
| PaidCallRuns.SharedStagesSucceedOnce | src/cueflow/registry.py:452-455 | a shared stage is paid for at most once over all rounds, and its result stays |
| PaidCallRuns.OutcomesAreFinal | src/cueflow/registry.py:750-931 | calls are only added, and a settled call keeps its outcome in every later state |
| PaidCallLaws.StepKeeps | src/cueflow/registry.py:510-931 | every event keeps the whole invariant of calls, checkpoints and process state |
| PaidCallEffects.RecoverySettles | src/cueflow/registry.py:750-798 | a lost process leaves no call of its run open: what was sent may have been delivered, what was not sent was not; everything else stays |
| PaidCallEffects.BindingWrites | src/cueflow/registry.py:510-600 | a published artifact becomes the checkpoint of its kind and scope, and changes no other |
| PaidCallEffects.CrashLosesNothing | src/cueflow/registry.py:510-931 | the loss of the process changes no table |
| RunRegistry.Registry.InitializeInputs | src/cueflow/orchestrator.py:190-210 | the inputs of a Run are bound once, with a job input without references; a second time is a contract error |
| RunRegistry.Registry.PrepareAll | src/cueflow/orchestrator.py:419-419 | the references of the round of this Run, or the cancellation error and no change |
| RunRegistry.Registry.SettleReferences | src/cueflow/orchestrator.py:419-424 | the references are prepared, compared with the job input, and bound to a new one, after an invalidation, exactly when they differ; then the job input has the prepared ones |
| PaidCallRuns.CallsSeeTheReferences | src/cueflow/orchestrator.py:419-445 | every call that needs the references is made in a round whose references are all prepared and bound to its job input |
| RunRegistry.Registry.SubmitAgain | src/cueflow/orchestrator.py:632-643 | the second attempt after an unusable response retries that very call with its key |
| PaidCallEffects.ResubmitAnswers | src/cueflow/orchestrator.py:632-643 | in every reachable state the second attempt repeats the last call of its work, which failed explicitly, with its key, unless the round is cancelled or the request is another one |
| PaidCallEffects.OneSecondAttempt | src/cueflow/orchestrator.py:622-643 | a second attempt follows exactly a first unusable response of a correction or a selection |
| PaidCallEffects.SettlingBinds | src/cueflow/orchestrator.py:419-424 | after the references are settled the job input of the round holds exactly those prepared for it, and the other checkpoints stay |

## Left out

- Hash orders and digests: case ids are the whole records they are derived from, fingerprints are the lists of fields
  that are hashed, and every order that sorting by digest can give is covered.
- JSON size in batching is an arbitrary size function; canonical JSON and artifact content hashes are not modelled.
- A configured case limit of 0 is modelled as the code treats it: the limit does not bind before the first case.
- Errors carry no message; `PhoneReputationIntegrityError` and `IntegrityError` are one value.
- The head row and the detail row of a ledger event are one record, so the check that each head has exactly one detail
  holds by construction. Result codes, `updated_at` and nonces are not modelled; of a ciphertext, only the key id.
- Session revocation inside ledger operations is modelled with the sessions, not with the ledger; the two models share
  no state. `SessionService.Service.ApplyBan` and `SessionService.Service.BlockPhone` are its session side.
- Access tokens, CSRF tokens, audit rows and security events: they follow sessions and decide nothing about them.
- Refresh digest format, revocation reasons, password credentials and SMS challenges: a sign-in starts after they
  passed.
- Grants and phone checks before `erase_qualifying_banned_account`; its effect on sessions is that of `erase_account`.
- The ledger sees of an account its active phone, its suspension and its ban rows; any registration or phone change to
  a free phone, status change and erasure may come between two ledger operations.
- Cancellation is modelled where it keeps a row from being written; the checks between stages only end the run
  earlier.
- Current pointers, dependencies and staleness flags of artifacts: no modelled decision reads them.
- Which executions follow a `needs_review` status, and in what order the stages without a provider call are bound: any
  may, in the model. None follows `succeeded`.
- How a reference is prepared (download, conversion, format checks) is an arbitrary outcome of the attempt, and an
  attempt that fails outside the caught errors is the loss of the process.
- Object storage: the intent, HEAD, PUT and receipt steps of an upload are one call that succeeds or fails.
- HTTP, cookies, CLI, provider protocols, polling, media and document conversion, SRT output, schema migrations.
- The two correction threads: completion order is arbitrary, only the main thread writes.
- RateLimit: buckets of password attempts are also cleared after a success; the span results are for code requests,
  whose buckets are never deleted.
