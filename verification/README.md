# Shared Mind: the epistemic transaction kernel and its satellites, in Dafny

Shared Mind keeps a project's memory as claims, evidence, conflicts, decisions, questions and
work items behind one transactional kernel. A proposal is committed or rejected as a whole; every
accepted one appends a hash-chained ledger entry, every decided one a receipt. Several other parts
of the program recompute what the kernel did: replay rebuilds the tables from recorded events by
different code, the verifier re-derives every ledger and receipt column, the conflict predictor
simulates conflicts before they are opened, the rebase hint repeats the precondition checks, the
context projection repeats the full projection faster, and the skill replay repeats the skill table.
This project models those pairs and proves that they agree, for every run and every input, or states
exactly when they do.

## How it is organised

| files | what they model |
|---|---|
| `Domain`, `Rules`, `Continuity`, `Reducers`, `Preconditions`, `Ledger`, `Submissions` | the kernel as functions on tables: one operation, all checks, one commit, a run of commits, and how a proposal becomes a submission |
| `KernelStore`, `KernelVerifier` | the kernel as a class whose tables, ledger and receipts are updated in place, and its verifier loops; every method is proved against the functions |
| `Replay`, `Refinement`, `Invariant`, `Prediction`, `Verification` | the second implementations and their agreement with the first |
| `Idempotency`, `VersionHistory`, `Disclosure`, `Supersession`, `ReferenceIntegrity` | what every run of commits guarantees |
| `Rebase`, `RebaseApply`, `RebaseExample` | the rebase hint against the kernel's own checks, and against operations that fail while they are applied; a run on which it misleads |
| `Json`, `RenderedSize`, `HistoryReferences`, `ContextPack`, `ContextBudget`, `ContextBuild` | the budgeted context pack that states its own length |
| `ContextRouter`, `Routing` | the context router |
| `ProjectionHistory`, `Projections`, `KernelProjection` | the fast context projection against the full projection, for any store and for every kernel |
| `Skills`, `SkillStore`, `ProductStore` | the skill table, its replay, and the store as a class |
| `ImpactPath`, `JsonDepth`, `Lines`, `Directives`, `FactEvidence` | bounded breadth-first search, the explicit-stack depth check, directive extraction |
| `Wrappers`, `Sequences`, `TextRules`, `Utf8`, `IdOrder`, `JsonOrder` | shared vocabulary; orders on identifiers and on rendered documents |

## Assumptions

- Digests are ideal. A hash is the hashed value under a constructor of its own, the 24-digit
  truncation in conflict identifiers included. The router's hash is any function whose text has the
  length of a SHA-256 text.
- JSON-schema validity of proposals, entries and record identifiers is an opaque contract
  (`Ledger.Contract`). `Ledger.Coherent` says that the receipt schema's own parts follow from it; with
  it, storing a receipt never fails.
- Every predicate's family key names the predicate (`Rules.FamiliesNamePredicate`). The live kernel
  keys the other claim with the incoming claim's predicate (`src/shared_mind/kernel.py:1722`), replay
  keys each claim with its own (`src/shared_mind/kernel.py:2823-2828`).
  `Replay.RecordedOpeningReplays` shows exactly when a recorded opening would replay without it.
- One commit is one atomic step; clients interleave whole commits. A rolled-back transaction restores
  the tables it started from.
- The ledger holds schema version 1.3.0 only. Times are integers. The clock is a parameter where code
  reads it. Sorted lists of identifiers are the sets they enumerate.
- The kernel's query for one conflict row of a family, kind and status takes any such row; there is
  never more than one (`Replay.OneRowPerKind`, part of `Invariant.Good`). The predictor, which the
  verifier also runs on altered tables, takes the first row in the source's order: open, then latest
  episode, then identifier. Conflict identifiers are compared as `IdOrder` says, where the source
  compares digest texts; the order matters only between rows that agree in family, kind, status and
  episode.
- The router's answer is modelled for every input. That a response records its true length and hash
  is proved for responses whose whole content, every candidate included twice, has a length of fewer
  than 64 digits (`Routing.Short`); stabilizing in eight rounds needs some such bound.
- `KernelProjection.Wire` is any way of writing the kernel's records as rows. `KernelProjection.Faithful`
  says what it must satisfy: identifiers have texts of their own, rows and documents carry them,
  statuses are spelled out, and nothing but a proposal has a member called `versions`, as the closed
  definitions in `contracts/shared-mind-kernel.schema.v1.json` say.
- Product proposals meet the product schema, which the product store checks before anything else
  (`src/shared_mind/product_store.py:473-491`).
- The preflights of `Submissions` take the containers of a proposal and the length of its encoding as
  given; a proposal that cannot be encoded is a submission of its own kind.
- `json.loads`, slugs, upper-casing and timestamp parsing are function parameters of the extractor.

## Where the code differs from its documentation

- `contracts/README.md:156` and `contracts/README.md:172` speak of checked work-item transitions. The
  code checks the status name and the blocker rule only (`src/shared_mind/continuity.py:553-558`), and
  so does the model: any status may follow any other.
- Resubmitting a proposal is a no-op only when the first receipt stored under its key is for that very
  proposal; reusing a key for another proposal appends a receipt every time
  (`Idempotency.ResubmissionIsIdempotent`).
- The skill replay does not always equal the skill table; `Skills.StepAgrees` gives the exact
  condition, `SkillStore.ReplayAgreesExactly` the same for runs, and `SkillStore.ReimportBreaksReplay`
  the runs that break it.
- `verify_ledger` compares the tables with the ledger only when the ledger has rows, so a database with
  an empty ledger verifies whatever its tables hold (`VerifiedStates.VerifiedTablesAreReplayed`,
  `VerifiedStates.UnrecordedTablesVerify`).
- On altered events `verify_ledger` can raise instead of reporting: replay turns a rejected event into an
  error text only for validation failures, not for a row the database refuses as a duplicate
  (`src/shared_mind/kernel.py:2799-2807`) nor for evidence on an inactive claim, which is a transaction
  conflict (`src/shared_mind/kernel.py:1678-1679`). The model has a fault of its own for these,
  `Verification.ReplayEscaped`.
- A rebase hint is also built when an operation is rejected while being applied. It then looks at the
  state before the proposal and can name another operation than the one that failed
  (`RebaseExample.HintNamesAnotherOperation`), or be missing for a code such as a claim-status mismatch;
  `RebaseApply.HintNamesFailedOperation` says exactly when it names the right one.
- The full projection's search skips what lies under `versions`, the context query does not. No row the
  kernel writes holds a record identifier there (`KernelProjection.NothingUnderVersions`), since the
  shipped definition of versions admits no such key; `ProjectionHistory.ContextHistoryIsTail` gives the
  exact condition for any rows.
- A directive keyword written with the Kelvin sign or the dotted capital I is matched but keeps its own
  upper-case form, so it is not taken for the keyword (`Directives.KindSpelling`,
  `Directives.KelvinSignIsNotWork`).

## Model

| member | source | states |
|---|---|---|
| Rules.FamilyDeterminesPredicate | src/shared_mind/kernel.py:1854-1861 | with families that name the predicate, a claim keyed into another claim's family has that claim's predicate and is in the same family by its own key |
| Rules.KindOfConflictSymmetric | src/shared_mind/kernel.py:1791-1816 | whether and how two propositions contradict does not depend on their order |
| Rules.OverlapsIsSharedInstant | src/shared_mind/kernel.py:1915-1923 | two validity intervals overlap exactly when some instant lies in both |
| Utf8.EncodeOfDecode | src/shared_mind/kernel.py:1697-1699 | a byte string that decodes is the encoding of exactly the decoded text |
| Utf8.DecodeOfEncode | src/shared_mind/product_ingest.py:843-851 | every encoded text decodes, to itself |
| Invariant.AlteredHistoryIsRefused | src/shared_mind/continuity.py:237-299 | in every run: alter the recorded versions or statuses of one continuity event, and replay of the history is refused at it |
| Refinement.OperationRefines | src/shared_mind/kernel.py:1448-1502 | the events one operation records, replayed from the tables before it, give exactly the tables after it, and the table invariants still hold |
| Refinement.OperationsRefine | src/shared_mind/kernel.py:909-919 | the same for a whole list of operations |
| Replay.OpenKindSound | src/shared_mind/kernel.py:1729-1788 | opening, merging or reopening for one kind keeps one row per family and kind, and its event replays to exactly the row the kernel wrote |
| Replay.RecordedOpeningReplays | src/shared_mind/kernel.py:2811-2861 | the opening the kernel records replays exactly when every contradicting claim's own predicate is known and puts it in the incoming claim's family |
| Invariant.CommitKeepsGood | src/shared_mind/kernel.py:808-1035 | every commit keeps the invariant that ties tables, ledger, receipts, roots and chain together |
| Invariant.CommitEffect | src/shared_mind/kernel.py:808-1035 | an accepted commit leaves the tables its operations give and appends their events; every other commit leaves tables and ledger alone |
| Invariant.ReachableIsGood | src/shared_mind/kernel.py:808-1035 | the invariant holds after every run of commits |
| Invariant.TouchedAreOpened | src/shared_mind/kernel.py:1729-1788 | the conflicts reported as touched are exactly those with a recorded opening event |
| Invariant.ReplayRefinesCommit | src/shared_mind/kernel.py:2743-2861 | for every run of commits, replaying the recorded events into empty tables succeeds and rebuilds exactly the tables of the run |
| VerifiedStates.NoFaultIffChained | src/shared_mind/kernel.py:2138-2242 | the row verifier reports nothing exactly when sequence, previous hash, envelope hash, roots and document of every row are as derived |
| VerifiedStates.ReceiptsVerify | src/shared_mind/kernel.py:2282-2521 | in a good state every receipt passes the receipt verifier, heads and roots in order |
| VerifiedStates.EveryEntryCovered | src/shared_mind/kernel.py:2260-2280 | in a good state every ledger entry has exactly one accepted receipt |
| VerifiedStates.ReachableVerifies | src/shared_mind/kernel.py:2060-2086 | after any mix of accepted and rejected commits the verifier reports no fault |
| VerifiedStates.HeadDeterminesLedger | src/shared_mind/kernel.py:2138-2242 | two ledgers without row faults and with the same head hash are the same ledger |
| VerifiedStates.VerifiedTablesAreReplayed | src/shared_mind/kernel.py:2060-2086 | a state without faults, reachable or not, has exactly the tables its ledger replays to, if and only if the ledger is not empty or the tables are |
| VerifiedStates.UnrecordedTablesVerify | src/shared_mind/kernel.py:2060-2086 | a concrete state with an empty ledger and a source nothing recorded passes verification |
| Prediction.PredictionIsExecution | src/shared_mind/kernel.py:1373-1446 | for every operation list that applies, the predicted conflict identifiers are exactly those opened, merged or reopened by applying it |
| Prediction.KindPredicted | src/shared_mind/kernel.py:1432-1441 | the simulation of one kind notes the same row and identifier as the kernel opens |
| IdOrder.EarlierTotal | src/shared_mind/kernel.py:1388-1397 | of two identifiers exactly one comes first, so the index of conflict rows is determined even where several agree in status and episode |
| Disclosure.NoSilentContradiction | src/shared_mind/kernel.py:1701-1788 | after every run, any two active contradicting claims of one family are named together by a recorded conflict of that family and kind, and unless it was resolved since, it is open with both as members |
| Disclosure.OpenKindDiscloses | src/shared_mind/kernel.py:1729-1788 | opening for one kind succeeds, never closes or shrinks an open row, and names the incoming claim with each of its rivals |
| VersionHistory.VersionCountsWrites | src/shared_mind/kernel.py:1673-1687 | in every run an aggregate's version is the number of recorded events that create or change it |
| VersionHistory.NoLostUpdate | src/shared_mind/kernel.py:1208-1282 | accepted proposals that pin and change the same aggregate did so at strictly increasing versions, so never at the same one |
| Idempotency.NewRejection | src/shared_mind/kernel.py:978-1029 | a newly rejected proposal adds exactly one receipt, which carries the current head and root; tables and ledger are unchanged |
| Idempotency.ResubmissionIsIdempotent | src/shared_mind/kernel.py:880-906 | whatever happens in between, resubmitting returns the first receipt under the key and changes nothing exactly when that receipt is for this proposal; for a fresh key it always is |
| Idempotency.OneEntryPerKey | src/shared_mind/kernel.py:880-906 | no run has two ledger entries with one idempotency key |
| Supersession.DecisionsFormForest | src/shared_mind/continuity.py:341-429 | in every reachable state replaced decisions point to existing, later created ones, no decision replaces two, following the pointers ends at an active decision, and columns agree with the document |
| Supersession.ClaimsFormForest | src/shared_mind/kernel.py:1476-1496 | the same forest for superseded claims; following it ends at an active or a retracted claim |
| ReferenceIntegrity.AcceptedReferencesResolve | src/shared_mind/kernel.py:1284-1371 | every typed reference of an accepted proposal, one to a conflict it opens itself included, names an existing record of that type after the commit |
| KernelStore.Kernel.RegisterSourceRevision | src/shared_mind/kernel.py:1504-1532 | the sources table afterwards is the specified one, and exactly one event is recorded on success |
| KernelStore.Kernel.AttachEvidence | src/shared_mind/kernel.py:1673-1687 | evidence row, claim version and event as specified, or the specified error |
| KernelStore.Kernel.AssertClaim | src/shared_mind/kernel.py:1632-1671 | claim, evidence and conflict rows, events and touched conflicts as specified, or the specified error |
| KernelStore.Kernel.OpenOrMerge | src/shared_mind/kernel.py:1729-1788 | merges into the open row, else reopens a resolved one, else inserts a new one, and records that row |
| KernelStore.Kernel.OpenConflicts | src/shared_mind/kernel.py:1701-1788 | both kinds opened in order, each against the tables the other left |
| KernelStore.Kernel.SupersedeClaim | src/shared_mind/kernel.py:1476-1496 | the replacement asserted and the target marked, or the specified error |
| KernelStore.Kernel.RetractClaim | src/shared_mind/kernel.py:1546-1581 | the target retracted by an authorized actor with its own evidence, or the specified error |
| KernelStore.Kernel.ResolveConflict | src/shared_mind/kernel.py:1583-1627 | the row resolved when status, digest, epoch, authority, partition and evidence allow it, or the first error |
| KernelStore.Kernel.ApplyContinuityOperation | src/shared_mind/continuity.py:206-234 | the continuity tables and the event afterwards are the specified ones |
| KernelStore.Kernel.ValidateRequiredOperationReads | src/shared_mind/kernel.py:1182-1206 | the first operation whose required read is not pinned, if any |
| KernelStore.Kernel.ValidateReadsAndGuards | src/shared_mind/kernel.py:1208-1282 | the code of the first failing read or guard, in order |
| KernelStore.Kernel.PredictedConflictIds | src/shared_mind/kernel.py:1373-1446 | the loop over a simulated state returns the specified prediction |
| KernelStore.Kernel.ValidateContinuityReferences | src/shared_mind/kernel.py:1284-1371 | the first reference that resolves to nothing, or to another type |
| KernelStore.Kernel.InsertReceipt | src/shared_mind/kernel.py:1037-1161 | the stored receipt is the specified one and always meets the receipt schema |
| KernelStore.Kernel.ApplyOperations | src/shared_mind/kernel.py:913-919 | events, touched conflicts and tables after all operations, or the error of the first that fails |
| KernelStore.Kernel.Transact | src/shared_mind/kernel.py:909-1029 | on success the tables and the ledger entry, on failure the tables of before |
| KernelStore.Kernel.Commit | src/shared_mind/kernel.py:804-1035 | state and receipt after a commit are those of the specification, and the kernel stays valid |
| KernelStore.Kernel.ReplayOpenConflict | src/shared_mind/kernel.py:2811-2861 | the replayed conflict row, or the first mismatch of digest, members, predicates or families |
| KernelStore.Kernel.ApplyReplayEvent | src/shared_mind/kernel.py:2743-2783 | one recorded event applied by the replay code as specified |
| KernelVerifier.VerifyLedgerRows | src/shared_mind/kernel.py:2138-2242 | the loop with the expected previous hash reports exactly the specified row faults, for any rows |
| KernelVerifier.VerifyReceiptDocuments | src/shared_mind/kernel.py:2282-2521 | the loop with the expected head reports exactly the receipts that do not verify, for any state |
| KernelVerifier.VerifyAcceptedReceiptCoverage | src/shared_mind/kernel.py:2260-2280 | reports exactly the entries without exactly one accepted receipt, for any rows and receipts |
| KernelVerifier.ReplayEntry | src/shared_mind/kernel.py:2569-2617 | for any target and row: the tables after the recorded events, or the first of pre-root, reference, event, post-root and previous-hash failure |
| KernelVerifier.ReplayRows | src/shared_mind/kernel.py:2545-2637 | for any rows: replaying them into an empty kernel gives tables, ledger and receipts, or the first fault |
| KernelVerifier.VerifyLedger | src/shared_mind/kernel.py:2060-2086 | for any kernel, altered or not, exactly the specified faults; none for a kernel that commits produced |
| Rebase.HintNamesKernelFailure | src/shared_mind/rebase.py:118-180 | when a read or guard is rejected, the hint names exactly the precondition at which the kernel stopped, and is missing exactly for source and no-active-claim checks |
| RebaseApply.HintNamesFailedOperation | src/shared_mind/rebase.py:268-305 | when an operation is rejected while being applied, a hint exists exactly when some resolution misstates what its conflict had before the proposal, and it names the rejected operation exactly when that one does and every earlier resolution found its conflict as it was then |
| RebaseApply.DigestHintNamesFailedOperation | src/shared_mind/rebase.py:268-305 | for digests the condition is on the proposal alone: no earlier resolution is of a conflict that the operations before it are predicted to touch; a rejected resolution whose conflict is not predicted before it is always among those seen |
| RebaseApply.EpochHintNamesFailedOperation | src/shared_mind/rebase.py:268-305 | for epochs likewise: every earlier resolution is of a conflict that was open and that no operation before it resolves; a rejected resolution of such a conflict is always among those seen |
| RebaseExample.HintNamesAnotherOperation | src/shared_mind/rebase.py:268-305 | after a first commit that opens two conflicts, a proposal that pins both is rejected by the kernel at one resolution, as its receipt says, while the hint names the other; for all distinct identifiers |
| Rebase.HintedReadPasses | src/shared_mind/rebase.py:140-180 | every read on the hinted subject has a replacement, and with it the kernel accepts the read on the unchanged state exactly when the subject exists |
| Rebase.HintedGuardPasses | src/shared_mind/rebase.py:140-180 | the same for every guard on the hinted subject |
| Rebase.GuardAgrees | src/shared_mind/rebase.py:183-311 | each recorded guard precondition differs from its actual value exactly when the kernel rejects the guard, with the same code |
| Rebase.ReadAgrees | src/shared_mind/rebase.py:183-311 | the same for reads |
| Rebase.BuildRebaseHint | src/shared_mind/rebase.py:118-180 | the collecting and de-duplicating loops return the specified hint |
| Json.LengthIsEncodedLength | src/shared_mind/canonical.py:8-15 | the arithmetic length of a document is the byte length of its canonical encoding |
| Json.SetLength | src/shared_mind/projection.py:1083-1084 | assigning a member changes the length by exactly the change in that member |
| RenderedSize.SizesConverge | src/shared_mind/projection.py:1063-1087 | started from zeros, five rounds reach a size that describes itself |
| RenderedSize.StableSizeIsLeast | src/shared_mind/projection.py:1063-1087 | the size the rounds settle on is the least one that describes itself |
| RenderedSize.StableDescribesItself | src/shared_mind/projection.py:1063-1087 | the settled document records its true length and that length's quarter rounded up |
| RenderedSize.SetStableRenderedSize | src/shared_mind/projection.py:1063-1087 | from zeros the loop returns the settled document and never gives up; whatever it returns describes itself; a document that already does is returned as it is |
| HistoryReferences.CollectSummarizes | src/shared_mind/projection.py:1022-1060 | the reference table is sorted, lists each place once and with the largest count mentioned for it |
| ContextBudget.RefreshTruncation | src/shared_mind/projection.py:989-1019 | the document with fresh metadata, settled |
| ContextBudget.ReshownIsAt | src/shared_mind/projection.py:203-226 | refreshing after adding or dropping a claim gives the pack that would have been built with that many claims from the start |
| ContextBudget.Packed | src/shared_mind/projection.py:203-226 | packing stops with every shorter prefix within the budget and the next one over it |
| ContextBudget.PackGreedily | src/shared_mind/projection.py:203-226 | the greedy loop ends with exactly that prefix |
| ContextBudget.Shrink | src/shared_mind/projection.py:228-254 | the closing loop drops claims only while the pack is over the budget and stops at the first that fits |
| ContextBudget.CountsAddUp | src/shared_mind/projection.py:989-1019 | included and omitted counts are the claims shown and the rest |
| ContextBuild.EffectiveBudget | src/shared_mind/projection.py:928-944 | an error exactly for a limit that is not positive; otherwise the smallest limit given, four bytes a token, or the default when none is |
| ContextBuild.FillPack | src/shared_mind/projection.py:189-267 | a budget error exactly when the mandatory part is too large; otherwise the greedy pack, from which the closing loop removes nothing |
| ContextBuild.BuildContextPack | src/shared_mind/projection.py:85-267 | the answer for every projection, limit and purpose, errors included |
| ContextBuild.PackIsFaithful | src/shared_mind/projection.py:85-267 | a returned pack fits its budget and token request, states its own size, carries every mandatory section and shows exactly the claims before the first that did not fit |
| ContextBuild.CountsAreReported | src/shared_mind/projection.py:989-1019 | the reported counts are those of the claims shown and left out |
| ContextBuild.EveryOpenConflictIsListed | src/shared_mind/projection.py:838-865 | every open conflict appears in the mandatory section with the claims of its members |
| ContextBuild.EveryMemberIsShown | src/shared_mind/projection.py:838-865 | each member is shown, in order, with the claim and evidence its identifier names |
| ContextBuild.CurrentClaimsAreUnconflicted | src/shared_mind/projection.py:137-142 | the claims offered for packing are exactly the active ones no open conflict names |
| ContextRouter.DocumentLength | src/shared_mind/memory_views.py:795-809 | a response is as long as its rest, its hash and the digits of the length it records |
| ContextRouter.RoundsConverge | src/shared_mind/memory_views.py:795-809 | from any stale length of up to 64 digits, four rounds reach a length that describes itself |
| ContextRouter.StabilizedContextSize | src/shared_mind/memory_views.py:795-809 | for every response: the length after the rounds is recorded, only it and the hash placeholder change, and the returned size is the true length |
| ContextRouter.SettledIsNearest | src/shared_mind/memory_views.py:795-809 | from a stale length of up to 64 digits the recorded length is the true one; where two lengths describe the response, no describing length lies between the stale one and it |
| Routing.Consider | src/shared_mind/memory_views.py:691-728 | for every response and candidate, the specified outcome |
| Routing.CandidateIsJustified | src/shared_mind/memory_views.py:691-728 | a candidate is shown exactly when the true length of the response with it, the one nearest to the length recorded before, fits; otherwise it is an error if referenced and counted as left out if not |
| Routing.TrimmingIsMinimal | src/shared_mind/memory_views.py:729-733 | trace entries are given up from the end, the last of them only because the response with it did not fit, and all only if none fits; nothing else changes |
| Routing.SealedIsHashed | src/shared_mind/memory_views.py:740-757 | hashing and recording the final length leave the hashed document as it was: hash, recorded length and true length agree |
| Routing.Route | src/shared_mind/memory_views.py:614-758 | for every candidate list, of any length, the specified response or error |
| Routing.CountsAddUp | src/shared_mind/memory_views.py:691-728 | candidates shown and left out make up all of them, and so do trace entries kept and given up |
| Routing.ReferencesAreShown | src/shared_mind/memory_views.py:691-728 | every candidate the request refers to is shown |
| Routing.RoutedResponse | src/shared_mind/continuity_eval.py:616-624 | a successful response is within the budget, passes the evaluator's hash check, shows every reference and has counts that add up |
| ProjectionHistory.TreeIdsAreFoundOrUnderVersions | src/shared_mind/projection.py:1247-1259 | the whole-tree search finds what the recursive search finds and what lies under versions, nothing else |
| ProjectionHistory.SelectedHistorySequences | src/shared_mind/projection.py:680-711 | for each selected identifier exactly the sequences of the rows whose trees mention it |
| ProjectionHistory.SetContextHistory | src/shared_mind/projection.py:714-736 | the last sixteen sequences, their places and the count of the rest |
| ProjectionHistory.HistorySequences | src/shared_mind/projection.py:292-314 | the full index: for every identifier the sequences of the rows the recursive search finds it in |
| ProjectionHistory.ContextHistoryIsTail | src/shared_mind/projection.py:714-736 | the context history is the tail of the full one, same places and counts that add up, exactly when no row mentions the record only under versions |
| JsonOrder.ReadBack | src/shared_mind/canonical.py:8-15 | canonical JSON can be read back: two rendered documents followed by anything that cannot belong to them are the same document followed by the same text |
| JsonOrder.FirstMemberDecides | src/shared_mind/projection.py:1104-1128 | objects whose first members are different objects are ordered by the rendering of those members, whatever follows |
| Projections.BuildProjection | src/shared_mind/projection.py:286-481 | the loops return the specified full projection, for every store |
| Projections.BuildContextProjection | src/shared_mind/projection.py:483-677 | the loops return the specified context projection, for every store |
| Projections.SortedAlike | src/shared_mind/projection.py:1104-1128 | continuity records sorted with their histories and without come in the same order, so places agree |
| Projections.ProjectionsAgree | src/shared_mind/projection.py:483-677 | for every store with the kernel's guarantees both projections are refused alike or agree on every field of every record but history; what is shown has the tail of its full history, and a cut one points to its own place, exactly when no ledger row mentions it only under versions |
| KernelProjection.NothingUnderVersions | src/shared_mind/projection.py:1247-1259 | no ledger row the kernel writes mentions a record under versions: the versions of a proposal are texts under keys that name no record, and nothing else it writes has a member called versions |
| KernelProjection.SelectedAreShowable | src/shared_mind/projection.py:600-621 | the records whose history a context selects are exactly active claims and those in open conflicts, open conflicts, and active decisions, questions and work items |
| KernelProjection.ReachableProjectionsAgree | src/shared_mind/projection.py:483-677 | after every run of commits both projections can be built and agree, with the tail of its full history for every record shown, and the records selected are the showable ones |
| Skills.ApplyKeepsOneApproved | src/shared_mind/product_store.py:1188-1235 | no operation leaves a skill with two approved versions |
| Skills.StepAgrees | src/shared_mind/product_store.py:718-835 | one operation keeps replay and table equal exactly when it is faithful: a re-put equals the stored record, an approved entry demotes nothing unnoticed |
| Skills.ProposalAgrees | src/shared_mind/product_store.py:513-520 | a proposal of faithful operations replays to the table it leaves |
| Skills.UnusedUnapprovedIsFaithful | src/shared_mind/product_store.py:1188-1235 | records entering under an unused key and not approved are always faithful |
| SkillStore.ReachableOneApproved | src/shared_mind/product_store.py:199-201 | in every run at most one version of a skill is approved |
| SkillStore.ReplayEqualsTable | src/shared_mind/product_store.py:585-605 | in every faithful run folding the replay over the committed proposals gives exactly the table |
| SkillStore.ReplayAgreesExactly | src/shared_mind/product_store.py:585-605 | in every run, replay and table are the same after every operation of every committed proposal if and only if the run is faithful |
| SkillStore.OneOperationAgreesExactly | src/shared_mind/product_store.py:585-605 | for a committed proposal of one operation, replay and table stay equal exactly when it is faithful |
| SkillStore.ReimportBreaksReplay | src/shared_mind/product_store.py:1191-1203 | for every record that is not approved: creating it and then importing it with another status are both accepted, after which replay and table differ |
| ProductStore.Store.PutSkill | src/shared_mind/product_store.py:1188-1235 | the table afterwards, or the reuse error |
| ProductStore.Store.UpdateSkillStatus | src/shared_mind/product_store.py:1272-1318 | the status changed and other approved versions demoted, or the error |
| ProductStore.Store.ApplySkillOperation | src/shared_mind/product_store.py:718-793 | the table after one operation, or its error with the table unchanged |
| ProductStore.Store.CommitProductProposal | src/shared_mind/product_store.py:463-553 | state and receipt of the specification; a failing operation undoes the whole proposal |
| ProductStore.Store.VerifySkillReplay | src/shared_mind/product_store.py:585-605 | the comparison's outcome is whether the replay equals the table |
| ImpactPath.BuildAdjacency | src/shared_mind/retrieval.py:258-268 | the adjacency sets are exactly the steps the direction allows |
| ImpactPath.FinishedIsExact | src/shared_mind/retrieval.py:269-281 | when the queue is empty, the visited symbols are exactly those within the depth, a shortest path to each is listed, every listed path is a walk within the depth, and no step is missing |
| ImpactPath.WalksAreCovered | src/shared_mind/retrieval.py:269-281 | once every nearer symbol is expanded, each walk ends at a symbol found along a path that is no longer |
| ImpactPath.FindImpact | src/shared_mind/retrieval.py:238-304 | errors for an unknown symbol, direction or depth in that order; otherwise the exact answer and exactly the edges among visited symbols, sorted by kind, source and target |
| JsonDepth.JsonDepthExceeds | src/shared_mind/kernel.py:82-109 | the loop with an explicit stack and an active set terminates on every finite graph and answers as the depth-first search does |
| Submissions.PreflightBoundsNesting | src/shared_mind/kernel.py:813-878 | on acyclic proposals the preflights refuse exactly a nesting above 64 or else an encoding above a mebibyte, before the idempotency key is looked at, leaving one receipt and nothing else |
| Submissions.Submit | src/shared_mind/kernel.py:813-859 | the submission whose depth flag is what the depth check answers |
| JsonDepth.Enter | src/shared_mind/kernel.py:104-108 | entering a container adds it to the ancestors and keeps what the loop will answer |
| JsonDepth.ExceedsExactlyOnLongChains | src/shared_mind/kernel.py:82-109 | on any graph, cyclic ones included, the answer is yes exactly when some chain of distinct containers is longer than the limit |
| JsonDepth.ExceedsExactlyOnDeepValues | src/shared_mind/kernel.py:82-109 | on acyclic values the answer is yes exactly when the recursive nesting depth exceeds the limit |
| Lines.RawLinesOfText | src/shared_mind/product_ingest.py:846 | splitting the encoded text into byte lines gives the encoded text lines |
| Lines.StrippedIsBody | src/shared_mind/product_ingest.py:847 | stripping line ends from a byte line leaves the encoding of its text |
| Directives.IterCandidateDirectives | src/shared_mind/product_ingest.py:901-923 | the matches of one message, outside its fences |
| Directives.IterDirectives | src/shared_mind/product_ingest.py:840-898 | the loop with running offset and fence returns exactly the directives of each line, in order; decoding never fails |
| Directives.EveryExcerptMatches | src/shared_mind/product_ingest.py:871-897 | the bytes between a directive's offsets are its excerpt, for every content |
| Directives.NoDirectiveInsideFence | src/shared_mind/product_ingest.py:852-870 | in Markdown outside conversations every directive comes from a line with no fence open before it, that is neither a fence nor indented |
| Directives.FenceIsOpenSince | src/shared_mind/product_ingest.py:855-866 | a fence is open exactly when some line opened it with none open and no line since closes it |
| Directives.KindSpelling | src/shared_mind/product_ingest.py:59 | the recorded kind is the keyword exactly when it is spelled without the dotted capital I and the Kelvin sign |
| Directives.KelvinSignIsNotWork | src/shared_mind/product_ingest.py:59 | a concrete line that matches but is not of the kind it spells |
| FactEvidence.SelectorPasses | src/shared_mind/kernel.py:1689-1699 | the selector of every extracted directive passes the kernel's evidence check |
| FactEvidence.FactClaimIsWellFormed | src/shared_mind/product_ingest.py:946-1042 | the proposed claim is never refused for its hash, its predicate or its subject type, and passes all claim checks exactly when its predicate allows the object as written, the scope stated, the time, direct evidence and a single link |
| FactEvidence.KernelTakesExtractedEvidence | src/shared_mind/kernel.py:1689-1699 | with the source registered as it was read, the kernel takes the link unless its identifier is in use |
| FactEvidence.ExtractedFactApplies | src/shared_mind/kernel.py:1632-1671 | on sound tables that hold the source as it was read, applying the extracted claim succeeds exactly when its predicate allows what extraction writes and neither of its two identifiers is in use |

## Left out

- SQLite itself: pragmas, triggers, the authorizer, migrations, pinned legacy receipts. Tables are maps.
- Schemas 1.0.0, 1.1.0 and 1.2.0 with their legacy envelopes and source seeding.
- JSON-schema validators, real SHA-256, base64 and data-URI decoding, timestamp texts.
- Exact tokenizer adapters; packs are modelled in estimate mode.
- The product audit chain beside the skill table.
- Scoring, sorting and depth-trimming of routing candidates; the router takes the scored list as given.
- The error texts of replay failures: a fault says which entry and which kind of check failed.
- Markdown and JSON text of the full projection; the missing-table errors of both projections.
- IdOrder.EarlierTotal: the order among digest values stands in for the order of identifier texts, since digests have no text here; it decides only between rows that agree in status and episode.
- JSON numbers are integers; a schema number with a fraction is not modelled.
- Skills.StepAgrees: a proposal of several operations may disagree with its replay in the middle and agree again at the end, so the exact condition is per operation.
- Decision, question, work-item and skill directives: they carry no evidence selector.
- Command line, MCP servers, web surface, hooks, telemetry, backups, ranking, model extractors.
