# Household inventory backend: a verified model

The backend keeps one family's stock in PostgreSQL. Offline devices push changes and retry them, pull a change
log page by page, and start from a bootstrap snapshot; appliances deduct consumables; a first device imports its
data; Home Assistant commands are sent to real devices. This project models that logic in Dafny and proves what
holds over every run of it.

How the model is built:

- **The database is one object** (`Database.Database`) whose fields are the tables; the repositories' and the
  services' methods assign those fields. Each method is proved against a function on table values (`Tables.Db`),
  and the properties are lemmas about those functions. A savepoint or a transaction is a saved copy that may be
  restored. Any statement may fail with any SQLSTATE (`Database.Statement`), so every contract also covers that.
- **Two ways of writing.** Every writer (push, conflict resolution, linkage deduction, import) changes entity
  tables in one of two ways: it writes one row and logs it, or it moves stock in several batches and logs every
  allocation. `Ledger.Evolves` collects what any stretch of history keeps: conservation of stock, version chains
  rising by one, convergence of replicas, dependencies in order, discarded batches at rest, receipts and closed
  conflicts kept. It is proved once for each way of writing, composes over runs, and `World.Run` proves it for
  every sequence of all writers together, with failures anywhere. One change of a push is one transaction, so other
  writers come between the changes of a push, too.
- **Answers are fixed twice.** What the code does is a function that its methods are proved against; what a caller
  gets is a table over the stored rows, the request and nothing else, and a lemma proves that the function answers as
  the table says, for every input: `Answers` for pushed changes, `Plans` for first-expired-first-out, `Resolutions`,
  `Suggestions`, `Manifests`, `Permits`, and the last lemmas of `Inference`, `Secrets` and `Migrations`.
- **Concurrency between transactions and outside effects** (Home Assistant commands, model inference, secrets
  files, migration runners) is a step relation over unboundedly many callers; a crash, a lost answer or a lost
  lock may come between any two steps.
- **Pushes mix changes and commands.** `Household` joins both: its moves are the transactions of all the family's
  writers and the steps of all commands, which share the table of sync receipts. A push there is processed amid any
  such moves, and `ExecutionStore.House.Push` is the code that does it.
- Digests (SHA-256 over JSON) are injective, so the digested value itself is compared. Generated UUIDs and clock
  readings are parameters. Integers are unbounded except where a column is INTEGER: stock columns overflow as
  SQLSTATE 22003 does.

Main results: every pushed change gets the answer that the stored rows call for, and no other
(`Answers.EntityAnswer`, `Answers.CommandAnswer`); a refused change leaves no trace, and a business error raised
after planning cannot happen (`InventoryStore.Execute`, `SyncStore.FinishedIsAuthoritative`,
`SyncSafety.RefusedChangesNothing`); pushes of changes and commands are idempotent among all writers
(`Household.RepeatedPushWritesNothing`); stock is conserved (`World.StockIsConserved`); no update is lost
(`World.VersionsRiseByOne`, `SyncSafety.AcceptedEntityChange`); replicas converge (`Replicas.ReplicaConverges`); the
planner's result is the one first-expired-first-out plan and both implementations agree on it
(`Fefo.AllocateIsTheFefoPlan`, `Linkage.FefosAgree`); suggestions are deducted at most once and exactly
(`LinkageSafety.Run`, `LinkageSafety.CoveredIsDeducted`); an import happens as a whole and once
(`ImportProtocol.ConfirmationCompletes`, `ImportProtocol.CompletedForGood`); the Home Assistant client is called at
most once per request id, and an accepted receipt means it was called once, accepted and audited
(`Execution.AcceptedReceiptMeansDoneOnce`, `Household.CommandsAreDoneOnce`), and never without permission
(`Permits.EveryCallWasPermitted`).

Where the code does less than its callers may expect, the model follows the code and states the exact condition:

- A category name, or a reminder scope, that another active row has is not seen before the statement: the change
  becomes a conflict of version 0, or fails the push (`Replies.FailedStatementReply`; `Inputs.SecondMilkConflicts`).
- The services measure an idempotency key in bytes, its column in characters, and PostgreSQL takes no U+0000. Under
  a key that does not fit the column every push fails, whether the change is invalid or not, because the receipt
  cannot be stored (`Replies.AnsweredIff`, `Replies.UnstorableKeyReply`; `Inputs.ShortKeyFailsThePush`,
  `Inputs.WideShortKeyFailsThePush`, `Inputs.NulKeyFailsThePush`, and for a command that was carried out
  `Retries.WideKeyBlocks`). A key that fits the column can be too long for the service
  (`Inputs.WideLongKeyIsRejected`).
- A second conflict of one device for the same change id fails the push instead of being answered
  (`Replies.StaleChangeReply`, `Replies.PlannedCommandReply`; `Inputs.SecondConflictFailsThePush`).
- A `consume_allocated` line whose batch id is not spelled in canonical lower case fails the push, although the
  batch is found and sufficient (`Replies.PlannedCommandReply`; `Inputs.SpellingDecides`).
- A conflict that recorded no server version lets a merge overwrite any version
  (`Conflicts.OverwritesOnlyTheRecordedVersion`; `Inputs.UnrecordedVersionIsOverwritten`).
- A manifest whose batch has an empty date source or precision, or whose name fits only when trimmed, is validated
  and prepared and can never be confirmed (`ImportProtocol.ClearIsConfirmed`;
  `Inputs.EmptyDateSourceIsNeverConfirmed`).
- A recipe over a deleted product can be reported as insufficient with nothing to buy
  (`LinkageSafety.InsufficientListsAllIff`, `LinkageSafety.DeletedProductListsNothing`).
- A first history page asked from beyond the newest record moves the client's cursor back
  (`Paging.HistoryMovesForward`; `Inputs.PageMovesBack`).
- A retry of a succeeded command has to pass the checks of a new one, needs its audited entity, and cannot be settled
  when another command has its request id in the audit log (`Retries.RetrySettles`;
  `Retries.WithdrawnPermissionBlocks`, `Retries.RetryIsBlocked`).
- A fill byte before an EXIF segment hides the orientation, and so does a directory of more than 4096 entries
  (`Orientation.FilledRead`, `Orientation.FilledIsStillReadIff`, `Orientation.HeaderRead`; `Orientation.FilledSix`).

The lemmas of the module `Inputs` are concrete inputs in states that runs from the founding of a family reach.

The documentation names the codes BATCH_EXPIRED, BATCH_DISCARDED and BATCH_NOT_FOUND; the code answers
BATCH_UNAVAILABLE or INSUFFICIENT_STOCK, and so does the model.

## Model

| member | source | states |
|---|---|---|
| Fefo.AllocateFEFO | backend/internal/inventory/service.go:231-280 | the planner's loops filter, add up, sort and take from the front; the error is validation for a quantity below 1 and insufficient stock for a shortage |
| Fefo.AllocateIsTheFefoPlan | backend/internal/inventory/service.go:231-280 | with distinct ids the result is Ok(plan) if and only if plan is a FEFO plan: eligible batches only, the quantity in all, every batch but the last drained, nothing eligible skipped before a used batch in (expiry, undated last, id); so the plan is unique |
| Fefo.AllocateSucceedsIffCovered | backend/internal/inventory/service.go:231-250 | it succeeds exactly when unexpired, available stock covers a quantity of at least 1, and otherwise reports insufficient stock |
| Fefo.AllocateIgnoresOrder | backend/internal/inventory/service.go:251-265 | the result does not depend on the order in which the rows arrive |
| Fefo.TakesNameBatches | backend/internal/inventory/service.go:268-279 | each allocation names an eligible batch with its stored quantity and version, and no batch twice |
| Inventory.PlanGuarantees | backend/internal/inventory/service.go:187-229 | a successful plan names distinct live batches, carries their stored quantity and version, and asks only for amounts that can be moved |
| Plans.AllocateIsTheRowPlan | backend/internal/store/inventorypostgres/repository.go:178-203 | over the stored rows: the planner answers a quantity exactly with the plan of live, active or used-up, undrained and unlapsed batches of the product in the order of day, undated last, id; each but the last emptied, none skipped that comes before |
| Plans.AllocateAnswers | backend/internal/inventory/service.go:231-250 | a quantity below 1 is invalid, and stock is insufficient exactly when no such plan exists |
| Plans.PlanIsUnique | backend/internal/inventory/service.go:251-280 | there is at most one such plan |
| InventoryStore.StockTx.FindBatchesForUpdate | backend/internal/store/inventorypostgres/repository.go:178-203 | the product's live batches in FEFO order, all of them locked |
| InventoryStore.StockTx.FindBatchForUpdate | backend/internal/store/inventorypostgres/repository.go:205-223 | the live batch, locked under its canonical id, or batch unavailable |
| InventoryStore.StockTx.ApplyBatchChange | backend/internal/store/inventorypostgres/repository.go:35-50 | the batch UPDATE: quantity, initial quantity, status and version as the SQL sets them; not locked, no matching row and overflow are its three failures |
| InventoryStore.StockTx.ApplyBatchChanges | backend/internal/store/inventorypostgres/repository.go:291-312 | applies the changes in order, or stops at the first that fails and says which error it was |
| InventoryStore.StockTx.AppendConsumptionRecord | backend/internal/store/inventorypostgres/repository.go:314-334 | appends the record, or fails on an operation id that is no UUID, or when this device already has one for the same text of operation and batch |
| InventoryStore.ValidateAllocated | backend/internal/inventory/service.go:282-311 | the loop over allocated lines decides as the first offending line does, and locks every batch it accepts |
| InventoryStore.MakePlan | backend/internal/inventory/service.go:187-229 | the plan of each command, with every planned batch locked |
| InventoryStore.Complete | backend/internal/inventory/service.go:147-164 | the in-place loop sets final quantity and version of every allocation and derives its batch change |
| InventoryStore.FailureIsObstacle | backend/internal/inventory/service.go:165-167 | after a successful plan a batch update can fail only for an id spelled otherwise than it was locked, or for overflow; never for lack of stock |
| InventoryStore.MoveStock | backend/internal/inventory/service.go:165-167 | every failure of the batch updates after planning is a raw error, so no partial update escapes the savepoint |
| InventoryStore.AppendRecords | backend/internal/inventory/service.go:168-177 | one record per allocation, or the failure of an operation id that is no UUID or is already recorded for a batch |
| InventoryStore.Execute | backend/internal/inventory/service.go:129-185 | a business error means that nothing was written; success means the planned stock moved and one record for each move |
| Ledger.PublishInv | backend/internal/store/syncpostgres/repository.go:764-866 | a logged row write keeps the invariant: 0 <= quantity <= initial, empty when used up or discarded, parents exist, cursors rise, change ids are unique, accepted receipts are backed by the log |
| Ledger.PublishStockInv | backend/internal/store/inventorypostgres/repository.go:35-50 | a logged stock movement keeps the same invariant |
| History.PublishEvolves | backend/internal/store/syncpostgres/repository.go:1024-1056 | a row write conserves stock, continues the version chain by one, converges replicas, keeps the log grounded and discarded batches at rest |
| History.PublishStockEvolves | backend/internal/inventory/service.go:143-182 | a stock movement does the same, with its allocations and records |
| History.AllocationsReplay | backend/internal/store/syncpostgres/repository.go:909-922 | applying the published allocations to a replica does what the updates did to the rows |
| History.AllocationsAreStored | backend/internal/inventory/service.go:148-158 | published before and after quantities and versions are the stored ones |
| History.EvolvesTransitive | backend/internal/store/syncpostgres/repository.go:660-703 | what one stretch of history keeps, and the next, their concatenation keeps |
| SyncStore.Transaction.UpsertEntity | backend/internal/store/syncpostgres/repository.go:764-827 | the checks in the code's order, then an insert or a version-guarded update; a refusal writes nothing |
| SyncStore.Transaction.DeleteEntity | backend/internal/store/syncpostgres/repository.go:829-866 | a version-guarded deletion with its tombstone; a business error writes nothing |
| SyncStore.Transaction.CheckBatches | backend/internal/store/syncpostgres/repository.go:1210-1235 | the loop over a command's batches answers as its first offending line does |
| SyncStore.CheckAllocations | backend/internal/store/syncpostgres/repository.go:909-919 | accepts exactly the authoritative allocations and reports them; otherwise INVALID_AUTHORITATIVE_RESULT |
| SyncStore.FinishedIsAuthoritative | backend/internal/store/syncpostgres/repository.go:909-919 | that check never fails: what the service plans over sound rows is authoritative |
| SyncStore.Transaction.ExecuteInventoryCommand | backend/internal/store/syncpostgres/repository.go:868-927 | a business error means that no row and no record was written; success reports the executed allocations |
| SyncStore.Transaction.AppendChange | backend/internal/store/syncpostgres/repository.go:1024-1056 | appends the entry at the next cursor unless its change id is logged |
| SyncStore.Transaction.RecordConflict | backend/internal/store/syncpostgres/repository.go:1077-1118 | records an open conflict once per device and change id |
| SyncStore.Transaction.BusinessOutcomeOrError | backend/internal/sync/service.go:455-484 | version and scope errors become recorded conflicts, other business errors rejections, raw errors stay errors |
| SyncStore.Transaction.ApplyEntityChange | backend/internal/sync/service.go:315-383 | the entity change as specified: conflict on another version, else mutate and log |
| SyncStore.Transaction.ApplyInventoryChange | backend/internal/sync/service.go:385-416 | the inventory change as specified: refuse without a trace, else move stock and log every allocation |
| SyncStore.Transaction.WithinChange | backend/internal/store/syncpostgres/change_guard.go:11-37 | on any error the tables are again those of the savepoint, and constraint violations become business errors |
| SyncStore.Transaction.PutIdempotency | backend/internal/store/syncpostgres/repository.go:989-1022 | stores the receipt exactly when the key has 16 to 255 characters and no U+0000 |
| SyncStore.Transaction.InTransaction | backend/internal/sync/service.go:250-295 | replay, cursor check, validation, application, recovery and receipt, as specified for every database failure |
| SyncStore.Transaction.ProcessChange | backend/internal/sync/service.go:239-300 | what the transaction decides is committed as a whole or not at all, and keeps the invariant |
| SyncStore.Transaction.GetIdempotency | backend/internal/store/syncpostgres/repository.go:945-987 | the stored outcome for the same request, the refusal of any other one under the key, nothing for a new key, and an error for a key with U+0000 |
| SyncSafety.RefusedChangesNothing | backend/internal/sync/service.go:281-294 | a rejected or conflicting change leaves rows, records, log and cursors as they were; an abort, a replay or a reused key leaves the whole database as it was |
| SyncSafety.ProcessKeeps | backend/internal/sync/service.go:239-300 | one processed change with any failure keeps the invariant and evolves the tables |
| SyncSafety.AcceptedEntityChange | backend/internal/sync/service.go:315-383 | an accepted entity change was applied to precisely its base version, raises it by one, touches no other row and no stock, and logs exactly the row it wrote |
| SyncSafety.AcceptedCommand | backend/internal/sync/service.go:385-416 | an accepted command logs distinct batches with stored before and after values and the amount between them, writes one record for each, touches no other row, and tells the new version of its first batch |
| SyncSafety.SettledForGood | backend/internal/sync/service.go:251-269 | after any later history a settled change is replayed with its first outcome, or its key refused, and nothing is written |
| SyncSafety.ChangeIdAcceptedOnce | backend/internal/sync/service.go:367-370 | a change id is accepted at most once, whatever keys and devices present it |
| Meanings.AcceptedUpsertIsPatched | backend/internal/store/syncpostgres/entities.go:99-157 | an accepted upsert leaves the patch's columns, parent and expiry and keeps all that the patch does not name |
| Meanings.AcceptedCommandMeans | backend/internal/inventory/service.go:187-229 | an accepted command moves exactly what it asks for: a FEFO consumption the one plan over the stored rows, allocated lines their amounts, a restock its amount, a discard all that is left; with status and initial quantity of each batch |
| Meanings.LinesAcceptedIff | backend/internal/inventory/service.go:282-311 | allocated lines are accepted if and only if each asks for a positive amount of a live, available, unexpired batch that holds it, and no batch text repeats |
| Answers.EntityAnswer | backend/internal/sync/service.go:315-383 | every new upsert and deletion, case by case over the rows, is accepted, rejected with its code, recorded as a conflict with its code and version, or fails the push; a conflict that cannot be recorded fails it too |
| Answers.UpsertRefusalIs | backend/internal/store/syncpostgres/repository.go:764-827 | the first of: unknown entity, stock column, dates, missing name or product, missing, malformed or foreign parent, foreign id, values that do not fit, a name or scope in use; and no other reason |
| Texts.TrimIsCore | backend/internal/sync/import.go:314-318 | trimming takes away the leading and trailing spaces and nothing else |
| Answers.CommandAnswer | backend/internal/sync/service.go:385-416 | every new inventory command, case by case over rows, records and log |
| Answers.SingleResult | backend/internal/inventory/service.go:211-227 | restock and discard: exactly one live batch that is active or used up, whatever its day; a discard of exactly what is left; within INTEGER; a UUID operation that is not recorded for it; and which code each other case gets |
| Answers.FefoResult | backend/internal/store/syncpostgres/repository.go:1197-1209 | a FEFO consumption: an active product of the family, a quantity of at least 1 that its usable stock covers, and an operation not recorded for a batch of its plan; and which code each other case gets |
| Answers.AllocatedResult | backend/internal/inventory/service.go:282-311 | allocated lines: the first bad reference decides, then the first line with too little or past its day, then spelling, operation id, records and log |
| Replies.EntityAcceptedIff | backend/internal/sync/service.go:315-383 | a valid new entity change is accepted if and only if its key fits the column, it has the current base version and a new change id, and may be made: active parent where named or needed, no stock column, what a new row needs, values that fit their columns, no name or reminder scope of another active row; a deletion finds its row |
| Replies.AnsweredIff | backend/internal/sync/service.go:250-295 | any new change is answered if and only if its key has 16 to 255 characters without U+0000 and, when it is valid under a possible cursor, it does not end in a conflict that cannot be recorded nor at a batch spelled otherwise than canonically; otherwise the whole push fails |
| Replies.UnstorableKeyReply | backend/migrations/0001_initial_schema.sql:549 | under a key that does not fit its column no change whatever is answered: the push fails and writes nothing |
| Replies.FailedStatementReply | backend/internal/store/syncpostgres/change_guard.go:22-32 | a permitted upsert whose values do not fit is rejected; one whose name or scope is taken is a recorded conflict of version 0, or fails the push when that conflict cannot be recorded; under an unstorable key the push fails |
| Replies.InvalidChangeReply | backend/internal/sync/service.go:271-279 | an invalid change, or one beyond the server's cursor, is rejected if and only if its key fits the column; otherwise the push fails |
| Replies.StaleChangeReply | backend/internal/sync/service.go:323-338 | a valid stale change is answered with a recorded conflict if and only if its key fits the column and the device has no conflict yet for the change id; otherwise the push fails |
| Replies.PlannedCommandReply | backend/internal/store/syncpostgres/change_guard.go:16-32 | for a valid command that can be planned: accepted if nothing stands in its way, rejected on overflow or an operation id that is no UUID, a conflict or a failed push on a repeated record or change id, a failed push on a non-canonical batch id or an unstorable key |
| Inputs.SpellingDecides | backend/internal/store/inventorypostgres/repository.go:291-300 | after an import of one batch, a command that is accepted with the canonical spelling of the batch id and fails the push with any other |
| Inputs.SecondMilkConflicts | backend/migrations/0001_initial_schema.sql:233-235 | after a first category, a second one of the same name in another case is answered with a conflict of version 0 |
| Inputs.SecondConflictFailsThePush | backend/migrations/0004_sync_closure.sql:68-69 | after a recorded conflict, the same change id under another key fails the push |
| Inputs.ShortKeyFailsThePush | backend/internal/sync/service.go:276-279 | the first push of a new family: an invalid change under a short key fails the push |
| Inputs.WideShortKeyFailsThePush | backend/internal/sync/service.go:649-651 | a valid change under a key of 6 to 15 three-byte characters, long enough for the service and too short for the column, fails the push |
| Inputs.WideLongKeyIsRejected | backend/internal/sync/service.go:649-651 | a key of 86 to 255 three-byte characters fits the column and is too long for the service: the change is rejected |
| Inputs.NulKeyFailsThePush | backend/internal/store/syncpostgres/repository.go:968-974 | a valid change whose key contains U+0000 fails the push |
| Inputs.EmptyDateSourceIsNeverConfirmed | backend/internal/sync/import.go:352-357 | a manifest that the validation accepts and the preflight calls ready, and whose confirmation is blocked for an empty date source |
| Inputs.PageMovesBack | backend/internal/processing/history.go:33-57 | a first page asked from beyond the one record answers a smaller cursor |
| Conflicts.ConflictRepository.ResolveConflict | backend/internal/store/syncpostgres/repository.go:472-628 | the replay of an answered request, or the resolution with its receipt as specified, or an error with every table as before; a key whose bytes pass the service's check and whose characters do not fit the column is such an error |
| Conflicts.AnsweredForGood | backend/internal/store/syncpostgres/repository.go:492-531 | after any later history the same request by the same user under its key gets the same response, another one is refused, and neither writes anything |
| Conflicts.ResolveKeeps | backend/internal/store/syncpostgres/repository.go:599-628 | a resolution keeps the invariant and evolves the tables |
| Conflicts.ClosedForGood | backend/internal/store/syncpostgres/repository.go:545-547 | a closed conflict is refused to every later resolution |
| Conflicts.OverwritesOnlyTheRecordedVersion | backend/internal/store/syncpostgres/repository.go:585-591 | every resolution that overwrites finds the version the conflict recorded if and only if the conflict recorded a positive one |
| Inputs.UnrecordedVersionIsOverwritten | backend/internal/store/syncpostgres/repository.go:585-591 | a stale push, another device's insert, and a resolution that overwrites the version the conflict has never seen |
| Conflicts.ResolutionWrites | backend/internal/store/syncpostgres/repository.go:566-628 | an overwriting resolution raises the found version by one, logs that row and closes the conflict; deferring and keeping the remote side write no row |
| Resolutions.ResolutionMeans | backend/internal/store/syncpostgres/repository.go:592-605 | a manual merge writes the merged payload and keep_local the client's own: its columns take these values, all others stay, the row is not deleted; a conflicting deletion deletes the row; stock stays |
| Resolutions.ResolutionAnswer | backend/internal/store/syncpostgres/repository.go:533-628 | every resolution, case by case: the refusals with their codes, and otherwise the version kept or written, the cursor of its entry, and the one conflict it closes |
| Resolutions.KeyedResolutionAnswer | backend/internal/store/syncpostgres/repository.go:492-531 | a new key of 16 to 255 bytes and characters stores the answer; any other is refused or an error |
| Linkage.FefosAgree | backend/internal/store/hapostgres/automation.go:690-730 | whenever used-up batches are empty, the deduction over active batches draws exactly what the inventory planner allocates, and is short exactly when the planner is |
| Linkage.SameUpdate | backend/internal/store/hapostgres/automation.go:702-709 | on sound rows the deduction's UPDATE does what the inventory UPDATE does to a consumption |
| Linkage.AllDrawsAreExact | backend/internal/store/hapostgres/automation.go:689-730 | the draws of a covered recipe come from distinct live active batches and amount to exactly the required quantity of each product |
| LinkageSafety.CoveredIsDeducted | backend/internal/store/hapostgres/automation.go:685-778 | when stock covers the recipe a confirmation deducts exactly the requirement of each product, records and logs every draw, and touches no other row |
| Suggestions.RequiredIsTheSum | backend/internal/store/hapostgres/automation.go:549-553 | what a recipe requires of a product is the sum over its lines |
| Suggestions.StockIsCoverable | backend/internal/store/hapostgres/automation.go:555-560 | the stock of the linkage queries covers a quantity exactly when a plan over the stored rows does |
| Suggestions.CompletionSuggests | backend/internal/store/hapostgres/automation.go:486-500 | the completion of a running run suggests the deduction: pending with nothing to buy when no active product is lacking, otherwise insufficient with exactly the lacking products and what is missing; mixed units are refused |
| Suggestions.OtherEvents | backend/internal/store/hapostgres/automation.go:395-485 | an unknown rule and a completion without start are refused, a first start creates a running run, everything else changes nothing |
| Suggestions.DecisionTable | backend/internal/store/hapostgres/automation.go:590-681 | every decision on a suggestion, case by case: not found, settled, ignored, mixed units, insufficient with its list, empty recipe, operation in use, deducted |
| Suggestions.DeductionFollowsThePlans | backend/internal/store/hapostgres/automation.go:690-730 | a deduction draws each product of the recipe by its one plan over the stored rows, and no other product |
| LinkageSafety.UncoveredIsInsufficient | backend/internal/store/hapostgres/automation.go:666-681 | otherwise it marks the suggestion insufficient and changes nothing else |
| LinkageSafety.InsufficientListsTheMissing | backend/internal/store/hapostgres/automation.go:549-560 | the list names exactly the short active products with required minus stock |
| LinkageSafety.InsufficientListsAllIff | backend/internal/store/hapostgres/automation.go:549-560 | it names every short product if and only if no deleted product of the recipe is short |
| LinkageSafety.DeletedProductListsNothing | backend/internal/store/hapostgres/automation.go:670-681 | a recipe over a deleted product: insufficient with nothing to buy |
| LinkageSafety.DrawsFollowThePlanner | backend/internal/store/hapostgres/automation.go:690-730 | product by product the draws are the planner's allocation for the same quantity and day |
| LinkageSafety.Run | backend/internal/store/hapostgres/automation.go:367-779 | over any sequence of events, decisions and other writers: one suggestion per run, deductions belong to deducted suggestions under one operation each, deducted and ignored are final with their deductions |
| LinkageSafety.FinalIsFinal | backend/internal/store/hapostgres/automation.go:627-658 | a deducted suggestion answers a confirmation unchanged, an ignored one refuses it, and neither is deducted again, through any run |
| LinkageSafety.DuplicateEventsChangeNothing | backend/internal/store/hapostgres/automation.go:434-486 | a duplicate start or completion changes nothing, through any run |
| LinkageStore.WantedByProduct | backend/internal/store/hapostgres/automation.go:551-554 | the sums per active product, or the error of one product in two units |
| LinkageStore.Missing | backend/internal/store/hapostgres/automation.go:555-559 | the missing quantity of each short product |
| LinkageStore.HomeStore.CalculatePurchases | backend/internal/store/hapostgres/automation.go:549-560 | the purchase list or its error, as specified |
| LinkageStore.LockBatches | backend/internal/store/hapostgres/automation.go:784-784 | the batches of every product, or none when one product is short |
| LinkageStore.HomeStore.DeductBatch | backend/internal/store/hapostgres/automation.go:702-726 | one batch UPDATE with its deduction and record |
| LinkageStore.HomeStore.DeductProduct | backend/internal/store/hapostgres/automation.go:691-729 | the inner loop draws the product's requirement first-expired-first-out and then stops |
| LinkageStore.HomeStore.DeductAll | backend/internal/store/hapostgres/automation.go:689-730 | the outer loop draws the listed products in order and stops at the first failing statement |
| LinkageStore.HomeStore.Deduct | backend/internal/store/hapostgres/automation.go:689-730 | every product of a covered recipe is drawn, in order of product ids |
| LinkageStore.HomeStore.Confirm | backend/internal/store/hapostgres/automation.go:660-778 | the confirmation as specified, including the second check under locks |
| LinkageStore.HomeStore.ResolveLinkageSuggestion | backend/internal/store/hapostgres/automation.go:590-779 | the decision as specified, or the state before; the invariant and finality are kept |
| LinkageStore.HomeStore.CreateSuggestion | backend/internal/store/hapostgres/automation.go:535-547 | the existing suggestion, or a new pending or insufficient one |
| LinkageStore.HomeStore.ProcessEvent | backend/internal/store/hapostgres/automation.go:367-510 | the event as specified, or the state before; the invariant and finality are kept |
| Import.ImportedIsSound | backend/internal/sync/import.go:336-351 | rows of a valid manifest satisfy 0 <= quantity <= initial, and are empty when used up or discarded |
| Import.ParentIsEarlier | backend/internal/store/syncpostgres/import.go:380-403 | a parent inside the manifest is written before its child |
| Import.ClearIsWritten | backend/internal/store/syncpostgres/import.go:378-403 | an import that nothing blocks is written as a whole, changes no existing row, and keeps the invariant and the history |
| Import.OneEntryEach | backend/internal/store/syncpostgres/import.go:389-402 | the log has exactly one entry for each row that is not reused, and none for the others |
| Manifests.ConfirmedDraftsStand | backend/internal/store/syncpostgres/import.go:452-483 | after a completing confirmation every draft that is not a reused category stands as given: parent, columns, a batch with its day, quantities and status; exactly one new entry publishes it; no old row has changed |
| Manifests.ClearIsUnblocked | backend/internal/store/syncpostgres/import.go:190-295 | over the drafts: nothing blocks exactly when nothing is unsettled, reused categories are live under their name, ids are free, parents are in the manifest or live, category names and reminder scopes are free and distinct, and no record is archived |
| Manifests.PreflightAnswer | backend/internal/store/syncpostgres/import.go:100-190 | every preflight, case by case: format, form, size, another user's or another manifest's id, completed, blocked, or ready under the first checkpoint |
| Manifests.ConfirmAnswer | backend/internal/store/syncpostgres/import.go:331-450 | every confirmation, case by case; an unblocked one succeeds exactly when its columns take the drafts and the derived change ids are unused |
| ImportProtocol.PreflightKeeps | backend/internal/store/syncpostgres/import.go:100-190 | a preflight changes no table but the plans, and never a completed one |
| ImportProtocol.ConfirmationCompletes | backend/internal/store/syncpostgres/import.go:331-450 | a confirmation answers the completed import unchanged, or writes its frozen manifest as a whole |
| ImportProtocol.ConfirmKeeps | backend/internal/store/syncpostgres/import.go:331-450 | a confirmation keeps the invariant, the history and every completed import |
| ImportProtocol.ClearIsConfirmed | backend/internal/store/syncpostgres/import.go:371-421 | an unblocked prepared import is confirmed if and only if none of its derived change ids is taken and the tables can store it: untrimmed names fit, given date sources and precisions are known, every text can be cast |
| Import.HistoryIsFiled | backend/internal/store/syncpostgres/import.go:404-421 | the history of a valid manifest is filed after the archive if and only if its texts can be cast |
| ImportProtocol.CompletedForGood | backend/internal/store/syncpostgres/import.go:355-360 | after completion, and any later history, confirming or preflighting again writes nothing |
| ImportStore.ValidateRows | backend/internal/sync/import.go:189-207 | accepts exactly the lists of valid rows with distinct ids |
| ImportStore.ValidateImport | backend/internal/sync/import.go:179-223 | answers the first complaint about format, identity, rows, count and size, and none for exactly the valid manifests |
| ImportStore.ImportRepository.FileHistory | backend/internal/store/syncpostgres/import.go:404-421 | the history records in order, up to the first refusal |
| ImportStore.CheckRow | backend/internal/store/syncpostgres/import.go:228-295 | the blockers of one row: reuse mismatch, overlapping id, taken name, missing dependency |
| ImportStore.CheckNames | backend/internal/store/syncpostgres/import.go:297-322 | the blockers from repeated names and reminder scopes |
| ImportStore.ImportRepository.ValidateTargets | backend/internal/store/syncpostgres/import.go:192-324 | the blockers are exactly those that tables and manifest call for |
| ImportStore.ImportRepository.PreflightImport | backend/internal/store/syncpostgres/import.go:100-190 | the preflight as specified: reuse of an id, completed, blocked with the stale plan revoked, or prepared under its first checkpoint |
| ImportStore.ImportRepository.InsertEntity | backend/internal/store/syncpostgres/import.go:452-490 | one row with its log entry, or a constraint's refusal |
| ImportStore.ImportRepository.InsertAll | backend/internal/store/syncpostgres/import.go:380-403 | the rows in dependency order, up to the first refusal |
| ImportStore.ImportRepository.ConfirmImport | backend/internal/store/syncpostgres/import.go:331-450 | the confirmation as specified; any error leaves everything as it was |
| World.Run | backend/internal/sync/service.go:239-300 | every sequence of pushed changes, resolutions, appliance events, decisions, preflights, confirmations and other families' writes, with any failures, keeps the whole invariant and undoes nothing |
| World.StockIsConserved | backend/internal/store/inventorypostgres/repository.go:314-334 | in every reachable state a batch holds the quantity of its first log entry plus the sum of its records, between 0 and its initial quantity, and nothing when used up or discarded |
| World.VersionsRiseByOne | backend/internal/store/syncpostgres/entities.go:123-146 | in every reachable state the log publishes the versions 1, 2, 3, ... of each entity once each, up to the stored one |
| World.DiscardedStaysPut | backend/internal/inventory/service.go:216-218 | a discarded or expired batch keeps its stock and status through any run, and no stock entry moves it |
| World.LogIsGrounded | backend/internal/store/syncpostgres/repository.go:1153-1195 | every entry of the log refers only to entities with an earlier entry |
| Household.RunKeeps | backend/internal/sync/service.go:829-905 | every interleaving of all the family's writers and of any number of commands, with failures and crashes anywhere, keeps both invariants and undoes nothing |
| Household.PushSettles | backend/internal/sync/service.go:206-237 | a push of table changes and commands that reached its end, amid anything else, has a receipt for each of them with the outcome it told |
| Household.RepeatedPushWritesNothing | backend/internal/sync/service.go:206-300 | such a push repeated after any run, and again amid anything, answers each change and each command with its first outcome, and its own steps add nothing to tables, receipts, ledger, audit and calls |
| Household.QuietRepetition | backend/internal/sync/service.go:835-882 | when nobody else acts during the repetition, everything is as it was |
| Household.CommandsAreDoneOnce | backend/internal/homeassistant/service.go:456-527 | amid all the family's writers too: at most one call for a request id, and behind an accepted receipt, for good, one accepted call, the succeeded ledger row and the succeeded audit row |
| World.ClosedThroughAnyRun | backend/internal/store/syncpostgres/repository.go:545-547 | a closed conflict is refused to every resolution after any run |
| World.AnsweredThroughAnyRun | backend/internal/store/syncpostgres/repository.go:492-531 | an answered resolution is answered the same after any run of all writers |
| World.NamesAndScopesAreUnique | backend/migrations/0001_initial_schema.sql:451-456 | in every reachable state active categories differ in name and active reminder settings in scope |
| Paging.Pull | backend/internal/store/syncpostgres/repository.go:660-703 | a page: the first entries above the cursor, its last cursor, and whether there are more |
| Paging.PageIsWindow | backend/internal/store/syncpostgres/repository.go:694-702 | a page is exactly the window between its two cursors, and what remains falls by the page size |
| Paging.FollowedIsExact | backend/internal/store/syncpostgres/repository.go:660-703 | following the pages while entries are appended yields exactly the entries above the start cursor, each once and in order |
| Paging.PullAll | backend/internal/sync/service.go:177-204 | the client's loop ends once nobody appends, with everything above its start |
| Paging.History | backend/internal/processing/history.go:28-59 | refuses negative or reversed bounds and limits outside 1 to 500; otherwise the page as specified, from a loop that reads one row more than it keeps |
| Paging.ImportHistory | backend/internal/store/syncpostgres/import.go:525-585 | the import history page, or a refusal when the bounds exceed the family's records |
| Paging.HistoryPageIsWindow | backend/internal/processing/history.go:28-59 | a history page is the window between its cursors within the frozen end: all of it, or exactly the limit, and more exactly then |
| Paging.HistoryMovesForward | backend/internal/processing/history.go:33-57 | the next cursor falls behind the request's if and only if a first page is asked from beyond the newest record |
| Paging.ListingIsExact | backend/internal/processing/history.go:28-59 | the pages of one listing, up to the first that says there is no more, deliver exactly the records above its start that existed when it began |
| Replicas.AboveIsNew | backend/internal/store/syncpostgres/repository.go:149-197 | the entries above a snapshot's cursor are exactly those appended since the snapshot |
| Replicas.ReplicaConverges | backend/internal/store/syncpostgres/repository.go:149-197 | snapshot plus pulled pages, while all writers run, agrees with the server on every version, deletion, parent, expiry, ordinary column and quantity |
| Execution.ExecutionRepository.Begin | backend/internal/store/hapostgres/execution.go:20-43 | inserts a pending row, or returns the row that is there |
| Execution.ExecutionRepository.Complete | backend/internal/store/hapostgres/execution.go:44-61 | moves a pending row of the same command to a terminal status, else affects nothing |
| Execution.AuditRepository.Append | backend/internal/store/hapostgres/audit.go:36-86 | writes the row of the same command, never over a succeeded result |
| Execution.RunKeeps | backend/internal/homeassistant/service.go:415-527 | every interleaving of callers and crashes keeps the invariant and undoes nothing |
| Execution.ClientIsCalledAtMostOnce | backend/internal/homeassistant/service.go:467-487 | over every interleaving the client is called at most once for a request id |
| Execution.LedgerSettlesOnce | backend/internal/store/hapostgres/execution.go:44-61 | a ledger row moves from pending to one terminal status and never again |
| Permits.EveryCallWasPermitted | backend/internal/homeassistant/service.go:425-455 | behind every call in every run stands a caller of that command whose checks all passed: everything found, can_control, the command allowed, the entity controllable and able, the integration reachable |
| Permits.ChecksDecide | backend/internal/homeassistant/service.go:415-455 | the checks case by case: pass on without a trace, or end without ledger row and call, audited as denied, as failed, or not at all |
| Permits.AnswersAreRecorded | backend/internal/homeassistant/service.go:487-527 | accepted is succeeded, refused is rejected, an error is unknown; only an acceptance is audited as succeeded and told |
| Permits.BeginDecides | backend/internal/homeassistant/service.go:467-487 | a new request is claimed, the same succeeded command replayed, any other row ends the caller without a call |
| Permits.FirstTransactionDecides | backend/internal/sync/service.go:868-885 | a pushed command at its first transaction: replayed, refused for its key, rejected for cursor or form, admitted, or an error for its key |
| Execution.AcceptedReceiptMeansDoneOnce | backend/internal/sync/service.go:886-904 | an accepted receipt means, then and ever after: ledger succeeded, exactly one call and it was accepted, audit succeeded |
| Execution.AnotherCommandIsRefused | backend/internal/homeassistant/service.go:471-474 | a request id used for another command is refused without a call |
| Execution.AnsweredCommandIsReplayed | backend/internal/sync/service.go:841-866 | a pushed command that was answered is, after any run, replayed with its first outcome (or its reused key refused again), and ledger, audit, calls and receipts stay as they are |
| Execution.ReusedKeyIsRefused | backend/internal/sync/service.go:857-860 | a key that holds a receipt refuses every other command and keeps its receipt |
| Retries.RetrySettles | backend/internal/homeassistant/service.go:415-478 | once the ledger row says succeeded, a retry ends with the accepted receipt and no further call if and only if it passes its first transaction and all checks again, its audit target is there, its key fits the column, and the audit row of the request is not another command's |
| Retries.WithdrawnPermissionBlocks | backend/internal/homeassistant/service.go:425-436 | a run in which an accepted command is never settled, because the permission is withdrawn before the retry, which is audited as denied |
| Retries.WideKeyBlocks | backend/internal/sync/service.go:649-651 | a run in which a command is carried out under a key that does not fit its column, and never settled |
| Retries.RetryIsBlocked | backend/internal/store/hapostgres/audit.go:62-70 | a run in which a refused command takes the audit row of a request id and an accepted one under the same id is never settled, whatever it is allowed |
| ExecutionStore.House.ReadReplay | backend/internal/sync/service.go:841-866 | the stored outcome or the refusal, read from the receipts in either transaction |
| ExecutionStore.House.CheckOf | backend/internal/homeassistant/service.go:415-455 | permission, capability and integration checks in the code's order: a refusal is audited, a look-up error is not, and neither touches ledger or client |
| ExecutionStore.House.ExecuteCommand | backend/internal/homeassistant/service.go:415-527 | the code's sequence of checks, ledger, client and audit is a run of the protocol under interference, and ledger and client are reached only when the checks pass |
| ExecutionStore.House.ProcessExternalChange | backend/internal/sync/service.go:829-905 | two short transactions around the command: state and reply are those that the specification gives for a pushed command, under interference |
| ExecutionStore.House.Push | backend/internal/sync/service.go:206-248 | changes and commands in order, each processed its own way, up to the first that fails as a whole; the response's cursor is the highest told |
| Inference.RunKeeps | backend/internal/processing/ai.go:80-177 | every interleaving of callers, lost locks and crashes keeps the invariant |
| Inference.ChargedAtMostOnce | backend/internal/processing/ai.go:80-177 | inference runs at most once for a key, and a complete row means exactly one run whose result stays |
| Inference.AnswersAgree | backend/internal/processing/ai.go:105-109 | all answered callers of a key have the same input and get the same result |
| Inference.LaterCallerReads | backend/internal/processing/ai.go:94-109 | a later caller reads the stored result for its input, or an error for another one, and charges nothing |
| Inference.UndisturbedRequestIsAnswered | backend/internal/processing/ai.go:98-177 | a new request with a free lock and slot is charged once and told the provider's result, which is stored |
| Inference.ChargedCallerIsAnswered | backend/internal/processing/ai.go:163-177 | the charged caller is told exactly a result that is stored and known to be |
| Inference.OthersAreTurnedAway | backend/internal/processing/ai.go:98-160 | another input, a held lock, a row that is not fresh or not one's own, no free slot: an error or the stored result, no charge |
| Secrets.RunKeeps | backend/internal/platform/secrets.go:36-86 | every interleaving of starting and crashing processes keeps the published file complete and unchanged |
| Secrets.PublishedOnce | backend/internal/platform/secrets.go:129-163 | once published, the file is complete and never changes |
| Secrets.ProcessesAgree | backend/internal/platform/secrets.go:36-86 | processes that succeed agree on every field that neither overrides |
| Secrets.OverridesWin | backend/internal/platform/secrets.go:23-34 | an explicit value is returned as given |
| Secrets.FirstReadDecides | backend/internal/platform/secrets.go:36-58 | which processes succeed with a file, without one, and with explicit values alone: lengths in bytes, and no published example in production |
| Secrets.InitialisationDecides | backend/internal/platform/secrets.go:59-86 | an initialising process publishes and returns its explicit and generated values exactly when they are good |
| Secrets.FirstProcessInitialises | backend/internal/platform/secrets.go:36-86 | the run of the first process, from its launch to its values |
| Migrations.CheckMigrationSchema | backend/internal/platform/schema_check.go:15-57 | succeeds exactly when every record is known and valid, no version repeats, and every file is recorded |
| Migrations.MatchesIff | backend/internal/platform/schema_check.go:33-57 | a ledger is accepted exactly when each record has version, name and checksum of a file (or the first migration's legacy checksum), every file has one, and none is doubled |
| Migrations.MigrationDatabase.ValidateApplied | backend/internal/platform/migrate.go:209-224 | every applied record must be known and valid; legacy checksums are upgraded |
| Migrations.MigrationDatabase.RecordExecuted | backend/internal/platform/migrate.go:233-262 | the executed file ends up with one valid record, or an error |
| Migrations.MigrationDatabase.ApplyMigration | backend/internal/platform/migrate.go:191-265 | one migration as specified, or ledger and scripts as before |
| Migrations.MigrationDatabase.Run | backend/internal/platform/migrate.go:90-132 | a successful run establishes the schema check, and a run over a checked ledger executes no script |
| Migrations.AppliedKeepsKnown | backend/internal/platform/migrate.go:191-265 | after a successful application all records are known and valid, and the file's version is among them |
| Migrations.AppliedIff | backend/internal/platform/migrate.go:191-292 | one migration succeeds exactly when every record is a file's and the record its script writes is the file's; it runs exactly when its version is not recorded; afterwards every record carries its file's checksum |
| Migrations.LoneRunnerExecutesAll | backend/internal/platform/migrate.go:90-132 | a runner alone on an empty ledger executes every file, in order, and reaches the end |
| Migrations.RunnersExecuteInOrder | backend/internal/platform/migrate.go:90-132 | from an empty ledger any interleaving of runners executes the files in ascending order, each at most once; a finished runner leaves a ledger that passes the check |
| Orientation.FindInTiff | backend/internal/processing/orientation.go:33-69 | the directory loop finds what the header says, within bounds |
| Orientation.JpegOrientation | backend/internal/processing/orientation.go:12-72 | for every byte string it terminates, stays in range and returns 1 to 8 |
| Orientation.HeaderRead | backend/internal/processing/orientation.go:16-70 | for segments without fill bytes the parser returns the first orientation entry of the first EXIF segment that has one, and 1 for a directory of more than 4096 entries |
| Orientation.FilledRead | backend/internal/processing/orientation.go:16-29 | with any number of fill bytes before any segment the file reads as the segments before it say, and without an orientation there as the misread rest gives: 1 when the wrong length passes the end, else what stands after the skip |
| Orientation.FilledIsStillReadIff | backend/internal/processing/orientation.go:16-29 | fill bytes leave the orientation as it is if and only if an earlier segment decides, or the misread rest happens to give what the header says from there on |
| Orientation.FillHidesOrientationIff | backend/internal/processing/orientation.go:16-29 | before an EXIF segment in a file that ends within the 57600 bytes then skipped: harmless if and only if an earlier segment decides, or the header says 1 from there on |
| Orientation.FileRead | backend/internal/processing/orientation.go:12-72 | a whole well-formed file is read as its header says, and as 1 without an orientation |
| Orientation.SixFileRead | backend/internal/processing/orientation.go:12-72 | a file, byte by byte, from which 6 is read |
| Orientation.MapsAreBijections | backend/internal/processing/orientation.go:73-115 | each pixel map is a bijection between the upright and the stored grid; 6 and 8 are inverse, the others their own inverse |
| Orientation.MapsPlaceRowsAndColumns | backend/internal/processing/orientation.go:96-115 | row 0 and column 0 lie where Section 8 of TIFF 6.0 (Orientation) puts them, and the others in order from there |

## Left out

- HTTP handlers, JSON decoding, logging, configuration parsing beyond the secrets, time-zone rules: only their effect (a value, a calendar day) enters the model.
- Authentication, family membership, device registration and permission tables: the resolved device, user and family are parameters.
- Idempotency-record expiry: no insert in the code sets an expiry.
- Labels stored beside a sync receipt (operation, entity): they repeat the change; the receipt keeps the change itself.
- Column defaults of inserts: a row's other columns are one map from names to texts.
- Replies.EntityAcceptedIff: casts, NOT NULL and CHECK constraints of all columns but the name enter as two flags of the patch, one for INSERT and one for UPDATE; lower case is ASCII, where PostgreSQL's depends on the database.
- Replies.PlannedCommandReply: a quantity outside the 32-bit range of the statement's parameter would already fail in the database driver, whose code is not part of this model.
- ImportProtocol.ClearIsConfirmed: lower case is ASCII, where the manifest's repeated names compare by Unicode rules and the table by PostgreSQL's.
- ImportStore.ValidateRows: field names, types, instants, calendar dates and numbers outside the stock columns are one flag of the row.
- ImportStore.ValidateImport: the identity's UUID syntax and the encoding whose length counts are inputs.
- ImportStore.ImportRepository.ValidateTargets: the half of UNSETTLED_REMOTE_SYNC about receipts with status `processing` is left out, since nothing in the code stores that status.
- `initial_quantity` and `status` are outside the replica convergence: allocations do not publish them, and clients do not own them.
- The identity sequence returns to its old value with a rolled-back savepoint; the gaps PostgreSQL leaves are not observable through any property here.
- Change ids of other families share one unique index; a collision enters as a failing statement.
- Ambiguous commits of sync transactions: a commit either happens and is told or does not happen. The Home Assistant and inference protocols do separate the two.
- Serialization failures and their retries: transactions are atomic steps in cursor order.
- The direct path of Home Assistant commands without an execution ledger, which production wiring never takes.
- Decoding of command parameters: the command with its parameters is one value.
- The state that an appliance reports after a command: a receipt keeps the outcome, not the result's payload.
- Texts with U+0000 other than idempotency keys: PostgreSQL refuses them, and the model has none.
- ExecutionStore.House.Push: between the statements of the method other devices push and other commands run; linkage, import and conflict resolution interfere in the specification `Household.Run` only.
- The request to the AI provider, OCR, image decoding and encoding: one call with a result or an error.
- Power loss and disk faults while the secrets file is flushed: processes may crash between any two steps, the file system itself is intact.
- SQL text of migrations and the stripping of their outer transaction: a script's effect is the ledger row it writes, or an error.
- Texts of imported history records: type and quantity are modelled, notes and instants are not.
- ExecutionStore.House.ExecuteCommand: whether the entity supports a command with its parameters, and whether the integration's token can be read, are inputs of the check.
- Inference.RunKeeps: the advisory lock may be lost at any time, so no property depends on it; the semaphore is a choice of each caller.
- Secrets.RunKeeps: the processes are modelled as steps only, without methods over a file-system object.
