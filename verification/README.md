# Milana ERP: data repair, release and capacity tools

A verified model of the operational tools of the Milana ERP. The tools repair stock and catalog
data, switch releases and set capacity limits, and most of them consist of a planner, an
executor and a checker over explicit state. The model states what the three promise each other
and proves it. `dafny verify dfyconfig.toml` checks everything.

| files | what they model |
|---|---|
| `Base`, `Sorting`, `Json` | sums, ordered dictionaries, sorting by distinct keys, JSON values and the integers the tools accept |
| `FabricPlan`, `FabricPlanner`, `FabricActions`, `FabricReports`, `FabricConservation`, `FabricCover` | planning the fabric reconciliation: loops, actions, reports, conservation of kg, reservation cover |
| `FabricProjection`, `FabricRolls` | projecting a plan before anything is applied, and its roll counts |
| `FabricApply`, `FabricLedger`, `FabricVerify`, `FabricAudit`, `FabricExecution`, `FabricRun` | executing a plan through the inventory handlers, auditing two snapshots, keeping the ledger; runs of any document |
| `FabricAtomic` | applying plans concurrently: lock, handler commits, crashes, at most once |
| `Closure`, `Deletion` | the foreign-key closure of a cleanup and its leaf-first deletion |
| `CorrectionMerge`, `CorrectionRecords`, `CorrectionFill`, `CorrectionPlan`, `CorrectionRun`, `CorrectionCatalog` | the additive correction of imported models: merge, fill, paid operations, names, plan, apply, plan again |
| `Slots`, `Retention` | the blue-green slot manager with failures at every step, and pruning of old releases |
| `PriceExport`, `PriceImport` | the reviewed price manifest, matching it to models, applying it |
| `Gate` | the readiness gate over all interleavings of callers and probe threads |
| `LegacyImport` | the resumable stock import with crashes and reruns |
| `LiveStockBuild`, `LiveStockRead`, `LiveStockImport` | building the stock manifest, reading it, its import in one transaction, and the readback |
| `Budget` | connection limits of database roles, and clients that come and go |

How the model is cut:

- A database is a value (maps and sequences of rows) held by a class whose methods are the
  transactions. Loops of the tools are loops here, proved against a function of their input.
- External steps (containers, the router, files, a lock, a thread that starts or not) succeed or
  fail at will. Of the inventory handlers the model has what touches weights, counts, colours,
  archiving, movements and reservations, and the conflicts and request types that make them refuse.
- SHA-256 digests, text normalisers and the receipt evidence of a provenance block are function
  parameters.
- Weights are integers in ten-thousandths of a kilogram, the scale the planner rounds to; prices
  are real numbers, with the rounding of the price column written out.

Some properties one would expect of these tools do not hold of the code as it is. For these the
model proves exactly when they hold, and gives a case where they fail:

- An installation over a running router reports success while traffic still goes to the old
  slot (`Slots.InstallAgreesExactly`).
- A failed activation can have changed the record (`Slots.FailedActivateChangesRecordExactly`).
- A plan that leaves an invalid roll count blank is then refused by the projection
  (`FabricRolls.PreparedExactly`), although the audit would accept its execution.
- A restoration that lists another colour is carried out without it, and then refused by the
  audit (`FabricRun.RowsPassExactly`).
- A price with more than four decimals is planned again after every run
  (`PriceImport.ReplanIsEmptyExactly`), and the display texts of an exported identity may depend
  on the order of the cards (`PriceExport.DisplayUnorderedExactly`).
- Legacy record ids are compared in full by the profile and cut to 128 characters by the import,
  so a row can be passed over (`LegacyImport.AddsProfiledQuantityExactly`) and a rerun be refused
  (`LegacyImport.PreflightAgainExactly`); texts that cleaning changes are added twice after a
  crash, or stop the rerun (`LegacyImport.StableIsNeeded`).
- An explicit null among the stored sections counts as missing and is replaced
  (`CorrectionMerge.MergeReplacesExactly`).
- The stock manifest builder writes rows that its importer refuses: items without pieces
  (`LiveStockBuild.BuildPackage`) and items that only the importer's normal form takes for the same
  (`LiveStockBuild.ItemsDifferExactly`).

## Model

| member | source | states |
|---|---|---|
| FabricPlanner.Build | ops/plan_current_fabric.py:67-155 | The planning loops give exactly the specified plan, and list as preserved the batches no update names |
| FabricPlanner.Planner.UpdateBatch | ops/plan_current_fabric.py:83-97 | Only differing values are written; every open reservation of a batch taken below what is held is released, or the plan fails when the target is not zero |
| FabricPlanner.Planner.AssignSegment | ops/plan_current_fabric.py:124-140 | A segment takes its best free candidate, or becomes a receipt |
| FabricPlanner.Planner.PlanGroup | ops/plan_current_fabric.py:99-145 | A group is stopped with its reason and changes nothing, or is planned completely |
| FabricPlanner.PickCandidate | ops/plan_current_fabric.py:128-130 | The candidate chosen is the one the sort by colour, exact weight and newest id puts first |
| FabricActions.ChosenIs | ops/plan_current_fabric.py:128-130 | A chosen batch is free, of the item and not archived; no other such batch beats it on colour, then exact weight, then id |
| FabricActions.NoneChosen | ops/plan_current_fabric.py:128-131 | No batch is chosen exactly when none is free, of the item and not archived |
| FabricActions.StopsExactly | ops/plan_current_fabric.py:99-117 | A group is stopped exactly for a missing or negative weight, else for stock without a batch number, else for a row that names no item |
| FabricActions.ItemKgConserved | ops/plan_current_fabric.py:103-155 | Per item, existing or new, the batches and receipts of a group end with exactly the kg of the rows that name it |
| FabricActions.ActionsGrounded | ops/plan_current_fabric.py:119-142 | Every action bears the number of its group and is the receipt of a segment, on its item and with the texts of its first row, or the update of a stocked batch, which takes a segment of its own item or goes to zero |
| FabricActions.PlanFailsExactly | ops/plan_current_fabric.py:83-97 | Planning fails exactly when some group asks for an update that a guard refuses |
| FabricReports.ReportedExactly | ops/plan_current_fabric.py:99-144 | The outcomes are exactly those of the groups carried out, in order, with the kg and rolls of their rows, and the exceptions exactly the stopped groups with their reason and the groups with a roll count left blank, each under the number of its group |
| FabricConservation.SegmentsCarriedOut | ops/plan_current_fabric.py:99-155 | Whatever is summed over batches with stock, a group that is not stopped ends up as one batch per segment, with its weight and its roll count; every other group is untouched |
| FabricConservation.KgConserved | ops/plan_current_fabric.py:99-155 | A group that is not stopped ends with exactly the kg of its rows; every other group of batches is untouched |
| FabricConservation.OutcomeMet | ops/plan_current_fabric.py:143-144 | Every reported outcome belongs to one carried-out group, names exactly its rows, and equals both their sum and the planned weight |
| FabricConservation.UpdatedOnce | ops/plan_current_fabric.py:148-149 | No batch is updated twice, so the assertion on repeated ids cannot fail |
| FabricConservation.ChooseBest | ops/plan_current_fabric.py:128-130 | The chosen batch is an unused live batch of the item that no other candidate beats |
| FabricConservation.SegmentsConserve | ops/plan_current_fabric.py:121-125 | Grouping the resolved rows into segments keeps the kg of the group |
| FabricCover.StaysCovered | ops/plan_current_fabric.py:83-97 | A batch that held enough for its open reservations still does after the planned updates and releases |
| FabricCover.ReleasedIffEmptied | ops/plan_current_fabric.py:88-93 | A reservation is released if and only if something is outstanding on it and its batch goes to zero; the release is of all of it |
| FabricProjection.Prepare | ops/run_current_fabric.py:31-41 | The projection dictionary is built action by action and accepted exactly when every outcome has its target weight and its target rolls |
| FabricProjection.WeighGroup | ops/run_current_fabric.py:38-41 | The kilograms and the live rolls over the dictionary values of one supplier and normalised batch number |
| FabricProjection.ProjectTotal | ops/run_current_fabric.py:31-41 | Whatever is summed over weights and roll counts, the projected dictionary has, per group, what the plan makes of it |
| FabricProjection.ProjectionMeetsTargets | ops/run_current_fabric.py:36-39 | Projecting a plan onto its own snapshot gives every outcome exactly its target, so the kg assertion cannot fail |
| FabricRolls.PreparedExactly | ops/run_current_fabric.py:40-41 | The assertion on rolls holds of a planned outcome if and only if the rolls of the segments whose count is left blank add up to nothing |
| FabricRolls.HalfRollStopsThePlan | ops/run_current_fabric.py:40-41 | The concrete row, planned without an error, whose plan the projection refuses |
| FabricRolls.OutcomeRolls | ops/apply_fabric_continuation.py:147-149 | A carried-out group ends with the rolls of its rows but for those left blank, and if all its stock is counted none was left blank |
| FabricLedger.Session.ExecuteEntry | ops/apply_fabric_continuation.py:41-73 | One action through its handler, with the weights before and after; a receipt or restoration that is not positive is refused |
| FabricLedger.Session.ExecutePlan | ops/apply_fabric_continuation.py:21-74 | Releases first, then every action in order; the first failure stops the run |
| FabricLedger.AuditMovements | ops/apply_fabric_continuation.py:112-126 | The counting loop accepts exactly the movement part of the audit |
| FabricVerify.Verify | ops/apply_fabric_continuation.py:77-156 | The audit: its loops over old rows, new rows, movements, reservations, outcomes and the total accept exactly what every one of its checks does |
| FabricAtomic.OnlyAuditedCommits | ops/apply_fabric_continuation.py:184-210 | Over every interleaving of runs, handler commits, failures and crashes, durable stock and log change only in a final commit: from the captured stock to the executed plan that passed the audit, together with its log entry |
| FabricAtomic.AtMostOnce | ops/apply_fabric_continuation.py:194-208 | Over every interleaving a plan is committed at most once, and is on the log exactly when it has been |
| FabricAtomic.OneAtATime | ops/apply_fabric_continuation.py:187-193 | At most one run is between its lock and its end |
| FabricAtomic.CallsArePerformed | ops/apply_fabric_continuation.py:198-206 | When all handler calls of a run are done its pending stock is what executing the plan gives |
| FabricAtomic.Perform | ops/apply_fabric_continuation.py:198-206 | The executor class gives the same stock, changes and failure |
| FabricAtomic.OrdinaryCommitsLeak | ops/apply_fabric_reconciliation.py:25-27 | Why handler commits are turned into flushes: with an ordinary session a failed run leaves rows behind without audit or log entry |
| FabricAudit.NewBatches | ops/apply_fabric_continuation.py:88-100 | The new batches of accepted changes are exactly those the receipts created |
| FabricAudit.MovementBelongs | ops/apply_fabric_continuation.py:114-126 | Every new movement belongs to a changed batch whose weight differs |
| FabricAudit.LedgerBalanced | ops/apply_fabric_continuation.py:112-126 | If the audit accepts what was recorded and every batch equalled its signed movements before, it does afterwards if and only if every movement has the sign of its change |
| FabricAudit.HistoryKept | ops/apply_fabric_continuation.py:112-125 | Old movements are unchanged, and a new one has the absolute weight difference of a changed batch |
| FabricAudit.TotalFollows | ops/apply_fabric_continuation.py:155-156 | Total kg moves by exactly the sum of the recorded differences; the last check follows from the others |
| FabricExecution.ExecutionAccepted | ops/apply_fabric_continuation.py:77-164 | Executing a plan on the stock it was made from never fails and passes every check of the audit, the comparison of roll counts included |
| FabricExecution.PlanUnopposed | backend/app/models/inventory/stock_service.py:1048-1176 | The guards of the planner are enough: no update it plans is refused by its handler for stock held, recorded lengths or fabric out |
| FabricExecution.ExecutedAdditive | ops/apply_fabric_continuation.py:41-73 | Every change execution records has a movement of the right sign, receipts and restorations included |
| FabricExecution.ExecutedRecorded | ops/apply_fabric_continuation.py:41-73 | What execution records is true of the stock before and after |
| FabricExecution.ExecutionKeepsLedger | ops/apply_fabric_continuation.py:77-164 | Any document whose execution passes the audit leaves balanced ledgers balanced |
| FabricLedger.Session.ReservedOn | backend/app/models/inventory_service.py:239-287 | What live reservations hold on a batch, summed over the table |
| FabricRun.RunsExactly | ops/apply_fabric_continuation.py:21-74 | Whether a document goes through can be told from the stock: exactly when every reservation named is live and as noted, and every action finds its batch or item and conflicts with nothing, the reservations released before it not counted |
| FabricRun.RunLeaves | ops/apply_fabric_continuation.py:21-74 | What any run leaves, restorations included: each batch written as asked, each receipt a new batch, each reservation named with all of it released, one movement per difference in weight, and nothing else |
| FabricRun.RowsPassExactly | ops/apply_fabric_continuation.py:77-101 | The row checks of the audit accept a run exactly when no restoration asks for another colour and no update leaves a batch at zero that was live |
| FabricRun.RunKeepsLedger | ops/apply_fabric_continuation.py:41-73 | Any run that goes through, audited or not, keeps balanced ledgers balanced |
| FabricExecution.PlanKeepsLedger | ops/apply_fabric_continuation.py:77-164 | So balanced ledgers stay balanced whenever a plan of the planner is applied |
| Closure.ExactIsLeast | ops/delete_bso_through_0038.py:61-76 | The rows reached from the seeds are the least set containing them that is closed under every foreign key |
| Closure.Follow | ops/delete_bso_through_0038.py:63-72 | One edge: refused exactly by a row of an unreviewed table, else the referring rows are added |
| Closure.Traverse | ops/delete_bso_through_0038.py:61-76 | When the traversal stops by itself the targets are exactly the rows reached and no unreviewed row refers to one; the pass limit is only met when a row is at least 30 references away |
| Deletion.CheckMixed | ops/delete_bso_through_0038.py:91-99 | The check passes exactly when, for every edge between touched tables, the rows going alone are the reviewed exceptions |
| Deletion.NothingSharedIsCut | ops/delete_bso_through_0038.py:91-99 | Then no reference between touched tables joins a row that goes and a row that stays, but for the exceptions |
| Deletion.LeafOrder | ops/delete_bso_through_0038.py:209-215 | The loop ends; it succeeds if and only if the tables have no cycle of references besides self-references, and then lists each table once, children first |
| Deletion.EveryDeleteSafe | ops/delete_bso_through_0038.py:216-218 | For closed targets, between any two DELETEs every reference is served and no row that stays refers to a row that goes next |
| Deletion.Store.Delete | ops/delete_bso_through_0038.py:217 | A DELETE is refused exactly when a row that stays refers to one that goes |
| Deletion.Store.DeleteAll | ops/delete_bso_through_0038.py:216-218 | No statement is refused, every row count is as planned exactly when the targets exist, and what is left is the database without them |
| Deletion.Store.CleanUp | ops/delete_bso_through_0038.py:61-218 | Traversal, mixed-reference check, order and deletion together go through exactly on convergence, reviewed exceptions and no cycle, and then leave exactly the rows not reached from the seeds |
| Json.ReadsExactlyItsText | backend/scripts/correct_old_erp_models_local.py:144-155 | A text counts as the integer n exactly when, blanks aside, it is how n is written |
| CorrectionMerge.Provenance.MergeCompleteSections | backend/scripts/correct_old_erp_models_local.py:1077-1152 | The merge succeeds if and only if the stored sections are a part of the desired ones; the flag says whether anything changed |
| CorrectionMerge.MergeRows | backend/scripts/correct_old_erp_models_local.py:1125-1151 | One section of rows: accepted exactly when every stored row is also desired |
| CorrectionMerge.MergeReachesDesired | backend/scripts/correct_old_erp_models_local.py:1077-1152 | The result equals the desired object on every known field, ids compared as integers |
| CorrectionMerge.MergeIdsExactly | backend/scripts/correct_old_erp_models_local.py:1104-1125 | An id list that reads as the desired ids is kept as it is written; any other is written anew |
| CorrectionMerge.MergeReplacesExactly | backend/scripts/correct_old_erp_models_local.py:1077-1152 | Of compatible sections a value other than the id list stays or only gains rows if and only if it is not a section stored as null |
| CorrectionMerge.NullSectionReplaced | backend/scripts/correct_old_erp_models_local.py:1106-1151 | A section stored as null is compatible with every desired one and gets replaced |
| CorrectionMerge.MergeGains | backend/scripts/correct_old_erp_models_local.py:1077-1152 | The stored block as a whole only gains, its id list still naming every id |
| CorrectionMerge.MergeIdempotent | backend/scripts/correct_old_erp_models_local.py:1077-1152 | Merging a merged object is possible and changes nothing |
| CorrectionRecords.CanonicalPaidOperations | backend/scripts/correct_old_erp_models_local.py:735-758 | Succeeds exactly when every stage is known and no two different rows share an id; the result is the specified list |
| CorrectionRecords.PaidOperationsAre | backend/scripts/correct_old_erp_models_local.py:735-758 | The list is sorted and holds the row of every operation and nothing else |
| CorrectionRecords.PaidOperationsUnique | backend/scripts/correct_old_erp_models_local.py:735-758 | Neither the order of the records nor repeated operations matter |
| CorrectionRecords.CollisionExactly | backend/scripts/correct_old_erp_models_local.py:744-748 | The collision error fires exactly when the id prefixes of the digests do not tell the operations apart |
| CorrectionRecords.RowTellsOperation | backend/scripts/correct_old_erp_models_local.py:702-732 | A stored row keeps everything of its operation but how the order was written, and goes to the section of its stage |
| CorrectionFill.Details.FillMissingGeneral | backend/scripts/correct_old_erp_models_local.py:1175-1206 | The loop over the twelve field pairs fills, reports conflicts and preserves as specified, in place |
| CorrectionFill.FilledExactly | backend/scripts/correct_old_erp_models_local.py:1188-1206 | A value goes to a place exactly when it is the only one the records give and nothing but white space is stored there; any other place keeps what it has, and is reported when it differs from an agreed value |
| CorrectionFill.FilledAt | backend/scripts/correct_old_erp_models_local.py:1188-1206 | A place is filled exactly when the records agree on one value and it is empty; several values are a conflict, another stored value is preserved |
| CorrectionFill.FillAddsOnly | backend/scripts/correct_old_erp_models_local.py:1175-1206 | Every stored value that is not blank stays and nothing is removed |
| CorrectionFill.FillIdempotent | backend/scripts/correct_old_erp_models_local.py:1175-1206 | Filling again finds nothing to fill; conflicts and preserved values are reported as before |
| CorrectionFill.ValuesAre | backend/scripts/correct_old_erp_models_local.py:1185-1190 | The values considered are those some record states and that are not blank, each once |
| CorrectionFill.Details.FillMissingPaidOperations | backend/scripts/correct_old_erp_models_local.py:1209-1225 | Only a missing list is filled, in place, with the reported status |
| CorrectionFill.PaidFillStable | backend/scripts/correct_old_erp_models_local.py:1209-1225 | A second fill changes nothing and a stored list is never replaced |
| CorrectionFill.PaidFilledExactly | backend/scripts/correct_old_erp_models_local.py:1209-1225 | The list is filled if and only if there is none under either name, a null counting as none; the status says which case it was |
| CorrectionPlan.BuildCorrectedDetails | backend/scripts/correct_old_erp_models_local.py:1228-1254 | Merge, fill and paid operations in sequence: possible exactly when none of them refuses, with the specified document |
| CorrectionPlan.CorrectionIdempotent | backend/scripts/correct_old_erp_models_local.py:1228-1254 | Correcting a corrected document is possible and changes nothing |
| CorrectionPlan.CorrectionReaches | backend/scripts/correct_old_erp_models_local.py:1228-1254 | A corrected document carries the desired sections, every general value the records agree on where it had none, and the paid operations if it had no list |
| CorrectionPlan.PayloadHolds | backend/scripts/correct_old_erp_models_local.py:1041-1071 | The desired sections hold, for every record, what the record says |
| CorrectionPlan.PayloadHoldsOnly | backend/scripts/correct_old_erp_models_local.py:1041-1071 | They hold nothing else and name the records in ascending order |
| CorrectionPlan.SourceIdsExactly | backend/scripts/correct_old_erp_models_local.py:1021-1040 | The sources can be read exactly when both lists are there, every row names a positive id, and there is a row |
| CorrectionPlan.SourceIdsAre | backend/scripts/correct_old_erp_models_local.py:1021-1040 | The sources of a model are exactly the ids its master or other records name, each once and in order |
| CorrectionPlan.CorrectionGains | backend/scripts/correct_old_erp_models_local.py:1228-1254 | The document only gains: nothing is removed, sections gain rows, filled values stay, everything else is equal |
| CorrectionPlan.GainsTransitive | backend/scripts/correct_old_erp_models_local.py:1228-1254 | What several corrections gain is no more than what one may gain |
| CorrectionPlan.NameDecisionStable | backend/scripts/correct_old_erp_models_local.py:1284-1345 | A name changes only for a created model, only from its imported name, only to a product of its records, and not again |
| CorrectionPlan.RenamedExactly | backend/scripts/correct_old_erp_models_local.py:1284-1345 | A model is renamed if and only if the import created it, it still has its imported name, and the name is the product of its records, fits and differs |
| CorrectionPlan.DecidesExactly | backend/scripts/correct_old_erp_models_local.py:1291-1332 | When the name decision is refused |
| CorrectionRun.PlanModelCorrection | backend/scripts/correct_old_erp_models_local.py:1359-1438 | The plan of one model, with every refusal |
| CorrectionRun.PlannedExactly | backend/scripts/correct_old_erp_models_local.py:1359-1438 | A model has a plan if and only if code, provenance, sources, the three correction steps, the name decision and the bounds allow it |
| CorrectionRun.PlanRenamesExactly | backend/scripts/correct_old_erp_models_local.py:1384-1412 | A planned model gets another name if and only if it was created, has its imported name, and its records name that product |
| CorrectionRun.PlanReachesRecord | backend/scripts/correct_old_erp_models_local.py:1359-1438 | The planned document holds, in all four sections, what each source record of the model says |
| CorrectionRun.PlanModelStable | backend/scripts/correct_old_erp_models_local.py:1359-1438 | A corrected model can be planned again from the same sources and has nothing left to do |
| CorrectionRun.PlanModelIsSafe | backend/scripts/correct_old_erp_models_local.py:1359-1438 | Code and images stay, a name changes only from the imported one, and the values of the document only gain |
| CorrectionCatalog.Catalog.Compile | backend/scripts/correct_old_erp_models_local.py:1609-1892 | The compiled plan: refused exactly by a changed shape or row count, ready exactly when every linked model can be planned, listing exactly the models with something to do |
| CorrectionCatalog.LinkedPlanExactly | backend/scripts/correct_old_erp_models_local.py:1625-1778 | A linked model gets exactly the plan of its own when every source record it names is in the manifest, backed by evidence and free of operations that cannot be listed, and none otherwise |
| CorrectionCatalog.Catalog.Apply | backend/scripts/correct_old_erp_models_local.py:2100-2211 | Whatever plan is given, code and images stay, only created models change their name and only from the imported one, documents only gain; the plan just compiled, when ready, is applied in full |
| CorrectionCatalog.ReplanIsEmpty | backend/scripts/correct_old_erp_models_local.py:1727-1780 | Applying a ready plan and compiling again gives a ready plan without actions |
| CorrectionCatalog.CorrectionsSafe | backend/scripts/correct_old_erp_models_local.py:2174-2210 | A ready plan leaves code, images and unlisted models alone, renames only created models, and the values of every document only gain |
| Slots.Vm.Activate | deploy/slotctl.py:281-300 | Every way an activation can end, with any external step failing |
| Slots.StepsAreActivations | deploy/slotctl.py:281-300 | Every step of a run is an activation for some answers of the external commands |
| Slots.ActivateSucceedsExactly | deploy/slotctl.py:281-300 | An activation succeeds exactly when router and slot run, the record is not of the other role and nothing fails; then all three name the slot |
| Slots.StepsAreInstallations | deploy/slotctl.py:237-265 | Every step of a run is an installation for some answers |
| Slots.InstallSucceedsExactly | deploy/slotctl.py:237-265 | An installation succeeds exactly when nothing it asks for fails, with the host it then leaves |
| Slots.StepsAreStagings | deploy/slotctl.py:132-175 | Every step of a run is a staging for some answers |
| Slots.StageSucceedsExactly | deploy/slotctl.py:132-175 | Staging succeeds exactly when the slot is not the recorded one and nothing fails, with the host it then leaves |
| Slots.Vm.Install | deploy/slotctl.py:237-265 | Every way an installation can end |
| Slots.Vm.Stage | deploy/slotctl.py:132-175 | Every way staging can end; refused exactly for the slot the record names |
| Slots.AgreesUnlessUpset | deploy/slotctl.py:132-300 | In every run record, proxy file and router agree on a slot that runs, unless a switch failed half way, or a router was installed over a running one, and no activation has gone through since |
| Slots.ActivateSettles | deploy/slotctl.py:281-300 | Any activation that gets as far as the record brings the three together again |
| Slots.FailedActivateChangesRecordExactly | deploy/slotctl.py:281-300 | A failing activation changes the record if and only if every step up to writing it succeeds and it does not hold this very switch already |
| Slots.RepeatedSwitchKeepsRecord | deploy/slotctl.py:291-299 | It holds this very switch exactly when the pair is both active and its own rollback |
| Slots.FailedReportChangesRecord | deploy/slotctl.py:291-300 | The concrete failed activation that has changed the record |
| Slots.FailedSwitchUpsetsExactly | deploy/slotctl.py:281-300 | A failed switch leaves an agreeing host agreeing exactly when it was to the slot already active |
| Slots.InstallAgreesExactly | deploy/slotctl.py:254-265 | An installation that reports success leaves record and router agreeing exactly when no router ran or it already served that slot |
| Slots.InstallOverRunningRouter | deploy/slotctl.py:254-265 | The concrete case where they differ |
| Slots.StageSparesServing | deploy/slotctl.py:132-145 | While record and router agree staging never touches the serving container |
| Slots.StageHitsServingExactly | deploy/slotctl.py:132-145 | Staging can remove the serving container exactly when the record does not name it |
| Slots.StageAfterFailedSwitch | scripts/rf013_local_rehearsal.py:678-694 | The concrete case after a failed switch |
| Slots.RollbackIsPrevious | deploy/slotctl.py:291-299 | In every run the record names the last pair activated and, as rollback, the pair before it |
| Retention.ProtectedReleases | scripts/release_retention.py:51-64 | Protected are the newest releases, the current one and those the record names |
| Retention.ProtectedMeans | scripts/release_retention.py:51-64 | Exactly the protected releases: one of the newest, the current one, or one the record names |
| Retention.LastAreNewest | scripts/release_retention.py:52-53 | The last entries of the sorted names are those with fewer than `keep` later ones |
| Retention.Store.ArchiveRelease | scripts/release_retention.py:67-84 | Success exactly when the manifest checks out and the archive, reused or newly written, has the member count of every file and the manifest |
| Retention.Store.RemoveRelease | scripts/release_retention.py:113-115 | A release is archived, then its directory removed |
| Retention.Store.Prune | scripts/release_retention.py:94-128 | It goes through exactly when it may start and every release to remove can be archived and removed, and stops at the first that cannot; a protected release is never removed, archives are never replaced |
| Retention.PruneSite | scripts/release_retention.py:87-131 | A prune of the tool is a prune of a run |
| Retention.AlwaysCovered | scripts/release_retention.py:104-128 | In every run of switches, publications and prunes the active, rollback and current release stay on disk |
| Retention.PruneKeepsNewest | scripts/release_retention.py:51-64 | A prune leaves the newest releases, and they are still the newest |
| PriceImport.PlanImport | backend/scripts/apply_catalog_variant_prices.py:64-122 | Matched are exactly the models a row names: those of its identity, or else the only model with its variant number if no other row has it; a row that names none is missing; a match is settled exactly when price and currency are right |
| PriceImport.CandidatesAre | backend/scripts/apply_catalog_variant_prices.py:84-92 | The models found through the two dictionaries are those the row names |
| PriceImport.IndexModels | backend/scripts/apply_catalog_variant_prices.py:65-73 | The two dictionaries hold, per key, exactly the models with it in reading order |
| PriceImport.AtMostOneRow | backend/scripts/apply_catalog_variant_prices.py:84-95 | With unique keys, exact and unique-variant matches together never give one model to two rows |
| PriceImport.EachModelGetsItsPrice | backend/scripts/apply_catalog_variant_prices.py:111-122 | Applying sets each matched model to the price of its only row and leaves every other model alone |
| PriceImport.Erp.Apply | backend/scripts/apply_catalog_variant_prices.py:247-268 | All planned prices are written, or none when a column cannot hold one |
| PriceImport.StoredIs | backend/app/schemas/catalog/catalog.py:67-70 | What the column keeps of a price is the nearest multiple of its last decimal, halves away from zero |
| PriceImport.ReplanIsEmptyExactly | backend/scripts/apply_catalog_variant_prices.py:111-122 | Planning again finds nothing to update exactly when every price written fits four decimals; otherwise just those rows come back |
| PriceImport.FifthDecimalComesBack | backend/app/schemas/catalog/catalog.py:67-70 | The concrete row that is planned again after every run |
| PriceExport.BuildManifest | backend/scripts/export_catalog_variant_prices.py:162-246 | Refuses exactly on an unannounced change of size; otherwise the specified manifest |
| PriceExport.PricedExactly | backend/scripts/export_catalog_variant_prices.py:192-224 | An identity is priced by a row if and only if the usable cards of the identity, in reading order, are its sources, the price is that of all of them or else of all visible ones, and the card shown is the first visible one at the price or else the first |
| PriceExport.UnresolvedExactly | backend/scripts/export_catalog_variant_prices.py:194-212 | The identities left unresolved are the others with usable cards |
| PriceExport.ManifestOrdered | backend/scripts/export_catalog_variant_prices.py:194 | Prices and conflicts come in the order of model and variant |
| PriceExport.ManifestMeans | backend/scripts/export_catalog_variant_prices.py:194-224 | Each identity is priced once or unresolved, never both, and a price is that of every visible card of the identity |
| PriceExport.ResolveMeans | backend/scripts/export_catalog_variant_prices.py:194-215 | Unresolved exactly when the cards differ and the visible ones differ or are none |
| PriceExport.ExcludedExactly | backend/scripts/export_catalog_variant_prices.py:173-191 | A card is excluded exactly when it lacks identity, positive price or dollars, for the first reason that applies |
| PriceExport.OutcomeUnordered | backend/scripts/export_catalog_variant_prices.py:192-215 | Identities, prices and resolutions depend on which cards there are, not on their order |
| PriceExport.ShownBySomeOrder | backend/scripts/export_catalog_variant_prices.py:214 | A card is shown in some order of the cards if and only if it is a visible one at the price, or there is none and it is any |
| PriceExport.DisplayUnorderedExactly | backend/scripts/export_catalog_variant_prices.py:214 | The texts shown for an identity are the same in every order if and only if those cards bear the same texts |
| PriceExport.DisplayDependsOnOrder | backend/scripts/export_catalog_variant_prices.py:214 | Two cards of one identity and price that are spelled differently show one spelling or the other |
| PriceExport.CardsConserved | backend/scripts/export_catalog_variant_prices.py:167-224 | Every card is excluded with a reason or listed as a source of one identity |
| PriceExport.ExportNeverClaimsTwice | backend/scripts/export_catalog_variant_prices.py:192-224 | Exported keys are unique, so no ERP model is claimed by two rows of an exported manifest |
| Gate.Service.StepCaller | backend/app/main.py:141-168 | The next atomic step of a caller |
| Gate.Service.StepProbe | backend/app/main.py:151-160 | The next atomic step of a probe thread |
| Gate.OneLiveProbe | backend/app/main.py:141-168 | Over all interleavings at most one call owns the slot, so at most one probe is at work |
| Gate.AcquiresMatchReleases | backend/app/main.py:144-166 | Every acquire is matched by one release, by the probe or by the failed start |
| Gate.ReleasesAreOwned | backend/app/main.py:159-165 | The slot is never released while free |
| Gate.TrueMeansOwnProbe | backend/app/main.py:168 | A call answers true only if its own probe succeeded and finished before its wait ended |
| Gate.TrueExactly | backend/app/main.py:141-168 | A call has answered true if and only if its own probe succeeded and it came to answering |
| Gate.FalseExactly | backend/app/main.py:141-168 | A call has answered false if and only if its probe did not succeed, its wait timed out, its thread did not start, or the slot was held when it came |
| Gate.TimeOutMeansLate | backend/app/main.py:168 | A wait only times out while the probe has not signalled its end |
| Gate.HealthyIsReady | backend/app/main.py:141-168 | From any state with a free slot, a caller whose probe succeeds in time is answered true, and the slot is free again |
| Gate.CallerNeverBlocked | backend/app/main.py:144-168 | A caller that has not returned can always go on by itself |
| Gate.StuckProbeKeepsOthersOut | backend/app/main.py:141-168 | While one probe hangs no other starts and every call not admitted before answers false |
| Gate.ThreadsMayOverlap | backend/app/main.py:158-160 | Two probe threads may exist for a moment, since the slot is released before completion is signalled |
| LegacyImport.ProfileRows | backend/scripts/import_legacy_ready_stock.py:152-188 | Refuses exactly blank or repeated ids and unusable quantities; else sums what is available |
| LegacyImport.Importer.RunImport | backend/scripts/import_legacy_ready_stock.py:230-466 | Whatever happens during a run, the committed database is that of the first rows of the input; the reported counts are those of new receipts and of contradicted ones |
| LegacyImport.RowsBooked | backend/scripts/import_legacy_ready_stock.py:333-457 | After a run every row with a new receipt has its package and stock, in its color, size and quantity, on a model of its code that has both |
| LegacyImport.ModelsCreated | backend/scripts/import_legacy_ready_stock.py:333-362 | A model is only created when no model counts under the code |
| LegacyImport.RunsExactly | backend/scripts/import_legacy_ready_stock.py:307-457 | With stable texts a run goes through if and only if the package numbers of the new rows are free and differ |
| LegacyImport.RunAgain | backend/scripts/import_legacy_ready_stock.py:307-331 | A run over what a crashed run committed gets as far as the farther of the two |
| LegacyImport.CrashAndRerun | backend/scripts/import_legacy_ready_stock.py:266-466 | For texts that survive cleaning up to case, crashing anywhere, any number of times, and completing gives the database of one uninterrupted run; a further run only skips |
| LegacyImport.PreflightAgainExactly | backend/scripts/import_legacy_ready_stock.py:280-305 | After any run, crashed or completed, the checksum preflight passes again if and only if the first and the last row of every stored id have the same checksum |
| LegacyImport.LongIdsBlockReruns | backend/scripts/import_legacy_ready_stock.py:280-305 | Two rows whose ids differ only past the stored length make a completed import impossible to run again |
| LegacyImport.AddsProfiledQuantityExactly | backend/scripts/import_legacy_ready_stock.py:307-331 | A first import adds exactly the profiled quantity if and only if no row with pieces repeats a stored id |
| LegacyImport.ZeroQuantityExactly | backend/scripts/import_legacy_ready_stock.py:52-61 | The check for a positive whole number passes exactly the fractions up to a millionth as zero |
| LegacyImport.StableIsNeeded | backend/scripts/import_legacy_ready_stock.py:266-278 | Of any two new rows with the same texts, a crash between them and a second run give the database of one run if and only if the texts survive cleaning up to case |
| LiveStockBuild.NormalizeSizeRows | ops/build_old_erp_live_stock_manifest.py:73-84 | Fractions are reported, or every quantity is its exact share and they add up to the target; the last check fires exactly for a quantity that is not positive |
| LiveStockBuild.PiecesConserved | ops/build_old_erp_live_stock_manifest.py:154-156 | Aggregating per model, variant and size keeps the total |
| LiveStockBuild.MakeItems | ops/build_old_erp_live_stock_manifest.py:154-176 | One item per key in order, refused exactly for an unknown identity or a wrong total |
| LiveStockBuild.BuildPackage | ops/build_old_erp_live_stock_manifest.py:112-197 | Refused exactly when the audit does not support the package; its row passes the quantity checks exactly when its candidate quantity and, for a direct query, the pieces of every aggregated item are positive |
| LiveStockBuild.BuiltExactly | ops/build_old_erp_live_stock_manifest.py:113-176 | What the audit must hold: no direct query against a package without live pieces; else a direct query whose pieces add up and whose items all have a target, or sizes of a single model with whole, positive shares of the live total and targets |
| LiveStockBuild.RowReads | ops/build_old_erp_live_stock_manifest.py:127-197 | Quantity, source, correction flag and colour of a row: the total of the direct query or the live one, the first colour stated |
| LiveStockBuild.RowItems | ops/build_old_erp_live_stock_manifest.py:154-176 | The items of a row are the models, variants and sizes of its source, each once and in order, for the target of its identity, with the pieces queried or the exact share of the live total |
| LiveStockBuild.ItemWithoutPieces | ops/import_old_erp_live_stock.py:132-178 | A directly queried item without pieces is built into a row that the importer refuses |
| LiveStockBuild.ItemsDifferExactly | ops/import_old_erp_live_stock.py:179-181 | The importer finds no item twice if and only if its normal form keeps apart the models, variants and sizes the package is made from |
| LiveStockBuild.TwoSpellings | ops/import_old_erp_live_stock.py:179-181 | Two spellings of one size are built into a row that the importer refuses |
| LiveStockBuild.BuildManifest | ops/build_old_erp_live_stock_manifest.py:97-199 | It succeeds if and only if plan and live report list the same QRs and the audit supports every package; then every QR is in exactly one of rows and held packages, held exactly when the live report has none |
| LiveStockRead.ValidateRow | ops/import_old_erp_live_stock.py:146-194 | A row is refused by the first check that fails, and by none exactly when its quantities, source, flag and items fit and no item comes twice in the importer's normal form |
| LiveStockRead.ReadManifest | ops/import_old_erp_live_stock.py:197-244 | A manifest is read exactly when every row is, no package comes twice, the totals stated are those of the rows, and held packages come once and apart |
| LiveStockRead.RowIsReadExactly | ops/import_old_erp_live_stock.py:146-194 | A built row is read exactly when its candidate quantity is positive, the pieces of every directly queried item are, texts and targets are stated, and the normal form keeps its items apart |
| LiveStockRead.BuildAndRead | ops/build_old_erp_live_stock_manifest.py:97-235 | Whatever is built is read back exactly when every package with live pieces agrees with the importer in these; nothing else in the file can fail |
| LiveStockImport.Readback | ops/import_old_erp_live_stock.py:454-513 | The loop accepts exactly the states in which counts, evidence, items and stock fit the rows |
| LiveStockImport.ImportedExactly | ops/import_old_erp_live_stock.py:349-433 | An import adds, under the next ids in order, each row with its receipt, package, alias and scan and every item and its stock on the model of its identity, and nothing else |
| LiveStockImport.AcceptedHolds | ops/import_old_erp_live_stock.py:454-513 | What the readback accepts holds every row as the import writes it |
| LiveStockImport.ImportIsAccepted | ops/import_old_erp_live_stock.py:349-433 | Different rows, none of them in the target, are all imported and the readback accepts the result |
| LiveStockImport.AcceptedMeans | ops/import_old_erp_live_stock.py:489-507 | What the readback accepts has, per package, the items of the row and the same stock as multisets, and what is available adds up to the package total |
| LiveStockImport.Target.Apply | ops/import_old_erp_live_stock.py:557-567 | A manifest with different QRs is committed exactly when all models are resolved and the target is free of collisions, and only once it read back; otherwise nothing changes |
| Budget.ValidatePolicy | scripts/connection_budget.py:18-38 | Accepts exactly the valid policies |
| Budget.Plan | scripts/connection_budget.py:67-89 | Refuses exactly the servers that do not fit; else the limits a rollback needs |
| Budget.PlannedExactly | scripts/connection_budget.py:67-121 | Planner and guard agree: a plan is made exactly when the guard would let it through there and then and the administrators leave enough free |
| Budget.PoolsAreServed | scripts/connection_budget.py:28-30 | The limit of the ERP role is what its workers can open: it refuses exactly the connections past their pools |
| Budget.Postgres.Transact | scripts/connection_budget.py:92-126 | Exactly the target limits change, or nothing does |
| Budget.BudgetHolds | scripts/connection_budget.py:31-32 | After an apply, whatever connects and disconnects, application clients leave margin and reserve free |
| Budget.RollbackRestores | scripts/connection_budget.py:154-166 | Apply, any comings and goings and a successful rollback leave every limit as it was |
| Budget.RollbackGoesThroughExactly | scripts/connection_budget.py:104-107 | The rollback goes through exactly when no role has more clients than its old limit |

## Left out

- FabricExecution.ExecutionAccepted: the audit's comparison of items, suppliers and other reference tables is left out, and no target may exceed the weight a request may state.
- Of the inventory handlers: permissions, item categories, inactive items, warehouses, cost rounding, idempotency keys, and a tolerance of a billionth in comparisons of weights, which here are whole.
- Reading the fabric workbooks, dates, the alias table, creating and reactivating items, images, planning summaries and the supplemental rows of the audit.
- FabricPlanner.Build: takes rows and a table of item names as given; names and batch numbers are compared with ASCII letters in upper case, other letters as they are; the text of exceptions and the other fields of the plan document are not part of this model.
- In the cleanup: rows found by text after the traversal, the one-off counts and ids, the trigger that is replaced and restored, fingerprints, and ON DELETE actions (none would ever fire, by `Deletion.EveryDeleteSafe`).
- Deletion.LeafOrder: the order of the tables taken in one round is arbitrary here; the source sorts them by name.
- JSON values are compared structurally; Python also equates true with 1.
- The receipt evidence behind a provenance block, the document size limits and the comparison of manifest and receipt scopes are parameters of the correction plan; the re-read after the flush is not modelled.
- CorrectionCatalog.Catalog.Apply: a failed run is rolled back by its caller; what is stated about the rows also holds of a run that stops half way.
- The legacy service that an installation may stop, the health paths, ports and the fixed connection budget of the slots.
- LegacyImport.Importer.RunImport: brands, warehouses, scan logs and generated ids are left out; rows are numbered in the order they are created. Dry runs are left out.
- LiveStockBuild.BuildManifest: the rows are not sorted by QR number here.
- Of reading a stock manifest: cleaning of texts, the form of QR codes and package numbers, fixed fields, file digests and the blank-weight rule; resolving and creating hidden models, growing the sizes of a model, the primary model, and the colours of packages, items and stock that the import writes.
- LiveStockImport.Readback: sorted lists are compared as multisets, and barcodes without regard to letter case are compared exactly.
- Price amounts that are not finite, the text of a price, the report files, `verify_snapshot` and loading the catalogs.
- SQL text, HTTP, SSH, argument parsing, timestamps, audit log entries.
- A probe thread that is killed instead of raising: it counts as one that raised.
