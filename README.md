# EstimateMaker core in Dafny

EstimateMaker is a browser application for building millwork and hardware
estimates. An estimate holds project details, line items (quantity × unit
cost), allocations of line-item quantities to buildings, units or areas,
and scope details: inclusions, exclusions, delivery terms and comments.
This project models the logic beneath the user interface and proves
properties about it:

- the records of an estimate and of a voice-parse result (`EstimateTypes`, `VoiceTypes`);
- the derived totals (`Calculations`);
- the provider's snapshot operations, both as pure functions (`Snapshots`)
  and as a class whose methods replace its `estimate` field (`EstimateContext`);
- the in-memory estimate store (`Storage`);
- validation and the five-check readiness panel (`Validation`, `ProgressPanel`);
- the editors' handlers: scope lists, line-item cells, quick-add chips,
  the allocation guard and its suggestions (`ScopeEditor`, `LineItemTable`,
  `QuickAdd`, `AllocationsEditor`);
- the merge of a voice-parse result (`VoiceInput`);
- the grouping and sections of the preview and the PDF (`PdfPreview`, `PdfGenerator`),
  including the `TypeError` the grouping throws on a destination named like an
  `Object.prototype` member, which stops the preview and the PDF.

Shared helpers are in modules of their own:

- `Optional`: `Option`.
- `Sequences`: `filter`, `find`, `findIndex`, `Array.from(new Set(...))`, grouping sizes.
- `Text`: JavaScript `trim`, `replace(/\s+/g, '_')`, decimal rendering, `split('T')[0]`.

Amounts are `real`. Building and unit counts are `int`. A `Partial<T>` argument
is a `*Patch` datatype whose `Option` fields are `None` for an absent key.
Ids and clock readings are parameters.

## Model

| member | source | states |
|---|---|---|
| EstimateTypes.ParseProjectType | src/types/estimate.ts:1 | a string is accepted exactly when it is one of the three project-type literals, and the type read back prints as that string |
| EstimateTypes.ProjectTypeRoundTrip | src/types/estimate.ts:1 | every project type reads back from its literal |
| EstimateTypes.ParseStatus | src/types/estimate.ts:2 | a string is accepted exactly when it is draft, sent or archived, and the status read back prints as that string |
| EstimateTypes.StatusRoundTrip | src/types/estimate.ts:2 | every status reads back from its literal |
| VoiceTypes.ParseKind | src/types/voice.ts:27 | the result tag is accepted exactly when it is one of the four literals |
| VoiceTypes.KindRoundTrip | src/types/voice.ts:27 | every tag reads back from its literal |
| VoiceTypes.DetailsPatch | src/types/voice.ts:9-17 | spoken project details become an estimate patch carrying exactly the spoken fields and no other |
| Calculations.GrandTotalAppend | src/utils/calculations.ts:13-15 | the grand total of no items is 0, and appending an item raises it by exactly that item's total |
| Calculations.GrandTotalConcat | src/utils/calculations.ts:13-15 | the grand total of two lists joined is the sum of their grand totals |
| Calculations.CategorySubtotalAppend | src/utils/calculations.ts:7-11 | an appended item of another category leaves a subtotal unchanged; one of the category adds its total |
| Calculations.CategorySubtotalCons | src/utils/calculations.ts:7-11 | the same for an item placed in front |
| Calculations.SumOfSubtotalsCons | src/utils/calculations.ts:7-15 | over distinct categories, an item in front adds its total to the summed subtotals exactly when its category is listed |
| Calculations.GrandTotalIsSumOfSubtotals | src/utils/calculations.ts:7-15 | over distinct categories naming every category present, the grand total equals the sum of the category subtotals |
| Calculations.AllocationTotalConcat | src/utils/calculations.ts:17-19 | the allocation total is additive over concatenation |
| Calculations.AllocatedQuantityConcat | src/utils/calculations.ts:21-27 | the allocated quantity is additive over concatenation |
| Calculations.UnallocatedAppend | src/utils/calculations.ts:21-27 | with no allocations the unallocated quantity is the item's quantity; each appended allocation lowers it by exactly its quantity |
| Calculations.UnallocatedCanBeNegative | src/utils/calculations.ts:21-27 | the unallocated quantity is not clamped: 1 with 3 allocated gives -2 |
| Snapshots.MergeEstimate | src/contexts/EstimateContext.tsx:31-36 | the merged estimate always carries the current time as `updatedAt`, and an empty patch changes nothing else |
| Snapshots.MergeSequential | src/contexts/EstimateContext.tsx:31-36 | two merges in a row equal one merge of the combined patch, where fields of the later patch win |
| Snapshots.MergeIdempotent | src/contexts/EstimateContext.tsx:31-36 | merging the same patch again changes nothing but the timestamp |
| Snapshots.MergeWholeEstimate | src/contexts/EstimateContext.tsx:31-36 | a patch supplying every field replaces the estimate, but `updatedAt` is still the current time, even over a supplied one |
| Snapshots.WithTotal | src/contexts/EstimateContext.tsx:40-41 | the item with its total rederived as quantity × unitCost and every other field kept |
| Snapshots.AddLineItem | src/contexts/EstimateContext.tsx:38-44 | the estimate gains exactly the re-totalled item at the end of its items; nothing else but `updatedAt` changes |
| Snapshots.AddLineItemKeepsTotals | src/contexts/EstimateContext.tsx:38-44 | adding keeps every stored total consistent and raises the grand total by quantity × unitCost, whatever total was supplied |
| Snapshots.PatchLineItems | src/contexts/EstimateContext.tsx:48-54 | same length; an item with the id is merged and re-totalled, every other item is unchanged |
| Snapshots.UpdateLineItem | src/contexts/EstimateContext.tsx:46-57 | only the line items change, as above, and `updatedAt` is refreshed |
| Snapshots.UpdateLineItemUnknownId | src/contexts/EstimateContext.tsx:46-57 | an unknown id is no error: the items stay equal and only the timestamp moves |
| Snapshots.UpdateLineItemKeepsTotals | src/contexts/EstimateContext.tsx:46-57 | after an update every stored total is consistent, even if the patch supplied a total |
| Snapshots.DeleteLineItem | src/contexts/EstimateContext.tsx:59-65 | the items without the id and the allocations not referring to it remain; nothing else but `updatedAt` changes |
| Snapshots.DeleteLineItemCascades | src/contexts/EstimateContext.tsx:59-65 | no item with the id and no allocation of it is left; every other item and allocation remains; removal distributes over any split, so relative order is kept |
| Snapshots.DeleteLineItemIdempotent | src/contexts/EstimateContext.tsx:59-65 | deleting twice is deleting once |
| Snapshots.AddAllocation | src/contexts/EstimateContext.tsx:67-71 | the allocation is appended verbatim, with no check of its line item, quantity or total |
| Snapshots.PatchAllocations | src/contexts/EstimateContext.tsx:75-77 | same length; an allocation with the id is merged and nothing is re-totalled; every other allocation is unchanged |
| Snapshots.PatchAllocationsConcat | src/contexts/EstimateContext.tsx:75-77 | patching distributes over concatenation |
| Snapshots.UpdateAllocation | src/contexts/EstimateContext.tsx:73-80 | only the allocations change, as above, and `updatedAt` is refreshed |
| Snapshots.DeleteAllocation | src/contexts/EstimateContext.tsx:82-86 | only the allocations change, those with the id removed |
| Snapshots.DeleteAllocationIdempotent | src/contexts/EstimateContext.tsx:82-86 | deleting twice is deleting once, and no allocation with the id remains |
| Snapshots.UpdateScope | src/contexts/EstimateContext.tsx:88-92 | only the scope changes: supplied fields replace the old ones wholesale, the others stay |
| Snapshots.MergeScopeLaws | src/contexts/EstimateContext.tsx:88-92 | the scope merge is idempotent, and an empty scope patch keeps the scope |
| Snapshots.NewEstimate | src/contexts/EstimateContext.tsx:107-128 | id `estimate_<stamp>`; empty collections and scope; Multi-Family with 1 building and 1 unit; draft; bid date is the date part of now; created and updated now |
| EstimateContext.EstimateProvider.constructor | src/contexts/EstimateContext.tsx:25 | no estimate is loaded at first |
| EstimateContext.EstimateProvider.SetEstimate | src/contexts/EstimateContext.tsx:27-29 | the given estimate becomes the current one |
| EstimateContext.EstimateProvider.UpdateEstimate | src/contexts/EstimateContext.tsx:31-36 | with no estimate nothing happens; otherwise the estimate becomes the merge |
| EstimateContext.EstimateProvider.AddLineItem | src/contexts/EstimateContext.tsx:38-44 | a no-op without an estimate; otherwise the snapshot add |
| EstimateContext.EstimateProvider.UpdateLineItem | src/contexts/EstimateContext.tsx:46-57 | a no-op without an estimate; otherwise the snapshot update |
| EstimateContext.EstimateProvider.DeleteLineItem | src/contexts/EstimateContext.tsx:59-65 | a no-op without an estimate; otherwise the cascading delete |
| EstimateContext.EstimateProvider.AddAllocation | src/contexts/EstimateContext.tsx:67-71 | a no-op without an estimate; otherwise the verbatim append |
| EstimateContext.EstimateProvider.UpdateAllocation | src/contexts/EstimateContext.tsx:73-80 | a no-op without an estimate; otherwise the allocation patch |
| EstimateContext.EstimateProvider.DeleteAllocation | src/contexts/EstimateContext.tsx:82-86 | a no-op without an estimate; otherwise the removal by id |
| EstimateContext.EstimateProvider.UpdateScope | src/contexts/EstimateContext.tsx:88-92 | a no-op without an estimate; otherwise the shallow scope merge |
| EstimateContext.EstimateProvider.SaveEstimate | src/contexts/EstimateContext.tsx:94-98 | the current estimate is upserted into the store; the store is untouched when none is loaded |
| EstimateContext.EstimateProvider.LoadEstimate | src/contexts/EstimateContext.tsx:100-105 | a stored estimate with the id becomes the current one; otherwise the current one stays |
| EstimateContext.EstimateProvider.CreateNewEstimate | src/contexts/EstimateContext.tsx:107-130 | the current estimate becomes the new-estimate defaults |
| Storage.FindIndex | src/utils/storage.ts:16 | -1 exactly when no estimate has the id; otherwise the first index with the id |
| Storage.FindIndexIs | src/utils/storage.ts:16 | the first matching index is the only one the search returns |
| Storage.Find | src/utils/storage.ts:34 | none exactly when no estimate has the id; otherwise the first one with it |
| Storage.FindCons | src/utils/storage.ts:34 | the search looks at the head first |
| Storage.SaveThenGet | src/utils/storage.ts:13-35 | after saving an estimate, getting its id yields exactly it |
| Storage.SaveKeepsOthers | src/utils/storage.ts:13-35 | a save does not change what any other id reads |
| Storage.SaveIdempotent | src/utils/storage.ts:16-22 | saving twice leaves the same list as saving once |
| Storage.SaveGrowsIffNew | src/utils/storage.ts:16-22 | the list grows by one exactly when the id was new, and keeps its length exactly when it was stored |
| Storage.SaveKeepsIdsDistinct | src/utils/storage.ts:16-22 | distinct ids stay distinct |
| Storage.DeleteProperties | src/utils/storage.ts:51-56 | after a delete the id is gone, other ids read as before, and deleting again changes nothing |
| Storage.DeleteKeepsOthers | src/utils/storage.ts:51-56 | other ids read as before a delete |
| Storage.EstimateStore.constructor | src/utils/storage.ts:41-49 | the store starts empty, as with no stored data |
| Storage.EstimateStore.SaveEstimate | src/utils/storage.ts:13-29 | the stored list becomes the upsert: replace the first estimate with the id, else append |
| Storage.EstimateStore.GetEstimate | src/utils/storage.ts:31-39 | none exactly when no stored estimate has the id; otherwise the first one with it |
| Storage.EstimateStore.GetAllEstimates | src/utils/storage.ts:41-49 | all stored estimates in order |
| Storage.EstimateStore.DeleteEstimate | src/utils/storage.ts:51-60 | the stored list loses every estimate with the id and keeps the rest in order |
| Validation.BlankMeansTrimsToEmpty | src/utils/validation.ts:11-21 | a name field is blank exactly when it is absent or trims to the empty string |
| Validation.ErrorsUpToSpec | src/utils/validation.ts:8-40 | among the first k rules, the errors are exactly those whose rule fires, each once, in rule order |
| Validation.ValidationErrors | src/utils/validation.ts:8-40 | at most 7 errors; a field has an error exactly when its rule fires; errors come in the fixed field order |
| Validation.ValidateEstimate | src/utils/validation.ts:8-40 | the pushes in turn produce exactly that error list |
| Validation.CompleteDetailsValidate | src/utils/validation.ts:8-40 | non-blank names, a bid date, a project type and counts of at least one give no errors |
| Validation.CountRuleEdges | src/utils/validation.ts:31-37 | for buildings and for units alike: a count of 0 or an absent count gives no error; a negative count gives one |
| Validation.NewEstimateErrors | src/utils/validation.ts:8-40 | a brand-new estimate lacks exactly its project name, client and address, in that order |
| Validation.ReduceTotalsIsGrandTotal | src/utils/validation.ts:49-51 | the file's own left-fold grand total agrees with the shared grand total |
| Validation.IsEstimateCompleteMeans | src/utils/validation.ts:42-47 | complete exactly when there are no errors, at least one line item and a positive grand total |
| ProgressPanel.ProjectDetailsCheckMeans | src/components/estimate/ProgressPanel.tsx:11-19 | the details check is complete exactly when the three names are not blank, a bid date is set and each count is at least 1 or exactly 0 |
| ProgressPanel.ChecksShape | src/components/estimate/ProgressPanel.tsx:14-47 | five checks with the panel's ids in fixed order, and between 0 and 5 of them complete |
| ProgressPanel.ReadyIffAllComplete | src/components/estimate/ProgressPanel.tsx:49-51 | ready exactly when all five checks are complete |
| ProgressPanel.ReadyMeans | src/components/estimate/ProgressPanel.tsx:14-51 | ready exactly when validation reports no errors and there are a line item, a positive grand total, an allocation and a filled scope list |
| ProgressPanel.ReadyIsComplete | src/components/estimate/ProgressPanel.tsx:14-51 | a ready estimate is complete in the validator's sense |
| ProgressPanel.CompleteNotReady | src/components/estimate/ProgressPanel.tsx:36-42 | a complete estimate without allocations or without scope is not ready |
| ScopeEditor.ListPatch | src/components/estimate/ScopeDetailsEditor.tsx:36 | the patch sets the one chosen list and nothing else |
| ScopeEditor.HandleAddItem | src/components/estimate/ScopeDetailsEditor.tsx:32-41 | no update exactly when the value is blank; otherwise a patch of the chosen list alone |
| ScopeEditor.AddItemEffect | src/components/estimate/ScopeDetailsEditor.tsx:32-41 | the trimmed value is appended to the chosen list; the other lists and the comments are unchanged |
| ScopeEditor.DropIndex | src/components/estimate/ScopeDetailsEditor.tsx:45 | the result is never longer than the list |
| ScopeEditor.DropIndexMeans | src/components/estimate/ScopeDetailsEditor.tsx:43-46 | an index in range removes exactly that element and keeps the order of the rest; any other index leaves the list equal |
| ScopeEditor.HandleDeleteItem | src/components/estimate/ScopeDetailsEditor.tsx:43-46 | the patch never touches the comments |
| ScopeEditor.DeleteItemEffect | src/components/estimate/ScopeDetailsEditor.tsx:43-46 | only the chosen list changes, to the list without that index |
| ScopeEditor.Defaults | src/components/estimate/ScopeDetailsEditor.tsx:5-21 | each list has three default entries |
| ScopeEditor.HandleLoadDefaults | src/components/estimate/ScopeDetailsEditor.tsx:48-53 | the patch never touches the comments |
| ScopeEditor.LoadDefaultsEffect | src/components/estimate/ScopeDetailsEditor.tsx:48-53 | the chosen list becomes its defaults, whatever it held; the others stay; loading twice equals loading once |
| ScopeEditor.CommentsChangeEffect | src/components/estimate/ScopeDetailsEditor.tsx:55-58 | a comments edit replaces the comments and nothing else |
| LineItemTable.NewLineItem | src/components/estimate/LineItemTable.tsx:24-32 | id `item_<stamp>`, category General, empty description, quantity 1, unit cost 0, total 0 |
| LineItemTable.NewLineItemAdded | src/components/estimate/LineItemTable.tsx:24-33 | its total already agrees with the recomputation, so adding appends it unchanged and the grand total stays |
| LineItemTable.CategoryNames | src/components/estimate/LineItemTable.tsx:17 | the categories of the items, position by position |
| LineItemTable.CategoriesCover | src/components/estimate/LineItemTable.tsx:17 | every item's category is listed, and only those |
| LineItemTable.CategoriesFirstSeen | src/components/estimate/LineItemTable.tsx:17 | no category is listed twice, and a category seen earlier is listed earlier |
| LineItemTable.GroupsFor | src/components/estimate/LineItemTable.tsx:18-22 | one group per category, in category order, each the group of its category |
| LineItemTable.SubtotalSumIsSumOfSubtotals | src/components/estimate/LineItemTable.tsx:18-22 | the groups' subtotals sum to the category subtotals |
| LineItemTable.GroupMembership | src/components/estimate/LineItemTable.tsx:18-22 | an item is in a group exactly when the group is of its category |
| LineItemTable.GroupsCoverItems | src/components/estimate/LineItemTable.tsx:17-22 | every item has a group of its category, and no two groups share a category |
| LineItemTable.GroupsPartition | src/components/estimate/LineItemTable.tsx:15-22 | each item is in exactly one group, and the subtotals add up to the grand total |
| LineItemTable.AmountOrZero | src/components/estimate/LineItemTable.tsx:52-54 | the amount is 0 exactly when the input does not parse or parses to 0; any other parse is kept |
| LineItemTable.CellEdit | src/components/estimate/LineItemTable.tsx:51-56 | an edit never supplies the id or the total, so the total is always recomputed |
| LineItemTable.FieldChangeEffect | src/components/estimate/LineItemTable.tsx:38-40 | the edit goes through the line-item update: the field is set on the matching items, totals are recomputed, other items are unchanged |
| QuickAdd.CatalogueFacts | src/components/library/QuickAddChips.tsx:4-15 | ten entries, all with a positive unit cost, in the categories Hardware, Doors and Millwork |
| QuickAdd.QuickAddItem | src/components/library/QuickAddChips.tsx:22-30 | id `quick_<stamp>`, quantity 1, category, description and unit cost copied from the entry |
| QuickAdd.QuickAddEffect | src/components/library/QuickAddChips.tsx:22-32 | the supplied total agrees with the recomputation; a click appends exactly that item and raises the grand total by the unit cost |
| AllocationsEditor.HandleAddAllocation | src/components/estimate/AllocationsEditor.tsx:22-47 | rejected exactly when no line item has the selected id; otherwise rejected exactly when the quantity exceeds the unallocated quantity, else the new allocation is priced at quantity × unit cost |
| AllocationsEditor.AllocatedAfterAppend | src/components/estimate/AllocationsEditor.tsx:26-29 | an appended allocation adds its quantity to its own line item's allocated quantity and to no other |
| AllocationsEditor.AcceptedAddKeepsCapacity | src/components/estimate/AllocationsEditor.tsx:26-34 | an accepted add keeps every line item within its quantity |
| AllocationsEditor.AddWithinCapacity | src/components/estimate/AllocationsEditor.tsx:26-34 | an allocation that fits beside the ones already made keeps every item within its quantity |
| AllocationsEditor.AfterAdd | src/components/estimate/AllocationsEditor.tsx:22-50 | a rejected add leaves the estimate unchanged; an accepted one is the estimate with the new allocation appended and `updatedAt` now, and nothing else changed |
| AllocationsEditor.Repriced | src/components/estimate/AllocationsEditor.tsx:69-72 | the updates with only the total replaced: the final quantity times the unit cost |
| AllocationsEditor.HandleUpdateAllocation | src/components/estimate/AllocationsEditor.tsx:52-74 | as written: rejected when the allocation or its line item is missing, or when the quantity is supplied, non-zero and above the free share plus its own quantity; otherwise the repriced updates |
| AllocationsEditor.HandleUpdateAllocationChecked | src/components/estimate/AllocationsEditor.tsx:52-74 | as intended: the same, but the bound is the share the other allocations leave free |
| AllocationsEditor.CheckedUpdateKeepsCapacity | src/components/estimate/AllocationsEditor.tsx:59-72 | an update the corrected check accepts keeps every line item within its quantity |
| AllocationsEditor.CapacityAfterPatch | src/components/estimate/AllocationsEditor.tsx:59-72 | patching one allocation whose new quantity fits beside its siblings keeps every item within its quantity |
| AllocationsEditor.UpdateAsWrittenBound | src/components/estimate/AllocationsEditor.tsx:59-67 | the as-written check bounds the allocated quantity only by the item's quantity plus the allocation's previous quantity |
| AllocationsEditor.UpdateOverAllocates | src/components/estimate/AllocationsEditor.tsx:59-67 | an item of 10 with one allocation of 4: the as-written check accepts raising it to 14, which leaves 14 allocated; the corrected check refuses it |
| AllocationsEditor.HandleDeleteAllocation | src/components/estimate/AllocationsEditor.tsx:76-80 | without confirmation nothing changes; with it the result is the estimate with the allocations of that id removed and `updatedAt` now, and nothing else changed; no allocation is added |
| AllocationsEditor.AllGroups | src/components/estimate/AllocationsEditor.tsx:83-86 | one group per line item, in line-item order |
| AllocationsEditor.AllocationsByLineItem | src/components/estimate/AllocationsEditor.tsx:83-87 | exactly the shown groups — those with an allocation or something unallocated — each the group of its line item |
| AllocationsEditor.AllocationsByLineItemSnoc | src/components/estimate/AllocationsEditor.tsx:83-87 | groups follow line-item order: one more item adds its group at the end exactly when it is shown |
| AllocationsEditor.AllocationIsGrouped | src/components/estimate/AllocationsEditor.tsx:83-87 | an allocation of an existing line item shows up in that item's group |
| AllocationsEditor.Numbered | src/components/estimate/AllocationsEditor.tsx:93-98 | n labels |
| AllocationsEditor.NumberedLabels | src/components/estimate/AllocationsEditor.tsx:93-98 | the i-th label is the prefix followed by i + 1 |
| AllocationsEditor.PushNumbered | src/components/estimate/AllocationsEditor.tsx:93-98 | the loop appends the numbered labels 1 to n, none when n < 1 |
| AllocationsEditor.GetAllocationSuggestions | src/components/estimate/AllocationsEditor.tsx:90-104 | Multi-Family and Townhome: buildings, then units, then the three shared areas, buildings + units + 3 labels in all; any other type: the five fixed labels |
| VoiceInput.VoiceLineItem | src/components/voice/VoiceInput.tsx:68-75 | category Voice Input; description, quantity and unit cost copied; total consistent; confidence and review flag dropped |
| VoiceInput.VoiceLineItems | src/components/voice/VoiceInput.tsx:68-75 | one line item per parsed item, in order |
| VoiceInput.OutcomeOf | src/components/voice/VoiceInput.tsx:96-104 | the shown outcome: the trimmed message, the no-information error, or the parser's error or its default |
| VoiceInput.ProcessResult | src/components/voice/VoiceInput.tsx:61-104 | the provider's estimate becomes the stepwise merge and the outcome is as above |
| VoiceInput.FailureChangesNothing | src/components/voice/VoiceInput.tsx:101-104 | a failed parse changes nothing and shows the parser's error when it is a non-empty string, and the default when it is absent or empty |
| VoiceInput.NothingFoundChangesNothing | src/components/voice/VoiceInput.tsx:96-100 | success with no fragment changes nothing and shows the no-information error; a fragment gives a report |
| VoiceInput.ItemsAppended | src/components/voice/VoiceInput.tsx:65-77 | the parsed items are appended in order after the existing ones, allocations are untouched, and consistent totals stay consistent |
| VoiceInput.DetailsAndScopeMerged | src/components/voice/VoiceInput.tsx:83-94 | spoken details overwrite exactly the spoken fields, spoken scope replaces exactly its fields; id, creation time and status stay; any update refreshes `updatedAt` |
| VoiceInput.MessageNamesFragments | src/components/voice/VoiceInput.tsx:62-97 | the report is the fragments in the order items, details, scope, with only the final space trimmed |
| VoiceInput.ItemsReportedWithoutEstimate | src/components/voice/VoiceInput.tsx:65-80 | without a loaded estimate nothing is merged, yet the message still begins with the added-items fragment |
| PdfPreview.DescriptionRule | src/components/pdf/PDFPreview.tsx:10-16 | the description is that of the first line item with the id, or "" when there is none |
| PdfPreview.DescribeAll | src/components/pdf/PDFPreview.tsx:14-17 | every allocation with its description, in order |
| PdfPreview.Locations | src/components/pdf/PDFPreview.tsx:11 | the destinations, position by position |
| PdfPreview.GroupKeysAreDistinctLocations | src/components/pdf/PDFPreview.tsx:9-13 | the groups are created for the distinct destinations in first-seen order |
| PdfPreview.GroupAtIsFilter | src/components/pdf/PDFPreview.tsx:9-18 | a group is the described allocations of its destination, in original order |
| PdfPreview.GroupingOf | src/components/pdf/PDFPreview.tsx:6-21 | the grouping throws exactly when some destination is a name inherited from `Object.prototype`, and it throws at the first such allocation |
| PdfPreview.GroupAllocations | src/components/pdf/PDFPreview.tsx:6-21 | the loop gives exactly `GroupingOf`: the group map with its keys in creation order, or the throw at the first inherited name |
| PdfPreview.GroupingPartitions | src/components/pdf/PDFPreview.tsx:6-21 | when the grouping does not throw: the groups are those of the keys; every allocation is in its destination's group; groups hold only their destination's allocations; the keys are distinct; group sizes add up to the number of allocations |
| PdfPreview.ConstructorDestinationThrows | src/components/pdf/PDFPreview.tsx:11-14 | a single allocation to "constructor" makes the grouping throw at its first allocation |
| PdfPreview.GroupKeysNonEmpty | src/components/pdf/PDFPreview.tsx:36-38 | there is a group exactly when there is an allocation |
| PdfPreview.SectionsShown | src/components/pdf/PDFPreview.tsx:36-38 | the preview renders exactly when no destination is an inherited name, and then the allocation section of line 128 shows exactly when there are allocations |
| PdfPreview.PreviewCategoriesAddUp | src/components/pdf/PDFPreview.tsx:28-34 | categories once each in first-seen order, each subtotal the sum of its items' totals, and the subtotals add up to the grand total |
| PdfGenerator.TableData | src/utils/pdfGenerator.ts:62-67 | one row per line item in item order, not grouped by category |
| PdfGenerator.RowTotalsAddUp | src/utils/pdfGenerator.ts:80 | the printed grand total is the sum of the printed row totals |
| PdfGenerator.AllocData | src/utils/pdfGenerator.ts:105-110 | one row per allocation of the group, in group order |
| PdfGenerator.TablesFor | src/utils/pdfGenerator.ts:100-121 | one table per listed destination, in that order, holding that destination's group |
| PdfGenerator.RowCountIsGroupSizes | src/utils/pdfGenerator.ts:100-121 | the tables hold as many rows as the groups hold allocations |
| PdfGenerator.AllocationSection | src/utils/pdfGenerator.ts:91-121 | in a saved document: tables exactly when there are allocations; distinct destinations; each row's destination is its table's; as many rows as allocations |
| PdfGenerator.Bullets | src/utils/pdfGenerator.ts:135-162 | one bulleted line per stored entry, in order |
| PdfGenerator.BulletsInStoredOrder | src/utils/pdfGenerator.ts:135-162 | removing the bullets gives back the stored list |
| PdfGenerator.ScopeSectionAlways | src/utils/pdfGenerator.ts:124-162 | a saved document prints all three scope lists, always, with exactly the stored entries |
| PdfGenerator.LineItemSection | src/utils/pdfGenerator.ts:62-86 | a saved document's rows are the line items and its grand total is the sum of the rows |
| PdfGenerator.FileNameSuffix | src/utils/pdfGenerator.ts:165 | the file name is the collapsed project name followed by `_Estimate.pdf` |
| PdfGenerator.FileNameHasNoWhitespace | src/utils/pdfGenerator.ts:165 | the file name holds no white space |
| PdfGenerator.FileNameKeepsPlainName | src/utils/pdfGenerator.ts:165 | a name without white space is kept as it is |
| PdfGenerator.FileNameCollapsesRun | src/utils/pdfGenerator.ts:165 | a run of white space of any length becomes one underscore |
| PdfGenerator.GeneratePdf | src/utils/pdfGenerator.ts:6-166 | the outcome of building the sections in page order is `DocumentOf(e)`: nothing saved when the grouping throws |
| PdfGenerator.DocumentOf | src/utils/pdfGenerator.ts:91-98 | no document is saved exactly when some allocation's destination is a name inherited from `Object.prototype`, since the call then rejects before `doc.save` |
| Text.Trim | src/utils/validation.ts:11 | the result is a slice of the input with only white space before and after it, its own ends are not white space, so exactly the leading and trailing white space is removed; empty exactly when the input is all white space; unchanged when the input is already trimmed |
| Text.TrimIdempotent | src/utils/validation.ts:11 | trimming twice is trimming once |
| Text.TrimOneTrailingSpace | src/components/voice/VoiceInput.tsx:97 | a message starting with a non-space and ending in ". " trims to itself without its last character |
| Text.CollapseRemovesWhitespace | src/utils/pdfGenerator.ts:165 | the replacement leaves no white space |
| Text.CollapseNotLonger | src/utils/pdfGenerator.ts:165 | the replacement never lengthens the name |
| Text.CollapseWordRun | src/utils/pdfGenerator.ts:165 | a word followed by a run of white space becomes the word and one underscore |
| Text.DatePart | src/contexts/EstimateContext.tsx:113 | the longest prefix without `T`, ending just before the first `T` |
| Sequences.FirstIndex | src/utils/storage.ts:16 | `findIndex`: -1 exactly when nothing passes, otherwise the first passing index |
| Sequences.Filter | src/contexts/EstimateContext.tsx:61-62 | `filter`: no longer than the input, only passing elements, every passing element kept |
| Sequences.FilterPositions | src/contexts/EstimateContext.tsx:61-62 | the kept elements, duplicates included, sit at strictly increasing positions of the input: relative order is kept |
| Sequences.DistinctFirstSeenOrder | src/components/estimate/LineItemTable.tsx:17 | `Array.from(new Set(...))` lists the elements in order of first occurrence |

## Left out

- **React rendering, hooks and local UI state.** Editing ids, form buffers and visibility flags are left out. The `alert` dialog becomes a `Reject` decision; the `confirm` dialog becomes the `confirmed` argument of `HandleDeleteAllocation`. Two conditions of the preview's markup are not modelled: the grand-total bar shown only when `lineItems.length > 0` (`src/components/pdf/PDFPreview.tsx:117`) and the scope section shown only when some scope list is non-empty (`src/components/pdf/PDFPreview.tsx:160-162`).
- **`processVoiceInput` and audio recording.** The parser behind `processVoiceInput` (network, MediaRecorder) is not part of this model. The merge starts from a given parse result.
- VoiceInput.ProcessResult: applies the three steps one after the other. In the component, each `updateEstimate`/`updateScope` call closes over the same pre-merge `estimate`, so under React's scheduling a later step may spread the old estimate over an earlier step's result. That scheduling is not modelled.
- **One timestamp per call.** Each operation takes a single `now`. The repeated `new Date()` calls of `createNewEstimate` are taken to read the same instant.
- **Browser storage.** `localStorage` and JSON (de)serialisation are left out: the store is an in-memory sequence. The debounced auto-save timer is timing behaviour.
- **PDF layout.** jsPDF layout (fonts, colours, `yPos`), `toFixed(2)` currency formatting and number-to-string conversion are left out. The document keeps quantities, totals, buildings and units as numbers.
- **Numbers.** IEEE doubles, NaN and the internals of `parseFloat`/`parseInt` are left out. Amounts are exact reals, and a cell edit's parse is given as an `Option<real>`.
- **Generated ids and clock readings.** `Date.now()`, `Math.random()` and `new Date()` are parameters.
- **Key order.** JavaScript objects enumerate integer-like keys first. `groupAllocations` is modelled with first-seen key order. The inherited names of a plain `{}` are modelled (`PdfPreview.Inherited`); other object-key behaviour is not.
- **Display strings.** The `details` strings of the progress checks are left out, and so are the alert texts other than the available quantity.
- **ProjectDetailsForm.** It only forwards field edits to `updateEstimate`, which is modelled.
- **The `\|\| []` fallback.** The scope editor applies it to lists that are always present, so it is not modelled.
- AllocationsEditor.UpdateAsWrittenBound: covers only patches that leave `lineItemId` alone (the component's edit form never sends one), and states the bound only when the allocation's previous quantity is not negative. With a negative previous quantity, reachable because `parseInt("-3") || 1` is -3 and `min="1"` does not stop typed input, an absent or zero new quantity breaks the bound.
- AllocationsEditor.CheckedUpdateKeepsCapacity: covers only patches that leave `lineItemId` alone, for the same reason.
- **The two copies of `groupAllocations`.** `src/utils/pdfGenerator.ts:168-183` is a copy of the preview's `groupAllocations`. Both are modelled by `PdfPreview.GroupAllocations`.
- **Thin files.** `src/App.tsx` (view switching), `src/components/common/Logo.tsx`, `vite.config.ts` and `tailwind.config.js` are not part of this model.

## Findings

| source | as written | input that shows it | evidently intended | confidence | as-written member | corrected member |
|---|---|---|---|---|---|---|
| src/components/estimate/AllocationsEditor.tsx:59-67 | the update bound is the free share of the other allocations plus the allocation's own quantity, but that free share already includes the allocation's own quantity, which is therefore counted twice | a line item of quantity 10 with a single allocation of 4, updated to quantity 14: the bound is (10 − 0) + 4 = 14, so the update passes and 14 of 10 are allocated | refuse a new quantity above the quantity the other allocations leave free (10 here) | not executed | AllocationsEditor.HandleUpdateAllocation, AllocationsEditor.UpdateOverAllocates | AllocationsEditor.HandleUpdateAllocationChecked, AllocationsEditor.CheckedUpdateKeepsCapacity |
