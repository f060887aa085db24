# IDRISSI.OS catalogue core in Dafny

This project models the logic core of IDRISSI.OS, a back office for a
perfume and cosmetics production house. The core consists of three parts.

**The three in-memory catalogue stores.** Each store keeps the whole list of
records and a derived "visible" list, and every action rewrites the list and
recomputes the visible part.

- Products (`Products.ProductStore`): status, collection, tags, prices and a
  derived margin.
- Raw materials (`Materials.MaterialStore`): certifications and a supplier status.
- Manufacturers (`Manufacturers.ManufacturerStore`): an archived flag, a row
  selection, dialog flags, notes and files.

Each store is a class whose fields are the store's state. Each action is a
method that states the new state through a pure list function on the old one.

Every refiltering method keeps the invariant `Synced()`: the visible list is
the filter of the whole list under the current settings. The filter itself is
characterised as an order-preserving subsequence containing exactly the
records that pass every active criterion.

The three stores disagree with each other, and each is modelled as written:

- Tag and certification filters: any-of for products and manufacturers,
  all-of for materials.
- Bulk add certification: appends a duplicate for materials, a set union for
  manufacturers.
- "Archived": a status value for products and materials (the material
  `isArchived` flag is never consulted), a flag for manufacturers.
- Hiding archived records: only the manufacturer filter does it.

**The translation function `t`** (`I18n`): optional namespace prefixing, a
lookup in the English table that falls back to the bare key, and `{name}`
parameter substitution. Substitution replaces the first occurrence only and
honours the `$` patterns of JavaScript's `String.prototype.replace`.

**The string and path rules beside the stores:**

- SKU normalisation and validation, and the duplicate-free tag entry of the
  product form (`ProductForm`).
- Comma-separated bulk-tag parsing, tag-filter toggling, clearing and the
  "is filtering" test of the product control bar (`ProductControlBar`).
- The active, expanded and highlighted predicates of the sidebar menu
  (`Sidebar`).

JavaScript string and list primitives are modelled once, in `Text`
(upper and lower case, `startsWith`, `indexOf`, `replace`, `trim`, `split`)
and `Lists` (`filter`, `map`, `includes`-guarded append, `new Set`
de-duplication, toggling).

Four behaviours of the code that are easy to miss, each modelled as written:

- `calculateMargin` guards on the cost price, not the retail price. A zero
  retail price with a non-zero cost therefore divides by zero, and the margin
  is modelled as a percentage or a signed infinity.
- Toggling an element twice gives back the original list only when the element
  was absent. When it was present, the element ends up moved to the end
  (`Lists.ToggleTwiceMovesToEnd`). This applies to both the product tag filter
  and the manufacturer row selection.
- `removeWarehouse` and `addNoteToProduct` do not recompute the visible product
  list, so those two methods do not promise `Synced()`.
- The manufacturer store starts with the whole seed visible, archived entries
  included. It is in sync only when no seed entry is archived.

## Model

| member | source | states |
|---|---|---|
| Products.CalculateMargin | IDRISSI.OS/lib/products/product-store.ts:279-282 | a zero cost gives margin 0 whatever the retail price; a non-zero cost with a zero retail price gives no finite margin; with both prices non-zero the margin is the whole number nearest to (retail − cost) / retail × 100, halves rounded up |
| Products.MarginBounds | IDRISSI.OS/lib/products/product-store.ts:279-282 | selling at or above a positive cost gives a margin between 0 and 100 |
| Products.MarginExample | IDRISSI.OS/lib/products/product-store.ts:279-282 | cost 10 and retail 25 give margin 60 |
| Products.FilterProducts | IDRISSI.OS/lib/products/product-store.ts:285-314 | the visible products are an order-preserving subsequence holding exactly the products that pass search (name or SKU, case-insensitive), status, collection and any-of tag filters, each passing product as often as in the list |
| Products.NoCriteriaShowsAll | IDRISSI.OS/lib/products/product-store.ts:65-71 | with no filter set every product is visible, in order |
| Products.TagFilterAnyOf | IDRISSI.OS/lib/products/product-store.ts:309-311 | one tag shared with the filter is enough to pass it |
| Products.FilterStaged | IDRISSI.OS/lib/products/product-store.ts:285-314 | the successive narrowing of the list, stage by stage and skipping inactive filters, ends at the single combined filter |
| Products.NewProduct | IDRISSI.OS/lib/products/product-store.ts:93-108 | the added product carries the given id, a margin agreeing with its own prices, and every other field as supplied |
| Products.Merge | IDRISSI.OS/lib/products/product-store.ts:124 | supplied fields win and the others are kept (shown for id and prices); the margin is kept, and a patch supplying nothing changes nothing |
| Products.UpdatedMargin | IDRISSI.OS/lib/products/product-store.ts:114-124 | when a price is supplied the new margin is computed from the merged prices (a price not supplied keeps its stored value); with neither supplied the margin is kept |
| Products.UpdateProducts | IDRISSI.OS/lib/products/product-store.ts:110-133 | only the products with the id change: they receive the patch and the recomputed margin; length and order are kept |
| Products.UpdateUnknownId | IDRISSI.OS/lib/products/product-store.ts:110-133 | an update for an id no product carries leaves the list as it was |
| Products.ArchiveListed | IDRISSI.OS/lib/products/product-store.ts:165-173 | status "archived" on exactly the listed products; length, order and every other field unchanged |
| Products.ArchiveListedIdempotent | IDRISSI.OS/lib/products/product-store.ts:165-173 | archiving the same ids twice equals archiving once |
| Products.Copy | IDRISSI.OS/lib/products/product-store.ts:143-163 | a copy has the fresh id, name + " (Copy)", SKU + "-COPY", status draft, and all other fields equal to the original |
| Products.FindById | IDRISSI.OS/lib/products/product-store.ts:145 | nothing is found iff no product has the id; otherwise the result is the first product with it |
| Products.DuplicateFirst | IDRISSI.OS/lib/products/product-store.ts:143-163 | an unknown id changes nothing; otherwise the unchanged list followed by the copy, under the new id, of the first product with the id |
| Products.Listed | IDRISSI.OS/lib/products/product-store.ts:177 | the listed products, in list order, each as often as in the list, and only those |
| Products.DuplicateListed | IDRISSI.OS/lib/products/product-store.ts:175-192 | the unchanged list followed by one copy of each listed product, in list order |
| Products.DuplicateListedUnknown | IDRISSI.OS/lib/products/product-store.ts:175-192 | when no listed id is present, bulk duplication changes nothing |
| Products.DeleteListed | IDRISSI.OS/lib/products/product-store.ts:252-257 | exactly the products whose id is not listed remain, in original order and each as often as before |
| Products.DeleteThenUpdate | IDRISSI.OS/lib/products/product-store.ts:110-133 | after a product is deleted, an update of its id changes nothing |
| Products.ChangeCollectionListed | IDRISSI.OS/lib/products/product-store.ts:231-236 | the collection is overwritten on the listed products only; nothing else changes |
| Products.AddTagsListed | IDRISSI.OS/lib/products/product-store.ts:238-250 | each listed product gets the union of its tags and the new tags, each once, in order of first occurrence in the old tags followed by the new ones; other products and other fields are untouched |
| Products.AddTagsKeepsOldTagsFirst | IDRISSI.OS/lib/products/product-store.ts:238-250 | a listed product with duplicate-free tags keeps its old tags first, followed by the new tags not already present, each once |
| Products.AddTagsIdempotent | IDRISSI.OS/lib/products/product-store.ts:238-250 | adding the same tags twice equals adding them once |
| Products.ClearWarehouse | IDRISSI.OS/lib/products/product-store.ts:222-229 | products in the removed warehouse get an empty warehouse name; nothing else changes |
| Products.AddNoteListed | IDRISSI.OS/lib/products/product-store.ts:259-275 | the note is put in front of the notes of the products with the id; nothing else changes |
| Products.SkuTaken | IDRISSI.OS/lib/products/product-store.ts:194-197 | true iff some product other than the current one carries the SKU |
| Products.OwnSkuIsUnique | IDRISSI.OS/lib/products/product-store.ts:194-197 | a SKU no other product holds is free for the product holding it, and taken for a new product |
| Products.UpdateKeepsMarginsConsistent | IDRISSI.OS/lib/products/product-store.ts:110-133 | if every margin agrees with its prices before an update, the same holds after |
| Products.AdditionsKeepMarginsConsistent | IDRISSI.OS/lib/products/product-store.ts:93-108 | adding, duplicating and bulk-duplicating keep every margin in agreement with its prices |
| Products.OtherActionsKeepMarginsConsistent | IDRISSI.OS/lib/products/product-store.ts:165-275 | the remaining list actions keep every margin in agreement with its prices |
| Products.ProductStore.constructor | IDRISSI.OS/lib/products/product-store.ts:65-71 | the seed list, fully visible, with no filter set, in sync |
| Products.ProductStore.ApplyFilters | IDRISSI.OS/lib/products/product-store.ts:285-314 | recomputes the visible list, changing nothing else |
| Products.ProductStore.SetSearchTerm | IDRISSI.OS/lib/products/product-store.ts:73-76 | the search term is replaced and the view is back in sync |
| Products.ProductStore.SetStatusFilter | IDRISSI.OS/lib/products/product-store.ts:78-81 | the status filter is replaced and the view is back in sync |
| Products.ProductStore.SetCollectionFilter | IDRISSI.OS/lib/products/product-store.ts:83-86 | the collection filter is replaced and the view is back in sync |
| Products.ProductStore.SetTagFilter | IDRISSI.OS/lib/products/product-store.ts:88-91 | the tag filter is replaced and the view is back in sync |
| Products.ProductStore.AddProduct | IDRISSI.OS/lib/products/product-store.ts:93-108 | exactly one product is appended, earlier ones unchanged; the view is in sync |
| Products.ProductStore.UpdateProduct | IDRISSI.OS/lib/products/product-store.ts:110-133 | the list becomes the update of the old list; the view is in sync |
| Products.ProductStore.ArchiveProduct | IDRISSI.OS/lib/products/product-store.ts:135-141 | the product with the id is archived; the view is in sync |
| Products.ProductStore.DuplicateProduct | IDRISSI.OS/lib/products/product-store.ts:143-163 | one copy of the first product with the id is appended; the view is in sync |
| Products.ProductStore.BulkArchive | IDRISSI.OS/lib/products/product-store.ts:165-173 | the listed products are archived; the view is in sync |
| Products.ProductStore.BulkDuplicate | IDRISSI.OS/lib/products/product-store.ts:175-192 | one copy of each listed product is appended; the view is in sync |
| Products.ProductStore.IsSkuUnique | IDRISSI.OS/lib/products/product-store.ts:194-197 | true iff every product with the SKU is the current product |
| Products.ProductStore.RemoveWarehouse | IDRISSI.OS/lib/products/product-store.ts:222-229 | the warehouse is cleared from the products, and the visible list is left as it was |
| Products.ProductStore.BulkChangeCollection | IDRISSI.OS/lib/products/product-store.ts:231-236 | the collection is changed on the listed products; the view is in sync |
| Products.ProductStore.BulkAddTags | IDRISSI.OS/lib/products/product-store.ts:238-250 | the tags are merged into the listed products; the view is in sync |
| Products.ProductStore.BulkDelete | IDRISSI.OS/lib/products/product-store.ts:252-257 | the listed products are removed; the view is in sync |
| Products.ProductStore.AddNoteToProduct | IDRISSI.OS/lib/products/product-store.ts:259-275 | the note, by the fixed user, is prepended on the product, and the visible list is left as it was |
| Materials.FilterMaterials | IDRISSI.OS/lib/materials/material-store.ts:50-81 | an order-preserving subsequence holding exactly the materials that pass the search (name or description), the type, the status and the all-of certification filters, each as often as in the list |
| Materials.NoFiltersShowAll | IDRISSI.OS/lib/materials/material-store.ts:83-91 | with no query and no filter every material is visible |
| Materials.FilterIgnoresIsArchived | IDRISSI.OS/lib/materials/material-store.ts:50-81 | the `isArchived` flag never changes whether a material passes |
| Materials.ArchivedStillVisible | IDRISSI.OS/lib/materials/material-store.ts:50-81 | an archived material stays visible when no filter is set |
| Materials.CertificationsAllOf | IDRISSI.OS/lib/materials/material-store.ts:72-77 | every requested certification must be held: one shared certification is not enough |
| Materials.MergeFiltersLaws | IDRISSI.OS/lib/materials/material-store.ts:101-109 | an empty patch changes nothing, and applying the same patch twice equals applying it once |
| Materials.NewMaterial | IDRISSI.OS/lib/materials/material-store.ts:111-124 | the new record carries the fresh id and createdAt = updatedAt = now, and every other field as supplied |
| Materials.Merge | IDRISSI.OS/lib/materials/material-store.ts:126-137 | supplied fields win and the others are kept (stated for the id, name, status, certifications, `isArchived` and `createdAt`); the update time is the current time |
| Materials.MergeIdempotent | IDRISSI.OS/lib/materials/material-store.ts:126-137 | applying the same patch at the same time twice equals applying it once |
| Materials.EmptyPatchOnlyStamps | IDRISSI.OS/lib/materials/material-store.ts:126-137 | an empty patch changes only the update time |
| Materials.UpdateMaterials | IDRISSI.OS/lib/materials/material-store.ts:126-137 | only materials with the id are merged with the patch; length and order are kept |
| Materials.SetStatusListed | IDRISSI.OS/lib/materials/material-store.ts:139-189 | the status and update time of exactly the listed materials change; nothing else does |
| Materials.ArchiveThenRestore | IDRISSI.OS/lib/materials/material-store.ts:139-163 | archiving then restoring leaves every listed material "active" whatever its earlier status, with `isArchived` untouched |
| Materials.AddCertificationListed | IDRISSI.OS/lib/materials/material-store.ts:191-208 | the certification is appended to every listed material, even one already holding it |
| Materials.AddCertificationTwiceDuplicates | IDRISSI.OS/lib/materials/material-store.ts:191-208 | adding twice grows a listed material's list by two and leaves a duplicate |
| Materials.MaterialStore.constructor | IDRISSI.OS/lib/materials/material-store.ts:83-91 | the inline seed, fully visible, with empty query and filters, in sync |
| Materials.MaterialStore.SetSearchQuery | IDRISSI.OS/lib/materials/material-store.ts:93-99 | the query is replaced and the view is back in sync |
| Materials.MaterialStore.SetFilters | IDRISSI.OS/lib/materials/material-store.ts:101-109 | the patch is merged into the filters and the view is recomputed with the current query |
| Materials.MaterialStore.AddMaterial | IDRISSI.OS/lib/materials/material-store.ts:111-124 | exactly one material is appended; the view is in sync |
| Materials.MaterialStore.UpdateMaterial | IDRISSI.OS/lib/materials/material-store.ts:126-137 | the matching material is updated; the view is in sync |
| Materials.MaterialStore.ArchiveMaterial | IDRISSI.OS/lib/materials/material-store.ts:139-150 | the matching material gets status "archived"; the view is in sync |
| Materials.MaterialStore.RestoreMaterial | IDRISSI.OS/lib/materials/material-store.ts:152-163 | the matching material gets status "active"; the view is in sync |
| Materials.MaterialStore.BulkArchive | IDRISSI.OS/lib/materials/material-store.ts:165-176 | the listed materials get status "archived"; the view is in sync |
| Materials.MaterialStore.BulkRestore | IDRISSI.OS/lib/materials/material-store.ts:178-189 | the listed materials get status "active"; the view is in sync |
| Materials.MaterialStore.BulkAddCertification | IDRISSI.OS/lib/materials/material-store.ts:191-208 | the certification is appended to the listed materials; the view is in sync |
| Manufacturers.ApplyFilters | IDRISSI.OS/lib/manufacturers/manufacturer-store.ts:43-80 | an order-preserving subsequence holding exactly the manufacturers that pass the search (name, contact person, email), category, contact status and any-of certification filters, and that are not archived unless archived ones are shown; each passing one as often as in the list |
| Manufacturers.DefaultHidesArchived | IDRISSI.OS/lib/manufacturers/manufacturer-store.ts:74-76 | under the default filters the visible manufacturers are exactly the non-archived ones, and all of them when none is archived |
| Manufacturers.ShowArchivedWidens | IDRISSI.OS/lib/manufacturers/manufacturer-store.ts:74-76 | showing archived records only adds to the visible list |
| Manufacturers.CertificationsAnyOf | IDRISSI.OS/lib/manufacturers/manufacturer-store.ts:66-71 | one shared certification suffices, and none shared excludes |
| Manufacturers.FlipShowArchived | IDRISSI.OS/lib/manufacturers/manufacturer-store.ts:139-147 | only the show-archived setting changes, to its negation |
| Manufacturers.FlipShowArchivedTwice | IDRISSI.OS/lib/manufacturers/manufacturer-store.ts:139-147 | toggling show-archived twice restores the filters |
| Manufacturers.NewManufacturer | IDRISSI.OS/lib/manufacturers/manufacturer-store.ts:173-188 | the new record carries the fresh id and createdAt = updatedAt = now, and every other field as supplied |
| Manufacturers.Merge | IDRISSI.OS/lib/manufacturers/manufacturer-store.ts:190-202 | supplied fields win and the others are kept (stated for the id, name, `isArchived`, certifications, files and `createdAt`); the update time is the current time |
| Manufacturers.MergeIdempotent | IDRISSI.OS/lib/manufacturers/manufacturer-store.ts:190-202 | applying the same patch at the same time twice equals applying it once |
| Manufacturers.EmptyPatchOnlyStamps | IDRISSI.OS/lib/manufacturers/manufacturer-store.ts:190-202 | an empty patch changes only the update time |
| Manufacturers.UpdateManufacturers | IDRISSI.OS/lib/manufacturers/manufacturer-store.ts:190-202 | only manufacturers with the id are merged with the patch; length and order are kept |
| Manufacturers.SetArchivedListed | IDRISSI.OS/lib/manufacturers/manufacturer-store.ts:204-269 | the archived flag and update time of exactly the listed manufacturers change; nothing else does |
| Manufacturers.ArchiveThenRestore | IDRISSI.OS/lib/manufacturers/manufacturer-store.ts:204-226 | archiving then restoring gives back each listed non-archived manufacturer apart from its update time, visible again under the default filters |
| Manufacturers.AddCertificationListed | IDRISSI.OS/lib/manufacturers/manufacturer-store.ts:271-290 | the certification is added to each listed manufacturer lacking it; nothing else changes |
| Manufacturers.AddCertificationIdempotent | IDRISSI.OS/lib/manufacturers/manufacturer-store.ts:271-290 | a second application changes nothing beyond the update time |
| Manufacturers.AddCertificationNoDuplicates | IDRISSI.OS/lib/manufacturers/manufacturer-store.ts:271-290 | duplicate-free certification lists stay duplicate-free |
| Manufacturers.AddNoteTo | IDRISSI.OS/lib/manufacturers/manufacturer-store.ts:293-315 | the note is appended at the end of the matching manufacturers' notes; nothing else changes |
| Manufacturers.AddFileTo | IDRISSI.OS/lib/manufacturers/manufacturer-store.ts:317-338 | the file is appended at the end of the matching manufacturers' files; nothing else changes |
| Manufacturers.FilesWithout | IDRISSI.OS/lib/manufacturers/manufacturer-store.ts:340-356 | every file with the id is dropped, and every other file is kept as often as before and in order |
| Manufacturers.RemoveFileFrom | IDRISSI.OS/lib/manufacturers/manufacturer-store.ts:340-356 | only the matching manufacturers lose the file; nothing else changes |
| Manufacturers.AddThenRemoveFile | IDRISSI.OS/lib/manufacturers/manufacturer-store.ts:317-356 | removing a file just added under a new id gives back the earlier file list |
| Manufacturers.ManufacturerStore.constructor | IDRISSI.OS/lib/manufacturers/manufacturer-store.ts:82-96 | the seed, fully visible, default filters, nothing selected, dialogs closed; in sync when no seed entry is archived |
| Manufacturers.ManufacturerStore.SetSearchFilter | IDRISSI.OS/lib/manufacturers/manufacturer-store.ts:99-107 | the search is replaced and the view is back in sync |
| Manufacturers.ManufacturerStore.SetCategoryFilter | IDRISSI.OS/lib/manufacturers/manufacturer-store.ts:109-117 | the category is replaced and the view is back in sync |
| Manufacturers.ManufacturerStore.SetContactStatusFilter | IDRISSI.OS/lib/manufacturers/manufacturer-store.ts:119-127 | the contact status is replaced and the view is back in sync |
| Manufacturers.ManufacturerStore.SetCertificationFilter | IDRISSI.OS/lib/manufacturers/manufacturer-store.ts:129-137 | the certifications are replaced and the view is back in sync |
| Manufacturers.ManufacturerStore.ToggleShowArchived | IDRISSI.OS/lib/manufacturers/manufacturer-store.ts:139-147 | show-archived is negated and the view is back in sync |
| Manufacturers.ManufacturerStore.ClearFilters | IDRISSI.OS/lib/manufacturers/manufacturer-store.ts:149-163 | the filters are reset to their defaults, so exactly the non-archived manufacturers are visible |
| Manufacturers.ManufacturerStore.OpenAddModal | IDRISSI.OS/lib/manufacturers/manufacturer-store.ts:166 | only the add dialog flag is set |
| Manufacturers.ManufacturerStore.CloseAddModal | IDRISSI.OS/lib/manufacturers/manufacturer-store.ts:167 | only the add dialog flag is cleared |
| Manufacturers.ManufacturerStore.OpenDetail | IDRISSI.OS/lib/manufacturers/manufacturer-store.ts:168 | only the detail dialog flag is set |
| Manufacturers.ManufacturerStore.CloseDetail | IDRISSI.OS/lib/manufacturers/manufacturer-store.ts:169 | the detail dialog is closed and the selected manufacturer is cleared |
| Manufacturers.ManufacturerStore.SelectManufacturer | IDRISSI.OS/lib/manufacturers/manufacturer-store.ts:170 | only the selected manufacturer id is set |
| Manufacturers.ManufacturerStore.AddManufacturer | IDRISSI.OS/lib/manufacturers/manufacturer-store.ts:173-188 | exactly one manufacturer is appended; the view is in sync |
| Manufacturers.ManufacturerStore.UpdateManufacturer | IDRISSI.OS/lib/manufacturers/manufacturer-store.ts:190-202 | the matching manufacturer is updated; the view is in sync |
| Manufacturers.ManufacturerStore.ArchiveManufacturer | IDRISSI.OS/lib/manufacturers/manufacturer-store.ts:204-214 | the matching manufacturer is flagged archived; the view is in sync |
| Manufacturers.ManufacturerStore.RestoreManufacturer | IDRISSI.OS/lib/manufacturers/manufacturer-store.ts:216-226 | the matching manufacturer is unflagged; the view is in sync |
| Manufacturers.ManufacturerStore.ToggleRowSelection | IDRISSI.OS/lib/manufacturers/manufacturer-store.ts:229-236 | the id is removed from the selection when present and appended when absent |
| Manufacturers.ManufacturerStore.SelectAllRows | IDRISSI.OS/lib/manufacturers/manufacturer-store.ts:238-240 | the selection becomes the ids of the visible manufacturers, in order |
| Manufacturers.ManufacturerStore.ClearSelectedRows | IDRISSI.OS/lib/manufacturers/manufacturer-store.ts:242 | the selection is emptied and nothing else changes |
| Manufacturers.ManufacturerStore.BulkArchive | IDRISSI.OS/lib/manufacturers/manufacturer-store.ts:245-256 | exactly the selected manufacturers are archived, then the selection is emptied; the view is in sync |
| Manufacturers.ManufacturerStore.BulkRestore | IDRISSI.OS/lib/manufacturers/manufacturer-store.ts:258-269 | exactly the selected manufacturers are restored, then the selection is emptied; the view is in sync |
| Manufacturers.ManufacturerStore.BulkAddCertification | IDRISSI.OS/lib/manufacturers/manufacturer-store.ts:271-290 | the certification is added to the selected manufacturers, then the selection is emptied; the view is in sync |
| Manufacturers.ManufacturerStore.AddNote | IDRISSI.OS/lib/manufacturers/manufacturer-store.ts:293-315 | the note is appended on the matching manufacturer; the view is in sync |
| Manufacturers.ManufacturerStore.AddFile | IDRISSI.OS/lib/manufacturers/manufacturer-store.ts:317-338 | the file, under its fresh id, is appended on the matching manufacturer; the view is in sync |
| Manufacturers.ManufacturerStore.RemoveFile | IDRISSI.OS/lib/manufacturers/manufacturer-store.ts:340-356 | the file is removed from the matching manufacturer; the view is in sync |
| I18n.Lookup | IDRISSI.OS/lib/i18n.ts:197 | the text is the table entry for the full key or the bare key; a non-empty entry wins; the text is empty only for an empty key |
| I18n.TranslateWith | IDRISSI.OS/lib/i18n.ts:192-207 | with no parameters the result is exactly the looked-up text |
| I18n.Translate | IDRISSI.OS/lib/i18n.ts:192-207 | without parameters, the English entry for the full key or the bare key, never empty for a non-empty key |
| I18n.TranslateFound | IDRISSI.OS/lib/i18n.ts:197 | a present, non-empty entry for the full key is returned as is |
| I18n.TranslateMissing | IDRISSI.OS/lib/i18n.ts:197 | a missing entry yields the bare key, not the namespaced one |
| I18n.FullKey | IDRISSI.OS/lib/i18n.ts:194 | the lookup key always ends with the bare key, and equals it exactly when no non-empty namespace is given |
| I18n.NamespacedKey | IDRISSI.OS/lib/i18n.ts:194 | the lookup key is namespace + "." + key with a non-empty namespace, and the key alone otherwise |
| I18n.ApplyParamsNoPlaceholder | IDRISSI.OS/lib/i18n.ts:200-204 | text without any of the parameters' placeholders is returned unchanged |
| I18n.ApplyOneParam | IDRISSI.OS/lib/i18n.ts:201-203 | a parameter replaces the first occurrence of its placeholder with its value, and nothing else |
| I18n.ExamplesFound | IDRISSI.OS/lib/i18n.ts:14-185 | "common.cancel" translates to "Cancel", and "title" in namespace "products" to "Products" |
| I18n.ExampleFirstOccurrenceOnly | IDRISSI.OS/lib/i18n.ts:201-203 | "{n} and {n}" with n = "A" becomes "A and {n}" |
| ProductForm.NormalizeSku | IDRISSI.OS/components/products/product-form-general.tsx:59-69 | the normalised SKU is empty iff the input is, otherwise starts with "IDR-", and is upper case |
| ProductForm.NormalizeSkuIdempotent | IDRISSI.OS/components/products/product-form-general.tsx:59-69 | normalising twice equals normalising once |
| ProductForm.CheckSku | IDRISSI.OS/components/products/product-form-general.tsx:35-57 | valid iff prefix, pattern and uniqueness all hold; otherwise the first failing check in the order prefix, format, uniqueness is reported |
| ProductForm.ValidateSku | IDRISSI.OS/components/products/product-form-general.tsx:35-57 | true iff the SKU starts with "IDR-", matches ^IDR-[A-Z0-9-]+$ and is unique apart from the current product; the error text is that of the first failed check |
| ProductForm.SkuErrorText | IDRISSI.OS/components/products/product-form-general.tsx:35-57 | the error text is empty exactly when the SKU is valid |
| ProductForm.SkuChange | IDRISSI.OS/components/products/product-form-general.tsx:59-69 | the stored value is the normalised input; no error is shown iff that value matches ^IDR-[A-Z0-9-]+$ and no other product holds it; empty input is stored empty with the prefix error |
| ProductForm.NormalizedSkuPassesPrefix | IDRISSI.OS/components/products/product-form-general.tsx:37-47 | after normalisation only empty input fails the prefix check, and "IDR-" alone fails the format check |
| ProductForm.OwnSkuValidates | IDRISSI.OS/components/products/product-form-general.tsx:50-53 | a well-formed SKU no other product holds validates for the product holding it but fails uniqueness for a new product |
| ProductForm.StripHash | IDRISSI.OS/components/products/product-form-general.tsx:82-84 | exactly one leading "#" is removed, and only when present |
| ProductForm.TypedTag | IDRISSI.OS/components/products/product-form-general.tsx:81-84 | the typed tag is the trimmed input, without its leading "#" when it has one |
| ProductForm.TagKeyDown | IDRISSI.OS/components/products/product-form-general.tsx:76-94 | on Enter or space with a non-empty typed tag, the tag is added when absent and the input cleared; any other key or an empty tag changes nothing |
| ProductForm.SelectTag | IDRISSI.OS/components/products/product-form-general.tsx:96-104 | the picked tag ends up in the list, added only when absent, and the input is cleared |
| ProductForm.RemoveTag | IDRISSI.OS/components/products/product-form-general.tsx:115-118 | every occurrence of the tag goes; every other tag is kept as often as before and in order |
| ProductForm.TagEditingKeepsNoDuplicates | IDRISSI.OS/components/products/product-form-general.tsx:76-118 | typing, picking and removing keep a duplicate-free tag list duplicate-free, and typing never adds an empty tag |
| ProductForm.TypedHashTag | IDRISSI.OS/components/products/product-form-general.tsx:76-94 | white space, "#" and a new tag followed by Enter append the tag without its "#" and clear the input |
| ProductForm.FilteredTags | IDRISSI.OS/components/products/product-form-general.tsx:121-123 | the suggestions are, in catalogue order and each as often as there, the available tags not yet chosen that equal the lower-cased input when there is one |
| ProductForm.SuggestionsNoDuplicates | IDRISSI.OS/components/products/product-form-general.tsx:121-123 | a duplicate-free catalogue gives duplicate-free suggestions |
| ProductControlBar.ToggleTwiceMovesPresentTag | IDRISSI.OS/components/products/product-control-bar.tsx:56-62 | selecting a present tag twice moves it to the end instead of restoring the filter |
| ProductControlBar.SelectTag | IDRISSI.OS/components/products/product-control-bar.tsx:56-62 | the tag filter is toggled on the tag and the view is back in sync |
| ProductControlBar.IsFilteringMeansNotCleared | IDRISSI.OS/components/products/product-control-bar.tsx:71 | filtering iff some setting differs from the cleared state, and a store that is not filtering shows every product |
| ProductControlBar.ClearFilters | IDRISSI.OS/components/products/product-control-bar.tsx:64-69 | all four settings are reset, nothing is filtering, and every product is visible |
| ProductControlBar.TrimmedPieces | IDRISSI.OS/components/products/product-control-bar.tsx:80-83 | trimmed comma-free pieces stay comma-free and are already trimmed |
| ProductControlBar.ParseBulkTags | IDRISSI.OS/components/products/product-control-bar.tsx:80-83 | the parsed tags are, in order, the non-empty trimmed comma-separated pieces, each as often as among the pieces; none is empty or has a comma |
| ProductControlBar.ParseBulkTagsRoundTrip | IDRISSI.OS/components/products/product-control-bar.tsx:80-83 | parsing the comma-joined list of trimmed, non-empty, comma-free tags gives back that list |
| ProductControlBar.BulkAddTagsFromInput | IDRISSI.OS/components/products/product-control-bar.tsx:79-87 | the selected products receive the parsed tags and the view is in sync |
| Sidebar.RootActiveOnlyAtRoot | IDRISSI.OS/components/sidebar.tsx:118-121 | the root item is active only on "/" itself, never by prefix |
| Sidebar.NoPartialSegmentMatch | IDRISSI.OS/components/sidebar.tsx:118-121 | a path that extends an item's path within the same segment does not activate it |
| Sidebar.ProductionPrefixExample | IDRISSI.OS/components/sidebar.tsx:120 | "/production-x" does not activate "/production", and "/production/x" does |
| Sidebar.SubItemsBelowItem | IDRISSI.OS/components/sidebar.tsx:22-68 | every sub-item path lies below its item's path |
| Sidebar.AtMostOneActive | IDRISSI.OS/components/sidebar.tsx:118-121 | no pathname activates two menu items |
| Sidebar.SectionsDiffer | IDRISSI.OS/components/sidebar.tsx:22-68 | no section path lies below another one |
| Sidebar.BelowWhenActive | IDRISSI.OS/components/sidebar.tsx:118-121 | an active non-root item's path is the pathname or one of its ancestors |
| Sidebar.ProductsPageExample | IDRISSI.OS/components/sidebar.tsx:123-142 | on "/production/products" the production item is expanded unless collapsed, and only its products sub-item is highlighted |
| Lists.Toggle | IDRISSI.OS/components/products/product-control-bar.tsx:56-62 | the element becomes present iff it was absent; other elements keep their membership; an absent one is appended, a present one removed everywhere |
| Lists.ToggleTwiceRestores | IDRISSI.OS/lib/manufacturers/manufacturer-store.ts:229-236 | toggling an absent element twice gives back the list |
| Lists.ToggleTwiceMovesToEnd | IDRISSI.OS/lib/manufacturers/manufacturer-store.ts:229-236 | toggling a present element twice moves it to the end |
| Lists.ToggleNoDuplicates | IDRISSI.OS/lib/manufacturers/manufacturer-store.ts:229-236 | toggling keeps a duplicate-free list duplicate-free |
| Lists.AppendIfAbsent | IDRISSI.OS/components/products/product-form-general.tsx:96-100 | the element is present afterwards; the list is unchanged if it was there and extended by it otherwise |
| Lists.AppendIfAbsentIdempotent | IDRISSI.OS/components/products/product-form-general.tsx:96-100 | appending the same element twice equals once |
| Lists.Filter | IDRISSI.OS/lib/products/product-store.ts:293-311 | an order-preserving subsequence holding exactly the elements that pass, each as often as in the input |
| Lists.Map | IDRISSI.OS/lib/products/product-store.ts:112-129 | the same length, each element replaced by its image |
| Lists.RemoveAll | IDRISSI.OS/components/products/product-form-general.tsx:115-118 | the element is gone, every other element is kept as often as before, and the order is kept |
| Lists.DedupFrom | IDRISSI.OS/lib/products/product-store.ts:243 | the elements not yet seen, each once, in input order |
| Lists.DedupFromFirstOccurrenceOrder | IDRISSI.OS/lib/products/product-store.ts:243 | the elements kept appear in the order of their first occurrences |
| Lists.Dedup | IDRISSI.OS/lib/products/product-store.ts:243 | the same elements, each once, in order of first occurrence |
| Lists.DedupMergeIdempotent | IDRISSI.OS/lib/products/product-store.ts:238-250 | merging the same list twice into a set-like list equals merging once |
| Lists.DedupMergeExtends | IDRISSI.OS/lib/products/product-store.ts:238-250 | merging into a duplicate-free list keeps it as a prefix, followed by the new elements once each |
| Text.ToLower | IDRISSI.OS/lib/products/product-store.ts:291-296 | no capital letter is left, and only capital letters change, each to its small letter |
| Text.ToUpper | IDRISSI.OS/components/products/product-form-general.tsx:60 | no small letter is left, and only small letters change, each to its capital |
| Text.ToUpperIdempotent | IDRISSI.OS/components/products/product-form-general.tsx:60 | upper-casing twice equals once |
| Text.IndexOfFrom | IDRISSI.OS/lib/i18n.ts:202 | the first position at or after the start where the pattern occurs, or none iff there is none |
| Text.IndexOf | IDRISSI.OS/lib/i18n.ts:202 | the first position where the pattern occurs, or none iff it occurs nowhere |
| Text.ReplaceFirst | IDRISSI.OS/lib/i18n.ts:202 | a pattern that does not occur leaves the text unchanged |
| Text.ReplaceFirstLiteral | IDRISSI.OS/lib/i18n.ts:202 | a replacement without "$" substitutes the first occurrence of the pattern, and nothing else |
| Text.TrimStart | IDRISSI.OS/components/products/product-form-general.tsx:81 | the longest suffix not starting with white space, everything cut being white space |
| Text.TrimEnd | IDRISSI.OS/components/products/product-form-general.tsx:81 | the longest prefix not ending with white space, everything cut being white space |
| Text.Trim | IDRISSI.OS/components/products/product-form-general.tsx:81 | a slice of the input that neither starts nor ends with white space, everything outside it being white space |
| Text.TrimIdempotent | IDRISSI.OS/components/products/product-control-bar.tsx:82 | trimming twice equals trimming once |
| Text.Split | IDRISSI.OS/components/products/product-control-bar.tsx:81 | at least one piece, none containing the separator, and joining them back gives the input |
| Text.SplitJoin | IDRISSI.OS/components/products/product-control-bar.tsx:81 | splitting the join of separator-free pieces gives back the pieces |

## Left out

- JavaScript's Unicode-aware `toLowerCase` and `toUpperCase` are modelled on ASCII letters only. Other characters are left unchanged.
- Prices are exact reals, and `Math.round` is floor(x + 1/2). Floating-point rounding and the `toFixed` display of prices are not modelled.
- Fresh ids (`uuidv4`, `Math.random`), note ids and the clock are method parameters. Where an action reads the clock twice, one `now` serves both reads.
- No id uniqueness is claimed, because product ids `PRD-n` can collide. Actions apply to every record carrying the id.
- The zustand `create`/`set`/`get` wiring, React hooks and state, JSX, dialogs, popovers, focus handling and toasts are not part of this model.
- The seed data is a constructor parameter for products and manufacturers. IDRISSI.OS/lib/products/product-data.ts and IDRISSI.OS/lib/manufacturers/manufacturer-data.ts are not part of this model. The material store's inline seed is modelled.
- `addCollection` and `addWarehouse` change no state, so they are not modelled.
- `getAvailableProductTypes` returns a constant list; it is a constant here.
- The tag catalogue offered as suggestions is a parameter.
- A patch field set explicitly to `undefined` is treated as absent.
- Materials.Merge: the contract spells out the supplied-fields-win rule for the id, name, status, certifications, `isArchived` and `createdAt` only; the other optional fields follow the same rule in the definition.
- Manufacturers.Merge: the contract spells out the supplied-fields-win rule for the id, name, `isArchived`, certifications, files and `createdAt` only; the other contact fields follow the same rule in the definition.
- Products.Merge: the contract spells out the supplied-fields-win rule for the id and the two prices only, because those are the fields the margin and lookups depend on; the other fields follow the same rule in the definition.
- A missing `tags` in the product form is treated as the empty list, as the source's `data.tags || []` does.
- The French table is empty and never consulted, so it is not modelled.
- Lookups of keys inherited from `Object.prototype` are not modelled.
- The parameter object of `t` is an ordered list of name/value pairs, standing for `Object.entries` order.
- ProductForm.SkuErrorText: the error texts are translations of the three SKU error keys. Their English wording, in the middle of the table, is not proved.
- Sidebar: the `collapsed` and `mounted` flags are presentational; `collapsed` is a parameter of `IsExpanded`.
- The manufacturer category and contact status are strings, because the fixture data uses values outside the declared unions.
