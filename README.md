# Red Sea Quest: tour data pipeline, in Dafny

This project models the data core of the Red Sea Quest tour-booking site.

**The field-mapping pipeline** (`lib/admin/field-mapping.ts`, `lib/admin/sync-utils.ts`):
- the registry of field mappings: the compiled-in defaults per post type (tour, category, destination), saved mappings that override them, and table-name resolution;
- the per-type coercion of loosely typed cell values (string, number, boolean, array, image, date, relation, object);
- `processRecord`, which seeds an app record and writes each mapping's value, through a deep set for dotted paths;
- the per-type and whole syncs into the in-memory store.

**The legacy path** (`lib/airtable.ts`, `lib/config.ts`):
- the alias-based lookup, and `parsePrice`, `parseBoolean`, `parseArray`, `extractImageUrl` and `parseRating`;
- `recordToTour` with its fallback tour;
- the tour cache, with its in-progress guard and its category, featured and by-id queries.

**The field-mapping editor** (`app/admin/field-mapping/page.tsx`): its list of mappings and the handlers that change it.

**Small pieces of UI logic:**
- the related-tours strip;
- the image gallery's wrap-around index;
- the booking form's counters and submit sequence;
- the tours page's category heading.

The modules, and what each models:
- **Pure code:** datatypes and functions with named results, and lemmas.
- **Stateful code:** classes.
  - `SyncStore.RecordStore`: the in-memory store.
  - `TourCache.Cache`: the tour cache.
  - `MappingEditor.Editor`: the editor.
  - `TourGallery.Gallery`: the gallery.
  - `BookingForm.Form`: the booking form.

  Each class method is specified by the functions of its module.
- **Loops of the source:** methods with invariants.
  - `Normalizer.ProcessRecord`: the `forEach` of `processRecord`.
  - `SyncStore.ProcessAll`: `records.map(processRecord)`.
  - `LegacyParse.FindFieldValue`: the alias loop.
  - `TourCache.ConvertAll`: `records.map(recordToTour)`.
- **Local state of the source:** `Tours.RecordToTour` is a method because `recordToTour` assigns its `reviewCount` variable step by step; it has no loop.

Modelling conventions:
- **Cell values:** the JavaScript values a cell can hold are the `JsValues.Value` datatype. Numbers are reals, with NaN as its own case.
- **Spreadsheet service:** the service and the clock are parameters. A fetch is a function from a table name to `Result<seq<RawRecord>>`, and the current time is one ISO string per call.
- **Unreadable records:** a record whose cells throw when read carries `readError: Some(message)`.

How the two paths of the program differ, as the model states it:
- **Unreadable records:** `processRecord` does not catch, so an unreadable record fails the whole batch of its type. Only `recordToTour` substitutes a fallback tour. `PathComparison.UnreadableRecordPaths` states both behaviours.
- **In-progress guard:** only the legacy `syncToursFromAirtable` has one (`isSyncing`). `syncPostTypeFromAirtable` always runs.
- **Last sync time:** `sync-utils.ts` does not record one; only the legacy cache does.
- **Both paths are live:** the mapping-driven sync fills the admin store, while every tour page is served by the alias-list path. `PathComparison` proves where the two paths agree and exhibits where they differ.

## Model

| member | source | states |
|---|---|---|
| JsValues.Or | lib/airtable.ts:151-153 | `a \|\| b`: the first operand when truthy, else the second |
| JsValues.UrlOf | lib/admin/sync-utils.ts:230-231 | `v?.url` is undefined for anything but an object |
| AirtableRecords.Get | lib/admin/sync-utils.ts:152 | `record.get(name)` of a missing cell is undefined |
| Seqs.Filter | lib/admin/field-mapping.ts:283 | `filter` keeps only passing elements and never grows the list |
| Seqs.Take | components/related-tours.tsx:10 | `slice(0, n)` is a prefix of length min(n, length) |
| Seqs.FilterConcat | app/admin/field-mapping/page.tsx:68 | filtering a concatenation filters each part |
| Seqs.FilterSubset | lib/airtable.ts:265 | a filter returns elements of its input |
| Seqs.FilterComplete | lib/admin/field-mapping.ts:283 | a filter keeps every element of its input that passes |
| Seqs.FilterKeepsMarked | components/related-tours.tsx:10 | a filter keeps at least as many elements as there are passing positions |
| Text.Split | lib/admin/sync-utils.ts:207 | `split(c)` gives at least one piece and no piece holds `c` |
| Text.JoinSplit | app/tours/page.tsx:21-23 | joining the pieces of a split with the separator restores the text |
| Text.SplitJoin | lib/admin/sync-utils.ts:156-157 | splitting a join of separator-free pieces gives the pieces back |
| Text.Trim | lib/admin/sync-utils.ts:208 | `trim()` leaves text that neither starts nor ends with white space, and no longer than the input |
| Text.TrimCutsWhiteSpace | lib/admin/sync-utils.ts:208 | the trim is a piece of the text, and everything cut from either end is white space |
| Text.ToLower | lib/airtable.ts:55 | `toLowerCase()` keeps the length and leaves no upper-case letter |
| Text.ToLowerIdempotent | lib/airtable.ts:267 | lower-casing twice is lower-casing once |
| Text.NatText | lib/admin/sync-utils.ts:65 | the decimal text of a count |
| Text.FirstDecimalMatch | lib/admin/sync-utils.ts:178 | the match of `\d+(\.\d+)?` at the first digit, as long as the greedy pattern makes it (the greedy match `DecimalAt`), or none when the text has no digit |
| Text.DecimalAt | lib/admin/sync-utils.ts:178 | the match at a digit is digits with an optional point and digits, followed by no digit, and by no point and digit when it has no fraction |
| Text.ParseIntegerText | lib/airtable.ts:141 | `parseInt` of an integer's text gives the integer back |
| Text.ParseUnsignedDecimal | lib/admin/sync-utils.ts:179 | `parseFloat` of a match gives its decimal value |
| FieldMappings.MappingsOf | lib/admin/field-mapping.ts:283 | only mappings of one post type, and every mapping of that type |
| FieldMappings.MappingsNotOf | app/admin/field-mapping/page.tsx:68 | only mappings of the other post types, and every one of them |
| FieldMappings.MappingsInOrder | lib/admin/field-mapping.ts:283 | both filters go element by element: a concatenation is filtered part by part and one mapping is kept exactly when it passes, so the order is kept |
| FieldMappings.GetFieldMappings | lib/admin/field-mapping.ts:281-298 | saved mappings win when present and parseable; the server, no item and a parse failure give the defaults; with a type, only that type |
| FieldMappings.GetFieldMappingsByType | lib/admin/field-mapping.ts:281-298 | asking for one type is filtering the whole answer by that type |
| FieldMappings.DefaultsCarryTheirType | lib/admin/field-mapping.ts:16-272 | every default mapping carries its own list's post type |
| FieldMappings.DefaultCounts | lib/admin/field-mapping.ts:16-279 | 16 tour, 6 category and 8 destination defaults, 30 in all |
| FieldMappings.DefaultsOfType | lib/admin/field-mapping.ts:274-279 | filtering the combined defaults by a type gives exactly that type's list |
| FieldMappings.DefaultMappingsByType | lib/admin/field-mapping.ts:281-298 | without saved mappings, asking for one type gives that type's defaults |
| FieldMappings.DefaultAppFieldsDistinct | lib/admin/field-mapping.ts:16-272 | no two defaults of a type write the same app field |
| FieldMappings.AirtableTableName | lib/admin/field-mapping.ts:310-321 | the environment's table name when set, else the standard one; never empty |
| Coercion.CoerceString | lib/admin/sync-utils.ts:165-172 | "string" always gives text, and text passes unchanged |
| Coercion.CoerceNumber | lib/admin/sync-utils.ts:174-190 | "number": text without a match gives the default, a match gives a non-negative number, a number passes, anything else gives the default |
| Coercion.CoerceBoolean | lib/admin/sync-utils.ts:192-201 | "boolean" is true exactly for `true`, `"true"`, `1` and `"1"` |
| Coercion.TrimAll | lib/admin/sync-utils.ts:208 | each piece trimmed, in order |
| Coercion.ListItemsAreItems | lib/admin/sync-utils.ts:205-209 | every item of a comma list is non-empty, trimmed and comma-free |
| Coercion.CoerceArray | lib/admin/sync-utils.ts:203-222 | "array": an array passes, text gives its items, anything else gives the default |
| Coercion.CoerceImage | lib/admin/sync-utils.ts:224-242 | "image": text with "http" passes and other text gives the default; an array gives its first element's truthy `url`, else the default; an object gives its truthy `url`; anything else the default |
| Coercion.CoerceDate | lib/admin/sync-utils.ts:244-260 | "date": a Date gives its ISO text, text passes, and anything that is neither gives the default |
| Coercion.CoerceRelation | lib/admin/sync-utils.ts:262-281 | "relation": a truthy value or an array passes, a falsy one gives the default |
| Coercion.Coerce | lib/admin/sync-utils.ts:152-300 | a null or missing cell gives the default for every type; "object" and unknown types pass the cell through |
| CoercionProperties.CoerceIdempotent | lib/admin/sync-utils.ts:164-300 | coercing a coerced value again changes nothing, for every type but "image" |
| CoercionProperties.ArrayOfJoinedItems | lib/admin/sync-utils.ts:205-209 | a comma-joined list of items coerces back to those items |
| CoercionProperties.ListItemsOfJoin | lib/admin/sync-utils.ts:205-209 | the items of a comma-joined list of items are those items |
| CoercionProperties.NoListItems | lib/admin/sync-utils.ts:205-209 | the empty text has no items |
| CoercionProperties.NumberOfMatch | lib/admin/sync-utils.ts:176-179 | the number read from text is the parsed value of its first match |
| CoercionProperties.NatTextMatch | lib/admin/sync-utils.ts:176-179 | the text of a natural number is its own first match and parses to that number |
| CoercionProperties.NumberOfNatText | lib/admin/sync-utils.ts:176-179 | the text of a natural number coerces back to that number |
| CoercionProperties.MatchAfterNonDigits | lib/admin/sync-utils.ts:178 | a prefix without digits does not change the first match |
| CoercionProperties.NumberAfterNonDigits | lib/admin/sync-utils.ts:176-179 | a currency symbol or sign before a whole number is skipped ("$45" gives 45) |
| CoercionProperties.DecimalWithFraction | lib/admin/sync-utils.ts:176-179 | digits, a point and digits are their own match and parse to their value |
| CoercionProperties.ZeroFraction | lib/admin/sync-utils.ts:177 | all-zero cents add nothing to the value |
| CoercionProperties.NumberThroughString | lib/admin/sync-utils.ts:164-190 | a whole number written as text by "string" reads back as the same number |
| CoercionProperties.BooleanThroughString | lib/admin/sync-utils.ts:164-201 | a boolean written as text by "string" reads back as the same boolean |
| Normalizer.KeyPath | lib/admin/sync-utils.ts:156-157 | the dotted app field names a non-empty path |
| Normalizer.SetPath | lib/admin/sync-utils.ts:157 | `_.set` adds only the path's first key at the top level |
| Normalizer.WriteField | lib/admin/sync-utils.ts:156-160 | reading the app field's path after the write gives the written value |
| Normalizer.Seed | lib/admin/sync-utils.ts:145-149 | the seed has exactly id, createdAt (creation time or now) and updatedAt (now) |
| Normalizer.NormalizeRecord | lib/admin/sync-utils.ts:144-304 | fails, with the read error's message, exactly when the record is unreadable and some mapping reads it |
| Normalizer.ProcessRecord | lib/admin/sync-utils.ts:144-304 | the `forEach` over the mappings computes `NormalizeRecord` |
| Normalizer.GetAfterSet | lib/admin/sync-utils.ts:157 | reading a path just set gives the value set |
| Normalizer.GetAfterSetElsewhere | lib/admin/sync-utils.ts:157 | setting a path leaves every path that parts from it unchanged |
| Normalizer.SetTwice | lib/admin/sync-utils.ts:157 | a second set of the same path replaces the first |
| Normalizer.SetPathFrame | lib/admin/sync-utils.ts:157 | setting a path changes only the entry under its first key |
| Normalizer.WriteFieldIsSetPath | lib/admin/sync-utils.ts:156-160 | the plain assignment agrees with `_.set` for a field without a dot |
| Normalizer.ApplyConcat | lib/admin/sync-utils.ts:151 | applying a list of mappings is applying its first part, then its second |
| Normalizer.ApplyElsewhere | lib/admin/sync-utils.ts:151 | mappings whose paths all part from a path leave its value alone |
| Normalizer.LastWriterWins | lib/admin/sync-utils.ts:151-301 | the last mapping to write a path decides its value |
| Normalizer.EveryMappingLands | lib/admin/sync-utils.ts:151-301 | when paths part pairwise, every mapping's coerced cell is in the result |
| Normalizer.DivergeSymmetric | lib/admin/sync-utils.ts:157 | two paths part in either order |
| Normalizer.SeedSurvives | lib/admin/sync-utils.ts:145-151 | a seeded key that no mapping writes keeps its seed value |
| Normalizer.NullCellWritesDefault | lib/admin/sync-utils.ts:154-161 | a null or missing cell writes the mapping's default |
| DefaultPaths.UndottedApart | lib/admin/field-mapping.ts:16-272 | distinct app fields without dots write pairwise parting paths |
| DefaultPaths.ApartThroughPaths | lib/admin/field-mapping.ts:240-262 | dot-joins of pairwise parting paths write pairwise parting paths |
| DefaultPaths.TourPathsApart | lib/admin/field-mapping.ts:16-150 | the tour defaults write pairwise parting paths |
| DefaultPaths.CategoryPathsApart | lib/admin/field-mapping.ts:152-204 | the category defaults write pairwise parting paths |
| DefaultPaths.DestinationPathsApart | lib/admin/field-mapping.ts:206-272 | the destination defaults, `location.*` included, write pairwise parting paths |
| DefaultPaths.UndottedAvoid | lib/admin/field-mapping.ts:16-272 | undotted app fields that are not seed keys avoid the seed |
| DefaultPaths.TourAvoidsSeed | lib/admin/field-mapping.ts:16-150 | no tour default writes id, createdAt or updatedAt |
| DefaultPaths.CategoryAvoidsSeed | lib/admin/field-mapping.ts:152-204 | no category default writes id, createdAt or updatedAt |
| DefaultPaths.DestinationAvoidsSeed | lib/admin/field-mapping.ts:206-272 | no destination default writes id, createdAt or updatedAt |
| DefaultPaths.KeepSeed | lib/admin/sync-utils.ts:145-151 | mappings that avoid the seed keep the id and timestamps |
| DefaultPaths.DefaultsKeepSeed | lib/admin/sync-utils.ts:145-151 | normalising with the defaults keeps the record's id and timestamps |
| DefaultPaths.DefaultPathsApart | lib/admin/field-mapping.ts:16-272 | each default list writes pairwise parting paths |
| DefaultPaths.DefaultsLand | lib/admin/sync-utils.ts:151-301 | normalising with the defaults puts every default's coerced cell at its path |
| SyncStore.NormalizeAll | lib/admin/sync-utils.ts:53-55 | succeeds iff every record does, then one app record per fetched record in order; a failure carries some record's error |
| SyncStore.OutcomeOf | lib/admin/sync-utils.ts:63-74 | success iff processing succeeded; the count on success, the error message and no count on failure |
| SyncStore.ResultOf | lib/admin/sync-utils.ts:93-96 | a per-type entry keeps success and counts a missing count as 0 |
| SyncStore.RecordStore.constructor | lib/admin/sync-utils.ts:127-131 | the store starts with three empty slices |
| SyncStore.RecordStore.StoreProcessedRecords | lib/admin/sync-utils.ts:134-141 | replaces one slice and no other: `getStoredRecords` then gives the stored records for that type and the old ones for the others |
| SyncStore.RecordStore.SyncPostType | lib/admin/sync-utils.ts:34-75 | fetches the type's table, normalises with the type's mappings, replaces that slice on success only, and reports the outcome |
| SyncStore.RecordStore.SyncAll | lib/admin/sync-utils.ts:78-124 | categories, then destinations, then tours; every type runs whatever the others did; the result aggregates the three |
| SyncStore.Aggregate | lib/admin/sync-utils.ts:83-123 | the per-type results filled in one type at a time, the successes and-ed and the counts summed, give the outcome of the full sync |
| SyncStore.ProcessAll | lib/admin/sync-utils.ts:53-55 | the map over the records computes `NormalizeAll` |
| SyncStore.PrefixErrorSticks | lib/admin/sync-utils.ts:53-55 | once a prefix of the records fails, the whole batch fails with its message |
| SyncStore.AllOutcomeReports | lib/admin/sync-utils.ts:83-123 | overall success is the conjunction; each type's count (0 on failure); the success message carries the total |
| SyncStore.StepwiseOutcome | lib/admin/sync-utils.ts:83-123 | filling the results one type at a time and and-ing the flags gives the aggregate |
| SyncStore.AfterAllPerType | lib/admin/sync-utils.ts:92-113 | after a full sync each slice depends on its own type's sync only |
| SyncStore.BatchFailsOnUnreadable | lib/admin/sync-utils.ts:53-55 | the batch succeeds iff no record is unreadable, or there are no mappings |
| MappingEditor.WithField | app/admin/field-mapping/page.tsx:78-82 | `{ ...m, [field]: value }` changes the named key and keeps every other |
| MappingEditor.RemoveAt | app/admin/field-mapping/page.tsx:98-102 | `splice(i, 1)` removes one entry: the length drops by one and the multiset loses exactly `ms[i]` |
| MappingEditor.Editor.constructor | app/admin/field-mapping/page.tsx:26-27 | the editor starts empty and loading |
| MappingEditor.Editor.Load | app/admin/field-mapping/page.tsx:29-34 | the mount effect loads every stored (or default) mapping and stops loading |
| MappingEditor.Editor.View | app/admin/field-mapping/page.tsx:109-111 | a tab shows only its type's mappings |
| MappingEditor.Editor.HandleReset | app/admin/field-mapping/page.tsx:44-50 | the whole list becomes the defaults |
| MappingEditor.Editor.HandleResetPostType | app/admin/field-mapping/page.tsx:52-76 | the other types' mappings, then the type's defaults |
| MappingEditor.Editor.UpdateMapping | app/admin/field-mapping/page.tsx:78-82 | one entry is updated, in place |
| MappingEditor.Editor.AddNewMapping | app/admin/field-mapping/page.tsx:84-96 | an empty string mapping of the type is appended |
| MappingEditor.Editor.RemoveMapping | app/admin/field-mapping/page.tsx:98-102 | one entry is removed |
| MappingEditor.OfAfterNotOf | app/admin/field-mapping/page.tsx:68 | dropping a type empties its tab and leaves the other tabs alone |
| MappingEditor.NotOfAfterNotOf | app/admin/field-mapping/page.tsx:68 | dropping a type twice is dropping it once |
| MappingEditor.ReplaceType | app/admin/field-mapping/page.tsx:68 | replacing a type's mappings shows the new list in its tab and keeps the others |
| MappingEditor.ResetTypeViews | app/admin/field-mapping/page.tsx:52-76 | after a per-type reset its tab shows exactly its defaults and the other tabs are unchanged |
| MappingEditor.ResetTypeKeepsOthers | app/admin/field-mapping/page.tsx:68 | the other types' mappings keep their relative order |
| MappingEditor.ResetTypeIdempotent | app/admin/field-mapping/page.tsx:52-76 | resetting a type twice is resetting it once |
| MappingEditor.AddNewMappingViews | app/admin/field-mapping/page.tsx:84-96 | the new entry shows at the end of its own tab only |
| MappingEditor.UpdateKeepsViewSizes | app/admin/field-mapping/page.tsx:78-82 | an update that does not touch the post type keeps every tab's length |
| MappingEditor.RemoveAtShifts | app/admin/field-mapping/page.tsx:98-102 | entries before the removed one stay; later ones move down by one |
| LegacyParse.FirstPresent | lib/airtable.ts:19-30 | the result is null or a present (non-nullish) cell |
| LegacyParse.FindFieldValue | lib/airtable.ts:19-30 | the loop over the aliases with its early return computes `FirstPresent` |
| LegacyParse.FirstPresentIs | lib/airtable.ts:22-26 | the first present alias wins over every later one |
| LegacyParse.FirstPresentNone | lib/airtable.ts:29 | with no present alias the lookup gives null |
| LegacyParse.ParsePrice | lib/airtable.ts:33-49 | falsy gives 0, a number passes, text gives a non-negative match or 0, anything else 0 |
| LegacyParse.ParseBoolean | lib/airtable.ts:52-58 | a boolean passes; text is true iff it lower-cases to "true" or is "1"; anything else is false |
| LegacyParse.ParseArray | lib/airtable.ts:61-71 | falsy gives [], an array passes, text gives its comma items, anything else [] |
| LegacyParse.ExtractImageUrl | lib/airtable.ts:74-99 | falsy gives ""; text starting with "http" or "/" passes, other text gives ""; a non-empty array gives its first element when that is an "http" text, else that element's truthy `url`, else ""; an empty array gives ""; an object gives its truthy `url`; anything else "" |
| LegacyParse.ParseRating | lib/airtable.ts:102-118 | falsy gives 4.5; text gives its `parseFloat` or 4.5; a number passes; anything else 4.5 |
| Tours.FallbackTour | lib/airtable.ts:203-214 | the catch branch keeps the id and names the tour "Tour " and the id's first five characters |
| Tours.CellOr | lib/airtable.ts:124-127 | the cell, or the default when it is null or missing |
| Tours.Converted | lib/airtable.ts:122-202 | the try branch keeps the record's id |
| Tours.TourOf | lib/airtable.ts:121-215 | `recordToTour` keeps the id and gives the fallback tour for an unreadable record |
| Tours.RecordToTour | lib/airtable.ts:121-215 | the step-by-step conversion, `reviewCount` variable included, computes `TourOf` |
| Tours.EmptyRecordGetsDefaults | lib/airtable.ts:130-182 | a readable record without cells gets every default value |
| Tours.NoCells | lib/airtable.ts:19-30 | with no cells every alias lookup gives null |
| Tours.PriceAfterSymbol | lib/airtable.ts:40-46 | a currency symbol before a whole number is skipped by `parsePrice` |
| Tours.DefaultPrice | lib/airtable.ts:132-133 | the price fallback "$0" reads as 0 |
| Tours.PriceFromText | lib/airtable.ts:132-133 | a price read from text is never negative |
| TourCache.ToursTableName | lib/airtable.ts:11 | the environment's table, else "toursTours-Grid view" |
| TourCache.ToursOf | lib/airtable.ts:232 | one tour per record, in order |
| TourCache.ConvertAll | lib/airtable.ts:232 | the map over the records computes `ToursOf` |
| TourCache.FetchOutcome | lib/airtable.ts:239-250 | success iff the fetch answered; the count on success; "Error: " and the message, with count 0, on failure |
| TourCache.ToursInCategory | lib/airtable.ts:264-272 | no (or an empty) category gives every tour; otherwise only tours with a matching category |
| TourCache.FeaturedOf | lib/airtable.ts:283-291 | at most 8 tours, a prefix of the featured ones or of all |
| TourCache.FindById | lib/airtable.ts:302 | a found tour has the id; none is found iff no tour has it |
| TourCache.Cache.constructor | lib/airtable.ts:11-16 | empty cache, no sync time, not syncing |
| TourCache.Cache.Status | lib/airtable.ts:319-325 | the sync time, the syncing flag and the number of cached tours |
| TourCache.Cache.StartSync | lib/airtable.ts:218-222 | a sync starts iff none is under way; the cache is untouched |
| TourCache.Cache.FinishSync | lib/airtable.ts:224-253 | on success the cache holds the converted tours and the sync time is now; on failure both are kept; the flag is cleared either way |
| TourCache.Cache.SyncTours | lib/airtable.ts:217-254 | a refused sync changes nothing; otherwise the fetch outcome, with the cache as in `FinishSync` |
| TourCache.Cache.FillIfEmpty | lib/airtable.ts:259-261 | a non-empty cache keeps its tours and sync time; an empty one gets the fetched tours and the time when the sync runs and succeeds, and stays empty with its time otherwise; the flag ends as it began |
| TourCache.Cache.GetAllTours | lib/airtable.ts:257-273 | the category query on the cache as the fill leaves it, with the fill's whole new state |
| TourCache.Cache.GetFeaturedTours | lib/airtable.ts:276-292 | the featured query on the cache as the fill leaves it, with the fill's whole new state |
| TourCache.Cache.GetTourById | lib/airtable.ts:295-316 | the cached tour, else the converted looked-up record, else none; the cache is what the fill left, so a looked-up tour is not cached |
| TourCache.FeaturedPrefersFeatured | lib/airtable.ts:283-288 | when any tour is featured, only featured tours, up to 8 |
| TourCache.FeaturedFallsBack | lib/airtable.ts:290-291 | with no featured tour, the first 8 tours |
| TourCache.CategoryQueryComplete | lib/airtable.ts:264-269 | every tour with a matching category is returned |
| TourCache.CategoryIgnoresCase | lib/airtable.ts:267 | the match ignores the case of the query |
| TourCache.FindByIdFirst | lib/airtable.ts:302 | the first cached tour with the id is the one found |
| PathComparison.PricePathsAgree | lib/airtable.ts:33-49 | the number coercion with default 0 and `parsePrice` agree on every value |
| PathComparison.BooleanPathsAgree | lib/airtable.ts:52-58 | the two boolean readings agree on booleans and on lower-case text |
| PathComparison.BooleanPathsDifferOnOne | lib/admin/sync-utils.ts:193 | the number 1 is true for the mapping path, false for the legacy one |
| PathComparison.BooleanPathsDifferOnCase | lib/airtable.ts:55 | "TRUE" and the like are true for the legacy path only |
| PathComparison.ArrayPathsAgree | lib/airtable.ts:61-71 | arrays and text give the same list on both paths |
| PathComparison.ArrayPathsDifferOnOthers | lib/admin/sync-utils.ts:212-214 | other values give the mapping's default on one path and [] on the other |
| PathComparison.ImagePathsAgreeOnHttp | lib/airtable.ts:78-80 | text starting with "http" is kept by both paths |
| PathComparison.ImagePathsDifferOnRelative | lib/airtable.ts:78-80 | a site-relative path is kept by the legacy path only |
| PathComparison.ImagePathsAgreeOnAttachments | lib/airtable.ts:83-91 | an attachment list whose first entry has a url gives that url on both paths |
| PathComparison.ImagePathsAgreeOnObject | lib/airtable.ts:94-96 | an attachment object with a url gives that url on both paths |
| PathComparison.ImagePathsDifferOnLinkList | lib/airtable.ts:83-87 | a list starting with an "http" text is kept by the legacy path only; the mapping path writes the default |
| PathComparison.ImagePathsWithoutUrl | lib/admin/sync-utils.ts:228-234 | an empty list or an object without a url gives the default on one path and "" on the other |
| PathComparison.UnreadableRecordPaths | lib/airtable.ts:203-214 | an unreadable record fails the mapping path but becomes the fallback tour on the legacy one |
| RelatedTours.Related | components/related-tours.tsx:10 | at most four tours, none of them the current one |
| RelatedTours.RelatedIsPrefixOfOthers | components/related-tours.tsx:10 | the strip is a prefix of the other tours in cache order, and all of them when fewer than four |
| RelatedTours.RelatedFillsFour | components/related-tours.tsx:10 | with at least four other tours, exactly four are shown |
| RelatedTours.RelatedOfOnlyCurrent | components/related-tours.tsx:10 | with no other tour the strip is empty |
| TourGallery.NextIndex | components/tour-gallery.tsx:19-21 | "next" keeps an index in range |
| TourGallery.PreviousIndex | components/tour-gallery.tsx:15-17 | "previous" keeps an index in range |
| TourGallery.ShownImage | components/tour-gallery.tsx:27 | the current image when present and non-empty, else the placeholder |
| TourGallery.PreviousAfterNext | components/tour-gallery.tsx:15-21 | "previous" undoes "next" |
| TourGallery.NextAfterPrevious | components/tour-gallery.tsx:15-21 | "next" undoes "previous" |
| TourGallery.AdvanceInRange | components/tour-gallery.tsx:19-21 | any number of "next" presses stays in range |
| TourGallery.AdvanceForward | components/tour-gallery.tsx:19-21 | before the last image, k presses move k images on |
| TourGallery.AdvanceWraps | components/tour-gallery.tsx:19-21 | past the last image the count starts again from the first |
| TourGallery.AdvanceCompose | components/tour-gallery.tsx:19-21 | presses add up |
| TourGallery.AdvancePeriodic | components/tour-gallery.tsx:19-21 | one press per image returns to the start: the arrows cycle through every image |
| TourGallery.Gallery.constructor | components/tour-gallery.tsx:13 | the gallery starts at the first image |
| TourGallery.Gallery.Shown | components/tour-gallery.tsx:27 | the current image is shown when it is non-empty |
| TourGallery.Gallery.HandleNext | components/tour-gallery.tsx:19-21 | wraps from the last image to the first, and keeps the index in range |
| TourGallery.Gallery.HandlePrevious | components/tour-gallery.tsx:15-17 | wraps from the first image to the last, and keeps the index in range |
| TourGallery.Gallery.SelectDot | components/tour-gallery.tsx:59-66 | clicking dot k shows image k |
| BookingForm.CreateBooking | lib/actions.ts:22-39 | the action never throws: it returns success iff the row was stored, with "Failed to create booking" otherwise |
| BookingForm.Decremented | components/booking-form.tsx:107 | a minus button never goes below its floor and never increases the count |
| BookingForm.AsWrittenConfirmsEveryBooking | components/booking-form.tsx:33-41 | as written, every call of the action ends in the confirmation |
| BookingForm.AsWrittenConfirmsFailedBooking | components/booking-form.tsx:33-41 | a failed write is reported by the action yet confirmed by the as-written form |
| BookingForm.ConfirmsExactlyStored | components/booking-form.tsx:33-46 | with the intended guard the confirmation appears exactly for stored bookings, never after an exception |
| BookingForm.ConfirmsImpliesAsWritten | components/booking-form.tsx:33-41 | the intended guard only withholds confirmations the as-written one gives |
| BookingForm.DecrementUndoesIncrement | components/booking-form.tsx:107-117 | minus after plus gives the count back; plus after minus does above the floor |
| BookingForm.Form.constructor | components/booking-form.tsx:20-24 | no date, two adults, no children, not loading, not confirmed |
| BookingForm.Form.SelectDate | components/booking-form.tsx:88 | picking a day changes the date only |
| BookingForm.Form.DecrementAdults | components/booking-form.tsx:107 | adults drop by one but never below 1; nothing else changes |
| BookingForm.Form.IncrementAdults | components/booking-form.tsx:117 | adults grow by one; nothing else changes |
| BookingForm.Form.DecrementChildren | components/booking-form.tsx:132 | children drop by one but never below 0; nothing else changes |
| BookingForm.Form.IncrementChildren | components/booking-form.tsx:142 | children grow by one; nothing else changes |
| BookingForm.Form.BeginSubmit | components/booking-form.tsx:26-39 | without a date nothing happens and no request is made; otherwise loading is set and the request carries the tour, date and guests |
| BookingForm.Form.EndSubmit | components/booking-form.tsx:40-46 | as written: the confirmation for every reply that returns, a failed one included, none after an exception; loading cleared in every case |
| BookingForm.Form.HandleSubmit | components/booking-form.tsx:26-47 | a whole submit as written: no request and no change without a date; otherwise a returned reply is confirmed; loading is false afterwards |
| BookingForm.Form.EndSubmitIntended | components/booking-form.tsx:40-46 | with the intended guard: the confirmation only for a stored booking; loading cleared in every case |
| BookingForm.Form.HandleSubmitIntended | components/booking-form.tsx:26-47 | a whole submit with the intended guard: only a stored booking is confirmed |
| BookingForm.Form.BookAnother | components/booking-form.tsx:58-61 | clears the confirmation and the date, keeps the guest counts |
| ToursPage.CategoryOf | app/tours/page.tsx:13 | a category exactly when the query entry is a single string |
| ToursPage.Capitalize | app/tours/page.tsx:22 | the first character upper-cased, the rest kept |
| ToursPage.CapitalizeAll | app/tours/page.tsx:22 | each word capitalised, in order |
| ToursPage.Heading | app/tours/page.tsx:19-24 | "All Tours" without a category, and every heading ends in " Tours" |
| ToursPage.CapitalizeNoSpace | app/tours/page.tsx:22 | capitalising does not create a space |
| ToursPage.TitleWordsArePieces | app/tours/page.tsx:20-23 | the title has one word per hyphen-separated piece, the capitalised pieces in order |
| ToursPage.SingleWordTitle | app/tours/page.tsx:20-23 | a slug without hyphens is one capitalised word |
| ToursPage.HeadingWords | app/tours/page.tsx:19-24 | read as words, a category heading is its capitalised pieces and "Tours" |

## Left out

- The spreadsheet SDK, environment variables, the browser's local storage and the network are parameters (`TableEnv`, `MappingSource`, a fetch function, a lookup function), not modelled.
- `testAirtableConnection` (lib/admin/sync-utils.ts:12-31) is a network probe with no logic beyond try/catch, and is not part of this model.
- `saveFieldMappings`, the editor's `handleSave` and the toasts only write to local storage or the screen.
- `createBooking`'s table write, `revalidatePath`, `manualSync` and `getSyncInfo` are I/O. `BookingForm.CreateBooking` models only the reply the form sees.
- Floating point: numbers are exact reals. There is no rounding, Infinity or -0. `parseFloat` does not read exponents and `parseInt` does not read hex prefixes.
- Normalizer.Seed: `processRecord` reads the clock only in its seed (lib/admin/sync-utils.ts:147-148): once per record for `updatedAt`, and once more for `createdAt` when the record has no creation time; no mapping reads it. The model uses one `now` per sync call, so every record of a sync gets the same `updatedAt`, and a record without a creation time gets `createdAt == updatedAt`.
- Upper- and lower-casing cover ASCII letters only.
- Normalizer.SetPath models lodash `set` on plain string keys only. Array indices and bracket paths are not modelled. A non-object step is replaced by a fresh object; array and Date steps are replaced too, where lodash keeps them and sets the key on them.
- Async interleaving is limited to the in-progress window of the tour cache, which `StartSync`/`FinishSync` split at the `await`. Other awaits are atomic.
- Rendering, styling, routing, the calendar's "no past dates" rule and date formatting are not modelled. A date is the already formatted text.
- `FieldMappings.GetFieldMappings`: saved JSON that parses to something other than an array of mappings is not modelled.
- `getAirtableTableName`'s default branch is unreachable for the three post types, so it has no counterpart.
- SyncStore.OutcomeOf: the message for a thrown non-Error value ("Unknown error syncing …") is not modelled. Every failure carries a message.
- TourCache.FetchOutcome: the "Error: Unknown error" message for a thrown non-Error value (lib/airtable.ts:248) is not modelled. Every failed fetch carries a message.
- MappingEditor.Editor.UpdateMapping and MappingEditor.Editor.RemoveMapping require an index in range. The source passes `findIndex` of an entry of the list, which always is; `-1` is never passed.
- MappingEditor.WithField cannot update `relationTable` or `relationDisplayField`. The editor's inputs never name them.
- CoercionProperties.ZeroFraction: "$45.00" reading as 45 is proved in parts (symbol skipped, zero cents add nothing), not as one literal instance.
- `console` logging is not modelled.

## Findings

| source | as written | input that shows it | evidently intended | confidence | as-written member | corrected member |
|---|---|---|---|---|---|---|
| components/booking-form.tsx:33-41 with lib/actions.ts:22-39 | `handleSubmit` shows "Booking Confirmed!" whenever `createBooking` does not throw; `createBooking` catches its own errors and returns `{ success: false }` instead of throwing | a booking whose table write fails: the action returns `{ success: false, error: "Failed to create booking" }` and the form confirms it | confirm only when the returned `success` is true | high (not executed) | BookingForm.Form.EndSubmit; BookingForm.AsWrittenConfirmsFailedBooking | BookingForm.Form.EndSubmitIntended; BookingForm.ConfirmsExactlyStored |
