# Inventory front-end, modelled in Dafny

This project models the client-side logic of an inventory web application. The application is a React/TypeScript single-page app over a hosted database. Staff use it to:

- receive goods into a shelf slot (a zone and a numbered channel);
- issue goods from a slot, either consumed for good or lent out (a "borrow");
- take lent goods back, or write them off as lost;
- browse stock by name, by slot or on the shelf map;
- manage the shelves, product names, tags and product images.

There is one module per source file of the core. Pure code (filters, validators, normalisers, folds) becomes datatypes, functions and lemmas. Page state that handlers update becomes a `class` whose fields are the page's `useState` slots. Each handler becomes a `method` that `modifies this` and states the page's whole new state. Server answers (`createOut`, `returnItem`, `getShelfConfigs`, `processFiles`, the similarity endpoint, ...) are parameters of the methods that receive them.

Shared modules:

- `Js` models the JavaScript behaviour the pages rely on:
  - `Number()` of a decimal string, and NaN and the infinities (`Num`);
  - `String.prototype.trim` with the ECMAScript white-space set;
  - `split(/\s+/)` and `join(' ')`;
  - ASCII `toLowerCase` and `toUpperCase`;
  - `includes`, the `%` remainder, and UTF-16 `length`.
- `Seqs` holds `filter` and order preservation.
- `Sorting` holds `Array.prototype.sort` with a comparator, both in place on an array and on a copy.

Module by source file:

| module | source |
|---|---|
| `Similarity` | `src/lib/similarity.ts` (name normalisation and similar-name candidates) |
| `Ledger` | `src/pages/Map.tsx` (the stock fold over receipts and issues, grouping by product, search) |
| `ReceiveIn` | `src/pages/ReceiveIn.tsx` |
| `Validators` | `src/lib/validators.ts` |
| `IssueOut` | `src/pages/IssueOut.tsx` |
| `ReturnItem` | `src/pages/ReturnItem.tsx` |
| `History` | `src/pages/History.tsx` |
| `ReceiveHistory` | `src/pages/ReceiveHistory.tsx` |
| `Stock` | `src/pages/Stock.tsx` |
| `OutHistory` | `src/pages/OutHistory.tsx` |
| `ProductDetail` | `src/components/ProductDetailModal.tsx` |
| `Imaging` | `src/lib/imaging.ts` (option merging, file selection, output naming and the type-fallback order) |
| `Settings` | `src/pages/Settings.tsx` |

Three facts about the code shape what follows:

- `IssueOut.tsx` sends an issue without checking that enough stock is on hand.
- The shelf map of `Map.tsx` only adds receipts and subtracts issues. Returns do not put stock back into a slot, and a lost quantity reaches the server only as a field of the return.
- `ReturnItem.tsx` and `History.tsx` check the quantities first and the reason for a loss last, and the model keeps that order.

## Model

| member | source | states |
|---|---|---|
| Validators.QtyNumber | src/lib/validators.ts:8 | a text quantity is read with `Number()`, a numeric one is taken as it is |
| Validators.ImagesError | src/lib/validators.ts:15-16 | no image error exactly for one to three images; more than three gives the "at most 3" message, none or a missing list the "at least 1" message |
| Validators.Record | src/lib/validators.ts:6-16 | the error record holds a key exactly when its check failed, with that key's message; the images message is the later, "too many" one when both apply |
| Validators.Errors | src/lib/validators.ts:6-16 | each of the five keys is present exactly when its own condition fails: blank trimmed name, not a positive integer, empty zone, empty channel, bad image count |
| Validators.NoErrorsIffValid | src/lib/validators.ts:18 | the form is accepted exactly when the name is present, the quantity is a positive integer, zone and channel are set and one to three images are attached |
| Validators.WholeNumberTextAccepted | src/lib/validators.ts:8-11 | in exact arithmetic, a quantity typed as decimal digits passes the quantity check exactly when its value is above zero |
| Validators.FractionRejected | src/lib/validators.ts:8-11 | for every form, a quantity that reads as a number with a fractional part is recorded under the quantity key with the quantity message, and the form is refused |
| Validators.ValidateReceiveForm | src/lib/validators.ts:3-19 | the result is ok exactly when the error record is empty and otherwise carries that record; an ok form has one to three images; an empty unit is set to the default unit and no other field of the form changes |
| Validators.CollectErrors | src/lib/validators.ts:6-16 | collecting all checks yields exactly the error record of the form's fields and only defaults the unit |
| Validators.DefaultTheUnit | src/lib/validators.ts:12 | an empty unit becomes the default unit, a non-empty one is kept, nothing else changes |
| Similarity.SquashSpacesShape | src/lib/similarity.ts:15 | after `\s+` is replaced by one space no two white-space characters are adjacent, and the result is empty only for empty input |
| Similarity.SquashSpacesKeeps | src/lib/similarity.ts:15 | squashing spaces introduces no character outside a class that contains the space |
| Similarity.CollapseSpacesShape | src/lib/similarity.ts:13-16 | a collapsed name has no double white space and no white space at either end |
| Similarity.CollapseSpacesKeeps | src/lib/similarity.ts:13-16 | collapsing keeps every character inside any class that contains the space |
| Similarity.ReplaceFromKeeps | src/lib/similarity.ts:22 | a replacement pass only brings in characters of the replacement text |
| Similarity.QuoteGone | src/lib/similarity.ts:6 | the inch pattern with a double quote leaves no double quote behind |
| Similarity.ApplyPatternsKeeps | src/lib/similarity.ts:22 | running all inch patterns keeps every class that contains the letters of " in" |
| Similarity.ReplaceInchesNoQuote | src/lib/similarity.ts:5-22 | after the inch rewrites no double quote is left in the name |
| Similarity.UnifyTimesShape | src/lib/similarity.ts:25 | after unifying, no `×` or `*` remains, and the step brings in no character but `x` |
| Similarity.StripTrailingMarksShape | src/lib/similarity.ts:27 | stripping removes only a tail of the marks `.`, `,`, `/`, `\` and `-`, and leaves the name not ending in one |
| Similarity.StripKeeps | src/lib/similarity.ts:27 | stripping trailing marks introduces no character |
| Similarity.ReplaceInches | src/lib/similarity.ts:22 | the loop over the inch patterns computes the pattern-by-pattern rewrite |
| Similarity.NormalizeName | src/lib/similarity.ts:18-29 | the step-by-step normaliser equals the normal form `Normalize` |
| Similarity.FinishKeeps | src/lib/similarity.ts:23-27 | the final steps keep any class containing the space and `x` |
| Similarity.FinishShape | src/lib/similarity.ts:23-27 | the final steps leave no `×` or `*` and no trailing mark |
| Similarity.PrefixStepsNoUpper | src/lib/similarity.ts:19-22 | after lower-casing, the space and inch steps bring back no upper-case letter |
| Similarity.NormalizeShape | src/lib/similarity.ts:18-29 | a normalised name has no upper-case letter, no double quote, no `×` or `*` and no trailing mark |
| Similarity.IsExactNameMatch | src/lib/similarity.ts:32-34 | equal names always match exactly |
| Similarity.ExactMatchEquivalence | src/lib/similarity.ts:32-34 | exact matching is symmetric and transitive |
| Similarity.PickCandidates | src/lib/similarity.ts:44-57 | the candidate loop computes the de-duplicated list of candidates that overlap the query |
| Similarity.SimilarCandidates | src/lib/similarity.ts:37-58 | the whole function computes `Similar`: nothing for a short query, otherwise the overlapping candidates |
| Similarity.PicksMembers | src/lib/similarity.ts:47-56 | a candidate is picked exactly when it is in the list and its normal form overlaps the query |
| Similarity.PicksDistinct | src/lib/similarity.ts:45-55 | no candidate is picked twice |
| Similarity.PicksInOrder | src/lib/similarity.ts:47-56 | picked candidates keep the order of their first appearance in the input |
| Similarity.PicksContract | src/lib/similarity.ts:44-57 | the picks are exactly the overlapping candidates, each once, in input order |
| Similarity.PicksOrder | src/lib/similarity.ts:44-57 | the picks are distinct and in first-appearance order |
| Similarity.SimilarMember | src/lib/similarity.ts:37-57 | a name is suggested exactly when the normalised query is at least two UTF-16 units long and the candidate's non-empty normal form overlaps it |
| Similarity.SimilarOrdered | src/lib/similarity.ts:37-58 | suggestions are distinct and in input order |
| Similarity.ExactMatchIsSimilar | src/lib/similarity.ts:32-50 | a candidate that matches the query exactly is always suggested once the query is long enough |
| Ledger.NumberOrZero | src/pages/Map.tsx:272 | a finite quantity counts as itself, NaN counts as zero |
| Ledger.UnitOr | src/pages/Map.tsx:282 | the unit is never empty: a given unit is kept, else the default unit |
| Ledger.ReceiptKey | src/pages/Map.tsx:266-270 | a receipt is skipped exactly when it has no name, no zone or no channel; otherwise its key carries its zone and channel |
| Ledger.OutKey | src/pages/Map.tsx:289-290 | an issue is skipped exactly when name, zone or channel is empty; otherwise it is keyed by the trimmed name, zone and channel |
| Ledger.Find | src/pages/Map.tsx:271 | the lookup finds the entry with that key, or reports that none has it |
| Ledger.PostRow | src/pages/Map.tsx:271-284 | one row's update of the stock table is the specification step `Post` |
| Ledger.PostReceipts | src/pages/Map.tsx:264-285 | the receipt loop builds the table of the receipts' postings |
| Ledger.Stock | src/pages/Map.tsx:264-306 | the `stockMap` values after both loops, keyed by slot; `Ledger.StockConservation` proves each slot appears once with received minus issued, and `Ledger.StockEntryUnit` fixes its unit |
| Ledger.PostOuts | src/pages/Map.tsx:288-306 | the issue loop continues that table to the table of receipts then issues |
| Ledger.PostAt | src/pages/Map.tsx:271-284 | posting changes only its own key's quantity, by its delta, and keeps the first unit seen for a key |
| Ledger.StockConservation | src/pages/Map.tsx:254-306 | on the corrected map keyed by the (name, zone, channel) tuple: each slot appears once, and its stock is everything received there minus everything issued there |
| Ledger.StockEntryUnit | src/pages/Map.tsx:274-305 | a key has an entry exactly when some row names it, and its unit is that of its first receipt, or of its first issue if it was never received |
| Ledger.OutWithoutReceipt | src/pages/Map.tsx:294-304 | an issue with no receipt creates an entry with the negated quantity |
| Ledger.GroupByName | src/pages/Map.tsx:312-335 | the grouping loop computes the grouping of positive entries by product name |
| Ledger.Group | src/pages/Map.tsx:312-335 | the `productMap` values: positive entries grouped by product name in first-appearance order; `Ledger.GroupNames` and `Ledger.GroupProducts` prove each name appears once, exactly when it has a positive slot, with exactly its positive slots in order |
| Ledger.LoadData | src/pages/Map.tsx:242-337 | the loaded products are the grouping of the stock fold over receipts and issues, keyed by tuple; the page keys by the bar-joined string, and `Ledger.StockAsWrittenAgrees` shows the two folds equal when no name or zone holds a bar |
| Ledger.GroupNames | src/pages/Map.tsx:312-335 | each product name occurs once, and a product exists exactly when some slot of that name has positive stock |
| Ledger.GroupProducts | src/pages/Map.tsx:317-334 | each product's id is its name, its image is empty and its locations are exactly that name's positive slots in order |
| Ledger.LoadedProductsPositive | src/pages/Map.tsx:315-337 | every location shown has positive stock and every product's total is positive |
| Ledger.TotalQty | src/pages/Map.tsx:70-72 | `totalQty`: the left-to-right sum of the location quantities from 0; `Ledger.LoadedProductsPositive` proves it positive for every product `loadData` builds |
| Ledger.FindProduct | src/pages/Map.tsx:324 | the product lookup finds that name or reports that none has it |
| Ledger.SearchResults | src/pages/Map.tsx:86-90 | a blank search shows nothing; otherwise exactly the products whose lower-cased name contains the lower-cased trimmed search |
| Ledger.SearchResultsInOrder | src/pages/Map.tsx:89 | search results keep the product order |
| Ledger.Alternates | src/pages/Map.tsx:208-211 | the other locations are exactly the product's locations in a different slot |
| Ledger.AlternatesInOrder | src/pages/Map.tsx:208-211 | the other locations keep their order |
| Ledger.StringKeyCollision | src/pages/Map.tsx:270 | two different slots can share one string key made of name, zone and channel joined by bars |
| Ledger.StringKeyInjective | src/pages/Map.tsx:270 | when name and zone contain no bar character, equal string keys mean the same slot |
| Ledger.FindAsWritten | src/pages/Map.tsx:270-271 | the page's lookup finds an entry whose bar-joined key equals the row's, and -1 exactly when none does |
| Ledger.StockAsWrittenMerges | src/pages/Map.tsx:264-306 | the page's string-keyed fold puts one unit received in each of two colliding slots into one entry holding 2, where the tuple-keyed fold keeps two entries of 1 |
| Ledger.StockAsWrittenAgrees | src/pages/Map.tsx:264-306 | when no receipt or issue row has a bar in its name or zone, the page's string-keyed map equals the tuple-keyed map entry for entry |
| Ledger.StockAsWritten | src/pages/Map.tsx:264-306 | the same fold keyed by the bar-joined string, as the page writes it; `Ledger.StockAsWrittenMerges` shows it merging two slots and `Ledger.StockAsWrittenAgrees` shows it equal to `Ledger.Stock` on bar-free rows |
| ReceiveIn.Record | src/pages/ReceiveIn.tsx:69-76 | the error record holds a key exactly when its check failed, with that key's message |
| ReceiveIn.Errors | src/pages/ReceiveIn.tsx:69-77 | name, quantity, zone and channel errors appear exactly when their own checks fail |
| ReceiveIn.BadQty | src/pages/ReceiveIn.tsx:72 | the quantity passes exactly when something was entered and it reads as a positive number, as +Infinity or as NaN (which compares false with 0) |
| ReceiveIn.ValidIffNoErrors | src/pages/ReceiveIn.tsx:76 | the form is valid exactly when name, quantity, zone and channel all pass |
| ReceiveIn.BlankFormFailsAll | src/pages/ReceiveIn.tsx:339-350 | a cleared form reports all four errors |
| ReceiveIn.ActiveShelf | src/pages/ReceiveIn.tsx:50 | the active shelf is the first shelf of the chosen zone, or none when no shelf has that zone |
| ReceiveIn.AvailableChannels | src/pages/ReceiveIn.tsx:51-53 | without a shelf there are no channels; otherwise "1" up to the shelf's slot count |
| ReceiveIn.SlotCount | src/pages/ReceiveIn.tsx:52 | the length `Array.from` takes from floors times slots per floor: no slots below one, otherwise the capacity truncated toward zero |
| ReceiveIn.ChannelOffered | src/pages/ReceiveIn.tsx:51-53 | a channel is offered exactly when it is the decimal text of a slot number of the shelf |
| ReceiveIn.ChannelsDistinct | src/pages/ReceiveIn.tsx:52 | no channel is offered twice |
| ReceiveIn.FindSame | src/pages/ReceiveIn.tsx:138 | the duplicate search gives a position in the list, or -1 |
| ReceiveIn.FindSameFacts | src/pages/ReceiveIn.tsx:138 | the position is the first file with the same name and size, and -1 means there is none |
| ReceiveIn.FindSameAtFirst | src/pages/ReceiveIn.tsx:138 | a file that has no earlier twin is found at its own position |
| ReceiveIn.FindSameOfSame | src/pages/ReceiveIn.tsx:138 | twin files are found at the same position |
| ReceiveIn.KeepFirstFacts | src/pages/ReceiveIn.tsx:137-139 | the de-duplicating filter keeps exactly the first file of each twin group, in order |
| ReceiveIn.KeepFirst | src/pages/ReceiveIn.tsx:137-139 | the `filter` that keeps a file when `findIndex` of its name and size is its own position; `ReceiveIn.KeepFirstFacts` and `ReceiveIn.KeepFirstDeduplicates` state what it keeps |
| ReceiveIn.KeepFirstDeduplicates | src/pages/ReceiveIn.tsx:137-139 | the filtered list has no twins, holds only input files, and keeps one file of every twin group |
| ReceiveIn.MergeFilesDeduplicates | src/pages/ReceiveIn.tsx:137-139 | merging new files into the images has no twins and loses no twin group |
| ReceiveIn.MergeFiles | src/pages/ReceiveIn.tsx:137-139 | `[...images, ...files]` de-duplicated; `ReceiveIn.MergeFilesDeduplicates` and `ReceiveIn.MergeKeepsHeld` prove no twins, no lost group and held files kept in front |
| ReceiveIn.MergeKeepsHeld | src/pages/ReceiveIn.tsx:137-139 | files already held stay in front, unchanged, when they had no twins |
| ReceiveIn.HeldPrefix | src/pages/ReceiveIn.tsx:137-139 | a run of first occurrences passes the filter unchanged |
| ReceiveIn.Tags | src/pages/ReceiveIn.tsx:101 | every tag sent is non-empty and holds no white space, and the tags joined by single spaces are the trimmed text with each run of white space squashed to one space; this fixes the tags as the text's words in order |
| ReceiveIn.TagsAgree | src/pages/ReceiveIn.tsx:101 | the receive page and the product dialog (Settings.tsx:378) read any tag text into the same list |
| ReceiveIn.BlankTagsGiveNone | src/pages/ReceiveIn.tsx:101 | blank tag text sends no tags |
| ReceiveIn.TagsOfJoinedWords | src/pages/ReceiveIn.tsx:101 | words joined by spaces come back as the same tags |
| ReceiveIn.Payload | src/pages/ReceiveIn.tsx:93-102 | the upload carries the form's fields and tag list, and a valid form's quantity is positive |
| ReceiveIn.SimilarityQuery | src/pages/ReceiveIn.tsx:146-147 | no lookup for a trimmed name shorter than two UTF-16 units; otherwise the lookup uses the trimmed name |
| ReceiveIn.ApplyUpdate | src/pages/ReceiveIn.tsx:66-67 | each of the eight field updates sets exactly its own field and keeps the others |
| ReceiveIn.ReceiveInPage.constructor | src/pages/ReceiveIn.tsx:26-43 | the page opens with the empty form, no errors, no shelves and no matches |
| ReceiveIn.ReceiveInPage.LoadShelves | src/pages/ReceiveIn.tsx:45-47 | loading replaces only the shelf list |
| ReceiveIn.ReceiveInPage.Channels | src/pages/ReceiveIn.tsx:51-53 | the channel choices are "1", "2", ... in order |
| ReceiveIn.ReceiveInPage.SetField | src/pages/ReceiveIn.tsx:66-67 | an input change updates just its field |
| ReceiveIn.ReceiveInPage.Validate | src/pages/ReceiveIn.tsx:69-77 | validation stores the error record and succeeds exactly when all four checks pass |
| ReceiveIn.ReceiveInPage.ShowErrors | src/pages/ReceiveIn.tsx:75 | only the error record changes |
| ReceiveIn.ReceiveInPage.Save | src/pages/ReceiveIn.tsx:79-128 | nothing is sent while errors remain; otherwise the upload is the form's payload, and the form is cleared only when the upload succeeds |
| ReceiveIn.ReceiveInPage.FilesSelected | src/pages/ReceiveIn.tsx:132-143 | picking no file changes nothing; otherwise the images become the de-duplicated merge |
| ReceiveIn.ReceiveInPage.RemovePreview | src/pages/ReceiveIn.tsx:320-324 | removing a preview drops exactly that image |
| ReceiveIn.ReceiveInPage.CheckSimilarity | src/pages/ReceiveIn.tsx:145-159 | the lookup is made only for a long enough name, and matches are shown only when some came back |
| ReceiveIn.ReceiveInPage.UseExisting | src/pages/ReceiveIn.tsx:161-164 | choosing a match takes its name and closes the suggestions |
| ReceiveIn.ReceiveInPage.DismissMatches | src/pages/ReceiveIn.tsx:166-173 | dismissing closes the suggestions and keeps the form |
| ReceiveIn.ReceiveInPage.ResetAfterSave | src/pages/ReceiveIn.tsx:108-118 | after a successful upload the form is the empty form and no errors remain; shelves and suggestions are untouched |
| ReceiveIn.ReceiveInPage.ClearForm | src/pages/ReceiveIn.tsx:339-350 | clearing restores the empty form only |
| IssueOut.ChannelChoices | src/pages/IssueOut.tsx:8 | there are 25 distinct channel choices, "1" to "25" |
| IssueOut.Check | src/pages/IssueOut.tsx:39-51 | the first failing check wins: blank name, then a quantity that is not positive, then a blank requester; no error exactly when all three pass |
| IssueOut.Request | src/pages/IssueOut.tsx:55-64 | a record is sent exactly when all checks pass, with trimmed name, requester and remark, a positive quantity and the form's other fields |
| IssueOut.DefaultFormRejected | src/pages/IssueOut.tsx:14-21 | the initial form is rejected for its missing name |
| IssueOut.IssueOutPage.constructor | src/pages/IssueOut.tsx:14-24 | the form opens empty, with the first unit, zone "A", channel "1", consume kind and no messages |
| IssueOut.IssueOutPage.Prefill | src/pages/IssueOut.tsx:26-33 | each of name, zone, channel and unit is taken from the route state exactly when it is given and non-empty; nothing else changes |
| IssueOut.IssueOutPage.Submit | src/pages/IssueOut.tsx:35-76 | a rejected form shows the first error; a created record shows the success text with its document number and clears name, quantity and remark; a failure shows the server's message or the fallback |
| IssueOut.IssueOutPage.ClearAfterIssue | src/pages/IssueOut.tsx:67-69 | only name, quantity and remark are cleared |
| IssueOut.ResetFormRejected | src/pages/IssueOut.tsx:67-69 | a form cleared after an issue cannot be sent again as it stands |
| ReturnItem.ReadQty | src/pages/ReturnItem.tsx:48-49 | an empty or NaN quantity reads as 0, any other number as itself |
| ReturnItem.SubmitReturn | src/pages/ReturnItem.tsx:46-75 | the first failing check wins: a negative quantity, a zero total, a total above what is left, a loss without reason; a sent return has non-negative parts whose sum is positive and at most what is left, in exact arithmetic |
| ReturnItem.FullReturnAccepted | src/pages/ReturnItem.tsx:35-66 | the dialog's defaults, everything returned and nothing lost, are accepted as they stand |
| ReturnItem.ReturnItemPage.constructor | src/pages/ReturnItem.tsx:7-16 | the page opens with no list, no selection, an empty return quantity and a lost quantity of 0 |
| ReturnItem.ReturnItemPage.FetchList | src/pages/ReturnItem.tsx:22-33 | fetching replaces only the list |
| ReturnItem.ReturnItemPage.OpenModal | src/pages/ReturnItem.tsx:35-40 | opening selects the item, proposes everything left as returned, nothing lost and no reason |
| ReturnItem.ReturnItemPage.CloseModal | src/pages/ReturnItem.tsx:42-44 | closing only clears the selection |
| ReturnItem.ReturnItemPage.SetReturnQty | src/pages/ReturnItem.tsx:151 | only the returned quantity changes |
| ReturnItem.ReturnItemPage.SetLostQty | src/pages/ReturnItem.tsx:161 | only the lost quantity changes |
| ReturnItem.ReturnItemPage.SetReason | src/pages/ReturnItem.tsx:170 | only the reason changes |
| ReturnItem.ReturnItemPage.Submit | src/pages/ReturnItem.tsx:46-66 | nothing happens without a selection; a sent return stays within what is left of the selected borrow |
| ReturnItem.ReturnItemPage.ReturnSucceeded | src/pages/ReturnItem.tsx:76-78 | after a return the dialog closes and the list is the refreshed one |
| History.ApiFilter | src/pages/History.tsx:247-249 | the server filter is IN exactly on the in tab and OUT exactly on the consume tab |
| History.KeptFeed | src/pages/History.tsx:253-258 | the consume tab keeps exactly the consume rows, every other tab keeps the feed |
| History.KeptFeedInOrder | src/pages/History.tsx:254-255 | the kept rows keep the feed's order |
| History.HistoryRows | src/pages/History.tsx:269 | shown rows are exactly those whose lower-cased name contains the lower-cased filter |
| History.BorrowRows | src/pages/History.tsx:326 | shown borrows are exactly those whose lower-cased name contains the lower-cased filter |
| History.RowsInOrder | src/pages/History.tsx:269-326 | both lists keep their order |
| History.EmptyFilterShowsAll | src/pages/History.tsx:269-326 | an empty filter shows everything |
| History.Status | src/pages/History.tsx:356-368 | a borrow is pending exactly when some quantity is left, incomplete when nothing is left but something was lost, complete otherwise |
| History.ReturnButtonIffPending | src/pages/History.tsx:405-414 | the return button shows exactly for pending borrows |
| History.DropClosingParen | src/pages/History.tsx:384 | one trailing `)` is removed and nothing else |
| History.NoteWithoutTag | src/pages/History.tsx:383-384 | without the note tag in the requester field the remark is shown |
| History.NoteWithTag | src/pages/History.tsx:383-384 | with the tag, the note is the rest of its line without the closing parenthesis |
| History.NoteCapture | src/pages/History.tsx:383 | the capture of `/\(Note:\s*(.*)\)/` lies on one line and is shorter than the requester text by more than the tag |
| History.Note | src/pages/History.tsx:383-384 | a note other than the remark lies on one line; `History.NoteWithTag` and `History.NoteWithoutTag` give its value in both cases |
| History.Accepted | src/pages/History.tsx:50-54 | an input is accepted only as a number from 0 to what is left; negatives count as 0; NaN and too-large values are refused |
| History.LostChanged | src/pages/History.tsx:43-58 | clearing the lost input returns everything; an accepted lost quantity makes the return input its complement; a refused one changes nothing; the pair stays within what is left |
| History.ReturnChanged | src/pages/History.tsx:60-85 | an accepted return quantity is stored; the lost input is lowered only when needed to keep the sum at what is left; the pair stays within what is left |
| History.SubmitOutcome | src/pages/History.tsx:87-119 | the first failing check wins: zero total, total above what is left, no returner, a loss without reason; a sent request carries the entered quantities, which are non-negative and sum to at most what is left, in exact arithmetic |
| History.ReturnModal.constructor | src/pages/History.tsx:30-40 | the dialog opens proposing everything left as returned and nothing lost |
| History.ReturnModal.HandleLostChange | src/pages/History.tsx:43-58 | the lost handler applies `LostChanged` and keeps the dialog's invariant |
| History.ReturnModal.HandleReturnChange | src/pages/History.tsx:60-85 | the return handler applies `ReturnChanged` and keeps the dialog's invariant |
| History.ReturnModal.SetReturnerName | src/pages/History.tsx:183 | only the returner's name changes |
| History.ReturnModal.SetReason | src/pages/History.tsx:192 | only the reason changes |
| History.ReturnModal.Submit | src/pages/History.tsx:87-108 | a request sent from a dialog in its invariant is positive, within what is left, names the returner and gives a reason for any loss |
| History.HistoryPage.constructor | src/pages/History.tsx:216-224 | the page opens on the all tab with empty lists, no filter and no selection |
| History.HistoryPage.SwitchTab | src/pages/History.tsx:230-233 | switching changes only the tab |
| History.HistoryPage.LoadData | src/pages/History.tsx:239-265 | the borrow tab replaces the borrow list; other tabs replace the history with the kept feed |
| History.HistoryPage.SetFilter | src/pages/History.tsx:458 | only the filter changes |
| History.HistoryPage.SelectBorrow | src/pages/History.tsx:405-407 | a pending borrow becomes the selection |
| History.HistoryPage.CloseReturn | src/pages/History.tsx:474 | the dialog's close clears the selection and keeps the rest |
| History.HistoryPage.ReturnDone | src/pages/History.tsx:475-478 | after a successful return the selection is cleared and the page reloads: the borrow list on the borrow tab, the kept feed on the others |
| ReceiveHistory.OutstandingQty | src/pages/ReceiveHistory.tsx:255-261 | never negative; 0 for non-borrows and closed borrows; otherwise what was borrowed minus what came back, floored at 0, in exact arithmetic |
| ReceiveHistory.OutstandingMeansOpenBorrow | src/pages/ReceiveHistory.tsx:255-261 | a positive outstanding quantity belongs to an open borrow with less returned than borrowed |
| ReceiveHistory.FilterByTab | src/pages/ReceiveHistory.tsx:262-274 | the return tab gives the pair of lists, the other tabs one list |
| ReceiveHistory.FilterByTabMembers | src/pages/ReceiveHistory.tsx:262-273 | the in and consume tabs show exactly the matching items of their kind; the return tab shows the matching returns and the matching borrows with something outstanding |
| ReceiveHistory.BlankQueryKeepsKind | src/pages/ReceiveHistory.tsx:263-268 | a blank query keeps every item of the tab's kind, in order |
| ReceiveHistory.FilterByTabInOrder | src/pages/ReceiveHistory.tsx:266-272 | every tab list keeps the items' order |
| ReceiveHistory.DateLeIsPreorder | src/pages/ReceiveHistory.tsx:279 | comparing dates as strings is a total preorder, so the sort is well defined |
| ReceiveHistory.BuildTimeline | src/pages/ReceiveHistory.tsx:275-280 | the timeline is in date order and is a permutation of the items of that name |
| ReceiveHistory.TimelineMembers | src/pages/ReceiveHistory.tsx:275-280 | an item is on the timeline exactly when it has that name |
| ReceiveHistory.SummarizeByName | src/pages/ReceiveHistory.tsx:281-291 | the shortage is never negative, at least borrowed minus returned, and zero exactly when no more was borrowed than returned |
| ReceiveHistory.MockPipeSummary | src/pages/ReceiveHistory.tsx:395-399 | on the built-in sample data the pipe was borrowed 2 and returned 1, so the page's own shortage assertion holds |
| ReceiveHistory.MockPipeRows | src/pages/ReceiveHistory.tsx:50-146 | the sample data holds the pipe in exactly three rows |
| ReceiveHistory.ValidateReturn | src/pages/ReceiveHistory.tsx:403-417 | the first failing check wins: not finite or negative, zero with nothing outstanding, zero without closing, more than outstanding; accepted exactly otherwise |
| ReceiveHistory.ReasonComposed | src/pages/ReceiveHistory.tsx:441-446 | the reason is never empty: a non-blank "other" text trimmed, a blank one the fixed "other reason" text, and the fixed texts for broken and lost |
| ReceiveHistory.FindIndex | src/pages/ReceiveHistory.tsx:452 | the first item with that id, or -1 when none has it |
| ReceiveHistory.AfterReturnNewTxs | src/pages/ReceiveHistory.tsx:448-499 | a return transaction with the entered quantity, the borrow's id and name is put in front, with no reason exactly for a full return; when the rest is closed, a consume transaction of the remainder goes before it |
| ReceiveHistory.AfterReturn | src/pages/ReceiveHistory.tsx:448-499 | the list after an accepted return grows by one transaction, or two when the rest is closed, with the return of the entered quantity last of them; the three AfterReturn lemmas state the rest |
| ReceiveHistory.AfterReturnOthersUnchanged | src/pages/ReceiveHistory.tsx:448-502 | every item other than the borrow is unchanged, only shifted behind the new transactions |
| ReceiveHistory.AfterReturnOutstanding | src/pages/ReceiveHistory.tsx:452-487 | after an accepted return the borrow's outstanding quantity drops by the returned amount, or to 0 when the rest is closed |
| ReceiveHistory.ApplyReturn | src/pages/ReceiveHistory.tsx:448-502 | the copy-update-unshift sequence computes the list the return flow specifies |
| ReceiveHistory.ReceiveHistoryPage.constructor | src/pages/ReceiveHistory.tsx:303-374 | the page starts from the sample data, with the return dialog closed and its defaults set |
| ReceiveHistory.ReceiveHistoryPage.OpenReturnModal | src/pages/ReceiveHistory.tsx:419-429 | with no target nothing changes; otherwise the dialog opens on the target with its outstanding quantity, reason "lost" and close-as-consume on |
| ReceiveHistory.ReceiveHistoryPage.SetReturnQty | src/pages/ReceiveHistory.tsx:847 | only the quantity changes, to `Number` of the text typed (0 when empty) |
| ReceiveHistory.ReceiveHistoryPage.SetReasonType | src/pages/ReceiveHistory.tsx:860-864 | only the reason choice changes |
| ReceiveHistory.ReceiveHistoryPage.SetReasonOther | src/pages/ReceiveHistory.tsx:876-878 | only the free-text reason changes |
| ReceiveHistory.ReceiveHistoryPage.SetCloseAsConsume | src/pages/ReceiveHistory.tsx:892-894 | only the close-as-consume flag changes |
| ReceiveHistory.ReceiveHistoryPage.CloseReturnModal | src/pages/ReceiveHistory.tsx:827 | the dialog closes and every other state slot is kept |
| ReceiveHistory.ReceiveHistoryPage.SubmitReturn | src/pages/ReceiveHistory.tsx:431-505 | a rejected return shows its message and keeps the items; an accepted one replaces them with the updated list and closes the dialog |
| Stock.BalanceDescIsPreorder | src/pages/Stock.tsx:31 | ordering by balance, largest first, is a total preorder |
| Stock.BalanceDesc | src/pages/Stock.tsx:31 | the comparator `b.BALANCE - a.BALANCE` as an order; `Stock.BalanceDescIsPreorder` proves it a total preorder |
| Stock.Filtered | src/pages/Stock.tsx:40-48 | an empty filter shows all rows; otherwise exactly those whose name, zone or channel contains the lower-cased filter |
| Stock.Matches | src/pages/Stock.tsx:45-47 | the keyword test on name, zone and channel; `Stock.Filtered` proves the filter keeps exactly the rows that pass it |
| Stock.FilteredInOrder | src/pages/Stock.tsx:40 | filtered rows keep their order |
| Stock.StockPage.constructor | src/pages/Stock.tsx:19-20 | the page starts with no rows and no filter |
| Stock.StockPage.Load | src/pages/Stock.tsx:27-32 | the loaded rows are the fetched rows sorted by balance, largest first, as a permutation |
| Stock.StockPage.SetFilter | src/pages/Stock.tsx:61 | only the filter changes |
| Stock.StockPage.Shown | src/pages/Stock.tsx:40-48 | all loaded rows when there is no filter; otherwise a row is shown exactly when it is loaded and its lower-cased name, zone or channel contains the lower-cased filter |
| Stock.ShownStaysSorted | src/pages/Stock.tsx:31-48 | the filtered view of the sorted rows is still sorted by balance |
| OutHistory.IdDescIsPreorder | src/pages/OutHistory.tsx:29 | ordering by document number, highest first, is a total preorder |
| OutHistory.IdDesc | src/pages/OutHistory.tsx:29 | the `localeCompare` comparator on document numbers, highest first; `OutHistory.IdDescIsPreorder` proves it a total preorder |
| OutHistory.NewestFirst | src/pages/OutHistory.tsx:29 | in the sorted list an earlier row never has a smaller document number than a later one |
| OutHistory.Rows | src/pages/OutHistory.tsx:33-35 | shown rows are exactly those whose name contains the filter |
| OutHistory.RowsInOrder | src/pages/OutHistory.tsx:33-35 | shown rows keep their order, and an empty filter shows all |
| OutHistory.DateShown | src/pages/OutHistory.tsx:65 | the shown date is the first ten characters of the date |
| OutHistory.RemarkShown | src/pages/OutHistory.tsx:72 | a missing or blank remark shows as "-", any other as itself |
| OutHistory.RemarkNeverBlank | src/pages/OutHistory.tsx:72 | the remark cell is never blank |
| OutHistory.OutHistoryPage.constructor | src/pages/OutHistory.tsx:18-21 | the page starts empty, with the image viewer closed |
| OutHistory.OutHistoryPage.Load | src/pages/OutHistory.tsx:27-31 | the loaded rows are the fetched rows sorted newest first, as a permutation |
| OutHistory.OutHistoryPage.SetFilter | src/pages/OutHistory.tsx:49 | only the filter changes |
| OutHistory.OutHistoryPage.OpenImages | src/pages/OutHistory.tsx:82-85 | the viewer opens on the row's images |
| OutHistory.OutHistoryPage.CloseImages | src/pages/OutHistory.tsx:104 | the viewer closes and keeps the rest |
| OutHistory.OutHistoryPage.Shown | src/pages/OutHistory.tsx:33-35 | the shown rows are exactly the matching loaded rows |
| ProductDetail.ImagesOf | src/components/ProductDetailModal.tsx:24 | a product without images shows none |
| ProductDetail.Prev | src/components/ProductDetailModal.tsx:73 | the previous arrow steps back one and wraps from the first image to the last |
| ProductDetail.Next | src/components/ProductDetailModal.tsx:88 | the next arrow steps on one and wraps from the last image to the first |
| ProductDetail.ArrowsUndo | src/components/ProductDetailModal.tsx:70-89 | each arrow undoes the other |
| ProductDetail.NextTimesIsShift | src/components/ProductDetailModal.tsx:88 | pressing next k times moves k images on, wrapping once |
| ProductDetail.FullTurn | src/components/ProductDetailModal.tsx:88 | pressing next once per image comes back to the start |
| ProductDetail.ImageSrc | src/components/ProductDetailModal.tsx:27-29 | an http address is used as it is, anything else is shown as base64 JPEG data |
| ProductDetail.TotalQtyAppend | src/components/ProductDetailModal.tsx:31 | the total of two location lists is the sum of their totals |
| ProductDetail.TotalQty | src/components/ProductDetailModal.tsx:31 | the left-to-right `reduce` of the quantities; `ProductDetail.TotalQtyAppend` and `ProductDetail.TotalQtyBounds` prove it additive, non-negative and at least each location |
| ProductDetail.TotalQtyBounds | src/components/ProductDetailModal.tsx:31 | with non-negative locations the total is non-negative and at least each location |
| ProductDetail.TotalUnit | src/components/ProductDetailModal.tsx:136 | the unit shown is the first location's, or the default unit when it has none |
| ProductDetail.ProductDetailModal.constructor | src/components/ProductDetailModal.tsx:22-24 | the dialog opens on the first image |
| ProductDetail.ProductDetailModal.Dots | src/components/ProductDetailModal.tsx:99-111 | with more than one image there is one dot per image, otherwise none |
| ProductDetail.ProductDetailModal.CurrentSrc | src/components/ProductDetailModal.tsx:27-29 | no picture without images, otherwise the source of the current one |
| ProductDetail.ProductDetailModal.PressPrev | src/components/ProductDetailModal.tsx:70-74 | the index moves back with wrap and stays valid |
| ProductDetail.ProductDetailModal.PressNext | src/components/ProductDetailModal.tsx:85-89 | the index moves on with wrap and stays valid |
| ProductDetail.ProductDetailModal.PressDot | src/components/ProductDetailModal.tsx:102-107 | a dot selects its image |
| Imaging.MergeOptions | src/lib/imaging.ts:122 | each given option overrides its default, each missing one takes the default |
| Imaging.MergeOptionsExtremes | src/lib/imaging.ts:25-30 | no options give the defaults; all options given are kept as they are |
| Imaging.PickTypes | src/lib/imaging.ts:32-35 | the preferred type is tried first and the other one second |
| Imaging.FilesToProcess | src/lib/imaging.ts:120-126 | exactly the image files of the list are processed |
| Imaging.IsImage | src/lib/imaging.ts:125 | `/^image\//` holds exactly when the MIME type begins with the six characters `image/` |
| Imaging.FilesToProcessInOrder | src/lib/imaging.ts:124-126 | files are processed in their order |
| Imaging.StripImageExt | src/lib/imaging.ts:102 | the name loses at most one image extension at its end, and is kept when it has none |
| Imaging.StripFirstExt | src/lib/imaging.ts:102 | a prefix of the name: the name less one extension of the list that ends it, ignoring case, or the name itself when none does |
| Imaging.StripOneExt | src/lib/imaging.ts:102 | a base name with an image extension added in any case gets the base back |
| Imaging.OutputName | src/lib/imaging.ts:101-103 | the output name is the stripped name with `.webp` or `.jpg` for the type chosen |
| Imaging.OutputMime | src/lib/imaging.ts:104 | the chosen type is used, JPEG when none was chosen |
| Imaging.ChooseAsWrittenMislabels | src/lib/imaging.ts:75-96 | the loop as written can label a JPEG blob as WebP |
| Imaging.ChooseAsWritten | src/lib/imaging.ts:75-96 | the type loop as written keeps the same blob as the corrected loop `Imaging.Choose`; only the label can differ, as `Imaging.ChooseAsWrittenMislabels` shows |
| Imaging.Choose | src/lib/imaging.ts:75-96 | the corrected loop labels every blob with its own type, and finds none only when every type is refused |
| Imaging.ChooseType | src/lib/imaging.ts:63-98 | the type loop computes the corrected choice, whose label matches its blob |
| Imaging.ProcessedAs | src/lib/imaging.ts:98-104 | with the corrected type loop: processing fails exactly when both types are refused; otherwise the output name and MIME type are those of the blob kept, whose type the encoder did not refuse |
| Settings.ShelfSaveRequest | src/pages/Settings.tsx:142 | a shelf with an empty zone is not saved; any other is sent unchanged |
| Settings.UpperZone | src/pages/Settings.tsx:179 | a stored zone has no lower-case letter, and upper-casing it again changes nothing |
| Settings.ShelfTab.constructor | src/pages/Settings.tsx:122-125 | the shelf tab starts with no shelves, not editing, with the 5 by 5 empty form |
| Settings.ShelfTab.Load | src/pages/Settings.tsx:129-139 | loading replaces only the shelf list |
| Settings.ShelfTab.StartAdd | src/pages/Settings.tsx:168 | the add button opens the form with what it last held |
| Settings.ShelfTab.StartEdit | src/pages/Settings.tsx:221-224 | the edit button opens the form on that row |
| Settings.ShelfTab.Cancel | src/pages/Settings.tsx:194 | cancel closes the form and keeps its values |
| Settings.ShelfTab.SetZone | src/pages/Settings.tsx:179 | the zone is stored upper-cased |
| Settings.ShelfTab.SetFloors | src/pages/Settings.tsx:186 | only the floor count changes, to the number read, fractional or not |
| Settings.ShelfTab.SetSlotsPerFloor | src/pages/Settings.tsx:190 | only the slots per floor change, to the number read, fractional or not |
| Settings.ShelfTab.Save | src/pages/Settings.tsx:141-152 | nothing is sent for an empty zone; a successful save closes and resets the form and reloads the list; a failed one changes nothing |
| Settings.Listed | src/pages/Settings.tsx:265-279 | the list is a prefix of the matching products in their order, of length 50 or all of them when fewer match; with at most 50 matches every one is listed |
| Settings.InitialImages | src/pages/Settings.tsx:327-329 | the first image list holds every stored URL as a stored entry, in order |
| Settings.NewEntries | src/pages/Settings.tsx:339-345 | each processed file becomes a new entry with its URL, blob and file name, in order |
| Settings.ImagesPayload | src/pages/Settings.tsx:368-373 | one payload entry per image, in order: an upload for a new one, the URL for a stored one |
| Settings.UntouchedImagesKept | src/pages/Settings.tsx:327-373 | saving an untouched dialog keeps every stored URL in order |
| Settings.EditedTags | src/pages/Settings.tsx:378 | every tag saved is non-empty and free of white space, and the tags joined by single spaces are the trimmed text with each run of white space squashed to one space |
| Settings.TrimEach | src/pages/Settings.tsx:378 | each piece is trimmed and none is dropped or moved |
| Settings.TagRoundTrip | src/pages/Settings.tsx:320-378 | non-empty tags without white space survive the join and split unchanged |
| Settings.EditProductModal.constructor | src/pages/Settings.tsx:317-329 | the dialog starts with the product's name, unit or "", joined tags and stored images |
| Settings.EditProductModal.AddProcessed | src/pages/Settings.tsx:339-346 | new entries go after the existing ones, which keep their places |
| Settings.EditProductModal.RemoveImage | src/pages/Settings.tsx:357-359 | exactly the entry at the index is removed, the others keep their order |
| Settings.EditProductModal.SetName | src/pages/Settings.tsx:436 | only the name changes |
| Settings.EditProductModal.SetUnit | src/pages/Settings.tsx:447 | only the unit changes |
| Settings.EditProductModal.SetTags | src/pages/Settings.tsx:455 | only the tag text changes |
| Settings.EditProductModal.SaveRequest | src/pages/Settings.tsx:368-380 | the update carries the edited name and unit, the tags `EditedTags` reads from the tag text (non-empty and space-free) and `ImagesPayload` of the image list (one entry per image) |
| Seqs.Filter | src/pages/Stock.tsx:40 | the filtered list holds exactly the elements that pass, and is no longer than the input |
| Seqs.RemoveAt | src/pages/Settings.tsx:358 | removing a valid index drops that element and shifts the rest; an out-of-range index changes nothing |
| Sorting.InsertionSort | src/pages/Stock.tsx:31 | sorting in place leaves the array ordered by the comparator and a permutation of what it held |
| Sorting.Sort | src/pages/ReceiveHistory.tsx:278-279 | sorting a copy gives an ordered permutation of its input |
| Js.InputNumber | src/pages/IssueOut.tsx:43 | `Number()` of an empty number input is 0, of an entered one its number |
| Js.Trim | src/lib/validators.ts:7 | the trimmed text neither starts nor ends with white space |
| Js.TrimEmptyIffAllSpace | src/lib/validators.ts:7 | text trims to empty exactly when it is all white space |
| Js.StringToNumber | src/lib/validators.ts:8 | blank text reads as 0 |
| Js.NumberOfNatToString | src/lib/validators.ts:8 | in exact arithmetic, the decimal text of a whole number reads back as that number |
| Js.NumberLabels | src/pages/IssueOut.tsx:8 | n labels, the i-th one the decimal text of i + 1 |
| Js.NatToStringInjective | src/pages/IssueOut.tsx:8 | different numbers have different decimal texts |
| Js.Lower | src/lib/similarity.ts:19 | lower-casing keeps the length and maps each character |
| Js.Upper | src/pages/Settings.tsx:179 | upper-casing keeps the length and maps each character |
| Js.Utf16Length | src/lib/similarity.ts:41 | the UTF-16 length is at least the number of characters and at most twice it |
| Js.Rem | src/components/ProductDetailModal.tsx:73 | `%` truncates: non-negative for non-negative operands, never as large as the divisor |
| Js.LexLeTotal | src/pages/OutHistory.tsx:29 | any two strings are ordered one way or the other |
| Js.LexLeTransitive | src/pages/OutHistory.tsx:29 | the string order is transitive |
| Js.LexLeAntisymmetric | src/pages/OutHistory.tsx:29 | strings ordered both ways are equal |
| Js.Split | src/pages/Settings.tsx:378 | splitting on white space gives at least one piece, none holding white space |
| Js.SplitSquashes | src/pages/Settings.tsx:378 | the pieces of a split joined by single spaces are the text with each run of white space squashed to one space |
| Js.SplitWords | src/pages/Settings.tsx:378 | dropping the empty pieces of the split leaves no piece at all for blank text, else the split of the trimmed text; joined by single spaces they are the trimmed, squashed text |
| Js.JoinedWordsDetermine | src/pages/Settings.tsx:378 | two lists of words with the same space-joined text are equal |
| Js.NonEmpty | src/pages/Settings.tsx:378 | `filter(Boolean)` keeps exactly the non-empty pieces |
| Js.SplitJoin | src/pages/ReceiveIn.tsx:101 | words joined by single spaces split back into the same words |

## Left out

- Network and storage calls (the database client, `api.ts`, uploads, `listReceipts`, `fetchStockSummary`) are not modelled; what they answer is a method parameter. `src/lib/api.ts` and `src/types.ts` are not part of this model.
- Asynchrony, the debounce timer, the `alive` cancellation flag and loading flags are left out: each handler is modelled as running to completion on the answer it receives.
- Alerts, confirmations and the settings password check are dialogs or a fixed secret; they are left out, and so is the destructive data reset (`DangerTab`).
- The pixel work of `imaging.ts` (canvas resize, HEIC decoding, the JPEG quality loop's sizes, `blobToBase64`, object URLs and their revocation) is not modelled. An encoding attempt is a parameter saying whether the type was refused, encoded, or encoded and then refused.
- Rendering is left out: class names, tab colours, thumbnails, image viewers, tag chips and the borrower display column of `History.tsx`.
- The "in" tab of `ReceiveHistory.tsx` pages through the server (lines 321-362). Its paging is left out because it only concatenates server pages.
- Also left out from `ReceiveHistory.tsx`: the per-name de-duplication of return names (lines 628-640), which only feeds the summary rows.
- `Number()` is modelled for blank text, signed decimal literals and `Infinity`. Exponents and hexadecimal literals read as NaN in the model, because no page input produces them.
- JavaScript numbers are IEEE-754 doubles; the model computes quantities in exact rationals, so rounding of sums and differences and overflow to `Infinity` are not modelled. The members below are exact where the page rounds:
- Validators.WholeNumberTextAccepted: exact read-back of the numeral; `Number()` rounds above 2^53 and gives `Infinity` for numerals of 309 or more digits, which the page then refuses.
- Js.NumberOfNatToString: exact read-back; `Number("9007199254740993")` is 9007199254740992 in JavaScript.
- Js.StringToNumber: reads decimal text exactly, so "1.0000000000000001" is not a whole number in the model, while JavaScript rounds it to 1.
- ReturnItem.SubmitReturn: sums return and loss exactly; `0.1 + 0.2 > 0.3` holds in JavaScript, so the page refuses a return the model accepts.
- History.SubmitOutcome: the same exact sum check as the return page.
- ReceiveHistory.OutstandingQty: subtracts exactly; 0.3 - 0.1 is 0.19999999999999998 in JavaScript, so the page refuses returning 0.2 of it.
- Ledger.StockConservation: exact sums; after receipts of 0.1 and 0.2 and an issue of 0.3 the page's `+=`/`-=` leave about 5.6e-17, so it keeps listing a slot the model drops.
- Ledger.NumberOrZero: counts an infinite quantity as 0, where `Number(x) || 0` keeps it, because the fold works on real numbers.
- `toLowerCase`, `toUpperCase` and `localeCompare` are modelled on ASCII letters and code-point order, because locale tables are outside the model.
- OutHistory.DateShown: counts characters where `slice` counts UTF-16 units; the two agree on dates.
- Sorting.InsertionSort, Sorting.Sort: the model does not claim the stability of `Array.prototype.sort`, only order and permutation; this matters for equal dates on the `ReceiveHistory.BuildTimeline` timeline and equal keys in the other sorted lists.
- ReceiveHistory.AfterReturn: one time value `now` stands for the two separate `Date.now()` reads (ReceiveHistory.tsx:463 and :489) that name the return and consume transactions.
- Validators.Errors: the error record is a map, so the insertion order of its keys is not kept; the page reads only whether it is empty and the message under each key.
- Fields of the receive form that `validateReceiveForm` never reads are left out of its form object.
- ReceiveIn.SlotCount: a capacity of 2^32 or more, for which `Array.from` throws a `RangeError`, is counted as that many slots.
- The capacity column, floors times slots per floor (`Settings.Capacity`), is a plain product with no property of its own to prove.

## Findings

| source | as written | input that shows it | evidently intended | confidence | as-written member | corrected member |
|---|---|---|---|---|---|---|
| src/pages/Map.tsx:270 | the stock table is keyed by name, zone and channel joined with a bar character | name "a" + bar + "b" in zone "c" and name "a" in zone "b" + bar + "c", both in channel "1", give the same key, and one unit received at each ends in one entry of 2 | one entry per distinct (name, zone, channel) slot | low, not executed | Ledger.StockAsWrittenMerges | Ledger.StockConservation |
| src/lib/imaging.ts:75-96 | `selectedType` is set to each type when it is tried, before its encoding is known to succeed, and keeps the last type tried even when the blob kept came from an earlier one | prefer JPEG; JPEG encodes once and then fails in the quality loop; WebP is refused. The JPEG blob is named `.webp` and typed `image/webp` | the reported type is the type of the blob that is kept | low, not executed | Imaging.ChooseAsWrittenMislabels | Imaging.Choose |
