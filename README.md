# Offline invoice maker — a Dafny model of its record keeping and rules

This project models the parts of the offline invoice maker that keep records and apply rules, with the browser abstracted away.

- **Invoice store** (`js/storage.js`). One IndexedDB database holds the object store "invoices", keyed by `id`. The module-level `db` handle is opened lazily. The store supports `saveInvoice` (an upsert), `getInvoices` (newest first) and `deleteInvoice`. Each failure rejects with its own fixed message.
- **Usage ledger** (`js/app.js`). It is a nested counter map: month → day → action → count. `trackUsage` updates it. `checkUsageLimit`, `checkPDFLimit` and `getUsageStats` read the free-tier limits from it: 10 invoices a month and 5 PDFs a day.
- **Invoice editor** (`js/app.js`):
  - the global `items` list, with the defaults `addItemRow` applies;
  - row delete buttons that splice by the index captured when the row was built;
  - the `hasUnsavedChanges` flag;
  - the single "invoiceDraft" slot, with `saveDraft`, `checkForSavedDraft` (24-hour expiry), `recoverDraft` and `clearDraft`.
- **Invoice numbering**: `generateInvoiceNumber` and `initializeInvoiceCounter`.
- **Validation**: `validateField`, `validateForm`, and the per-item hints of `validateItemInput`.
- **WhatsApp phone field**:
  - cleaning of the typed text;
  - the pattern `^\+?\d{10,15}$`;
  - the check before sending;
  - the input listener's validity flag;
  - the blur listener that adds a "+".
- **History screen**:
  - the search filter;
  - the `selectedInvoices` set and the select-all tri-state box;
  - saving an edited invoice;
  - bulk delete.
- **Premium status**:
  - `isPremium()` (`js/pdf.js`);
  - the two "message" listeners that record a purchase (`js/app.js`).
- **PDF layout rules** (`js/pdf.js`). These are the rules only; the drawing calls are not modelled:
  - the running `y` coordinate;
  - item-name truncation;
  - the default names;
  - the watermark decision;
  - the file name.
- **Ad environment switch** (`js/ad-config.js`): `AD_CONFIG.getCurrent`, the guarded `setEnvironment`, and `CURRENT_AD_CONFIG`.

Whatever the browser decides is a parameter of the operation:

- whether the storage engine opens the database or commits a transaction;
- the clock (`now`, the month and day keys, the ISO timestamp);
- local storage contents;
- the parsed message payload;
- whether the PDF library is loaded.

Modules:

| module | file | what it holds |
|---|---|---|
| `Wrappers` | `wrappers.dfy` | `Option`, `Result`, and the promise `Outcome` |
| `Collections` | `collections.dfy` | choosing an element of a set |
| `Text` | `text.dfy` | JavaScript `\s`, `trim`, `toLowerCase`, `includes`, `replace(/\s+/g, "-")` |
| `Decimal` | `decimal.dfy` | `String(n)`, `padStart`, and the parse that undoes them |
| `Invoices` | `invoices.dfy` | line items and invoice records |
| `Storage` | `storage.dfy` | the store |
| `Usage` | `usage.dfy` | the ledger |
| `Editor` | `editor.dfy` | items and draft |
| `Numbering` | `numbering.dfy` | invoice numbers |
| `Validation` | `validation.dfy` | form checks |
| `Phone` | `phone.dfy` | the phone field |
| `History` | `history.dfy` | the history screen |
| `Premium` | `premium.dfy` | premium status |
| `Pdf` | `pdf.dfy` | PDF layout |
| `AdConfig` | `adconfig.dfy` | the ad environment |

Stateful code is modelled as classes whose methods change their fields, following the source:

| class | models |
|---|---|
| `Storage.InvoiceDB` | the `db` handle, the schema on disk and the records |
| `Usage.UsageLedger` | the "usage" entry of local storage |
| `Editor.InvoiceEditor` | `items`, `hasUnsavedChanges`, the form and the draft slot |
| `Numbering.InvoiceCounter` | `invoiceCounter` |
| `History.Selection` | `selectedInvoices` |
| `Premium.PremiumState` | `isPremiumUser` and local storage |
| `AdConfig.AdSettings` | `AD_CONFIG.ENVIRONMENT` |

Loops in the source are `while` loops here, each proved against a specification function:

- the monthly sum;
- `validateForm`'s item loop;
- select-all;
- the bulk-delete loop;
- the PDF item rows;
- rebuilding rows in `recoverDraft`.

Three facts about the store shape the model:

- `getInvoices` returns records in descending `id` order: `getAll()` reversed, not insertion order.
- The store has only the "date" index.
- The store offers no operation to fetch one record, count, delete many, or export and import, so the model has none either.

## Model

| member | source | states |
|---|---|---|
| Storage.OpenOutcome | js/storage.js:16-44 | `openDB` resolves iff the engine succeeds and the disk version is not newer than 1; otherwise it rejects with "Failed to open database" |
| Storage.Opened | js/storage.js:21-33 | after opening, the version is 1 and "invoices" exists; other stores are untouched; a new "invoices" store gets exactly the "date" index |
| Storage.OpenedIdempotent | js/storage.js:21-33 | opening an opened database changes nothing |
| Storage.ConnectOutcome | js/storage.js:51 | a live handle skips opening; a null one settles like `openDB` |
| Storage.Put | js/storage.js:50-62 | `put` maps `invoice.id` to that invoice, adds no other key, and leaves every other record unchanged |
| Storage.Remove | js/storage.js:89-101 | `delete(id)` removes exactly key `id` and keeps every other record |
| Storage.PutIdempotent | js/storage.js:57 | saving the same record twice equals saving it once |
| Storage.RemoveIdempotent | js/storage.js:96 | deleting the same key twice equals deleting it once |
| Storage.PutOverwrites | js/storage.js:26-28 | of two saves under one id, only the later one remains |
| Storage.LeastExists | js/storage.js:74 | every non-empty key set has a least key, the first one `getAll()` returns |
| Storage.AscendingKeys | js/storage.js:74 | the keys in strictly ascending order, each exactly once |
| Storage.PrependLeast | js/storage.js:74 | the least key followed by the other keys in ascending order lists all keys in ascending order |
| Storage.GetAll | js/storage.js:74-78 | `getAll()` lists each stored record exactly once, in ascending `id` order |
| Storage.GetAllFacts | js/storage.js:74-78 | records read in ascending key order form an ascending listing of the store |
| Storage.NewestFirst | js/storage.js:78 | `request.result.reverse()`: the `getAll()` list in reverse |
| Storage.Reversed | js/storage.js:78 | `reverse()` keeps the length and mirrors the positions |
| Storage.NewestFirstListsEachRecordOnce | js/storage.js:68-83 | `getInvoices` lists every stored record exactly once, in strictly descending `id` order, and nothing else |
| Storage.ReversedListing | js/storage.js:78 | reversing an ascending listing gives a descending listing of the same records |
| Storage.EmptyStoreListsNothing | js/storage.js:76-79 | an empty store reads as the empty list |
| Storage.PutAll | js/storage.js:50-62 | after a series of saves, every earlier key and every saved id is present |
| Storage.PutAllFreshGrows | js/storage.js:50-62 | n saves with new, distinct ids add exactly n records, each under its own id |
| Storage.PutAllKeeps | js/storage.js:50-62 | saves under other ids leave a record in place |
| Storage.InvoiceDB.constructor | js/storage.js:10 | a page load starts with a null handle over what is on disk |
| Storage.InvoiceDB.OpenDB | js/storage.js:16-44 | on success the handle is set and the schema upgraded; on rejection the handle and schema are unchanged; the records are never touched; a failure after an upgrade is listed under Left out |
| Storage.InvoiceDB.EnsureOpen | js/storage.js:51 | the handle is set exactly when connecting succeeds; the schema is then the opened one |
| Storage.InvoiceDB.SaveInvoice | js/storage.js:50-62 | resolves iff connecting and the transaction succeed, and the records then become the upsert; each rejection carries its own message and leaves the records unchanged |
| Storage.InvoiceDB.GetInvoices | js/storage.js:68-83 | resolves with the newest-first listing, or fails with the open error or "Read failed"; the records are unchanged |
| Storage.InvoiceDB.DeleteInvoice | js/storage.js:89-101 | resolves iff connecting and the transaction succeed, and the records then lose exactly key `id`; otherwise it rejects with its message and the records are unchanged |
| Storage.SaveListDeleteScenario | js/storage.js:50-101 | a single saved invoice lists as `[inv]`; after deleting it the list is empty |
| Usage.TotalSplit | js/app.js:2765-2771 | the monthly sum does not depend on which day is added first |
| Usage.CountAt | js/app.js:2785 | `usage[month]?.[day]?.[action] || 0`: a missing month, day or action counts 0 |
| Usage.Total | js/app.js:2765-2771 | the sum of one action's counts over the days of a month |
| Usage.Tracked | js/app.js:2741-2759 | exactly `usage[month][day][action]` rises by 1; absent levels are created and an absent count is 0; every other counter, day and month is unchanged |
| Usage.TrackedMonthTotal | js/app.js:2741-2759 | one tracked action adds exactly 1 to its own monthly sum and 0 to every other action's; no limit is consulted |
| Usage.TrackedAllMonthTotal | js/app.js:2741-2759 | n tracked actions in a month, on any days, raise that month's sum by n |
| Usage.TenSavesReachMonthlyLimit | js/app.js:2736-2778 | ten tracked saves in a month, on any days, bring the monthly count to the limit of 10 |
| Usage.UsageLedger.constructor | js/app.js:2745 | the ledger starts from the stored "usage" object |
| Usage.UsageLedger.TrackUsage | js/app.js:2741-2759 | the ledger becomes `Tracked` of the old ledger |
| Usage.UsageLedger.MonthlyCount | js/app.js:2765-2771 | the loop computes the sum of one action over every day of the month |
| Usage.UsageLedger.CheckUsageLimit | js/app.js:2761-2778 | true iff this month's `invoice_saved` sum is below 10 |
| Usage.UsageLedger.CheckPDFLimit | js/app.js:2780-2793 | true iff today's `pdf_generated` count is below 5; an absent count is 0 |
| Usage.UsageLedger.GetUsageStats | js/app.js:2808-2828 | the monthly invoice sum, today's PDF count, and the limits 10 and 5 |
| Invoices.WithDefaults | js/app.js:382-386 | name and price are kept; a zero quantity becomes 1; the item is unchanged iff its quantity is non-zero |
| Editor.Splice | js/app.js:441-446 | `splice(index, 1)` removes exactly that position when it exists, and otherwise changes nothing |
| Editor.StaleIndexDeletesWrongRow | js/app.js:389-446 | after an earlier row is deleted, row i's button removes the row built at i+1, and row i stays |
| Editor.StaleIndexOnLastRowIsIgnored | js/app.js:389-446 | after an earlier row is deleted, the last row's button does nothing |
| Editor.Restored | js/app.js:987-996 | stored items come back through the row defaults, in order; no stored items give one empty row |
| Editor.WithDefaultsAll | js/app.js:992-993 | each item passes through the row defaults, position by position |
| Editor.RestoredIdentity | js/app.js:987-996 | recovered rows equal the saved rows iff there was at least one row and none had quantity 0 |
| Editor.RestoredForm | js/app.js:979-985 | every field is restored as stored; an empty currency becomes "ZMW" |
| Editor.Examine | js/app.js:941-977 | a slot that fails to parse, or a draft older than 86 400 000 ms, is removed without an offer; otherwise the draft is offered and stays |
| Editor.SavedDraftOfferedForADay | js/app.js:946-952 | a draft is offered up to and including exactly 24 h after it was saved, and removed after that |
| Editor.InvoiceEditor.constructor | js/app.js:11-14 | no items, nothing unsaved, and the draft slot as stored |
| Editor.InvoiceEditor.AddItemRow | js/app.js:381-450 | appends the defaulted item and returns the index the row captures |
| Editor.InvoiceEditor.DeleteRow | js/app.js:441-446 | splices at the captured index and marks the invoice changed |
| Editor.InvoiceEditor.EditName | js/app.js:421-425 | sets that row's name and marks it changed iff the captured index is still in range; otherwise nothing changes |
| Editor.InvoiceEditor.EditQty | js/app.js:427-432 | the same, for the quantity |
| Editor.InvoiceEditor.EditPrice | js/app.js:434-439 | the same, for the price |
| Editor.InvoiceEditor.SaveDraft | js/app.js:923-939 | does not write when nothing changed and there are no items; otherwise overwrites the slot with a snapshot stamped `now` |
| Editor.InvoiceEditor.CheckForSavedDraft | js/app.js:941-977 | the slot and the offer are those of `Examine` |
| Editor.InvoiceEditor.RecoverDraft | js/app.js:979-999 | the form becomes `RestoredForm`, the items `Restored`, and the invoice is marked changed |
| Editor.InvoiceEditor.ClearDraft | js/app.js:1001-1004 | the slot is empty and the flag cleared, so a second call changes nothing |
| Editor.WithDefaultsAllAppend | js/app.js:992-993 | defaulting items one at a time in a loop equals defaulting the whole list |
| Editor.DraftRoundTrip | js/app.js:923-999 | a draft saved and recovered within a day gives back its form and, when no quantity is 0, its rows |
| Decimal.Digits | js/app.js:228 | `String(n)` is all digits, with no leading zero |
| Decimal.ValueOfDigits | js/app.js:228 | `String(n)` reads back as `n` |
| Decimal.PadStart | js/app.js:228 | `padStart` pads on the left to the width and never cuts |
| Decimal.ValueIgnoresLeadingZeros | js/app.js:228 | leading zeros do not change the value |
| Decimal.PaddedDigitsValue | js/app.js:228 | the padded counter still reads back as the counter |
| Numbering.CounterText | js/app.js:228 | the counter text is digits worth exactly the counter, at least 3 long, and never truncated |
| Numbering.InvoiceNumber | js/app.js:224-231 | the number begins with `Prefix(year, month)`, "INV-" then the year digits, the two-digit month and "-", and the rest is the counter text |
| Numbering.MonthText | js/app.js:227 | `padStart(2, "0")` of the month is all digits, at least two long, and reads back as the month |
| Numbering.PrefixLayout | js/app.js:224-231 | the prefix is "INV-", the year digits, exactly two month digits and "-", at fixed positions |
| Numbering.NumberLayout | js/app.js:224-231 | every field of the number reads back: "INV-", the year, the month (two digits) and "-", then digits whose value is the counter |
| Numbering.MonthTakesTwoDigits | js/app.js:227 | a month from 1 to 12 takes exactly two characters |
| Numbering.CounterReadsBack | js/app.js:224-231 | two counters in the same month never give the same number |
| Numbering.InvoiceCounter.constructor | js/app.js:12 | the counter starts at 0 |
| Numbering.InvoiceCounter.GenerateInvoiceNumber | js/app.js:224-231 | the counter rises by 1 before use, and the number is built from the new value |
| Numbering.InvoiceCounter.InitializeInvoiceCounter | js/app.js:233-236 | on success the counter equals the number of stored invoices; on rejection it is untouched; it succeeds iff connecting and the read succeed |
| Text.TrimStartDropsLeadingSpace | js/app.js:125 | `trimStart` keeps the longest suffix that does not start with white space |
| Text.TrimEndDropsTrailingSpace | js/app.js:125 | `trimEnd` keeps the longest prefix that does not end with white space |
| Text.TrimEmptyIffAllSpace | js/app.js:125 | `s.trim() === ""` iff every character is white space |
| Text.LowerChar | js/app.js:1864 | an ASCII capital maps to the letter 32 code points later, its lower case, and every other character stays as it is; no capital remains and white space is kept |
| Text.ToLower | js/app.js:1864 | `toLowerCase` lower-cases character by character and keeps the length |
| Text.ToLowerIdentity | js/app.js:1864 | text with no capitals is its own lower case |
| Text.ToLowerIdempotent | js/app.js:1864 | lower-casing twice is lower-casing once |
| Text.TrimIdentity | js/app.js:1488 | text with no white space at either end is its own trim |
| Text.OccursShift | js/app.js:1872-1874 | a match is at the start or in the rest |
| Text.Includes | js/app.js:1872-1874 | `includes` is true iff some window of the text equals the term |
| Text.DropSpaces | js/pdf.js:153 | one `\s+` match consumes the whole leading run of white space |
| Text.DashSpaces | js/pdf.js:153 | after `replace(/\s+/g, "-")` no white space remains, non-empty text stays non-empty, and one character becomes "-" iff it is white space |
| Text.DashSpacesIdentity | js/pdf.js:153 | text without white space is unchanged |
| Text.DropSpacesSuffix | js/pdf.js:153 | the one `\s+` match is a prefix of the text made only of white space, and what follows it is kept as it was |
| Text.DropSpacesRun | js/pdf.js:153 | the match swallows a white-space run exactly up to the next non-space character |
| Text.DashSpacesAppend | js/pdf.js:153 | the global replacement works piecewise: text split after a non-space character is replaced part by part |
| Text.DashSpacesAppendAfterRun | js/pdf.js:153 | text opening with a run of white space and ending in a non-space is replaced on its own: the run becomes one "-" and the rest is replaced piecewise |
| Text.DashSpacesRunFirst | js/pdf.js:153 | a leading run of white space becomes one "-" and the rest is replaced on its own |
| Text.DashSpacesJoin | js/pdf.js:153 | a run of white space between two words becomes exactly one "-", whatever its length |
| Validation.ValidateField | js/app.js:117-156 | valid iff neither the required rule (blank value) nor the length rule (non-empty and too short) fails; the length message wins, otherwise the message is "This field is required"; a class is set iff the value is not blank, "success" iff valid |
| Validation.RequiredIff | js/app.js:117-156 | a required field passes iff it is not blank |
| Validation.RequiredMinLengthIff | js/app.js:117-156 | required with a minimum length n passes iff not blank and at least n characters as typed |
| Validation.ValidateForm | js/app.js:158-218 | true iff the business name is non-blank with raw length ≥ 2, the date is non-blank, there is an item, and every item has a non-blank name, qty > 0 and price ≥ 0 |
| Validation.ClassifyItemInput | js/app.js:458-534 | a blank input gets the name hint or nothing; a red error appears iff a quantity ≤ 0 or a price < 0; warnings for names outside 2..50 characters, a quantity over 1000, and a price of 0 or over 10000; a non-blank number that fails to parse is valid; "valid" is shown exactly when no rule fires |
| Validation.ItemHintsAgreeWithForm | js/app.js:458-534 | a red hint on quantity or price appears exactly for the numbers `validateForm` rejects; names never get one |
| Phone.CleanNumber | js/app.js:1500 | the cleaned text holds no white space, '-', '(' or ')', keeps only characters of the input, and clean text passes through unchanged; one character is dropped iff it is one of those |
| Phone.CleanNumberAppend | js/app.js:1500 | the global replacement cleans a concatenation part by part, so every character is kept or dropped on its own |
| Phone.PhonePattern | js/app.js:1503 | `/^\+?[\d]{10,15}$/`: an optional leading "+" followed by 10 to 15 digits and nothing else |
| Phone.CleanNumberIdempotent | js/app.js:1500 | cleaning twice is cleaning once |
| Phone.SendTarget | js/app.js:1487-1506 | a blank field asks for a number; the cleaned number is sent iff it matches the pattern; otherwise it is refused |
| Phone.ButtonAgreesWithSend | js/app.js:1568-1592 | the input listener's flag is set iff sending would go ahead; its extra length test decides nothing |
| Phone.PlusDigitsIsFinal | js/app.js:1596-1604 | "+" and 10 to 15 digits is trimmed, clean, and matches the pattern |
| Phone.PlusDigitsTrimmed | js/app.js:1596-1604 | "+" and digits is its own trim |
| Phone.BlurFormat | js/app.js:1595-1606 | the field is rewritten iff it is non-blank, does not start with '+', and cleans to 10 to 15 digits; the new text is "+" and the cleaned digits, which is valid |
| Phone.BlurIdempotent | js/app.js:1595-1606 | a second blur leaves a rewritten field alone |
| Phone.BlurredNumberIsSent | js/app.js:1595-1606 | after a rewrite, sending uses the rewritten number as it stands |
| History.Filter | js/app.js:1870-1876 | keeps exactly the matching invoices, no more than there were, and one invoice iff it matches |
| History.FilterAppend | js/app.js:1870-1876 | `filter` works piecewise over a concatenation, so the kept invoices stay in their original order |
| History.FilterInvoices | js/app.js:1861-1877 | an empty term keeps the list; otherwise an invoice is kept iff its lower-cased client name, business name or number contains the lower-cased term |
| History.SearchIgnoresCase | js/app.js:1862-1864 | the search ignores the case of the typed text |
| History.IncludesItself | js/app.js:1872-1874 | every text contains itself |
| History.SearchFindsByNumber | js/app.js:1861-1877 | typing an invoice's number finds that invoice |
| History.SetAdd | js/app.js:776 | `add` appends an absent id at the end, leaves the set unchanged when the id is present, and keeps the set free of duplicates |
| History.SetDelete | js/app.js:778 | `delete` removes exactly that id, keeps the order of the rest, and changes nothing when the id is absent |
| History.SetDeleteAt | js/app.js:778 | deleting the id at position k of a duplicate-free set closes the gap: the elements before and after k, in order |
| History.Toggled | js/app.js:2188-2192 | one checkbox change: `add` when checked, `delete` otherwise |
| History.ToggledAll | js/app.js:2184-2193 | the `forEach` over the checkboxes: the changes applied in list order |
| History.ToggledAllMembers | js/app.js:2184-2193 | a run of adds gives the union and a run of removes the difference, and no duplicate appears |
| History.ToggledAllPresent | js/app.js:2184-2193 | adding ids that are all selected already leaves the selection exactly as it was, order included |
| History.Selection.constructor | js/app.js:15 | the selection starts empty |
| History.Selection.Toggle | js/app.js:773-781 | a checked box adds its id, and an unchecked box removes it |
| History.Selection.SelectAll | js/app.js:2180-2197 | the selection becomes the old one with every listed id added (or removed) one at a time in list order, which is the old set plus (minus) the listed ids; it stays duplicate-free |
| History.Selection.Clear | js/app.js:2303-2309 | the selection becomes empty |
| History.CountChecked | js/app.js:2230-2232 | the checked count never exceeds the number of boxes |
| History.NoneChecked | js/app.js:2230-2237 | the count is 0 iff no box is checked |
| History.AllChecked | js/app.js:2230-2240 | the count equals the number of boxes iff all are checked |
| History.SelectAllState | js/app.js:2224-2244 | no boxes gives no update; otherwise checked iff all are checked, unchecked iff none is, and indeterminate iff some are and some are not |
| History.SaveEdit | js/app.js:2061-2079 | rejected with "Add at least one item" iff the item list is empty; otherwise the edited fields over the original, with `id`, number and currency kept |
| History.SaveEditOverwrites | js/app.js:2061-2079 | saving an edit replaces that record; the ids and every other record stay |
| History.RemoveAllRemovesExactly | js/app.js:2287-2289 | deleting a list of ids removes exactly those keys and keeps every other record |
| History.RemoveAllAppend | js/app.js:2287-2289 | deleting one more id equals one more `deleteInvoice` |
| History.FirstFailing | js/app.js:2286-2289 | the first position whose delete fails; every earlier one succeeds |
| History.DeleteEach | js/app.js:2286-2289 | deletes the ids in order up to the first failure; the store loses exactly those ids; true iff all succeed |
| History.HandleBulkDelete | js/app.js:2277-2301 | declining does nothing; otherwise it deletes up to the first failure and keeps the selection on failure; on success it clears the selection, and when the reload succeeds (for an empty selection: when the database also opens) the toast reads "0 invoices deleted successfully" |
| Premium.SecondListenerNarrower | js/app.js:3252-3261 | every purchase the second listener accepts, the first does too; the package-named id is accepted by the first alone |
| Premium.PremiumState.constructor | js/app.js:2413-2415 | storage is kept as stored, and the runtime flag starts off, whatever storage says |
| Premium.PremiumState.FirstListener | js/app.js:22-57 | an accepted purchase sets the flag and stores "true", "google_play" and the date; anything else changes nothing |
| Premium.PremiumState.SecondListener | js/app.js:3252-3261 | an accepted purchase sets the flag and stores "true"; anything else changes nothing |
| Premium.PremiumState.OnMessage | js/app.js:22-57 | after both listeners, premium is on iff it was before or the first listener accepted; an accepted purchase leaves storage with "premiumUser" "true", method "google_play" and the purchase date, and nothing else changes |
| Premium.IsPremium | js/pdf.js:6-8 | premium iff the "premiumUser" entry exists and is exactly "true" |
| Pdf.TruncateName | js/pdf.js:106-107 | names over 25 characters become their first 25 followed by "..."; others are unchanged |
| Pdf.TruncateNameStable | js/pdf.js:106-107 | a printed name is at most 28 characters, and truncating again changes nothing |
| Pdf.Slug | js/pdf.js:152-154 | the slug is the lower-cased, dash-joined client name, or "client" for an empty name; it is non-empty, with no white space and no capitals |
| Pdf.DefaultNameIsItsOwnSlug | js/pdf.js:152 | the fallback name "client" passes through the replacement and lower-casing unchanged |
| Pdf.SlugIdempotent | js/pdf.js:152-154 | a slug is its own slug |
| Pdf.BeforeT | js/pdf.js:151 | `split("T")[0]` is the longest prefix without 'T' |
| Pdf.Filename | js/pdf.js:151-155 | "invoice-", then the slug, "-", the date part and ".pdf" |
| Pdf.BeforeTOfIso | js/pdf.js:151 | the part before 'T' of "date" + "T" + rest is the date |
| Pdf.FilenameDate | js/pdf.js:151-155 | an ISO timestamp gives "invoice-" + slug + "-" + YYYY-MM-DD + ".pdf" |
| Pdf.PlaceHeader | js/pdf.js:35-99 | "INVOICE" at the start; the number line iff there is a number; default business and client names at their fixed offsets; `y` advances by 101 |
| Pdf.PlaceRows | js/pdf.js:101-115 | one truncated name per item, 8 apart |
| Pdf.ExportInvoicePDF | js/pdf.js:14-162 | fails, with the missing-library message, iff the library is missing; rows at start + 111 + 8i; TOTAL and the stored total at start + 121 + 8n; when not premium the watermark and upgrade prompt are drawn at (105, 150) and (105, 280), and nothing when premium; the file name |
| AdConfig.Accepts | js/ad-config.js:36-40 | the keys "TEST", "PRODUCTION", "getCurrent" and "setEnvironment" are accepted; "ENVIRONMENT" is accepted iff it is non-empty; "" never is |
| AdConfig.Switched | js/ad-config.js:36-43 | an accepted key becomes the environment; anything else leaves it unchanged |
| AdConfig.AdSettings.constructor | js/ad-config.js:28 | the environment starts as "TEST" |
| AdConfig.AdSettings.GetCurrent | js/ad-config.js:31-33 | the entry named by the environment: the test units under "TEST", the production units under "PRODUCTION" |
| AdConfig.AdSettings.SetEnvironment | js/ad-config.js:36-43 | answers true and switches iff `this[env]` is truthy; otherwise answers false and nothing changes |
| AdConfig.GuardAcceptsAnyKey | js/ad-config.js:37 | an unknown name is refused, but "ENVIRONMENT", "getCurrent" and "toString" are accepted, after which `getCurrent` no longer gives ad units |
| AdConfig.Property | js/ad-config.js:37 | `this[env]` on the config object: its own keys, its methods, and what it inherits from `Object.prototype` |
| AdConfig.Truthy | js/ad-config.js:37 | JavaScript truthiness of those values: `undefined` and "" are falsy |
| AdConfig.LoadTimeConfigIsStale | js/ad-config.js:47 | `CURRENT_AD_CONFIG` keeps the test units after a switch to production, while `getCurrent` follows the switch |

## Left out

- Rendering, toasts, modals, confirm dialogs, loading overlays and accessibility markup are not modelled. They have no data behaviour. A declined confirmation is a `confirmed` parameter.
- `checkForSavedDraft` shows its recovery prompt after a 1.5 s timer. The model returns the offered draft directly. Timers, the 30 s autosave, the 2 s debounce and the unload save are event-loop scheduling, so a single `SaveDraft` call stands for them.
- Numbers are exact reals. NaN exists only where the code tests it:
  - `parseFloat` in the item hints is an `Option`;
  - a draft without a numeric timestamp is a `None` timestamp, whose age comparison is false.

  Floating-point rounding is not modelled.
- Currency totals are not modelled: `calculateTotal`, `toFixed`, the PDF's running `subtotal` and the item line totals. A PDF prints the stored `invoice.total` text, and the model places exactly that.
- The PDF's `toLocaleDateString` date line, the price and quantity columns, and fonts and colours are not modelled. These are locale formatting and drawing calls into jsPDF, whose code is not part of this model. `generatePDFBlob` is left out for the same reason.
- Text.ToLower: maps only ASCII letters. The app's `toLowerCase` covers all of Unicode, and that case table is not part of this model.
- Validation.ValidateField: `minLength` compares the number of characters, where JavaScript's `length` counts UTF-16 code units. A value with characters outside the Basic Multilingual Plane can fail here and pass in the source.
- Validation.ValidateForm: the business-name length test counts characters, not UTF-16 code units, for the same reason as `ValidateField`.
- Validation.ClassifyItemInput: the item-name length tests (under 2, over 50) count characters, not UTF-16 code units, for the same reason as `ValidateField`.
- Pdf.TruncateName: counts characters, where JavaScript counts UTF-16 code units. They differ only for characters outside the Basic Multilingual Plane.
- The usage ledger's JSON round trip through local storage is not modelled. The ledger is kept as the parsed object, and an unparseable "usage" entry is not modelled.
- Usage.UsageLedger.MonthlyCount: the model's sum does not depend on the order of the days. The source iterates `Object.values`, and addition makes the order irrelevant.
- The `custom` rule of `validateField` is not modelled, because no caller passes one. `validateForm`'s error toasts and focus handling are UI.
- The per-item helper text elements and their CSS classes are not modelled. `validateItemInput`'s decision is modelled, as `Feedback`.
- The sort step of `filterInvoices` is not modelled: it orders by `Date` or `localeCompare`, which involves locale collation and date parsing. Only the search step is modelled.
- Numbering: the year and month are natural numbers taken as parameters. The clock's behaviour and negative years are not modelled.
- Storage.InvoiceDB.OpenDB: does not model an open that fails after `onupgradeneeded` ran. js/storage.js:22 assigns `db` inside `onupgradeneeded`, so after such a failure the source holds a closed, non-null connection. Every later call then skips `openDB` and rejects with the engine's own error, not "Failed to open database". The model instead keeps the old schema and a null handle, and the next call opens again.
- Concurrent `openDB` calls, cross-tab races, and the order in which the engine runs queued transactions are not modelled. The model is sequential.
- Google Play billing, the Digital Goods API, AdSense loading, the clipboard, `navigator.share`, `window.open` and share links are calls into code outside the app. They are not modelled.
- The service worker (`sw.js`) is not modelled. It is Cache API and network plumbing.
