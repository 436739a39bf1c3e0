# Travel expense claims — a Dafny model

This project models the client logic of a travel-expense claim workflow. Each
traveller keeps a local list of trip settings, employees and expenses with
receipt photos. They compute the subsidy their group may claim and produce a
reimbursement spreadsheet. They exchange JSON files with the trip leader, who
merges the members' expenses into one sheet. They upload the trip to a cloud
back end, which assigns a trip code. Reviewers use a separate console to log in,
list the submitted trips, filter them by review status and act on them.

The model covers two source files:

- `app.js`, the traveller's client:
  - the subsidy and claim arithmetic of the statistics card and both spreadsheet exports;
  - the expense and employee store;
  - what is persisted and what is exported to JSON;
  - the trip-config and member-expense imports;
  - the upload payload and the trip-code lifecycle;
  - the status query result.
- `admin/admin.js`, the review console:
  - hash routing guarded by the session token;
  - login and logout;
  - the rule that any authentication error ends the session;
  - the trip-list filter, the status badge and the detail page's NTD total.

Conventions of the model:

- **Dates.** Dates stay the strings the forms produce. Date parsing is a
  parameter `dayOf: string -> int` that maps a date to a day number. The
  tenure sentinel `滿一年` ("full year") is compared as a string, as the source
  does.
- **Money.** Money is an exact `real`, so floating-point rounding and
  `toFixed` display play no part.
- **Absent values.** A JavaScript value that may be `null`, `undefined` or
  `''` is a `string`, with `""` for all three. Examples are `tripCode`, the
  in-memory `photo`, the session token and a missing field of the upload
  payload. The code tests such values for truthiness, so the three cases
  behave alike there. Where a value is displayed rather than tested, they
  differ; see "Left out".
- **Outside inputs.** The back end, the photo store (IndexedDB), `Date.now()`,
  `confirm()` and `prompt()` become parameters: a reply, a `map<int, string>`,
  an `int`, a `bool`, a `string`.

Modules, one per file:

- `Common`: `Result`/`Option`, `Filter` (JavaScript's `Array.prototype.filter`), `trim`, `Min`, and the member names every object inherits.
- `Records`: the data model and the constants.
- `Subsidy`: ratios, caps and totals.
- `Store`: edits to the local lists.
- `Persist`: the `localStorage` projection, as written and with the receipt marker kept.
- `Transfer`: JSON export and import, and the trip id.
- `Sheet`: spreadsheet rows and totals, and the statistics card.
- `Upload`: the upload, the status query and the trip code.
- `Admin`: the review console.

The subsidy formula appears three times in `app.js`, with small differences.
The model keeps the differences visible:

- **`Subsidy.TotalRatio`** is used for the statistics card and both subtotals.
  Its ratio starts at 1, so an employee counts in full when the trip has no
  start date.
- **`Subsidy.RowRatio`** is used for the per-employee rows of both exports.
  Its ratio starts at 0. Without a trip start date, only the tenure sentinel
  gets a non-zero ratio.
- **Arithmetic.** The single export converts milliseconds to days and divides
  by 365. The merged export divides milliseconds by the milliseconds of a
  year. `Subsidy.Arithmetic` names the two ways, and
  `Subsidy.TotalSubsidyArithmeticAgrees` proves they agree in exact
  arithmetic.

Three behaviours of the code are easy to miss, and the model keeps them as written:

- The ratio has no lower bound. A hire date after the trip start gives a
  negative ratio and a negative contribution (`Subsidy.HiredAfterTripLowersTotal`).
- The code has no version-conflict check, no locking, no bulk review, no roles
  and no mandatory review note. `submitReview` only trims the note.
- A status lookup in an object literal (`statusMap[s] || fallback`) finds the
  members every object inherits when `s` is one of their names (`constructor`,
  `toString`, `__proto__`, …). The fallback is then skipped and the badge's
  fields render as "undefined" (`Common.InheritedKey`).

## Model

| member | source | states |
|---|---|---|
| Subsidy.TotalRatio | app.js:494-500 | In the totals, the ratio is at most 1. It is exactly 1 for the tenure sentinel or when the trip has no start date. Otherwise it is tenure/365, capped at 1. It is negative exactly when the hire date falls after the trip start. |
| Subsidy.RowRatio | app.js:564-575 | In an export row, a non-applicant gets 0 and the sentinel gets 1. An applicant with a hire date gets 0 when the trip has no start date; otherwise the row ratio equals the totals' ratio. |
| Subsidy.YearFractionOfDays | app.js:1083-1085 | Elapsed milliseconds converted to a fraction of a year equal days/365, whether computed through days (single export) or in one division (merged export). |
| Subsidy.Contribution | app.js:490-505 | Each applicant adds min(subsidyAmount × ratio, 10000), at most 10000; the ratio is the tenure ratio of `TotalRatio`. A non-applicant adds 0. With the sentinel or no trip start date, an applicant adds min(subsidyAmount, 10000). |
| Subsidy.TotalSubsidy | app.js:488-505 | The group subsidy is at most 10000 times the number of applicants. |
| Subsidy.TotalSubsidyOne | app.js:489-505 | A group of one employee gets that employee's contribution. |
| Subsidy.TotalSubsidyAppend | app.js:489-505 | The total over two groups together is the sum of their totals, so the total is the sum of every employee's contribution. |
| Subsidy.TotalClaim | app.js:507 | The claim is at most both the expense total and the subsidy total, and equals one of them. |
| Subsidy.RowSubsidy | app.js:577-579 | A row's subsidy is at most 10000 and is 0 for a non-applicant. When the trip has a start date, it equals the employee's contribution to the subtotal. |
| Subsidy.TotalSubsidyIgnoresNonApplicants | app.js:489-491 | Filtering out employees who do not apply leaves the subtotal unchanged. |
| Subsidy.TotalSubsidyArithmeticAgrees | app.js:1094-1103 | The merged export's one-step millisecond arithmetic gives the same subtotal as the single export's day-based arithmetic. |
| Subsidy.RowsMatchSubtotal | app.js:562-594 | When the trip has a start date, the rows' subsidies add up to the subtotal. |
| Subsidy.NoStartDateSubtotal | app.js:583-594 | Without a trip start date, the subtotal counts every applicant at min(subsidyAmount, 10000). |
| Subsidy.NoStartDateRows | app.js:562-580 | Without a trip start date, the rows pay only the applicants with the tenure sentinel. |
| Subsidy.RowsDisagreeWithoutStartDate | app.js:564-594 | An example where the rows total 0 while the subtotal is 10000: one applicant with a hire date and a trip with no start date. |
| Subsidy.HiredAfterTripLowersTotal | app.js:494-503 | An applicant hired after the trip start contributes a negative amount: there is no lower clamp. |
| Store.NewExpense | app.js:171-182 | A new record copies the form, and its NTD amount is amount times rate. |
| Store.FindIndex | app.js:188 | Returns the first position holding the id, or -1 when no record has it. |
| Store.SaveExpenseAsWritten | app.js:167-210 | Adding appends one record. Editing keeps the length and changes only the matching record. That record keeps its id and takes every form field, the new image and the new timestamp, with NTD = amount × rate. It keeps the `hasPhoto` marker exactly when no new image is given and the old record had the marker, so it keeps a receipt only if a new image is given or the old record had the marker. |
| Store.EditDropsSessionPhoto | app.js:186-195 | Counterexample: an expense added this session loses its receipt when it is edited without a new image. |
| Store.SaveExpense | app.js:167-210 | As above, but the edited record is marked exactly when no new image is given and the old record had a receipt in either form, so it keeps a receipt whenever the old record had one. An unknown id changes nothing. |
| Store.SaveExpenseKeepsIdsUnique | app.js:171-197 | With distinct ids, an edit touches only the record with that id, and ids stay distinct after an edit or after an add with a fresh id. |
| Store.DeleteExpense | app.js:246-254 | After confirmation, no record with the id remains, every other record stays, and order is kept. Without confirmation, nothing changes. |
| Store.AddEmployee | app.js:257-272 | Appends one employee. An empty hire date becomes the tenure sentinel. |
| Store.DeleteEmployee | app.js:275-282 | After confirmation, no employee with the id remains; the others stay in order. |
| Store.SaveTripSettings | app.js:285-298 | Replaces the trip settings with the form's location, dates, payment method and subsidy method, and keeps everything else. A missing or zero subsidy amount becomes 10000, so the stored amount is never 0. |
| Persist.Persisted | app.js:750-755 | A stored expense holds no image. Its marker says whether an image was in memory, whatever the old marker said. Nothing else changes. |
| Persist.Save | app.js:746-757 | Writes the trip code, settings and employees as they are, and every expense through the stored projection. |
| Persist.Load | app.js:767-776 | Nothing saved keeps the current state. A field that is present is taken as saved. A missing field takes its default: the current settings, or an empty list. |
| Persist.SaveLoadRoundTrip | app.js:746-776 | Saving and loading give back everything except the in-memory image, which becomes the marker. |
| Persist.SecondSaveClearsMarkers | app.js:751-754 | A second save before the images are read back clears every marker. |
| Persist.EditThenSaveDropsMarker | app.js:751-754 | Counterexample: a loaded expense whose image is only in the photo store keeps its marker through an edit without a new image, and loses it in the save that follows. |
| Persist.PersistedKeepingMarker | app.js:750-755 | Corrected stored form: no image, and a marker exactly when the record has a receipt in either form. Nothing else changes. |
| Persist.SaveKeepingMarkers | app.js:746-757 | Corrected `saveData`: writes the trip code, settings and employees, and every expense marked exactly when it has a receipt. |
| Persist.SaveKeepingMarkersIsStable | app.js:746-776 | With the corrected save, loading and saving again stores the same record, so repeated saves lose no receipt. |
| Persist.EditThenSaveKeepsReceipt | app.js:186-195 | With both corrections, an edit without a new image stores the record as having a receipt exactly when it had one before; other records are stored as before. |
| Transfer.Exported | app.js:873-878 | An exported expense holds neither the image nor the marker. Nothing else changes. |
| Transfer.TripId | app.js:844-847 | The trip id is longer than two characters: the location label (the location, or `未設定`, "not set") is never empty. What the id pins down is stated by `Transfer.TripIdDeterminesTrip`. |
| Transfer.TripIdDeterminesTrip | app.js:844-847 | When location and start contain no `_`, equal trip ids mean equal dates and equal locations, up to an empty location versus the literal `未設定`. |
| Transfer.HeaderText | app.js:309-323 | The header shows the placeholder when neither location nor start date is set. With both dates set, it is `start ~ end`, preceded by the location and the vertical-bar separator when there is a location. With a location and no full period, it is the location alone. It is empty exactly when the only field set is the start date. |
| Transfer.HeaderPlaceholderMeansUnset | app.js:309-323 | The placeholder appears exactly when neither location nor start date is set, or when the location is the placeholder text and no full period is shown. |
| Transfer.Join | app.js:319 | Joining no parts gives the empty string, one part gives that part, and two parts give the first, the separator and the second. |
| Transfer.ExportTripConfig | app.js:859-886 | The file has type `trip-config`, version 2, the trip code and settings. It includes employees or expenses exactly when the corresponding box is ticked. |
| Transfer.Adopt | app.js:904-921 | A non-empty incoming list replaces the local one when the local list is empty or the user confirms. Otherwise the local list stays. |
| Transfer.ImportTripConfig | app.js:889-936 | An unparsable file or a file of the wrong type changes nothing. The settings and trip code are taken only when present. The lists follow `Adopt`. |
| Transfer.ConfigRoundTrip | app.js:859-921 | Importing a full export into an empty client restores the trip, the employees and every expense field except the receipt. |
| Transfer.ExportMemberExpenses | app.js:939-966 | No expenses, or a blank name, gives no file. Otherwise the file carries the trimmed name, the trip id and the exported expenses. |
| Transfer.Upsert | app.js:989-995 | A member file replaces, in place, the first entry with the same name; every other position is unchanged. Without such an entry the file is appended. Names stay unique. |
| Transfer.ImportMemberFile | app.js:977-997 | A file of the wrong type changes nothing. The file's trip code is adopted only when none is held. The members are upserted by name. |
| Transfer.ImportMemberFiles | app.js:969-1014 | Processing files in order keeps names unique, never replaces a held trip code, and leaves settings, employees and expenses alone. |
| Transfer.LastFileWins | app.js:989-995 | The last file read is in the merged list. |
| Transfer.MemberRoundTrip | app.js:939-995 | A member's export, imported by the leader, yields an entry named after the member that carries the exported expenses. |
| Transfer.RemoveMergedMember | app.js:1044-1047 | `splice(index, 1)`: removes the entry at a valid index, counting from the end for negative indexes. Leaves the list alone past the end. Removes the first entry below `-length`. |
| Sheet.FlattenContents | app.js:1115-1120 | Every merged entry is an expense of the member whose name it carries, and every expense of every member appears under that member's name. |
| Sheet.FlattenOne | app.js:1116-1119 | One member file contributes its own expenses, in order, each tagged with its name. |
| Sheet.FlattenAppend | app.js:1116-1119 | The merged list is the members' lists one after the other, in import order. |
| Sheet.DetailRows | app.js:609-615 | One row per expense, in order, with its cells copied. Only the first row carries the category label. |
| Sheet.CategoryBlock | app.js:606-620 | A category with expenses gets its detail rows. One with none gets a single placeholder row. |
| Sheet.BlocksNtd | app.js:606-631 | The NTD column of the category blocks adds up to the per-category running total. A placeholder adds 0. |
| Sheet.CategoriesTotalIsFilteredSum | app.js:1122-1136 | With distinct categories, the running total is the sum over exactly the expenses of those categories. |
| Sheet.EmployeeRows | app.js:562-580 | One row per employee, in order, with the row ratio. The subsidy and remittance cells are equal. |
| Sheet.Statistics | app.js:486-512 | The receipt count is the number of expenses and the total covers every expense. The claim is capped by the subtotal and the total and equals one of them. |
| Sheet.SingleExport | app.js:515-654 | No expenses, then no employees, give an error. Otherwise the employee rows are the day-based rows of every employee, the five categories are listed in order, and the total covers every expense. The payment total is the subtotal, and the claim is the smaller of the total and the subtotal. |
| Sheet.MergedExport | app.js:1050-1162 | No members, then no employees, give an error. Otherwise the employee rows are the one-step rows of every employee, and the expense rows list the merged expenses by category. The total equals the sum of the NTD column and covers only the five categories. The claim is the smaller of the total and a subtotal equal to the single export's. |
| Sheet.ScreenMatchesSingleExport | app.js:486-507 | The claim and total shown on screen equal those of the single export. |
| Sheet.SingleTotalMatchesRows | app.js:606-626 | When every expense is in one of the five categories, the single export's total equals its NTD column. |
| Sheet.StrayCategoryCountsOnlyInSingleExport | app.js:606-626 | An expense outside the five categories raises the single export's total but adds no row and leaves the merged total unchanged. |
| Sheet.WorkedExample | app.js:486-507 | With subsidy 10000, one full-tenure applicant and receipts of 3000, 4000 and 5000, the total is 12000 and the claim 10000. |
| Upload.PhotoFor | app.js:1244-1256 | An expense with no receipt sends no image. An in-memory image is sent as is. Otherwise the image stored under a non-zero id is sent, or none. |
| Upload.PrepareUpload | app.js:1194-1277 | No URL, then a blank name, then no expenses stop the upload. Otherwise every expense is sent with the trimmed submitter name, rate and NTD amount. The trip code is sent exactly when one is held. |
| Upload.FinishUpload | app.js:1280-1299 | Success adopts the returned code and reports a re-upload exactly when a code was sent. Failure leaves the data unchanged and reports the back end's error or a generic one. |
| Upload.UploadThenResubmit | app.js:1273-1289 | After a successful upload, the next payload carries the returned code and is announced as a re-upload. |
| Upload.PrepareReupload | app.js:1412-1418 | Sets the trip code and changes nothing else. |
| Upload.ClearTripCode | app.js:1421-1426 | Clears the trip code and changes nothing else. |
| Upload.ClearedUploadIsNew | app.js:1273-1289 | After clearing, the payload carries no code and the upload is announced as new. |
| Upload.ReuploadCarriesCode | app.js:1273-1276 | After loading a code for revision, the payload carries that code. |
| Upload.StatusQuery | app.js:1303-1314 | No URL, or a blank code, stops the query. Otherwise the trimmed code is queried. |
| Upload.TripBadge | app.js:1337-1344 | A known status gets its own coloured caption. An unknown status is shown as itself, in gray with a question mark, unless it names an inherited object member, whose badge renders "undefined" in every field. |
| Upload.BadgesTellStatesApart | app.js:1337-1363 | The four review states get four different captions, on the trip badge and on the expense badge. |
| Upload.ExpenseBadge | app.js:1351-1363 | A pending, unknown or missing status is badged as pending. A status naming an inherited object member renders "undefined" as label and class. |
| Upload.UnknownExpenseStatusReadsPending | app.js:1351-1363 | An expense is badged as pending exactly when its status is pending, or unknown and not an inherited object member's name. |
| Upload.ReuploadOffered | app.js:1347 | The re-upload button appears exactly when some expense is rejected or needs revision. |
| Admin.HandleRoute | admin/admin.js:36-53 | An empty hash counts as the login page. Without a token, every other hash redirects to the login page. With one, the dashboard and `#detail/<code>` open their pages, and the code is the rest of the hash. |
| Admin.NoSessionOnlyLogin | admin/admin.js:37-43 | Without a session, routing either shows the login page or redirects there. |
| Admin.DetailLinkRoundTrip | admin/admin.js:49-51 | With a session, the link `#detail/<code>` opens the detail page of exactly that code. |
| Admin.Route | admin/admin.js:36-53 | Routing never changes the session. Without a token, the login page is shown or requested. The detail page remembers its code. |
| Admin.Boot | admin/admin.js:12-30 | A client is opened exactly when both a token and a saved URL exist. |
| Admin.LoginRequest | admin/admin.js:60-75 | A blank trimmed URL, then an empty password, give their messages. Otherwise the request goes to the trimmed URL. |
| Admin.Login | admin/admin.js:59-94 | Invalid input sends nothing and only sets the message. The token changes only on success, which also saves the URL and goes to the dashboard. A refusal or connection failure shows the reason. |
| Admin.Logout | admin/admin.js:96-100 | Clears the token and the client and sets the hash to the login page. Nothing else changes. |
| Admin.LogoutLeadsToLogin | admin/admin.js:36-47 | After logout, routing shows the login page. |
| Admin.LoadTrips | admin/admin.js:135-156 | An authentication error logs out before anything else. Success replaces the list. A failure shows the error. |
| Admin.LoadTripDetail | admin/admin.js:216-238 | An authentication error logs out first. Success shows the detail and its total. |
| Admin.ViewPhoto | admin/admin.js:339-367 | An authentication error logs out first. Success shows the image. |
| Admin.MakeReviewRequest | admin/admin.js:406-412 | The note is sent trimmed, and is empty exactly when the input is blank. No note is required. |
| Admin.SubmitReview | admin/admin.js:406-429 | An authentication error logs out first. Success reloads the reviewed trip. |
| Admin.AuthErrorAlwaysLogsOut | admin/admin.js:142-145 | In all four calls, an authentication error leaves no session, even when the reply also claims success. |
| Admin.Visible | admin/admin.js:173-182 | `all` shows every trip. Another filter shows exactly the trips with that status, in list order. |
| Admin.FilterTrips | admin/admin.js:158-171 | Records the filter and changes nothing else. |
| Admin.VisibleCount | admin/admin.js:176-181 | The subtitle count equals the number of trips in that state. |
| Admin.FiltersPartition | admin/admin.js:173-182 | When every trip is in one of the four states, the four filters together list every trip exactly once. |
| Admin.GetStatusInfo | admin/admin.js:437-445 | The four states have their own coloured badges. Any other status is gray with a question mark, captioned with the status, or `未知` ("unknown") when there is none. A status naming an inherited object member renders "undefined" in every field. |
| Admin.StatusBadgesAgree | admin/admin.js:437-445 | The console and the traveller's status query show the same badge for every non-empty status. |
| Admin.DetailTotal | admin/admin.js:249-250 | No amounts total 0. One amount totals its value, or 0 when it is not a number. The total is non-negative when every numeric amount is. |
| Admin.DetailTotalAppend | admin/admin.js:249-250 | The total of two lists is the sum of their totals, so the detail total is the sum of the numeric amounts. |
| Admin.DetailTotalIgnoresNaN | admin/admin.js:249-250 | Dropping the non-numeric amounts leaves the detail total unchanged. |

## Left out

- The service workers (`sw.js`, `admin/sw.js`): cache plumbing with no domain rules.
- The back-end client wrapper `shared/api-client.js`: requests are opaque and replies are parameters.
- DOM rendering and HTML templates, toasts, modals, tab switching, progress bars and animations.
- The IndexedDB photo store, the photo migration and `loadAllPhotos` (app.js:700-825): the store appears only as a `map<int, string>` read by the upload.
- `compressImage` and the `FileReader` and `localStorage` calls, including the remembered `lastTripCode`.
- The guard of `showExportConfigModal` (app.js:851-855): it only decides whether a dialog opens.
- Spreadsheet cell layout outside the employee rows, expense rows and totals: header lines, column widths, sheet and file names.
- Real `Date` parsing, invalid dates and floating-point rounding: dates map to day numbers through `dayOf`, and money is exact.
- `confirm()` and `prompt()`: modelled as boolean and string inputs.
- Multi-file import: the asynchronous completion counter is left out, and files are processed one after another in the given order.
- The date-grouped ordering of the expense list (app.js:352-362): display only.
- Upload.TripBadge: a reply with no `trip.status` is shown captioned "undefined" (`{ label: trip.status }` renders the missing value). The model writes the missing status as `""` and so states an empty caption. The model does not tell a missing status from an empty one.
- Admin.LoadTripDetail: the detail page keeps only the NTD amounts of the trip's expenses. The other detail fields are display only.
- Features the code does not have, so there is nothing to model:
  - version-conflict detection and download sync;
  - polling;
  - bulk review;
  - locking;
  - leader roles;
  - a mandatory note for `needs_revision`.

## Findings

| source | as written | input that shows it | evidently intended | confidence | as-written member | corrected member |
|---|---|---|---|---|---|---|
| app.js:186-195 | An edit without a new image keeps the receipt only if the old record has the `hasPhoto` marker. An expense added this session holds its image in `photo`, and has no marker until the data is reloaded. | Add an expense with a photo, then edit it without choosing a photo. The edited record has neither an image nor the marker. The image stays in the photo store, but nothing refers to it. | Keep the receipt whenever the old record had one in either form. The image was written to the photo store under the same id when it was attached. | not executed | Store.SaveExpenseAsWritten, Store.EditDropsSessionPhoto | Store.SaveExpense |
| app.js:751-754 | `saveData` stores the marker as `!!e.photo`, ignoring the marker the record already has. A record whose image is only in the photo store is saved as having no receipt, even after `saveExpense` kept its marker in memory (app.js:191-192). | Load data with an expense whose image is in the photo store, and edit it without choosing a photo before the images are read back. The save stores it with `hasPhoto` false; after the next load it is neither shown with a receipt nor uploaded with one. | Store the marker whenever the record has a receipt in either form: an image in memory, or the marker it already has. | not executed | Persist.Save, Persist.EditThenSaveDropsMarker | Persist.SaveKeepingMarkers, Persist.SaveKeepingMarkersIsStable, Persist.EditThenSaveKeepsReceipt |
