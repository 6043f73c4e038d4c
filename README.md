# Drug verification studio: the deterministic core

This project models the parts of the drug-verification web application that
behave deterministically:

- the two flat-file JSON stores: users, and the scan history;
- evidence assembly for a barcode: matching it against the internal NDC
  dataset, classifying the OpenFDA response, and merging the fields with
  "N/A" defaults;
- the filter and status toggle of the history page;
- the validation and query building of the manual-entry form;
- the two AI flows' logic around their model calls: the Gemini-then-OpenAI
  fallback of the verification flow, and the key choice, fail-safe verdicts
  and field priorities of the suspect-flagging flow.

Each part is proved against a statement of what it promises.

Files and the network are abstract inputs:

- A JSON file is a `Disk<T>`: `Missing` (ENOENT), `Unreadable` (any other
  read or parse failure) or `Stored(records)`.
- A failed `fs.writeFile` is the parameter `writeError`.
- The OpenFDA HTTP outcome is a `FdaResponse`: `Status(code)`,
  `Results(products)` or `Exception`.
- A language-model call is an `Option` of its output, where `None` means
  the call threw or returned nothing.
- The OpenFDA lookup of the flagging flow is a function from a code to an
  optional record.
- Ids and timestamps are parameters, and timestamps are integers.

Modules, one per file:

- `Common` (common.dfy): optional values, results, and file states, plus
  `find` and `filter` with their properties.
- `Text` (text.dfy): ASCII lower-casing, `includes`, hyphen stripping and
  decimal rendering.
- `UserService` (user_service.dfy): the user store.
- `ScanHistory` (scan_history.dfy): the scan history store.
- `DrugApi` (drug_api.dfy): evidence assembly for a barcode.
- `HistoryFilter` (history_filter.dfy): the history page's filter and toggle.
- `ManualEntry` (manual_entry.dfy): the manual-entry form.
- `VerifyDrugFlow` (verify_drug_flow.dfy): the verification flow's model
  fallback.
- `FlagSuspectDrugFlow` (flag_suspect_drug_flow.dfy): the suspect-flagging
  flow.

The two stores are classes whose methods update their `disk` field.
`getScanHistory` sorts an array in place with an insertion sort. The
details record of `getDrugDetailsFromAPI` and the query of the
manual-entry form are built step by step in methods. The rest are
functions.

The model follows the code. In particular:

- The internal dataset is matched by equality only: hyphen-stripped
  `ItemCode`, or exact `NDC11`. There is no substring matching.
- Dates are not reformatted.
- Discontinued products are not detected, and `MarketingEndDate` is never
  read.
- `getScanHistory` takes no user and returns every record.
- When both models fail, the verification flow throws. It does not return
  a fail-safe verdict.

## Model

| member | source | states |
|---|---|---|
| UserService.UserStore.GetUsers | src/services/user-service.ts:13-24 | A missing file reads as no users. An unreadable file fails with "Could not retrieve user data.". Otherwise the stored list is returned. |
| UserService.FindUserByEmail | src/services/user-service.ts:31-34 | None exactly when no stored email equals the query ignoring case. Otherwise the result is the first stored user whose email does. |
| UserService.UserStore.AddUser | src/services/user-service.ts:41-57 | An email already present in any letter case gives `{false, "An account with this email already exists."}` and leaves the file as it was. A new email appends exactly one user with the given id at the end and reports success. A failed read or write fails and leaves the file as it was. Distinct emails are preserved. |
| UserService.SignupKeepsEmailsDistinct | src/services/user-service.ts:43-55 | Appending a user whose email is not yet present keeps stored emails pairwise distinct ignoring case. |
| UserService.Authenticate | src/services/user-service.ts:65-74 | Some exactly when the first user with a case-insensitively matching email has exactly the given password. The value is that user without the password field. |
| UserService.AuthenticateWithDistinctEmails | src/services/user-service.ts:65-74 | With distinct emails, login succeeds exactly when some stored user matches the email ignoring case and the password exactly. |
| UserService.SignupThenLogin | src/services/user-service.ts:49-56 | After a successful signup, the new user logs in with their password, under the email in any letter case, and gets back their own public record. |
| UserService.SignupLeavesOtherLoginsAlone | src/services/user-service.ts:54 | Appending a user does not change the outcome of a login under any email that differs ignoring case. |
| UserService.UserStore.LoginUser | src/services/user-service.ts:65-74 | Fails only when the file is unreadable, with the read error. Otherwise it returns the stored user minus the password when the email matches ignoring case and the password matches exactly, and null otherwise. While stored emails are distinct ignoring case, login succeeds exactly when some stored user has the email and the password. The store is not modified. |
| ScanHistory.Stamp | src/services/scan-history.ts:40-44 | The stamped record has the given id and timestamp, and every submitted field is unchanged (`Unstamp` gives back the submission). |
| ScanHistory.SortNewestFirst | src/services/scan-history.ts:19 | After sorting in place, timestamps are non-increasing and the array holds the same records (a permutation). |
| ScanHistory.ScanHistoryStore.GetScanHistory | src/services/scan-history.ts:14-29 | A missing file gives the empty history. An unreadable file fails with "Could not retrieve scan history.". Otherwise the result is a newest-first permutation of the stored records. |
| ScanHistory.NewestFirstIsUnique | src/services/scan-history.ts:19 | Any two newest-first permutations of the same records have equal timestamps at every index. So the read fixes the order, up to records with equal timestamps. |
| ScanHistory.PrependNewest | src/services/scan-history.ts:47 | A record no older than any other, put in front of a newest-first list, keeps the list newest first. |
| ScanHistory.ScanHistoryStore.AddScanToHistory | src/services/scan-history.ts:36-54 | It succeeds exactly when the file is readable and the write succeeds. On success the file holds the stamped record at index 0, followed by a newest-first permutation of the old records, one longer than before. When the new timestamp is no older than any stored one, the whole file is newest first. Any failure fails with "Could not save scan to history." and leaves the file as it was. |
| DrugApi.FindInternalRecord | src/services/drug-api.ts:71-73 | None exactly when no record matches. Otherwise the result is the first record whose `ItemCode` equals the barcode with every hyphen removed on both sides, or whose `NDC11` equals the raw barcode. |
| DrugApi.ItemCodeIgnoresHyphens | src/services/drug-api.ts:72 | A hyphen anywhere in the barcode neither makes nor breaks the `ItemCode` comparison: it holds with the hyphen exactly when it holds without it. |
| DrugApi.Ndc11IsExact | src/services/drug-api.ts:72 | `NDC11` is compared without normalisation. Take a hyphenated barcode and a row whose `NDC11` is that barcode with the hyphens removed: the row matches only if its stripped `ItemCode` equals that `NDC11`. |
| DrugApi.ManufacturerOf | src/services/drug-api.ts:43 | The first `manufacturer_name` when it is non-empty, else "Unknown Manufacturer". Never empty. |
| DrugApi.DrugNameOf | src/services/drug-api.ts:44 | `brand_name`, else `generic_name`, else "Unknown Drug Name". Never empty. |
| DrugApi.FoundMessage | src/services/drug-api.ts:48 | The found-text names both the drug and the manufacturer. |
| DrugApi.NotFoundMessage | src/services/drug-api.ts:52 | The not-found text contains the barcode. |
| DrugApi.StatusMessage | src/services/drug-api.ts:35 | The failure text is the fixed prefix followed by the decimal digits of the status, with no leading zero, which read back as the status. |
| DrugApi.SearchOpenFDA | src/services/drug-api.ts:16-62 | It always returns a summary. A manufacturer is present exactly when results are non-empty, and it is that of the first product. A non-2xx response gives the status text, empty results a text naming the barcode, and an exception the fixed connection-error text. |
| DrugApi.GetDrugDetailsFromAPI | src/services/drug-api.ts:64-107 | `gs1Details` is always "GS1 Source not connected." and `openFDADetails` is always the summary's text. An OpenFDA manufacturer replaces the internal one. On an internal match the result has `ProprietaryName` as manufacturer, `MarketingStartDate` as production date, "N/A (Not in this dataset)" as batch number, and the match text. Without a match it has the no-match text. Manufacturer, production date and batch number are never empty: a missing one is "N/A". |
| DrugApi.OrNotAvailable | src/services/drug-api.ts:96-104 | After defaulting, a field is never blank. A non-blank field is kept, and a missing or empty one becomes "N/A". |
| DrugApi.FillDefaults | src/services/drug-api.ts:96-104 | Manufacturer, production date and batch number are each defaulted to "N/A" when blank. No other field changes. |
| HistoryFilter.FilterScans | src/app/dashboard/history/page.tsx:35-49 | The two chained filters equal one filter by both tests, and the result is an order-preserving subsequence of the scans. |
| HistoryFilter.FilterScansShows | src/app/dashboard/history/page.tsx:36-48 | A scan is shown exactly when it is in the list, its status is chosen (or none is chosen), and the lower-cased term occurs in its lower-cased drug name, manufacturer or barcode. |
| HistoryFilter.EmptySearchPassesAll | src/app/dashboard/history/page.tsx:41-48 | The empty search term passes every scan. |
| HistoryFilter.NoFilterShowsAll | src/app/dashboard/history/page.tsx:35-49 | With no status chosen and an empty term, every scan is shown in its original order. |
| HistoryFilter.SearchIgnoresTermCase | src/app/dashboard/history/page.tsx:42 | Lower-casing the term first does not change the search. |
| HistoryFilter.ToggleStatus | src/app/dashboard/history/page.tsx:51-61 | The toggled status is in the new set exactly when it was not in the old one. Every other status keeps its membership. |
| HistoryFilter.ToggleTwice | src/app/dashboard/history/page.tsx:53-58 | Toggling the same status twice gives back the original set. |
| ManualEntry.HandleManualSubmit | src/app/dashboard/scan/page.tsx:13-34 | Rejected with "Please fill in at least one field." exactly when all four fields are empty. Otherwise it navigates to "/dashboard/results?" followed by the query string of exactly the filled-in fields in key order. |
| ManualEntry.SetParam | src/app/dashboard/scan/page.tsx:28-31 | `URLSearchParams.set` appends the pair when the key is not present. |
| ManualEntry.SetField | src/app/dashboard/scan/page.tsx:28-31 | One guarded `set`: an empty value leaves the parameters unchanged, and a non-empty value under a new key is appended. |
| ManualEntry.SetNextField | src/app/dashboard/scan/page.tsx:28-31 | Setting the next field extends the query of the fields before it by that field when it is filled in, because no earlier key equals it. |
| ManualEntry.SetEachFieldBuildsQuery | src/app/dashboard/scan/page.tsx:27-31 | The four guarded `set` calls in the page's order build exactly the filled-in fields, in order. |
| ManualEntry.QueryEmptyIffRejected | src/app/dashboard/scan/page.tsx:21-31 | The query is empty exactly when the form is rejected, so any single filled field is enough to proceed. |
| ManualEntry.QueryHoldsFilledFields | src/app/dashboard/scan/page.tsx:27-31 | A filled-in field appears in the query with its key and value unchanged. An empty one does not appear under its key. |
| ManualEntry.QueryKeepsKeyOrder | src/app/dashboard/scan/page.tsx:28-31 | The query keeps the key order drugName, ndc, gtin, nafdacNumber. |
| VerifyDrugFlow.VerifyDrug | src/ai/flows/verify-drug-flow.ts:71-96 | Ok exactly when Gemini's answer is accepted (non-null, with a non-empty name that is not "not identified" ignoring case) or OpenAI gives an answer. Gemini wins and is tagged "Gemini 1.5 Pro". Otherwise OpenAI's answer is tagged "OpenAI GPT-4o Mini". When neither answers, it fails with "All AI models failed to process the request. Please try again later.". |
| VerifyDrugFlow.Tagged | src/ai/flows/verify-drug-flow.ts:78 | The tagged answer names its model and differs from the model's output only in `sourceModel`. |
| VerifyDrugFlow.ProvenanceIsRecorded | src/ai/flows/verify-drug-flow.ts:78-88 | Every accepted answer is one model's output with only `sourceModel` changed, and it names that model. |
| VerifyDrugFlow.AcceptedGeminiIgnoresOpenAi | src/ai/flows/verify-drug-flow.ts:76-78 | Once Gemini's answer is accepted, OpenAI's answer plays no part. |
| VerifyDrugFlow.GeminiCheckIgnoresCase | src/ai/flows/verify-drug-flow.ts:77 | Gemini's answer is judged the same whatever the letter case of its drug name. |
| VerifyDrugFlow.UnnamedGeminiFallsThrough | src/ai/flows/verify-drug-flow.ts:77 | A Gemini answer without a non-empty name counts as no answer. |
| VerifyDrugFlow.OpenAiIsNotChecked | src/ai/flows/verify-drug-flow.ts:86-89 | Any OpenAI answer is accepted when Gemini's is not, whatever drug name it carries. |
| FlagSuspectDrugFlow.LookupKey | src/ai/flows/flag-suspect-drug-flow.ts:81 | The key is the NDC when it is non-empty, else the GTIN when it is non-empty, else none. A key is never empty. |
| FlagSuspectDrugFlow.DisplayName | src/ai/flows/flag-suspect-drug-flow.ts:108 | The FDA `brand_name[0]`, else `generic_name[0]`, else the user's name, else "Not Identified". Never empty. |
| FlagSuspectDrugFlow.DisplayManufacturer | src/ai/flows/flag-suspect-drug-flow.ts:109 | The FDA `manufacturer_name[0]`, else "Not Identified". Never empty. |
| FlagSuspectDrugFlow.FlagSuspectDrug | src/ai/flows/flag-suspect-drug-flow.ts:79-112 | Without a key, the verdict is suspect with the no-barcode reason, the user's name or "Not Provided", and no data. Without a model answer, it is suspect with the model-failure reason, the user's name or "N/A", manufacturer "N/A", and the lookup result. Otherwise the model's verdict and reason are kept, the names come from the priority chains, and the data is the lookup result. |
| FlagSuspectDrugFlow.FailSafe | src/ai/flows/flag-suspect-drug-flow.ts:83-103 | With no key or no model answer, the drug is flagged suspect. |
| FlagSuspectDrugFlow.VerdictIsTheModels | src/ai/flows/flag-suspect-drug-flow.ts:106-107 | With a key and an answer, the verdict is the model's. |
| FlagSuspectDrugFlow.NoKeyConsultsNothing | src/ai/flows/flag-suspect-drug-flow.ts:83-89 | Without a key, the result does not depend on the lookup or the model. |
| FlagSuspectDrugFlow.ModelNamesAreOverwritten | src/ai/flows/flag-suspect-drug-flow.ts:106-111 | The model's own drug name, manufacturer and data never reach the result. |
| FlagSuspectDrugFlow.NameIsNeverEmpty | src/ai/flows/flag-suspect-drug-flow.ts:79-112 | Every result carries a non-empty drug name. |
| FlagSuspectDrugFlow.BrandNameWins | src/ai/flows/flag-suspect-drug-flow.ts:108 | A non-empty brand name in the record found for the NDC is the name shown, whatever the user typed or the model answered. |

## Left out

- **File and network I/O.** `fs.readFile`, `fs.writeFile`, `JSON.parse`,
  `JSON.stringify`, `fetch` and the OpenFDA URL and API key are not
  modelled. Their outcomes are parameters: a file state, a write error, or
  an HTTP outcome.
- **Partial writes.** A failed write is taken to leave the file unchanged.
- **Raw read errors.** Their messages are not modelled: an unreadable file
  carries only the fixed message the store throws.
- **Ids and timestamps.** Values derived from `Date` are parameters.
  Timestamps are integers instead of ISO strings parsed by `new Date`, so
  unparsable timestamps (NaN comparisons) are not modelled.
- **Concurrency.** The read-modify-write race on the JSON files is not
  modelled. Each store operation is one atomic step.
- ScanHistory.SortNewestFirst: does not state stability. `Array.prototype.sort`
  keeps records with equal timestamps in file order. The model proves the
  result newest first and a permutation, and `NewestFirstIsUnique` pins the
  order only up to equal timestamps.
- ScanHistory.ScanHistoryStore.AddScanToHistory: states the tail of the new
  file as a newest-first permutation of the old records. This is the read
  list up to the order of equal timestamps, for the reason above.
- UserService.UserStore.AddUser: reads the file once. The source reads it
  twice: once in `addUser` and once more in `findUserByEmail`. Both reads
  see the same file in a sequential run.
- **Case mapping.** Lower-casing covers ASCII letters only. Unicode case
  mapping is not modelled.
- **Percent-encoding.** `URLSearchParams.toString` is modelled without it.
  Values are joined as `key=value` with `&`.
- HistoryFilter.FilterScans: requires scans whose drug name and
  manufacturer are present. The page calls `toLowerCase` on them, which
  throws on null, and that path is not modelled. The requirement is
  stronger than the condition under which the page throws: a scan the
  status filter drops never reaches the search, and when the drug name
  matches, `||` never lower-cases the manufacturer. No caller is excluded,
  because the page filters only its fixed list of sample scans, and every
  one of them has both names.
- **Language models.** The prompts and the models' judgement are not
  modelled. Each model answer is an uninterpreted optional input, including
  whatever the flagging prompt puts in its own `apiData` (it is always
  overwritten). A flagging prompt that throws is not modelled, because the
  flow does not catch it.
- **The network lookup.** `searchOpenFDA` of src/services/openfda-api.ts
  appears only as the lookup function the flagging flow receives.
- **The internal NDC dataset.** The contents of src/lib/ndc-data.ts are not
  part of this model. The dataset is a parameter.
- **Pages and other flows.** Page rendering, navigation, toasts, the JSON
  export, the login and signup pages, the chat and barcode-image flows, and
  the mock fixtures are not modelled.
