# MedGuard in Dafny

MedGuard is a counterfeit-medicine checker. It has two parts.

- **The mock verification API** (`backend/main.py`). It reduces a scanned code to its digits and looks the GTIN up in the registered product list. If a 13-digit code has no direct match, it retries with a leading `0`, which is the GS1 convention of right-justifying a GTIN-13 in a 14-digit field. It answers "valid" with the product's details, or a counterfeit warning.
- **The admin console** (React over a hosted Supabase backend). It has list and editor pages for products and pharmacies, a review page for counterfeit reports, an overview of counters, two route guards and the route table.

This project models the logic of both parts and proves properties of it.

- **Pure logic becomes functions and lemmas.** This covers GTIN cleaning and lookup, multi-column field resolution, the form-to-column mappings, the case-insensitive searches, write-result classification, the report review rule and badge, the dashboard fold and the route table.
- **Page and guard state becomes classes.** Their event handlers are methods with `modifies` clauses.
- **Backend calls become settled results.** Each call is an already-settled result: rows, a count, an error, or a rejection. The request a handler would send is returned as a value, so its table, filter, order and patch can be stated.

Modules:

- **Js**: JavaScript values in rows, plus truthiness, `||`, `??`, ASCII case mapping, `includes` and a filter whose callback may throw.
- **Supabase**: result and request shapes.
- **Outcomes**: write-result classification and the error alert, which the product and pharmacy pages share.
- **MockApi**, **Products**, **Pharmacies**, **Reports** and **Dashboard**: one per source file.
- **Auth**: what the two guards share.
- **ProtectedRoute**, **PublicRoute** and **App**.

Value encoding: a JavaScript value in a row is `Undefined`, `Null`, a string, a number or a boolean. A number is carried by its JavaScript string form, so `toString()` and truthiness (`0` and `NaN` are falsy) are exact. A key missing from a row reads as `Undefined`.

## Model

| member | source | states |
|---|---|---|
| MockApi.Clean | backend/main.py:29 | the cleaned code holds only ASCII digits and is no longer than the input |
| MockApi.CleanCounts | backend/main.py:29 | the cleaned code holds each digit exactly as many times as the input does, and nothing else |
| MockApi.CleanSingle | backend/main.py:29 | a single character is kept when it is an ASCII digit and dropped otherwise |
| MockApi.CleanAppend | backend/main.py:29 | cleaning distributes over concatenation; with CleanSingle the result is exactly the input's digits in their original order |
| MockApi.CleanKeepsDigits | backend/main.py:29 | a code of digits only is unchanged by cleaning |
| MockApi.CleanIdempotent | backend/main.py:29 | cleaning a cleaned code returns it unchanged |
| MockApi.CleanKeepsEveryDigit | backend/main.py:29 | every digit of the input occurs in the cleaned code |
| MockApi.FirstMatch | backend/main.py:32 | the index found holds the key and no earlier record does; none found means no record holds the key |
| MockApi.Lookup | backend/main.py:31-37 | the answered record is one of the product list's records |
| MockApi.Verify | backend/main.py:26-58 | the echoed gtin is always the cleaned input; a warning always carries the fixed counterfeit message |
| MockApi.DirectMatchFirst | backend/main.py:32 | a direct match wins, and among records sharing the GTIN the first in list order is described field by field |
| MockApi.PaddedMatch | backend/main.py:35-37 | with no direct match, a 13-digit code answers the first record under "0" + code; that key is 14 digits; the echoed gtin stays 13 digits |
| MockApi.NoRetryUnless13 | backend/main.py:35 | without a direct match, a code of any length other than 13 (14 included) gets the warning: there is no un-padding |
| MockApi.ValidIffFound | backend/main.py:40-58 | the status is valid exactly when a record holds the cleaned code, or the zero-padded code for 13 digits |
| MockApi.Root | backend/main.py:21-23 | the welcome message, with total_products equal to the length of the product list |
| Js.Or | dashboard/src/pages/Products.jsx:286 | `a \|\| b` is `a` when truthy and `b` otherwise |
| Js.Coalesce | dashboard/src/pages/Pharmacies.jsx:129 | `a ?? b` keeps every `a` except null and undefined |
| Js.Lower | dashboard/src/pages/Products.jsx:315 | lower-casing keeps the length and maps each character by the ASCII case rule |
| Js.LowerIdempotent | dashboard/src/pages/Products.jsx:315 | lower-casing twice is lower-casing once |
| Js.IncludesIsSubstring | dashboard/src/pages/Products.jsx:322-326 | `includes` holds exactly when the needle occurs at some position of the haystack |
| Js.FilterOrThrow | dashboard/src/pages/Products.jsx:314-327 | `filter` throws exactly when the callback throws on some element; otherwise it keeps an order-preserving subsequence holding each accepted element exactly as many times as the input does, and no other element |
| Js.FilterKeepingAll | dashboard/src/pages/Products.jsx:314-327 | a callback that accepts every element gives back the whole list |
| Outcomes.Report | dashboard/src/pages/Products.jsx:168-174 | the alert's message defaults to "Unknown error occurred"; hint and code appear only when the error carries them |
| Outcomes.AlertText | dashboard/src/pages/Products.jsx:173 | the alert starts with the prefix and message and always ends with the RLS advice |
| Outcomes.ClassifyInsert | dashboard/src/pages/Products.jsx:133-161 | an insert fails exactly on a returned error and never reports that nothing matched |
| Outcomes.ClassifyUpdate | dashboard/src/pages/Products.jsx:116-132 | an update fails exactly on an error; with no error, null or empty rows mean nothing was updated and any row means success |
| Outcomes.ClassifyDelete | dashboard/src/pages/Products.jsx:226-241 | a delete fails exactly on an error; with no error only an empty array means nothing deleted, and null rows are a success |
| Outcomes.UpdateAndDeleteDisagreeOnNull | dashboard/src/pages/Products.jsx:116-241 | the update and delete rules differ exactly on an error-free result with null rows |
| Products.FirstPresent | dashboard/src/pages/Products.jsx:275-282 | the position found is the first listed key whose value is not null, undefined or ''; none found means no key is |
| Products.GetFieldValue | dashboard/src/pages/Products.jsx:275-282 | the value of the first present key, and null exactly when no listed key is present |
| Products.GetValue | dashboard/src/pages/Products.jsx:185-192 | the value of the first present key, and '' exactly when no listed key is present |
| Products.GetValueIsGetFieldValue | dashboard/src/pages/Products.jsx:185-192 | the two helpers differ only in the value returned when nothing is present |
| Products.ProductName | dashboard/src/pages/Products.jsx:285-287 | the displayed name is never falsy: the resolved name, or 'N/A' |
| Products.Manufacturer | dashboard/src/pages/Products.jsx:295-297 | the displayed manufacturer is never falsy: the resolved manufacturer, or 'N/A' |
| Products.Brand | dashboard/src/pages/Products.jsx:290-292 | null exactly when no brand column is present, otherwise the value of the first present column in the order the page lists them |
| Products.Country | dashboard/src/pages/Products.jsx:300-302 | null exactly when no country column is present, otherwise the value of the first present column in the order the page lists them |
| Products.Strength | dashboard/src/pages/Products.jsx:305-307 | null exactly when no strength column is present, otherwise the value of the first present column in the order the page lists them |
| Products.LicenseExpiryDate | dashboard/src/pages/Products.jsx:310-312 | null exactly when no expiry column is present, otherwise the value of the first present column in list order, so a present `expiry_date` wins over `license_expiry_date` |
| Products.ExpiryDateShadowsLicenseExpiry | dashboard/src/pages/Products.jsx:310-312 | a present `expiry_date` is the license expiry date shown; `license_expiry_date` is shown only when `expiry_date` is absent |
| Products.FirstPresentIsListed | dashboard/src/pages/Products.jsx:275-282 | a non-null field value is read from one of the listed columns |
| Products.BrandFallsBackToBrandName | dashboard/src/pages/Products.jsx:290-292 | without a brand column, the brand shown is the product brand name, or null |
| Products.LowerOrEmpty | dashboard/src/pages/Products.jsx:316-320 | `(v \|\| '').toLowerCase()` is '' for a falsy value, the lower-cased string for a string, and throws on any other truthy value |
| Products.FilterProducts | dashboard/src/pages/Products.jsx:314-327 | the filter keeps, in order and with their repetitions, exactly the products `Kept` for the term: their lower-cased name, GTIN, brand, generic name or manufacturer (`SearchFields`, tested by the callback `KeepProduct`) contains the lower-cased term; it throws exactly when some product's field is a truthy non-string. `Page.Filtered` is this filter over the page's list and term |
| Products.KeptProducts | dashboard/src/pages/Products.jsx:314-327 | the throwing callback keeps a loaded product exactly when it is `Kept`, so membership and multiplicity of the result follow the reference predicate |
| Products.EmptyTermKeepsAll | dashboard/src/pages/Products.jsx:314-327 | the empty term keeps every product |
| Products.SavedRowKeys | dashboard/src/pages/Products.jsx:79-96 | the saved row (`SavedRow`, the `dataToSave` object) has exactly the 15 saved columns |
| Products.SavedRowAbsent | dashboard/src/pages/Products.jsx:79-96 | the saved row never carries `brand` or `expiry_date`, although the form has both |
| Products.SavedColumnsReadBack | dashboard/src/pages/Products.jsx:79-96 | a stored row that the saved columns overwrite holds every saved field under its column: the product name under `product_brand_name`, the manufacturer under `manufacturer_name`, the country under `manufacturer_country`, the strength under `dosage_strength`, the rest under their own snake-case names |
| Products.EditAfterSave | dashboard/src/pages/Products.jsx:194-212 | editing a row that holds the saved columns and no alias column gives back the form, except that brand becomes the product name and expiry_date becomes '' |
| Products.EditReadsRenamed | dashboard/src/pages/Products.jsx:197-207 | after a save, the brand field falls through to `product_brand_name` and the expiry date field finds no column and reads '' |
| Products.ReadsKey2Of4 | dashboard/src/pages/Products.jsx:203 | the license expiry date is read from `license_expiry_date` once `expiry_date`, tried first, is absent |
| Products.EditField | dashboard/src/pages/Products.jsx:185-211 | a form field is '' when none of its keys is present, otherwise the first present value, itself through `\|\| ''` |
| Products.EditFormReads | dashboard/src/pages/Products.jsx:194-212 | each of the 17 fields of the edit form (`EditForm`) shows the first present of its own columns, in the order `handleEdit` lists them |
| Products.Page.constructor | dashboard/src/pages/Products.jsx:16-41 | no products, loading, an empty term, modal closed, nothing being edited, an empty form |
| Products.Page.FetchProducts | dashboard/src/pages/Products.jsx:47-70 | requests products by id ascending; rows (null as empty) replace the list, an error keeps the list, and loading ends false either way |
| Products.Page.SetSearchTerm | dashboard/src/pages/Products.jsx:18 | the term is replaced |
| Products.Page.ResetForm | dashboard/src/pages/Products.jsx:252-272 | every form field becomes '' |
| Products.Page.OpenCreate | dashboard/src/pages/Products.jsx:344-349 | a blank form for a new product in an open modal |
| Products.Page.Cancel | dashboard/src/pages/Products.jsx:925-931 | the modal closes, nothing is edited, the form is reset |
| Products.Page.HandleEdit | dashboard/src/pages/Products.jsx:177-214 | the product is being edited, the form is its edit mapping, the modal opens |
| Products.Page.BuildDataToSave | dashboard/src/pages/Products.jsx:79-96 | the field-by-field assignment builds exactly the saved row |
| Products.Page.HandleSubmit | dashboard/src/pages/Products.jsx:72-175 | sends an update of the edited product's id or an insert of the saved row; only success closes the modal, clears the edited product, resets the form and refetches; nothing matched or a failure changes no state |
| Products.Page.HandleDelete | dashboard/src/pages/Products.jsx:216-250 | nothing is sent unless confirmed; the delete is classified and only success refetches |
| Pharmacies.FieldMatch | dashboard/src/pages/Pharmacies.jsx:187 | an absent field does not match, a string matches when it contains the term ignoring case, and any other value throws |
| Pharmacies.KeepPharmacyIsMatches | dashboard/src/pages/Pharmacies.jsx:186-190 | when the callback (`KeepPharmacy`) does not throw, it keeps a pharmacy exactly when the reference predicate `Matches` holds: its name, address or district contains the term; it throws only on a non-string field it reaches |
| Pharmacies.FilterPharmacies | dashboard/src/pages/Pharmacies.jsx:186-190 | the filter keeps, in order and with their repetitions, exactly the matching pharmacies, and throws exactly when the callback does. `Page.Filtered` is this filter over the page's list and term |
| Pharmacies.KeptAreMatches | dashboard/src/pages/Pharmacies.jsx:186-190 | the pharmacies the filter keeps are exactly the matching loaded ones, each as many times as it is loaded |
| Pharmacies.NonStringNameThrows | dashboard/src/pages/Pharmacies.jsx:187 | a number or boolean name throws before the address is tested |
| Pharmacies.NoTextNeverMatches | dashboard/src/pages/Pharmacies.jsx:186-190 | a pharmacy with no name, address or district is excluded, even for the empty term |
| Pharmacies.EmptyTermKeepsNamed | dashboard/src/pages/Pharmacies.jsx:186-190 | with the empty term, a pharmacy matches exactly when one of its three fields is a string |
| Pharmacies.FormRow | dashboard/src/pages/Pharmacies.jsx:58-86 | the row sent is the form unchanged: each of the eleven columns holds the form field of the same name |
| Pharmacies.TextOrEmpty | dashboard/src/pages/Pharmacies.jsx:119-125 | `v \|\| ''` keeps a truthy value and maps every falsy one to '' |
| Pharmacies.NumberText | dashboard/src/pages/Pharmacies.jsx:126-127 | null or undefined coordinates become ''; a number becomes its string form; a string is kept |
| Pharmacies.EditForm | dashboard/src/pages/Pharmacies.jsx:116-132 | the eight text fields are the row's values through `\|\| ''`, the coordinates their string form ('' when absent), and `is_verified` is the row's value whenever it is neither null nor undefined, and true otherwise |
| Pharmacies.EditAfterSave | dashboard/src/pages/Pharmacies.jsx:116-132 | editing the row a form was saved as gives back the same form |
| Pharmacies.Page.constructor | dashboard/src/pages/Pharmacies.jsx:16-33 | no pharmacies, loading, an empty term, modal closed, nothing being edited, an empty form that is verified |
| Pharmacies.Page.FetchPharmacies | dashboard/src/pages/Pharmacies.jsx:39-54 | requests pharmacies by name ascending; rows (null as empty) replace the list, an error keeps it, and loading ends false either way |
| Pharmacies.Page.SetSearchTerm | dashboard/src/pages/Pharmacies.jsx:18 | the term is replaced |
| Pharmacies.Page.ResetForm | dashboard/src/pages/Pharmacies.jsx:170-184 | every text field becomes '' and is_verified becomes true |
| Pharmacies.Page.OpenCreate | dashboard/src/pages/Pharmacies.jsx:208-212 | a blank form for a new pharmacy in an open modal |
| Pharmacies.Page.Cancel | dashboard/src/pages/Pharmacies.jsx:464-468 | the modal closes, nothing is edited, the form is reset |
| Pharmacies.Page.HandleEdit | dashboard/src/pages/Pharmacies.jsx:116-132 | the pharmacy is being edited, the form is its edit mapping, the modal opens |
| Pharmacies.Page.HandleSubmit | dashboard/src/pages/Pharmacies.jsx:56-114 | sends the form unchanged as an update of the edited id or as an insert; only success closes, clears, resets and refetches; nothing matched or a failure changes no state |
| Pharmacies.Page.HandleDelete | dashboard/src/pages/Pharmacies.jsx:134-168 | nothing is sent unless confirmed; only an empty array counts as nothing deleted; only success refetches |
| Reports.ActionsOffered | dashboard/src/pages/Reports.jsx:219-234 | resolve and reject are offered exactly when the status is the string 'pending' |
| Reports.ReviewedIsTerminal | dashboard/src/pages/Reports.jsx:219-234 | resolved and rejected offer no transition |
| Reports.ReviewPathsAreShort | dashboard/src/pages/Reports.jsx:219-234 | any chain of offered transitions has at most one step, from pending to resolved or rejected |
| Reports.StatusQuery | dashboard/src/pages/Reports.jsx:27-34 | reports newest first by created_at, with a status equality exactly when the filter is not 'all' |
| Reports.StatusFilterKeeps | dashboard/src/pages/Reports.jsx:32-34 | 'all' admits every row; any other filter admits exactly the rows whose status equals it |
| Reports.BadgeStyle | dashboard/src/pages/Reports.jsx:73-79 | resolved and rejected get their own style, and every other status gets the pending style |
| Reports.ConfigAsWritten | dashboard/src/pages/Reports.jsx:79 | the lookup as written yields an inherited, icon-less entry exactly for the Object.prototype member names |
| Reports.ConfigAsWrittenAgrees | dashboard/src/pages/Reports.jsx:79 | the lookup as written agrees with the badge style on every other status and disagrees on those names |
| Reports.ConstructorStatusMissesFallback | dashboard/src/pages/Reports.jsx:79 | the status "constructor" skips the pending fallback |
| Reports.Capitalize | dashboard/src/pages/Reports.jsx:85 | the caption keeps the length, upper-cases the first character and keeps the rest |
| Reports.CapitalizeKeepsLetters | dashboard/src/pages/Reports.jsx:85 | the caption differs from the status only in case |
| Reports.CapitalizeIdempotent | dashboard/src/pages/Reports.jsx:85 | capitalizing a caption again changes nothing |
| Reports.StatusBadge | dashboard/src/pages/Reports.jsx:72-88 | a string status gets its badge style and capitalized caption; any other value throws |
| Reports.KnownBadges | dashboard/src/pages/Reports.jsx:72-88 | the three statuses show "Pending", "Resolved" and "Rejected"; an unknown one gets the pending style |
| Reports.HandleStatusUpdate | dashboard/src/pages/Reports.jsx:56-70 | sends the single field status for the one id; only success refetches |
| Reports.ActFromList | dashboard/src/pages/Reports.jsx:219-234 | a list action is sent only for a pending report and moves it to resolved or rejected |
| Reports.Page.constructor | dashboard/src/pages/Reports.jsx:16-19 | no reports, loading, nothing selected, filter 'all' |
| Reports.Page.FetchReports | dashboard/src/pages/Reports.jsx:25-54 | requests the current filter's query; rows (null as empty) replace the list, an error keeps it, and loading ends false either way |
| Reports.Page.SetFilterStatus | dashboard/src/pages/Reports.jsx:21-23 | the fetch re-runs exactly when the filter changed |
| Reports.Page.ViewDetails | dashboard/src/pages/Reports.jsx:212-213 | the report is selected |
| Reports.Page.CloseDetails | dashboard/src/pages/Reports.jsx:254 | nothing is selected |
| Reports.Page.ActFromModal | dashboard/src/pages/Reports.jsx:341-362 | sends the update for the selected pending report and closes the modal whatever the outcome |
| Dashboard.CountOrZero | dashboard/src/pages/Dashboard.jsx:83-86 | `count \|\| 0` is the count, or 0 when null |
| Dashboard.FoldStats | dashboard/src/pages/Dashboard.jsx:28-127 | every path ends with loading false; the paths are stated by ThrownQueryZeroesAll, FallbackKeepsFirstRoundCounts and ViewTotalsUsed |
| Dashboard.ThrownQueryZeroesAll | dashboard/src/pages/Dashboard.jsx:116-125 | a rejected query in either round sets all four counters to 0 |
| Dashboard.FallbackOnlyOnViewError | dashboard/src/pages/Dashboard.jsx:61-90 | the fallback counts are read only after a view error |
| Dashboard.UsersResultIsolated | dashboard/src/pages/Dashboard.jsx:57-59 | a returned users result changes only the users counter |
| Dashboard.ReportsResultIsolated | dashboard/src/pages/Dashboard.jsx:92-94 | a returned reports result changes only the reports counter |
| Dashboard.FallbackKeepsFirstRoundCounts | dashboard/src/pages/Dashboard.jsx:61-89 | after a view error the first round's users and reports counts are kept, and the drug counts come from the two fallback counts |
| Dashboard.CountersComeFromResults | dashboard/src/pages/Dashboard.jsx:109-115 | without a rejection in the first round, the users and reports counters are the first round's counts (null as 0), and 0 when a fallback count rejects |
| Dashboard.ViewVerified | dashboard/src/pages/Dashboard.jsx:97 | the view's verified total, or 0 when the row or the column is missing |
| Dashboard.ViewUnverified | dashboard/src/pages/Dashboard.jsx:98 | the view's unverified total, or 0 when the row or the column is missing |
| Dashboard.ViewTotalsUsed | dashboard/src/pages/Dashboard.jsx:92-120 | when the view answers without an error, the drug counters are its two totals and the users and reports counters the first round's counts |
| Dashboard.Page.constructor | dashboard/src/pages/Dashboard.jsx:16-22 | all counters 0, loading true |
| Dashboard.Page.FetchStats | dashboard/src/pages/Dashboard.jsx:28-127 | the new state is the fold of the settled results; the fallback queries are issued exactly after a view error |
| Dashboard.RatePercent | dashboard/src/pages/Dashboard.jsx:222-224 | the rate is 100·verified/(verified+unverified) when something was verified, else 0; it lies in [0, 100], is 0 exactly when nothing was verified and 100 exactly when nothing was unverified |
| Dashboard.RatioPercent | dashboard/src/pages/Dashboard.jsx:223 | with a positive verified count the rate times the total is 100 times the verified count, and lies in (0, 100] |
| Dashboard.RateExamples | dashboard/src/pages/Dashboard.jsx:222-224 | 3 of 4 verified is 75, 7 of 10 is 70, none verified is 0 |
| Auth.CheckedAuthenticated | dashboard/src/components/ProtectedRoute.jsx:17-23 | authenticated exactly when the check found a session; false when it threw |
| ProtectedRoute.Decision | dashboard/src/components/ProtectedRoute.jsx:42-57 | spinner exactly while loading, the redirect to / exactly when loaded and signed out, otherwise the children; `Guard.Shown` renders this decision of the guard's state |
| ProtectedRoute.Guard.constructor | dashboard/src/components/ProtectedRoute.jsx:6-7 | loading, not authenticated |
| ProtectedRoute.Guard.Mount | dashboard/src/components/ProtectedRoute.jsx:9-40 | without a client: loaded, signed out, no listener; with one: the check is in flight and the listener is active |
| ProtectedRoute.Guard.CheckSettled | dashboard/src/components/ProtectedRoute.jsx:17-25 | authenticated follows the check, and loading ends in every case |
| ProtectedRoute.Guard.AuthChanged | dashboard/src/components/ProtectedRoute.jsx:32-34 | authenticated follows the event's session; loading is untouched |
| ProtectedRoute.Guard.Unmount | dashboard/src/components/ProtectedRoute.jsx:35-37 | the registered listener is released |
| ProtectedRoute.LastWriterWins | dashboard/src/components/ProtectedRoute.jsx:17-34 | whichever of the check and an auth event lands last decides authenticated, so a late check without a session undoes a sign-in event |
| ProtectedRoute.UnconfiguredRedirects | dashboard/src/components/ProtectedRoute.jsx:11-15 | without a client the guard redirects to / and registers nothing |
| PublicRoute.Decision | dashboard/src/components/PublicRoute.jsx:41-58 | spinner exactly while loading, the redirect to /dashboard exactly when loaded and signed in, otherwise the children; `Guard.Shown` renders this decision of the guard's state |
| PublicRoute.GuardsMirror | dashboard/src/components/PublicRoute.jsx:53-58 | once loaded, exactly one of the two guards renders its children |
| PublicRoute.Guard.constructor | dashboard/src/components/PublicRoute.jsx:6-7 | loading, not authenticated |
| PublicRoute.Guard.Mount | dashboard/src/components/PublicRoute.jsx:9-39 | without a client only loading clears and no listener is registered; with one the check is in flight and the listener is active |
| PublicRoute.Guard.CheckSettled | dashboard/src/components/PublicRoute.jsx:16-25 | authenticated follows the check, and loading ends in every case |
| PublicRoute.Guard.AuthChanged | dashboard/src/components/PublicRoute.jsx:31-33 | authenticated follows the event's session; loading is untouched |
| PublicRoute.Guard.Unmount | dashboard/src/components/PublicRoute.jsx:35-37 | the registered listener is released |
| PublicRoute.UnconfiguredShowsLogin | dashboard/src/components/PublicRoute.jsx:11-14 | without a client the login page is shown and nothing is registered |
| App.RouteElement | dashboard/src/App.jsx:13-106 | without a client every path gets the configuration error; the four page paths are protected; every other path shows the public login page |
| App.RouteTableGuards | dashboard/src/App.jsx:44-101 | an element is protected exactly for the four page paths, and every public element is the login page |
| App.Visit | dashboard/src/App.jsx:15-37 | without a client every visit shows the configuration screen |
| App.OneHop | dashboard/src/App.jsx:44-101 | the target of any redirect is shown, so redirects settle after at most one hop |
| App.RedirectTargets | dashboard/src/App.jsx:44-101 | signed out, a page path lands on /, which shows the login page; signed in, / or an unknown path lands on /dashboard, which shows the dashboard |

## Left out

- The FastAPI app, CORS and reading `products.json` are left out. The product list is a parameter.
- A data record missing one of the keys `verify` reads would raise an error in the API. Every record here carries all nine fields.
- MockApi.Clean: Python's `str.isdigit` also accepts non-ASCII digits (superscripts, other scripts). The model keeps ASCII `0`-`9` only.
- `toLowerCase` and `toUpperCase` are ASCII-only here. Full Unicode case mapping (for example `ß` to `SS`) is not modelled.
- Each page's own early render without a client is left out, as are JSX markup, icons, styling, the details modal of the products page, and the `loading` spinner branches of the pages.
- `alert`, `confirm`, `console.*` and `performance.now` are left out. This includes the "Could not find column" logging before a failed product write. Confirmation is a parameter; alerts are outcome values.
- The Supabase client, its query builder, RLS and server-side ordering are left out. A refetch is a returned flag, and its result arrives through a later fetch call.
- `Promise.all` scheduling is left out: dashboard queries are already settled. A rejection (thrown query) is distinguished from a returned error.
- The two dashboard view totals are counts (`nat` or absent). A non-numeric value in those columns is not modelled.
- Dashboard.RatePercent: the exact rational is modelled; the `toFixed(1)` rounding is not. Coordinate and date formatting in the reports page are left out too.
- Reports.HandleStatusUpdate: the alert text after a failure is reduced to the error's message.
- `ErrorBoundary.jsx` and `Layout.jsx` are presentation glue. They are not part of this model.
- App.Visit: a redirect mounts a fresh guard, which loads again before deciding. The model takes the settled session to be the same on both sides of the hop.
- React Router's case-insensitive and trailing-slash path matching is not modelled; paths match exactly.
- Where the intended behaviour and the code disagree, the model follows the code:
  - Intended: a failed fetch degrades to an empty list. Code: every page keeps its previous list when a fetch returns an error.
  - Intended: each failing dashboard count defaults to 0 on its own and the others stand. Code: only a *returned* query error is contained; a *rejected* query zeroes every counter (`Dashboard.ThrownQueryZeroesAll`).
  - Intended: a session check that settles after a newer auth event must not overwrite it. Code: the guards have no generation check, so the last writer wins (`ProtectedRoute.LastWriterWins`).
- Reports.ReviewPathsAreShort and Reports.ReviewedIsTerminal: terminality is of the status the page displays. The update filters only on the report's id and is unconditional (`Reports.jsx:58-61`), and the refetch after it is not awaited (`Reports.jsx:64`); a failed refetch keeps the old list. Until the refetch lands, a report just resolved still shows both actions and can be moved to rejected. The model does not capture that window.
- Products.EditAfterSave: the round trip is stated only for forms whose every field is text, as the inputs produce. `handleEdit` turns `0`, `false` and other falsy values into '' through `getValue(...) || ''`, but can leave a truthy number or boolean from the row in the form; such a form is saved as is, and the lemma does not state its round trip.
- The overview card titled "Pending Reports" (`Dashboard.jsx:228-229`) shows the unverified-drug count. It is presentation only and is not modelled.

## Findings

| source | as written | input that shows it | evidently intended | confidence | as-written member | corrected member |
|---|---|---|---|---|---|---|
| dashboard/src/pages/Reports.jsx:79 | `statusConfig[status] \|\| statusConfig.pending` reads inherited properties of the plain object. For a status naming an `Object.prototype` member, the lookup is truthy, the pending fallback is skipped, and `config.icon` is undefined, so the badge's icon element cannot render | a report whose status is `"constructor"` (or `"toString"`, `"__proto__"`, …) | every status without its own entry gets the pending style | medium, not executed | Reports.ConfigAsWritten (shown by Reports.ConstructorStatusMissesFallback and Reports.ConfigAsWrittenAgrees) | Reports.BadgeStyle (used by Reports.StatusBadge) |
