# Electricity billing admin client — a Dafny model

This project models the browser client of an electricity billing system
("EBS"), written in TypeScript with React. Administrators, technicians and
landlords sign in. Technicians record meter readings. The server turns
readings into bills. Landlords see their bills, and administrators manage
meters and mark bills paid. The model covers the client's own logic:

- **Routing and navigation** (`Routes`, `Navigation`): the route table and its role guards, the role-filtered menus of both layouts, the page title and the role badge colours. Proved: the guards and the menus agree for every role.
- **Client layer** (`Api`): the request interceptor adds the bearer token. The response interceptor ends the session on a 401. The module also builds query parameters, reshapes list replies and builds the multipart body of a new reading.
- **Bills page** (`Bills`):
  - the overdue flag, status colours, the status filter and which actions each role is offered;
  - the CSV export, with a reader that undoes it, and the printable bill's variable parts.
- **Dashboard** (`Dashboard`): the requests each role issues, the merge of their settled results, the statistic cards and the quick actions.
- **Readings page** (`Readings`): who may record, the summary counts, the meter picker, the dialog after a submit and the table cells.
- **Meters page** (`Meters`): the landlord picker, the create and edit requests, the dialogs' states and the table cells.
- **Payment dialog** (`PaymentModal`): reference validation, the confirmation handed to the caller, and the per-method hints.

Shared pieces:

- `Wrappers`: `Option`, and JavaScript's `x || fallback` on optional strings, where the empty string counts as missing.
- `Seqs`: filtering and counting.
- `Text`: `trim` with the ECMAScript white-space set, `length` in UTF-16 code units, and decimal rendering of integers with a reader for it.
- `Csv`: `join`, `split`, bare and escaped quoting, and a reader for quoted records.
- `Types`: the records exchanged with the server.

Inputs from outside the program are parameters:

- dates are integer timestamps;
- the current time and the calendar day of a timestamp are passed in;
- number and date rendering are opaque functions in `Types.Formats`, one per distinct rendering the source uses (`toString`, `toFixed(2)`, `toLocaleString()`, `toLocaleDateString()`, and the two `en-US` date formats of the bills and readings pages);
- the browser's local storage is a map;
- a network reply is a value, or a `Refused`/`Rejected` outcome carrying the server's error text.

## Model

| member | source | states |
|---|---|---|
| Types.ParseRoleName | src/types/index.ts:4 | Reading back a role's wire name gives the role. |
| Types.ParseStatusName | src/types/index.ts:77 | Reading back a bill status's wire name gives the status. |
| Navigation.Menu | src/components/SidebarLayout.tsx:35 | The role filter of the menu table. Its contract is stated by `MenuIsFilter` and `MenuSpec`. |
| Navigation.MenuIsFilter | src/components/SidebarLayout.tsx:35 | The menu is the generic filter with the "lists this role" test. |
| Navigation.MenuSpec | src/components/SidebarLayout.tsx:35 | The menu for a role holds exactly the table entries whose role list includes the role, each as often as the table holds it, in table order. |
| Navigation.VisibleItems | src/components/SidebarLayout.tsx:31-37 | The menu of the signed-in user, or nothing. Its contract is stated by `VisibleItemsSpec`. |
| Navigation.VisibleItemsSpec | src/components/SidebarLayout.tsx:31-37 | Without a signed-in role the menu is empty. Otherwise it holds exactly the entries listing the role, each as often as the table holds it, in table order. |
| Navigation.FindPath | src/components/SidebarLayout.tsx:53 | Finds the first entry whose path is the given path, or reports that none has it. |
| Navigation.PageTitle | src/components/SidebarLayout.tsx:52-55 | The title is the caption of the first entry for the current path, or "Dashboard" when no entry has that path. |
| Navigation.RoleColor | src/components/SidebarLayout.tsx:39-50 | Each role has its badge colour. Gray is returned exactly for strings that are not a role. |
| Navigation.RoleColorInjective | src/components/SidebarLayout.tsx:39-50 | Distinct roles get distinct badge colours. |
| Navigation.LayoutMatchesSidebar | src/components/Layout.tsx:20-30 | The older layout's menu offers every role the same paths, in the same order, as the sidebar. |
| Navigation.MenusPerRole | src/components/SidebarLayout.tsx:23-37 | An administrator sees all five pages. A technician sees the dashboard and readings. A landlord sees the dashboard and bills. |
| Navigation.DashboardVisibleToAll | src/components/SidebarLayout.tsx:24 | Every role's menu contains the dashboard. |
| Navigation.TitleIgnoresVisibility | src/components/SidebarLayout.tsx:52-55 | The title is looked up in the full table, not the visible menu. A path with no entry is titled "Dashboard". |
| Routes.RouteTable | src/App.tsx:17-60 | No path is declared twice, so the first route declared for a path is the only one. |
| Routes.LookupTable | src/App.tsx:17-60 | Gives the route declared for each of the seven paths, and none for any other path. |
| Routes.RouteTableFacts | src/App.tsx:18-59 | The guard admits each role to the pages listed in the route table. "/login" has no guard, and "/" redirects to the dashboard. |
| Routes.RoutesAgreeWithNavigation | src/App.tsx:19-58 | Every menu entry lists exactly the roles its route admits, and every guarded path has a menu entry. |
| Routes.GuardMatchesMenu | src/App.tsx:19-58 | A role passes a menu path's guard exactly when its sidebar shows an entry for that path. |
| Api.RequestHeaders | src/services/api.ts:26-32 | A request carries the content type. It carries "Bearer token" exactly when a non-empty token is stored, and the interceptor adds no other header. |
| Api.OnResponseError | src/services/api.ts:35-45 | A 401 removes the token and the stored user and redirects to /login. Any other failure changes nothing. The error is always passed on. |
| Api.UnauthorizedEndsSession | src/services/api.ts:26-45 | After a 401 no request carries a credential and the stored user is gone. Other stored keys are kept, and a second 401 changes nothing more. |
| Api.OtherErrorsKeepSession | src/services/api.ts:35-45 | A failure other than 401 leaves the next request's headers unchanged. |
| Api.MetersQuery | src/services/api.ts:87-88 | The landlord filter is sent exactly when a non-empty landlord id is given. |
| Api.LandlordFilterShared | src/services/api.ts:87-88 | The meters and bills lists carry the landlord filter under the same condition and with the same value. |
| Api.ReadingsQuery | src/services/api.ts:122-127 | A readings query always has page and limit. It has a meter id exactly when a non-empty one is given. |
| Api.BillsQuery | src/services/api.ts:154-160 | A bills query always has page and limit. It has status and landlord id each exactly when given non-empty. |
| Api.PagingRoundTrip | src/services/api.ts:122-127 | Page and limit read back as the numbers given, or as 1 and 20 when none are given, for page and limit values that are safe integers. |
| Api.ReadingsPage | src/services/api.ts:128-132 | The readings list is handed on under `data`, with the pagination untouched. |
| Api.BillsPage | src/services/api.ts:161-165 | The bills list is handed on under `data`, with the pagination untouched. |
| Api.ReadingForm | src/services/api.ts:140-149 | The create-reading body is the meter id, the reading's text and the photo file, in that order. |
| Wrappers.OrElse | src/pages/Bills.tsx:88 | `x || fallback` gives the value when it is present and non-empty, and the fallback otherwise. |
| Wrappers.AbsentToEmptyAfterEmptyToAbsent | src/pages/Meters.tsx:69-70 | Sending an empty field as absent loses nothing: reading it back gives the field. |
| Wrappers.EmptyToAbsentAfterAbsentToEmpty | src/pages/Meters.tsx:110-111 | Pre-filling and sending again keeps present non-empty values and drops empty ones. |
| Seqs.Filter | src/pages/Meters.tsx:51 | The filtered list is an ordered sub-list. It holds exactly the matching elements, each as often as in the input. |
| Seqs.Count | src/pages/Readings.tsx:141 | The count is the number of matching elements. It is 0 exactly when none match and the full length exactly when all do. |
| Seqs.FilterLength | src/pages/Readings.tsx:156-158 | The length of a filtered list is the number of matching elements. |
| Text.Trim | src/components/PaymentModal.tsx:43-45 | The trimmed text is the one slice of the input that is bounded by white space and neither starts nor ends with it. It is empty exactly when the input is all white space. |
| Text.TrimIgnoresPadding | src/components/PaymentModal.tsx:43-59 | White space added at either end does not change the trimmed text. |
| Text.TrimIdempotent | src/components/PaymentModal.tsx:59 | Trimming twice is trimming once. |
| Text.Utf16Length | src/components/PaymentModal.tsx:45 | `length` is between one and two units per character, and equals the character count for Basic Multilingual Plane text. |
| Text.DecimalRoundTrip | src/services/api.ts:125-126 | Reading back the decimal text of a safe integer (at most 2^53 - 1 in magnitude) gives the integer. |
| Csv.ReadEscapedRecords | src/pages/Bills.tsx:101-104 | Line-feed-joined escaped records read back as the records, whatever the cells hold. |
| Csv.ReadEscapedRecord | src/pages/Bills.tsx:103 | One escaped record, followed by the end of text or a line feed, reads back as its cells. |
| Csv.SplitJoin | src/pages/Bills.tsx:100-102 | Splitting on a separator gives back the joined parts when no part contains it. |
| Csv.QuotedIsEscapedWithoutQuotes | src/pages/Bills.tsx:103 | Bare quoting and escaping agree on cells without a double quote. |
| Bills.IsOverdue | src/pages/Bills.tsx:226-228 | A bill is flagged exactly when it is pending and its due date is before now. Paid and overdue bills are never flagged. |
| Bills.OverdueStaysOverdue | src/pages/Bills.tsx:226-228 | A flag, once raised, stays raised as time passes. No bill is flagged at its own due instant. |
| Bills.StatusColor | src/pages/Bills.tsx:213-224 | Each status has its badge colour. Gray is returned exactly for strings that are not a status. |
| Bills.StatusColorInjective | src/pages/Bills.tsx:213-224 | Distinct statuses get distinct badges. |
| Bills.OffersMarkPaid | src/pages/Bills.tsx:393 | "Mark Paid" is offered only to administrators, and to them exactly for bills that are not paid. |
| Bills.MarkPaidReachesOverdue | src/pages/Bills.tsx:553 | Overdue and pending bills can be marked paid by an administrator. Paid bills never can. Other roles are never offered it. |
| Bills.QuickActionsFor | src/pages/Bills.tsx:420-437 | Only administrators get the quick actions. Export is enabled exactly when bills are listed. |
| Bills.ActionsWithinGuard | src/pages/Bills.tsx:393 | Whoever is offered "Mark Paid" or the quick actions is admitted by the bills route. The landlord, also admitted, is offered neither. |
| Bills.StatusFilterParam | src/pages/Bills.tsx:32 | "All Bills" (the empty value) means no filter. Any other choice filters by itself. |
| Bills.AllBillsSendsNoStatus | src/pages/Bills.tsx:32 | The bills request carries a status exactly when one other than "All Bills" is chosen, and then carries that status. |
| Bills.Subtitle | src/pages/Bills.tsx:244-247 | Landlords read the "view your bills" subtitle. Everyone else reads the "manage" subtitle. |
| Bills.MarkPaidAlert | src/pages/Bills.tsx:52 | A failed "Mark Paid" shows the server's error, or a fixed text when the server sent none. |
| Bills.UpdateOverdueAlert | src/pages/Bills.tsx:72-76 | A failed overdue update shows the server's error, or a fixed text when the server sent none. |
| Bills.UpdateOverdueAlertCount | src/pages/Bills.tsx:72 | The success alert carries the updated count, which reads back exactly for any count up to 2^53 - 1. |
| Bills.BillSheet | src/pages/Bills.tsx:142-194 | The printable bill names the landlord or "N/A". The location line appears exactly for a non-empty location. "Paid on" appears exactly for paid bills with a paid date, in the page's `en-US` short-month date format. |
| Bills.SheetAgreesWithExport | src/pages/Bills.tsx:150 | The printable bill and the export agree on the customer. Two bills' files share a name exactly when their numbers match. |
| Bills.Cells | src/pages/Bills.tsx:84-97 | There are twelve cells per bill. A missing or empty landlord name reads "N/A". The paid date is its `toLocaleDateString()` text, or "N/A" when missing. The bill date falls back to the creation date. The number and status come from the bill. |
| Bills.AllCells | src/pages/Bills.tsx:84 | There is one row of cells per bill, in list order. |
| Bills.ExportCsv | src/pages/Bills.tsx:99-104 | The export as written. Its contract is stated by `ExportRoundTripWithoutQuotes`, `EmptyExport` and `QuoteBreaksExport`. |
| Bills.EscapedExportRoundTrip | src/pages/Bills.tsx:99-104 | Reading back the export with quotes escaped gives the headings and every bill's cells, whatever the cells hold. |
| Bills.ReadBack | src/pages/Bills.tsx:101-104 | A plain heading line followed by escaped records reads back as the headings and the records. |
| Bills.ExportRoundTripWithoutQuotes | src/pages/Bills.tsx:99-104 | The export as written reads back as the headings and every bill's cells when no cell contains a double quote. |
| Bills.EmptyExport | src/pages/Bills.tsx:100-104 | With no bills the export is empty: not even a heading line. |
| Bills.QuoteBreaksExport | src/pages/Bills.tsx:103 | A bill number containing a quote makes the export as written unreadable, while the escaped export still reads back. |
| Dashboard.Requests | src/pages/Dashboard.tsx:32-49 | Each role issues distinct requests. Users are fetched only for administrators. The summary is fetched for administrators and landlords, readings for administrators and technicians, and meters for every role. |
| Dashboard.Merge | src/pages/Dashboard.tsx:60-87 | The positional merge of the settled results. Its contract is stated by `MergeIsFold` and `MergeReadsOwnAnswer`. |
| Dashboard.MergeIsFold | src/pages/Dashboard.tsx:60-87 | Reading the results by position is the same as applying each result to the figure its request is for. |
| Dashboard.MergeReadsOwnAnswer | src/pages/Dashboard.tsx:60-87 | Each figure is its own request's count or summary when that request succeeded, and zero or absent when it failed. |
| Dashboard.UnrequestedStayInitial | src/pages/Dashboard.tsx:53-58 | Figures a role does not request keep their initial value. |
| Dashboard.AllRejectedGivesInitial | src/pages/Dashboard.tsx:51-87 | When every request fails, the initial figures are shown. |
| Dashboard.Cards | src/pages/Dashboard.tsx:121-279 | Administrators and landlords see four cards, technicians three, and no role sees none. |
| Dashboard.AdminCardsFromMerge | src/pages/Dashboard.tsx:121-177 | An administrator's cards show the merged user, meter and reading figures, and the summary's bill count or 0 when no summary arrived. |
| Dashboard.ReadingsAnswer | src/pages/Dashboard.tsx:70-72 | The readings figure is the length of the page the client hands on. |
| Dashboard.ReadingsFigureIsOnePage | src/pages/Dashboard.tsx:34-37 | The dashboard asks for 20 readings. With a server that honours that, the figure is at most 20, and it is wrong whenever more readings exist. |
| Dashboard.TotalCountsEveryReading | src/pages/Dashboard.tsx:154-156 | A figure read from the pagination total is the server's count, whatever the page size. |
| Dashboard.LandlordCardsFromSummary | src/pages/Dashboard.tsx:186-230 | A landlord's cards show the summary's paid, pending and total figures when the summary arrived, and zeros when it failed. |
| Dashboard.TechnicianTodayIsZero | src/pages/Dashboard.tsx:260-277 | A technician's "Today's Readings" is always zero. "My Readings" counts the readings reply. |
| Dashboard.QuickActions | src/pages/Dashboard.tsx:296-351 | The quick-action buttons of each role. Their contract is stated by `QuickActionsReachable`. |
| Dashboard.QuickActionsReachable | src/pages/Dashboard.tsx:296-351 | Every page a quick action opens admits the user's role. |
| Dashboard.Greeting | src/pages/Dashboard.tsx:106 | The greeting names the user, or gives their phone number when the name is missing or empty. |
| PaymentModal.ParseMethodName | src/components/PaymentModal.tsx:26 | Reading back a payment method's wire name gives the method. |
| PaymentModal.Validate | src/components/PaymentModal.tsx:36-51 | There are no errors exactly when the trimmed reference is at least three UTF-16 units. The message is "required" for a blank reference and "at least 3" otherwise. |
| PaymentModal.Submit | src/components/PaymentModal.tsx:53-62 | The caller receives the method and the trimmed reference exactly when there are no errors. |
| PaymentModal.ConfirmedReferenceIsClean | src/components/PaymentModal.tsx:53-62 | A confirmed reference is already trimmed, at least three units long, and valid again. |
| PaymentModal.PaddingIsIgnored | src/components/PaymentModal.tsx:43-59 | White space around the reference changes neither the errors nor the confirmation. |
| PaymentModal.BlankIsRequired | src/components/PaymentModal.tsx:43-44 | A blank reference reports "required" and is never submitted. |
| PaymentModal.AstralCharacterCountsTwice | src/components/PaymentModal.tsx:45 | A two-character reference with a character outside the Basic Multilingual Plane already passes the length rule. |
| PaymentModal.Close | src/components/PaymentModal.tsx:64-69 | Closing resets to M-Pesa, an empty reference and no errors. |
| PaymentModal.SubmitAfterClose | src/components/PaymentModal.tsx:64-69 | After closing, a submit is refused for a missing reference. Closing twice is closing once. |
| PaymentModal.Placeholder | src/components/PaymentModal.tsx:71-82 | Every placeholder is an example starting "e.g., ". |
| PaymentModal.Helper | src/components/PaymentModal.tsx:84-95 | Every hint is an instruction starting "Enter ". |
| PaymentModal.HintsPerMethod | src/components/PaymentModal.tsx:71-95 | Each method has its own placeholder and its own non-empty hint. |
| Readings.CanRecord | src/pages/Readings.tsx:113 | Recording is offered exactly to technicians and administrators. |
| Readings.RecordMatchesGuard | src/pages/Readings.tsx:113 | The roles offered recording are exactly the roles the readings route admits. |
| Readings.Subtitle | src/pages/Readings.tsx:107-110 | Technicians read the recording subtitle. Everyone else reads the viewing subtitle. |
| Readings.ActiveMeters | src/pages/Readings.tsx:141 | The count is the number of active meters. It is zero exactly when none is active. |
| Readings.TodayCount | src/pages/Readings.tsx:156-158 | The count is the number of readings dated on today's calendar day. |
| Readings.TodayCountAppend | src/pages/Readings.tsx:156-158 | A new reading adds one to today's count exactly when it is dated today. |
| Readings.MeterOptions | src/pages/Readings.tsx:85-88 | There is one picker entry per meter, in order, valued by the meter's id and captioned "number - plot (landlord name or phone)". |
| Readings.ChoosingPicksMeter | src/pages/Readings.tsx:85-88 | With distinct ids, the value of the i-th picker entry identifies the i-th meter: looking it up (`MeterById`, a reference lookup with no source counterpart) finds that meter. |
| Readings.PageReadingForm | src/pages/Readings.tsx:55-58 | The page's create body has three parts. `PageSendsNoPhoto` states how it differs from the client layer's. |
| Readings.PageSendsNoPhoto | src/pages/Readings.tsx:55-58 | The page's create request carries no file part. It agrees with the client layer's body on the other fields. |
| Readings.SuccessMessage | src/pages/Readings.tsx:62-68 | Every success message starts with "Reading recorded successfully!". It is only that exactly when no bill was raised, and otherwise names the bill's amount and units. |
| Readings.SuccessMessageNamesAmount | src/pages/Readings.tsx:62-65 | The bill's `toFixed(2)` amount reads back from the message. The plain message names no amount. |
| Readings.AfterSubmit | src/pages/Readings.tsx:48-76 | On success the form is cleared and the message shown. On failure the form is kept and the server's error, or a fixed text, is shown. |
| Readings.CloseDialog | src/pages/Readings.tsx:78-83 | Closing clears the form, the error and the message. |
| Readings.SubmitThenClose | src/pages/Readings.tsx:48-83 | After a submit exactly one of the error and the success message shows. Closing afterwards gives the same dialog whatever the outcome. |
| Readings.ReadingRow | src/pages/Readings.tsx:194-209 | Numbers are shown with `toLocaleString()` and the date in the page's date-and-time format. The previous reading shows "-" exactly when missing (or rendered empty or as "-"). Missing units show "0 kWh", and a missing technician name shows "Technician". |
| Meters.Landlords | src/pages/Meters.tsx:51 | The landlord list holds exactly the users whose role is landlord, each as often as the server listed it, in server order. |
| Meters.LandlordOptions | src/pages/Meters.tsx:155-158 | There is one picker entry per landlord, captioned "name (phone)" or "phone (phone)". |
| Meters.PickerOffersOnlyLandlords | src/pages/Meters.tsx:155-158 | Every id the picker offers belongs to a landlord. |
| Meters.CreatePayload | src/pages/Meters.tsx:65-71 | The create request carries the typed fields. Coordinates and location are absent exactly when left empty. |
| Meters.CreatePayloadRoundTrip | src/pages/Meters.tsx:65-71 | The create request loses nothing the form held. |
| Meters.AfterCreate | src/pages/Meters.tsx:59-87 | On success the dialog closes with a blank form. On failure it stays and shows the server's error or a fixed text. |
| Meters.CloseCreate | src/pages/Meters.tsx:89-99 | Closing discards the form and the error. |
| Meters.SavedIsClosed | src/pages/Meters.tsx:73-99 | A successful create leaves the dialog as closing it would. |
| Meters.EditPrefill | src/pages/Meters.tsx:106-115 | The editor starts from the meter's plot and flag. A missing or empty location or coordinate becomes an empty field. |
| Meters.UpdatePayload | src/pages/Meters.tsx:123-128 | The update always sends the plot and the flag. It sends location and coordinates exactly when non-empty. |
| Meters.EditSubmit | src/pages/Meters.tsx:117-128 | Nothing is sent when no meter is being edited. Otherwise the meter's id and the update are sent. |
| Meters.UnchangedEditSendsOwnValues | src/pages/Meters.tsx:106-128 | Saving the editor unchanged sends the meter's own values, leaving out empty ones. |
| Meters.ClearedLocationNotSent | src/pages/Meters.tsx:125 | Emptying a location sends the same request as for a meter without one. |
| Meters.AfterEdit | src/pages/Meters.tsx:117-137 | The editor closes on success and stays as it was on failure. |
| Meters.EditAlert | src/pages/Meters.tsx:133 | A failed update shows the server's error, or a fixed text when the server sent none. |
| Meters.CloseEditor | src/pages/Meters.tsx:139-148 | Closing forgets the meter and resets the form with the active box ticked. |
| Meters.ClosedEditorSendsNothing | src/pages/Meters.tsx:119 | A closed editor sends nothing. |
| Meters.MeterRow | src/pages/Meters.tsx:198-217 | A missing landlord name shows "No Name", a missing location shows "-", and missing counts show zero. |
| Meters.RowReflectsMeter | src/pages/Meters.tsx:206-217 | The status text and its colour follow the active flag, and the counts are the server's counts. |

## Left out

- The HTTP transport is not modelled: axios, base URL, JSON encoding, promise scheduling and loading spinners. A request is modelled by its headers, query or body; a reply by the value it resolves with or a failure outcome.
- The browser is not modelled: local storage (a map here), `window.location` (the redirect is a returned value), blob downloads, object URLs, and the date in the export's file name.
- Locale-dependent rendering is not modelled: `toLocaleString`, `toLocaleDateString`, `toFixed(2)` and the "KES" amount format are opaque functions. Parsing of date strings, invalid dates and `parseFloat` of the typed reading are left out; a reading is taken as an already parsed real number.
- The route guard component and the authentication context are not part of this model. A guarded route is taken to admit a signed-in user exactly when the role list is absent or contains the user's role.
- The login and user-management pages, the authentication and user API calls, the single-item `getById` calls and the UI kit are not modelled. The mark-paid, update-overdue and summary calls are modelled only by their outcomes, because they carry no client-side logic.
- The printable bill's HTML markup and styling are not modelled. Only its variable parts are: customer, location line, "Paid on" line and file name.
- The lower-casing of the landlord role in the meter details view is not modelled, because it is decoration.
- Layout.tsx:32-43 repeats the sidebar's role colours exactly, so `Navigation.RoleColor` models both.
- Dashboard.Merge: it requires one settled result per request, which `Promise.allSettled` guarantees. Its contract is given by `MergeIsFold` and `MergeReadsOwnAnswer` rather than on the function.
- Dashboard.Cards: the function itself states only how many cards each role sees. The figures are stated by `AdminCardsFromMerge`, `LandlordCardsFromSummary` and `TechnicianTodayIsZero`.
- Dashboard.ReadingsFigureIsOnePage: assumes the server answers with at most the requested number of readings; the server is not part of this model.
- Text.Decimal: renders every integer in plain decimal. JavaScript's `toString` agrees only up to 10^21, and a JavaScript number is exact only up to 2^53 - 1, so the round trip is claimed for safe integers only.
- Api.PagingRoundTrip: claimed only when the page and limit are safe integers, for the reason given for `Text.Decimal`.
- Bills.UpdateOverdueAlertCount: claimed only for counts up to 2^53 - 1, for the reason given for `Text.Decimal`.
- The payment method is always one of three choices, so the dialog's "payment method is required" branch cannot arise and has no model.
- The server's handling of an update that leaves a field out is not modelled. `Meters.ClearedLocationNotSent` shows only that an emptied location is not sent.

## Findings

| source | as written | input that shows it | evidently intended | confidence | as-written member | corrected member |
|---|---|---|---|---|---|---|
| src/pages/Bills.tsx:103 | Each export cell is wrapped in double quotes, but quotes inside the cell are not doubled. | A bill whose number is `Q"A` | Double embedded quotes, as section 2 of RFC 4180 asks, so that every cell reads back intact. | not executed | Bills.QuoteBreaksExport | Bills.EscapedExportRoundTrip |
| src/pages/Readings.tsx:55-58 | The page calls the create-reading API with only the meter id and the reading. The client layer then appends the missing photo, which `FormData` sends as the text "undefined". | Any reading submitted from the page | Attach the meter photo the client layer's create call expects as a file part. | not executed | Readings.PageSendsNoPhoto | Api.ReadingForm |
| src/pages/Dashboard.tsx:70-72 | "Total Readings" (and the technician's "My Readings", line 82) is the length of the list from `readingsAPI.getAll()`. That call asks for page 1 with the default limit of 20, so the figure counts one page. | Any system holding more than 20 readings, for example 25: the card shows at most 20 | Read the count from the reply's `pagination.total`, which the same reply already carries. | not executed | Dashboard.ReadingsFigureIsOnePage | Dashboard.TotalCountsEveryReading |
