# MOC Studio rules, modelled in Dafny

MOC Studio is a React dashboard for Management of Change (MOC) requests on
offshore facilities. Most of it renders screens. This project models the parts
that decide something, and proves what they promise:

- **Risk matrix** (`components/RiskMatrix.tsx`):
  - the 5×5 probability × severity grid;
  - the threshold cascade (15, 8, 4) behind each cell's colour and label;
  - the score, grade and required sign-off written into the exported report;
  - the report's file name, which is proved to read back to the score and the clock reading;
  - the export button's state: the report uses the selection captured at the click.
- **Application shell** (`App.tsx`):
  - the route guard: spinner, then expired session, then missing user or token, then role list with the Admin override;
  - the route table;
  - the sidebar filter and its highlight test;
  - the header breadcrumb;
  - the session check, login, logout and theme switch, as a class whose methods update the state step by step.
- **Help centre** (`components/HelpCenter.tsx`):
  - the case-blind search over articles, standards and links;
  - the icon lookup with its default;
  - the link-management permission;
  - the two edit dialogs: new-record defaults, required-field guards, and the save protocol (a class).
- **Types and seed data** (`types.ts`, `constants.ts`):
  - the role, status and risk-level enumerations;
  - the seed facilities, users, assets, MOCs and work orders, and the integrity that holds between them;
  - the status badge and risk-level colour tables.

Module `Js` models the JavaScript built-ins this logic relies on, as pure
functions over Dafny values: truthiness, `filter`, `find`, `includes`,
`toLowerCase`/`toUpperCase`, `trim`, `indexOf`, `split`, `replace` with a
string pattern, and decimal rendering.

Findings about the program that are proved here:
- `canManageLinks` compares the user's role with `'Manager'` and `'Auditor'`. Neither is a role value, and Admin is not exempted, so no user can manage links (`HelpCenter.NobodyManagesLinks`).
- The risk-level colour table agrees with the matrix's band colours except for "Médio": the table uses `bg-yellow-400`, the matrix `bg-yellow-500` (`Constants.RiskLevelColorsVersusMatrix`).
- The sidebar shows "Unidades" to a maintenance technician, whom the `/facilities` route then refuses (`App.ShownEntryCanBeRefused`). The converse holds: every entry the sidebar hides is a page the guard would refuse (`App.HiddenEntriesAreRefused`).
- The breadcrumb expression `location.pathname.split('/')[1]` would throw on a location without any "/". In the app as routed this cannot happen, because every pathname React Router hands over starts with "/". `App.Breadcrumb` returns `None` for such a location, and `App.BreadcrumbOfSegment` covers the locations that do occur.
- A role list that is given but empty is truthy, so it admits Admin only.

`RegulatoryStandard` and `UsefulLink` are imported from `types.ts`, but the
`types.ts` at hand does not declare them. Their fields are taken from their
uses in `components/HelpCenter.tsx`. `label` is a reserved word in Dafny, so
the link's label is the field `caption`.

## Model

| member | source | states |
|---|---|---|
| Js.Filter | App.tsx:120 | `s.filter(keep)` keeps, in order, exactly the elements satisfying `keep`, each as often as in `s`; it is a subsequence, no longer than `s` |
| Js.FilterKeepsAll | components/HelpCenter.tsx:84 | filtering with a predicate every element satisfies returns the list unchanged |
| Js.Find | components/HelpCenter.tsx:54 | `find` returns nothing exactly when no element satisfies the predicate, and otherwise the element at the first index that does |
| Js.Includes | components/HelpCenter.tsx:87 | `includes` holds exactly when the needle occurs at some index of the text |
| Js.ToLower | components/HelpCenter.tsx:85 | lower-casing keeps the length and leaves no capital letter; each capital becomes the letter 32 code points later, and every other character is kept |
| Js.ToLowerIdempotent | components/HelpCenter.tsx:85 | lower-casing twice is lower-casing once |
| Js.ToUpper | components/HelpCenter.tsx:779 | upper-casing keeps the length and leaves no small letter; each small letter becomes the letter 32 code points earlier, and every other character is kept |
| Js.LowerOfUpper | components/HelpCenter.tsx:779 | lower-casing an upper-cased text gives the lower-cased original |
| Js.LowerKeepsBlank | components/HelpCenter.tsx:84-85 | a term is blank exactly when its lower-cased form is blank |
| Js.TrimStart | components/HelpCenter.tsx:84 | the result is a suffix of the input, only white space was dropped, and it does not start with white space |
| Js.TrimEnd | components/HelpCenter.tsx:84 | the result is a prefix of the input, only white space was dropped, and it does not end with white space |
| Js.TrimEmptyIffBlank | components/HelpCenter.tsx:84 | `!s.trim()` holds exactly when `s` is empty or white space only |
| Js.IndexOf | App.tsx:148 | `indexOf` is absent exactly when the character is absent, and otherwise is its first index |
| Js.SplitSecond | App.tsx:148 | `split(sep)[1]` is undefined exactly when `sep` is absent, and never contains `sep` |
| Js.SplitSecondOf | App.tsx:148 | the second field of `a/b` and of `a/b/c` is `b` |
| Js.ReplaceFirst | App.tsx:148 | `replace` with a string pattern changes only the first occurrence, character by character |
| Js.NatToString | components/RiskMatrix.tsx:82 | the rendering of a number is a non-empty run of digits without a leading zero |
| Js.ParseNatToString | components/RiskMatrix.tsx:82 | reading back a number's rendering gives the number |
| Js.NatToStringInjective | components/RiskMatrix.tsx:82 | distinct numbers render differently |
| Js.DigitSpan | components/RiskMatrix.tsx:82 | the leading digit run is all digits and ends at the text's end or at a non-digit |
| Js.DigitSpanOfRendering | components/RiskMatrix.tsx:82 | a rendered number followed by a non-digit is read as exactly that digit run |
| Types.RolesEnumerated | types.ts:2-9 | `UserRole` has exactly six distinct members, Admin among them, with distinct string values |
| Types.StatusesEnumerated | types.ts:11-20 | `MOCStatus` has exactly eight distinct members, with distinct Portuguese labels |
| Types.RiskLevelsEnumerated | types.ts:22-27 | `RiskLevel` has exactly four members (Baixo, Médio, Alto, Crítico), with distinct labels |
| Types.HistoryKindValuesDistinct | types.ts:54 | the four history-entry kinds have distinct string values |
| RiskMatrix.AssessmentOnGrid | types.ts:105-112 | a risk assessment whose probability and severity lie in 1..5 names a cell of the grid, with a score in 1..25 |
| RiskMatrix.ProductBounds | components/RiskMatrix.tsx:15 | a product of two factors in 1..5 lies in 1..25, and the product is symmetric |
| RiskMatrix.Score | components/RiskMatrix.tsx:154 | a grid cell's score lies in 1..25 |
| RiskMatrix.TierOf | components/RiskMatrix.tsx:23-27 | the cascade picks a band whose lower bound the score reaches, and no higher band is reached |
| RiskMatrix.TierMonotone | components/RiskMatrix.tsx:23-27 | a higher score never gets a lower band |
| RiskMatrix.RiskLevelLabel | components/RiskMatrix.tsx:22-28 | on the grid: extreme exactly for 15..25, high for 8..14, medium for 4..7, low for 1..3 (boundaries in the higher band) |
| RiskMatrix.LabelSymmetric | components/RiskMatrix.tsx:14-28 | swapping probability and severity changes neither label nor colour |
| RiskMatrix.LabelMonotoneInFactors | components/RiskMatrix.tsx:22-28 | raising either factor never lowers the band |
| RiskMatrix.TierColorsDistinct | components/RiskMatrix.tsx:16-19 | the four band colours differ, so a colour names one band |
| RiskMatrix.RiskColor | components/RiskMatrix.tsx:14-20 | `getRiskColor`'s own cascade always gives the colour of the band the label names |
| RiskMatrix.ColorIdentifiesBand | components/RiskMatrix.tsx:14-28 | two cells have the same colour exactly when they have the same label |
| RiskMatrix.RequiredSignOff | components/RiskMatrix.tsx:65-69 | extreme band: dual approval; high band: peer review; every other band and no selection: standard clearance |
| RiskMatrix.SignOffTextInjective | components/RiskMatrix.tsx:66-69 | the three sign-off lines differ, so the line written identifies the sign-off |
| RiskMatrix.ReportSignOffAgrees | components/RiskMatrix.tsx:65-69 | with no selection the report asks for standard clearance; with one, it asks for dual approval exactly when the cell is extreme and for peer review exactly when it is high |
| RiskMatrix.ReportScore | components/RiskMatrix.tsx:39 | "N/A" exactly when nothing is selected, otherwise digits that read back to the cell's score |
| RiskMatrix.ReportGrade | components/RiskMatrix.tsx:40 | "Global Overview" exactly when nothing is selected, otherwise the cell's band |
| RiskMatrix.BuildReport | components/RiskMatrix.tsx:38-69 | the report carries the given timestamp; parameters are present exactly with a selection, and then hold the cell's probability, severity, score and band; the sign-off line is the one the selection requires; the author is the user's name, or "System Administrator" with no user or an empty name; the role is the user's role value, or "Engineer" with no user; neither line is empty |
| RiskMatrix.ExportFileName | components/RiskMatrix.tsx:82 | every export file name starts with `MOC_Risk_Report_` and ends with `.txt` |
| RiskMatrix.MillisRoundTrip | components/RiskMatrix.tsx:82 | the clock part `<millis>.txt` reads back to the clock reading |
| RiskMatrix.GlobalFileNameRoundTrip | components/RiskMatrix.tsx:82 | a `..._Global_<millis>.txt` name reads back as global with that clock reading |
| RiskMatrix.ScoreFileNameRoundTrip | components/RiskMatrix.tsx:82 | a `..._Score_<n>_<millis>.txt` name reads back to the score and the clock reading |
| RiskMatrix.ExportFileNameRoundTrip | components/RiskMatrix.tsx:82 | every export file name reads back to the selection's score (or global) and the clock reading |
| RiskMatrix.Row | components/RiskMatrix.tsx:144 | one row of the grid holds the cells of that probability, one per severity, in order |
| RiskMatrix.GridAt | components/RiskMatrix.tsx:143-144 | the grid has 25 cells, and position k holds probability 5 − k div 5 and severity k mod 5 + 1 |
| RiskMatrix.RowsAt | components/RiskMatrix.tsx:143-144 | the rows laid end to end hold the cell of row i, column j at position i·width + j |
| RiskMatrix.GridEnumeratesEachCellOnce | components/RiskMatrix.tsx:143-154 | the grid has 25 cells, probability 5 down to 1 and severity 1 up to 5, holds every cell with both factors in 1..5, each once |
| RiskMatrix.AssessmentDetails | components/RiskMatrix.tsx:172-186 | details shown exactly with a selection; they show the selected cell's score, band and colour, and the colour is the colour of the band |
| RiskMatrix.QuoteIgnoresSelection | components/RiskMatrix.tsx:181-186 | the quoted guidance is the same whichever cell is selected |
| RiskMatrix.RiskMatrixView.constructor | components/RiskMatrix.tsx:10-12 | nothing selected, not exporting, status idle |
| RiskMatrix.RiskMatrixView.Select | components/RiskMatrix.tsx:147 | clicking a grid cell selects it |
| RiskMatrix.RiskMatrixView.StartExport | components/RiskMatrix.tsx:30-32 | a click while idle starts an export with idle status and captures the current selection and the signed-in user of that render; a click during an export changes nothing |
| RiskMatrix.RiskMatrixView.CompleteExport | components/RiskMatrix.tsx:37-89 | appends one download, named and built from the captured selection and user, then ends the export with success |
| RiskMatrix.RiskMatrixView.ResetExportStatus | components/RiskMatrix.tsx:92 | the success icon goes back to idle, and the view's invariant is kept |
| App.ProtectedRoute | App.tsx:59-90 | spinner while loading; then the expired-login redirect; then the login redirect with no user or an empty token; renders exactly when signed in and no list is given, the role is listed, or the role is Admin; otherwise the restricted screen names a non-Admin role |
| App.RoleRule | App.tsx:72 | for a signed-in user the page renders exactly when no list is given, the role is listed or the role is Admin, and is otherwise restricted |
| App.RouteFor | App.tsx:244-257 | every role list contains Admin, and the catch-all route goes to "/" |
| App.Open | App.tsx:244-257 | a page is shown without the guard exactly on `/login` and `/forgot-password`; a guarded page renders only for a signed-in session, and shows the spinner while loading |
| App.AdminOnlyPages | App.tsx:255-256 | `/users` and `/audit` render for a signed-in user exactly when the user is Admin |
| App.UnrestrictedPages | App.tsx:247-254 | `/` and `/standards` render for every signed-in user |
| App.AdminReachesEveryPage | App.tsx:244-257 | a signed-in Admin gets every guarded page |
| App.UnknownPathsGoHome | App.tsx:257 | a path outside the table redirects home, whoever asks |
| App.VisibleMenu | App.tsx:120 | the sidebar keeps, in menu order, exactly the entries without a role, with the user's role, or all of them for Admin |
| App.MenuTable | App.tsx:98-108 | nine entries; exactly `/users` and `/audit` carry a role, and it is Admin; no two non-root paths share their first three characters |
| App.ShownToNonAdmin | App.tsx:120 | what a non-Admin (or nobody) sees is a menu entry without a role |
| App.NonAdminMenuHidesAdminPages | App.tsx:106-120 | a non-Admin user or a visitor never sees `/users` or `/audit` |
| App.AdminSeesWholeMenu | App.tsx:120 | Admin sees the whole menu, in order |
| App.HiddenEntry | App.tsx:120 | an entry missing from the sidebar is an Admin entry, shown to a non-Admin |
| App.HiddenEntriesAreRefused | App.tsx:106-120 | every entry hidden from a signed-in user leads to a page that refuses that user |
| App.FacilitiesEntryShown | App.tsx:100 | every user sees the "Unidades" entry |
| App.FacilitiesRefusesTechnician | App.tsx:248 | the facilities page restricts a maintenance technician |
| App.ShownEntryCanBeRefused | App.tsx:248 | a technician sees "Unidades" in the sidebar yet is refused on `/facilities` |
| App.IsActive | App.tsx:125 | "/" is active only on "/"; any other entry is active exactly when the location starts with its path |
| App.PrefixesOfOnePath | App.tsx:125 | two prefixes of one location are prefixes of each other |
| App.AtMostOneActive | App.tsx:98-125 | whatever the location, at most one sidebar entry is highlighted |
| App.Breadcrumb | App.tsx:148 | "/" gives "Dashboard"; otherwise a result exists exactly when the location has a "/", and it is a single segment |
| App.BreadcrumbOfSegment | App.tsx:148 | on `/segment` and `/segment/rest` the breadcrumb is the segment with only its first "-" turned into a space |
| App.SessionCheck | App.tsx:180-207 | nothing happens exactly without a saved token and user; the session is kept exactly when the token validates; a renewal carries what the refresh returned; expiry only without a refresh token or with a rejected refresh |
| App.CheckedState | App.tsx:180-207 | after the check loading has ended; the session is flagged expired exactly after an expiry, or when nothing was saved and it already was; an expiry clears user and token; a renewal installs the refreshed user and token, a kept session the saved ones, and a check with nothing saved keeps the previous ones |
| App.GuardAfterSessionCheck | App.tsx:180-207 | after the check the guard never spins; an expired session goes to the expired-login page; a kept one renders or is role-restricted |
| App.AppState.constructor | App.tsx:173-178 | loading, no session, and the theme read from the saved choice |
| App.AppState.HandleLogout | App.tsx:227-232 | no user, no token, not expired |
| App.AppState.HandleLogin | App.tsx:220-225 | on success user and token come from the login answer and the session is not expired; on failure nothing changes |
| App.AppState.CheckSession | App.tsx:180-207 | the new state is the state `SessionCheck`'s branch prescribes, loading ends, the theme invariant holds |
| App.AppState.ToggleTheme | App.tsx:234-238 | the theme flips, and the saved choice becomes "dark" or "light" to match |
| HelpCenter.KnowledgeBaseIds | components/HelpCenter.tsx:29-35 | five articles with distinct ids |
| HelpCenter.Search | components/HelpCenter.tsx:83-110 | a blank term returns the list unchanged; otherwise exactly the items with a field containing the lower-cased term, in order, as a subsequence, each as often as in the list |
| HelpCenter.SearchIgnoresCase | components/HelpCenter.tsx:85 | searching for a term and for its lower-cased form gives the same list |
| HelpCenter.NarrowingSearch | components/HelpCenter.tsx:83-110 | extending a non-blank term never finds more |
| HelpCenter.IncludesPrefix | components/HelpCenter.tsx:87 | a text containing `q + more` contains `q` |
| HelpCenter.FilteredArticles | components/HelpCenter.tsx:83-91 | the knowledge base when blank; otherwise exactly the articles whose title, content or category contains the lower-cased term, each as often as in the knowledge base |
| HelpCenter.FilteredStandards | components/HelpCenter.tsx:93-101 | the standards when blank; otherwise exactly those whose code, title or description contains the lower-cased term, each as often as in the list |
| HelpCenter.FilteredLinks | components/HelpCenter.tsx:103-110 | the links when blank; otherwise exactly those whose label or URL contains the lower-cased term, each as often as in the list |
| HelpCenter.UpperCasedCodesStillFound | components/HelpCenter.tsx:779 | storing a code upper-cased does not change whether a search finds the standard |
| HelpCenter.IconOptionsComplete | components/HelpCenter.tsx:37-51 | every icon is offered, under a name of its own |
| HelpCenter.GetIconByName | components/HelpCenter.tsx:53-56 | the icon named `name`, or the link icon when no option has that name |
| HelpCenter.IconNameRoundTrip | components/HelpCenter.tsx:53-56 | looking up an icon's own name gives that icon |
| HelpCenter.NobodyManagesLinks | components/HelpCenter.tsx:70 | `canManageLinks` is false for every user and for no user |
| HelpCenter.NewStandardSavable | components/HelpCenter.tsx:155 | a new standard passes the handler's guard exactly when a code and a title have been typed, whatever its status and description |
| HelpCenter.FormFilledPassesGuard | components/HelpCenter.tsx:772-815 | a standard form the browser submits (code, title and description filled, as `required` demands) always passes the handler's guard; of the drafts the guard accepts, the browser holds back exactly those without a description |
| HelpCenter.NewStandardSubmittable | components/HelpCenter.tsx:772-815 | a new standard is submitted exactly when a code, a title and a description have been typed, whatever its status |
| HelpCenter.NewLinkSavable | components/HelpCenter.tsx:197 | a new link passes the save guard exactly when a label and a URL have been typed, whatever its icon |
| HelpCenter.NewStandard | components/HelpCenter.tsx:142-148 | id "S" followed by the clock reading; empty code, title and description; status "Active"; it cannot be saved as it is |
| HelpCenter.NewLink | components/HelpCenter.tsx:185-190 | id "L" followed by the clock reading; empty label and URL; the "Link" icon; it cannot be saved as it is |
| HelpCenter.SidebarLinks | components/HelpCenter.tsx:721 | a prefix of the links, five long or the whole list when shorter |
| HelpCenter.HelpCenterPanel.constructor | components/HelpCenter.tsx:73-80 | both dialogs closed, no drafts, not saving |
| HelpCenter.HelpCenterPanel.OpenStandardModal | components/HelpCenter.tsx:138-151 | the draft is a copy of the chosen standard or a new one, and the dialog opens |
| HelpCenter.HelpCenterPanel.EditStandardCode | components/HelpCenter.tsx:779 | the typed code is stored upper-cased, the rest of the draft unchanged; only while the dialog is open, whose draft the panel's invariant supplies |
| HelpCenter.HelpCenterPanel.EditStandardStatus | components/HelpCenter.tsx:788 | the chosen status is stored; only while the dialog is open, whose draft the panel's invariant supplies |
| HelpCenter.HelpCenterPanel.EditStandardTitle | components/HelpCenter.tsx:803 | the typed title is stored; only while the dialog is open, whose draft the panel's invariant supplies |
| HelpCenter.HelpCenterPanel.EditStandardDesc | components/HelpCenter.tsx:815 | the typed description is stored; only while the dialog is open, whose draft the panel's invariant supplies |
| HelpCenter.HelpCenterPanel.CloseStandardModal | components/HelpCenter.tsx:831 | the dialog closes; the panel's invariant is kept |
| HelpCenter.HelpCenterPanel.SaveStandard | components/HelpCenter.tsx:153-169 | submits exactly when the browser's required fields (code, title, description) are filled, and what it submits passes the handler's code-and-title guard; a successful save closes the dialog and a failed one leaves it open, with the saving flag cleared; otherwise nothing changes |
| HelpCenter.HelpCenterPanel.OpenLinkModal | components/HelpCenter.tsx:181-193 | the draft is a copy of the chosen link or a new one, and the dialog opens |
| HelpCenter.HelpCenterPanel.EditLinkLabel | components/HelpCenter.tsx:876 | the typed label is stored; only while the dialog is open, whose draft the panel's invariant supplies |
| HelpCenter.HelpCenterPanel.EditLinkUrl | components/HelpCenter.tsx:887 | the typed URL is stored; only while the dialog is open, whose draft the panel's invariant supplies |
| HelpCenter.HelpCenterPanel.ChooseLinkIcon | components/HelpCenter.tsx:900 | the chosen icon's name is stored, and the lookup maps it back to that icon; only while the dialog is open, whose draft the panel's invariant supplies |
| HelpCenter.HelpCenterPanel.CloseLinkModal | components/HelpCenter.tsx:924 | the dialog closes; the panel's invariant is kept |
| HelpCenter.HelpCenterPanel.SaveLink | components/HelpCenter.tsx:195-211 | submits exactly when label and URL are present; the dialog closes only on success, the saving flag ends cleared; otherwise nothing changes |
| Constants.SeedIdsUnique | constants.ts:5-196 | ids are unique within each seed array |
| Constants.FacilityIdList | constants.ts:5-9 | the seed facilities are "1", "2", "3" |
| Constants.UserIdList | constants.ts:12-16 | the seed users are "1", "2", "3" |
| Constants.MocIdList | constants.ts:59-165 | the seed MOCs are MOC-24-001 to MOC-24-004 |
| Constants.FacilityReferences | constants.ts:19-165 | every seed asset and seed MOC names a seed facility |
| Constants.UserReferences | constants.ts:12-165 | every requester is a seed user, and every history entry names a seed user under that user's name |
| Constants.WorkOrderReferences | constants.ts:168-196 | every seed work order's MOC id is empty or a seed MOC's |
| Constants.Moc001Timestamps | constants.ts:78-87 | the first MOC's status change comes after its opening |
| Constants.SeedHistoriesNewestFirst | constants.ts:59-165 | every seed history is newest first and `updatedAt` is its newest entry's time |
| Constants.HeadAnnounces | constants.ts:72-80 | a history that opens with a status change announcing the status satisfies the announcement rule |
| Constants.SeedStatusChangesAnnounceStatus | constants.ts:59-165 | in each seed MOC the newest status change reads "Alteração de Status para: " and the MOC's status |
| Constants.MocStatusColorsDistinct | constants.ts:198-207 | every status has a badge, and no two statuses share one |
| Constants.RiskLevelColorsVersusMatrix | constants.ts:209-214 | a level's colour is the matrix colour of its band exactly when the level is not "Médio" |

## Left out

- The AI search (`handleAiSearch`), the clipboard copy and its notification: a foreign network service and browser APIs.
- The Blob, anchor and object-URL download steps of the export: the model records the download as a file name and a report.
- The report's random hash, `Date.now()` and `toISOString()`: the clock readings are parameters, and the hash is not modelled.
- The delays (`setTimeout` before the export, and the resets of the success and copied icons): each is one step or a separate method.
- The 30-second session polling: the session check is one synchronous step.
- The `localStorage` reads and the token service (`validateToken`, `refreshToken`, `login`): they are parameters. The theme write is the field `storedTheme`.
- The application context's save and delete of standards and links, its notifications, and `startEmergencyMOC`: that code is not part of this model.
- The MOC status-transition engine and the audit ledger: they are not part of this model, and no transition rule is invented.
- The translated texts: the risk label is its band (`RiskMatrix.Tier`), not the localised string.
- Unicode: case mapping and white space are ASCII only.
- The CSS `capitalize` on the breadcrumb, the user-role display with `replace('_', ' ')`, and all layout.
- The static pages, the tabs, the workflow steps and the video list of the help centre.
- App.AppState.HandleLogout: the call to `api.logout()` is not modelled. The `api` module is not part of this model, so whatever it clears in `localStorage` or on a server is left out. Only the component state it resets is modelled.
- App.SessionCheck: the saved user is taken as already parsed. A stored user that `JSON.parse` rejects is not modelled.
- App.AppState.HandleLogin: a rejected login raises an error in the caller. Here it returns `false` and changes nothing.
- App.RouteFor: the route table matches the exact path. React Router's case-insensitive matching and its tolerance of a trailing slash are not modelled.
- RiskMatrix.BuildReport: only the report's fields are modelled. The text layout, the upper-cased grade and the hash are not.
- RiskMatrix.RiskMatrixView.CompleteExport: the error branch (`catch`) is not modelled, because nothing in the modelled steps can fail.
- HelpCenter.HelpCenterPanel.SaveStandard: the awaited save is one step with its outcome as a parameter. The success notification is not modelled.
- HelpCenter.HelpCenterPanel.SaveLink: the same as for standards.
