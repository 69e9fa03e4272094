# Trip planner: routes, budget and route import, modelled in Dafny

This project models the in-memory logic of a browser trip planner. The
logic comes from `app.js` and the React budget component
`src/components/BudgetTracker.js`. The model covers three parts.

- **The route editor of `app.js`.** The application state holds a list of
  routes and a pointer to the route being edited. Each route has an ordered
  list of waypoints and two derived fields: a distance of 30 per waypoint
  and a duration of half an hour per waypoint, rounded up. The operations
  are:
  - selecting, creating and deleting a route;
  - appending, editing and deleting waypoints;
  - drag-and-drop reordering by two splices;
  - the "optimizer", which shuffles the waypoints between the first and the
    last;
  - recomputing the derived fields.
- **The budget ledger.**
  - In `app.js`: spending categories with a ceiling and a running spent
    total, the expense form's guard, the category ceiling prompt's guard,
    the per-category percentage, remainder and status band, and the
    summary totals.
  - In `BudgetTracker.js`: one overall budget, a list of expenses, the form
    that adds them, and the derived figures. These are the total spent,
    the remainder, the progress percentage with its coloured bar, and the
    per-category totals of the pie chart.
- **The route import of `app.js`.** This covers the accept check on
  uploads, the parser chosen for each file extension, what the GPX and KML
  parsers do with each match of their regular expression, and the defaults
  `tryImportRoute` fills in.

Modules:

| module | file | contents |
|---|---|---|
| `Common` | common.dfy | JavaScript semantics the code relies on: numbers with Infinity and NaN, `trim`, `endsWith`, `toLowerCase`, `split`, `findIndex`, `filter` |
| `Waypoints` | waypoints.dfy | the waypoint record and the pure list operations on a route's waypoints |
| `Routes` | routes.dfy | `Route` and `Store` classes (the route part of the application state) and the shuffle loop |
| `Bands`, `Budget` | budget.dfy | the status bands and the `app.js` ledger (`Ledger` class) |
| `Tracker` | tracker.dfy | the React budget component (`BudgetTracker` class) |
| `Import` | import.dfy | accept check, dispatch, the GPX and KML loops, `tryImportRoute` |

State the source updates in place is modelled as classes:
- A route is an object. The current-route pointer is one of the listed
  routes, so an edit made through it shows in the list.
- The route list, the category list, the expense lists and the form are
  fields that the methods reassign.

Loops in the source are methods with loop invariants:
- the shuffle, proved to permute the array;
- the GPX and KML parsing loops and the per-category accumulation of
  `getExpensesByCategory`, each proved equal to a specification function.

Other inputs become parameters:
- The user's answers to `confirm` and `prompt`.
- The draws of `Math.random`. The shuffle picks an arbitrary index in
  `[0, i]`.
- Identifiers from `generateId` and `Date.now`.
- Dates.
- `parseFloat`.
- What `JSON.parse` and the regular expressions make of a file.

## Model

| member | source | states |
|---|---|---|
| Common.Divide | app.js:562 | `a / b` is finite exactly when `b != 0`, and then times `b` gives back `a`; over zero a positive `a` gives +Infinity, a negative one -Infinity, and `0 / 0` (only it) gives NaN |
| Common.Min | app.js:562 | `Math.min(x, m)` is `x` when `x <= m`, is `m` when `x` is above `m` or +Infinity, keeps -Infinity, and is NaN exactly when `x` is NaN |
| Common.TrimStartRemovesPrefix | app.js:209 | removing leading white space removes a white-space prefix, all of it, and leaves a string that does not start with white space |
| Common.TrimEndRemovesSuffix | app.js:209 | removing trailing white space removes a white-space suffix, all of it, and leaves a string that does not end with white space |
| Common.Trim | app.js:209 | `trim()`, characterised by `TrimIsCore` below: the slice between the leading and trailing white-space runs |
| Common.TrimIsCore | app.js:209 | `trim()` returns the slice of the input between two white-space runs; it is empty exactly when the input is all white space, and otherwise neither starts nor ends with white space |
| Common.EndsWithAfterLower | app.js:793-796 | a name ending with a suffix still ends, once lower-cased, with the lower-cased suffix |
| Common.Split | app.js:907 | `split` always returns at least one field |
| Common.JoinSplit | app.js:907 | joining the fields of `split(',')` with `,` gives back the string, so nothing is lost |
| Common.SplitFields | app.js:907-908 | no field holds the separator, and there is one field more than there are separators |
| Common.FindIndex | app.js:404-405 | `findIndex` returns -1 exactly when no element matches, and otherwise the first matching position |
| Common.Filter | app.js:312 | `filter` keeps only elements that satisfy the predicate, and keeps every one that does |
| Common.FilterAppend | app.js:312 | filtering keeps order: it distributes over concatenation |
| Common.FilterPartition | app.js:312 | the kept and the dropped elements together are the input, counted with multiplicity |
| Common.FilterSnoc | app.js:312 | filtering a list with one more element at the end adds that element exactly when it passes |
| Common.FilterKeepsAll | app.js:312 | a filter that every element passes returns the list unchanged |
| Waypoints.SpliceOut | app.js:408 | `splice(i, 1)` shortens the list by one and removes exactly the element at `i` |
| Waypoints.SpliceIn | app.js:409 | `splice(i, 0, x)` lengthens the list by one, puts `x` at `i`, and adds exactly `x` |
| Waypoints.Reordered | app.js:402-409 | reordering keeps the length and is a permutation |
| Waypoints.ReorderOntoItselfIsNoOp | app.js:404-409 | dropping a waypoint onto itself leaves the list unchanged |
| Waypoints.ReorderMovesOne | app.js:404-409 | with both identifiers present, the dragged waypoint lands at the target's index from before the removal, and the other waypoints keep their relative order |
| Waypoints.ReorderPlacement | app.js:404-409 | a waypoint dragged backwards lands just before the target; one dragged forwards lands just after it |
| Waypoints.MovePlacement | app.js:408-409 | moving index `d` to index `t` by the two splices puts the moved element at `t`, with the old `t`-th element just after it when moving backwards and just before it when moving forwards |
| Waypoints.SpliceOutUndoesSpliceIn | app.js:408-409 | taking out what was just inserted at `i` gives the list back |
| Waypoints.InteriorShuffleIsPermutation | app.js:342-352 | a list whose first and last waypoints are fixed and whose interior is permuted is a permutation of the original |
| Waypoints.DeleteByIdKeepsOthers | app.js:312 | deleting by identifier removes every waypoint with it and keeps every other one; an absent identifier changes nothing |
| Waypoints.DeleteByIdKeepsOrder | app.js:312 | deleting by identifier keeps the remaining waypoints in their original order |
| Waypoints.Edited | app.js:290-293 | editing changes only the name and notes of the one waypoint; its identifier, coordinates and position and all other waypoints stay as they were |
| Waypoints.HoursForIsHalfRoundedUp | app.js:363-365 | `Math.ceil(n * 0.5)` is `(n + 1) / 2`, the least number of hours `h` with `2h >= n` |
| Routes.Route.constructor | app.js:215-221 | a new route holds exactly the given identifier, name, waypoints, distance and duration |
| Routes.Shuffle | app.js:347-350 | the descending swap loop permutes the array, whatever index each draw picks |
| Routes.Store.constructor | app.js:2-9 | the application starts with no routes and no current route |
| Routes.Store.Loaded | app.js:76-90 | after loading, the store holds exactly the loaded routes; the first of them is current when there is one (app.js:999-1002), and none otherwise |
| Routes.Store.SelectRoute | app.js:152-165 | the first route with the identifier becomes current; an unknown identifier clears the selection |
| Routes.Store.SaveNewRoute | app.js:208-231 | a blank name changes nothing; otherwise exactly one new empty route is appended with the trimmed name, distance 0 and duration "0 minutes", and a route with its identifier becomes current (the new one if the identifier was unused) |
| Routes.Store.DeleteCurrentRoute | app.js:321-333 | without a current route or without confirmation nothing changes; otherwise every route with the current route's identifier is removed and the selection is cleared |
| Routes.Store.UpdateRouteInfo | app.js:360-368 | the current route's waypoints are untouched and its distance and duration become 30 per waypoint and half an hour per waypoint rounded up |
| Routes.Store.SaveWaypoint | app.js:233-264 | with a blank name or no current route nothing changes; otherwise exactly one waypoint (trimmed name and notes, jittered coordinates) is appended at the end and the derived fields match the new count |
| Routes.Store.UpdateWaypoint | app.js:281-308 | only a non-blank name and a present identifier change anything, and then only the name and notes of the first matching waypoint; the derived fields are not recomputed |
| Routes.Store.DeleteWaypoint | app.js:310-319 | after confirmation every waypoint with the identifier is removed and the derived fields match the new count; without it nothing changes |
| Routes.Store.ReorderWaypoints | app.js:402-416 | the list becomes the reordered list; with both identifiers present the derived fields are recomputed, otherwise the route is unchanged |
| Routes.Store.OptimizeRoute | app.js:335-358 | refused with nothing changed without a current route or with fewer than 3 waypoints; otherwise the first and last waypoints stay, the interior is permuted, and the derived fields match |
| Bands.BandOfPositiveWhole | app.js:562-564 | for a positive ceiling, the band is over-budget above 90% of it, warning above 70% up to 90%, and on-track otherwise; capping the percentage at 100 never changes the band |
| Bands.RatioAbove | app.js:562-564 | comparing the percentage `part / whole * 100` with a threshold `t` is comparing `part` with `t` percent of a positive `whole` |
| Bands.CappedPercentageOfPositiveWhole | app.js:562 | the capped percentage of a non-negative part of a positive whole lies in [0, 100] and is 100 exactly when the part reaches the whole |
| Budget.BudgetSummary | app.js:595-603 | the total budget and total spent are the sums of the categories' ceilings and spent totals; the total remaining is their difference, and is negative exactly when more was spent than budgeted |
| Budget.SpendOneCategory | app.js:629 | adding an amount to one category's spent total adds it to the overall spent total and leaves the overall budget alone |
| Budget.RebudgetOneCategory | app.js:666 | changing one ceiling changes the overall budget by the difference and leaves the overall spent total alone |
| Budget.CategoryStatus | app.js:562-564 | the percentage is NaN exactly for nothing spent of a zero ceiling and is never +Infinity once capped; over budget means a finite percentage above 90; the remainder is negative exactly when the ceiling is passed (the two cases are `StatusWithPositiveBudget` and `StatusWithZeroBudget`) |
| Budget.UpdateKeepsPositions | app.js:627 | replacing a category by one with the same identifier moves no category: every identifier is found where it was |
| Budget.SpendingKeepsConsistent | app.js:627-639 | recording a positive expense against a listed category keeps every spent total non-negative and every expense pointing at a listed category |
| Budget.RebudgetingKeepsConsistent | app.js:662-666 | a new ceiling keeps the ledger consistent in the same sense |
| Budget.StatusWithPositiveBudget | app.js:562-564 | with a positive ceiling the shown percentage is in [0, 100] and is 100 exactly at the ceiling, the band follows the 90%/70% thresholds, and the remainder is negative exactly when the ceiling is passed |
| Budget.StatusWithZeroBudget | app.js:562-564 | with a zero ceiling, nothing spent gives a NaN percentage on track, and anything spent gives +Infinity, shown as 100 and over budget |
| Budget.Ledger.constructor | app.js:2-9 | the ledger starts with the given categories and no expenses |
| Budget.Ledger.SaveExpense | app.js:617-653 | a missing category id, a zero, NaN or negative amount, or an unknown category changes nothing; otherwise that category's spent total grows by exactly the amount, exactly one expense is appended, and the summary's spent total grows and its remainder shrinks by the amount |
| Budget.Ledger.Record | app.js:629-639 | the category's spent total grows by the amount, the expense is appended, the ledger stays consistent, and the summary's spent total grows and its remainder shrinks by the amount |
| Budget.Ledger.EditCategory | app.js:661-673 | only a known category and a numeric answer change anything, and then only that category's ceiling; the overall spent total is unchanged |
| Tracker.TotalOfPositive | src/components/BudgetTracker.js:53-55 | the total of positive amounts is non-negative and zero exactly when there are none |
| Tracker.CategoryRowsAreTotals | src/components/BudgetTracker.js:65-77 | every pie slice is a listed category with its positive total, and every listed category with a positive total has its slice |
| Tracker.SumOverCategoriesStep | src/components/BudgetTracker.js:67-69 | one more expense adds its amount once per table entry bearing its category name |
| Tracker.SumOverCategoriesAppend | src/components/BudgetTracker.js:67-69 | the per-category sum over a list with one more expense is the sum over the list plus the sum over that expense alone |
| Tracker.SumOverOneExpense | src/components/BudgetTracker.js:67-69 | a single expense counts once for every table entry bearing its category name |
| Tracker.AmountForSnoc | src/components/BudgetTracker.js:67-69 | one more expense adds its amount to its own category's total and to no other |
| Tracker.SumOverCategoriesIsTotal | src/components/BudgetTracker.js:53-55 | when each expense names exactly one table entry, the per-category totals add up to the total spent |
| Tracker.CategoryRowsPrefixStep | src/components/BudgetTracker.js:71-76 | one more table entry adds its slice at the end of the pie chart exactly when the slice is positive |
| Tracker.SumOfPositiveRows | src/components/BudgetTracker.js:76 | dropping the zero slices loses nothing from the sum |
| Tracker.SumOfAllRows | src/components/BudgetTracker.js:71-76 | the slices of all categories add up to the sum of the per-category totals |
| Tracker.AmountForOfPositive | src/components/BudgetTracker.js:67-69 | a category's total of positive amounts is never negative |
| Tracker.CategoryRowsSumToTotal | src/components/BudgetTracker.js:53-55 | when every amount is positive and every expense names exactly one table entry, the pie slices add up to the total spent |
| Tracker.ListedCategoryOccursOnce | src/components/BudgetTracker.js:31-37 | each of the five category names occurs exactly once in the table |
| Tracker.BudgetTracker.constructor | src/components/BudgetTracker.js:23-29 | the component starts with a budget of 5000, no expenses, and the blank form on the first category |
| Tracker.BudgetTracker.HandleAddExpense | src/components/BudgetTracker.js:39-51 | only a positive amount and a description that is not blank after trimming add anything; then exactly one expense with the numeric amount and the untrimmed description is appended, the form is reset, and the total spent grows by the amount |
| Tracker.BudgetTracker.SetBudget | src/components/BudgetTracker.js:105 | the budget becomes the number in the field, 0 when it is empty |
| Tracker.BudgetTracker.SelectCategory | src/components/BudgetTracker.js:158-168 | the menu sets the form's category to a table entry and nothing else |
| Tracker.BudgetTracker.EditForm | src/components/BudgetTracker.js:172-188 | the amount and description fields set those form fields and nothing else |
| Tracker.BudgetTracker.PieCoversSpending | src/components/BudgetTracker.js:225 | the pie chart's slices add up to the total spent |
| Tracker.BudgetTracker.TotalSpent | src/components/BudgetTracker.js:53-55 | the total spent is non-negative and zero exactly when there are no expenses |
| Tracker.BudgetTracker.Remaining | src/components/BudgetTracker.js:57-59 | the remainder plus the total spent is the budget, and it is negative exactly when the budget is exceeded |
| Tracker.BudgetTracker.ProgressPercentage | src/components/BudgetTracker.js:61-63 | with a non-zero budget the percentage times the budget is 100 times the total spent; with a zero budget it is NaN exactly when nothing was spent and +Infinity when something was |
| Tracker.BudgetTracker.ProgressBar | src/components/BudgetTracker.js:115-126 | with a positive budget the bar lies in [0, 100] and is full exactly when the budget is used up; it is red above 90% of the budget, orange above 70% up to 90%, and green otherwise |
| Tracker.BudgetTracker.ExpensesByCategory | src/components/BudgetTracker.js:65-77 | the dictionary loop and the map-and-filter return exactly the positive per-category totals in table order |
| Import.IsValidFileType | app.js:793-796 | an accepted name has a dot just before a three- or four-letter extension; `DispatchedFilesAreAccepted` and `CapitalExtensionAcceptedButNotParsed` relate it to the parser choice |
| Import.DotBeforeExtension | app.js:795 | only a dot lower-cases to a dot, so a lower-cased name ending in `.ext` has a dot in that place |
| Import.ParserFor | app.js:840-846 | each extension picks its own parser, whichever test comes first: JSON exactly for `.json`, GPX exactly for `.gpx`, KML exactly for `.kml` |
| Import.DispatchedFilesAreAccepted | app.js:840-846 | every file a parser is chosen for passes the accept check |
| Import.LastCharOfSuffix | app.js:840-846 | a name ending with an extension ends with the extension's last character |
| Import.NoLowerExtension | app.js:840-846 | no parser is chosen for a name ending in a capital letter |
| Import.CapitalExtensionAcceptedButNotParsed | app.js:793-796 | a name ending in `.JSON`, `.GPX` or `.KML` passes the accept check, but no parser is chosen, so no route is imported |
| Import.AcceptedByLowerCase | app.js:793-796 | a capital extension that lower-cases to an accepted one is accepted and not dispatched |
| Import.LowerCaseOf | app.js:795 | lower-casing is character by character |
| Import.ParseJson | app.js:868-876 | a syntax error or a `null` document throws; otherwise the fields are taken as they are, with an empty waypoint list when there is none |
| Import.GpxWaypoints | app.js:884-892 | one waypoint per match, in order: the k-th carries the k-th generated identifier, the match's name, the parsed coordinates and empty notes |
| Import.ParseGpx | app.js:878-898 | the GPX loop returns the route data with those waypoints, the fixed GPX name and no distance or duration |
| Import.KmlWaypoints | app.js:906-917 | at most one waypoint per match; the k-th carries the k-th generated identifier and empty notes |
| Import.PlacemarkRule | app.js:907-913 | a placemark is kept exactly when its trimmed coordinate text holds a comma; the first two fields, neither with a comma, give longitude and latitude |
| Import.KmlWaypointsAreKeptPlacemarks | app.js:906-917 | the KML waypoints are the kept placemarks, in order and nothing else, each built from the corresponding one |
| Import.KmlWaypointsStep | app.js:906-917 | one more match adds at most its own waypoint, at the end, with the next generated identifier |
| Import.KmlWaypointsPrefixStep | app.js:906-917 | the same step for the matches read so far |
| Import.ParseKml | app.js:900-923 | the KML loop returns the route data with those waypoints, the fixed KML name and no distance or duration |
| Import.ParsedRoute | app.js:838-846 | no parser means no data; the GPX and KML parsers always return data |
| Import.ImportedName | app.js:851 | the imported route's name is never empty: the parsed name if it is non-empty, otherwise one built from the file name |
| Import.ImportedDistance | app.js:853 | the imported distance is never NaN: the parsed one if it is truthy, otherwise 0 |
| Import.ImportedDuration | app.js:854 | the imported duration is "unknown" exactly when the parsed one is missing or empty, and otherwise is that label |
| Import.ImportDefaults | app.js:848-855 | GPX and KML imports get the parser's fixed name, distance 0 and an unknown duration; a JSON document without a name is named after the file |
| Import.TryImportRoute | app.js:836-866 | a route is appended exactly when a parser is chosen and does not throw; it has the given identifier, the parsed waypoints and the defaulted name, distance and duration; the selection is untouched |

## Left out

- DOM rendering, modals, tabs, theme and messages (`renderWaypoints`, `renderRouteSelect`, `showModal`, `showMessage`, the JSX of the component): user interface only.
- Canvas drawing (`drawMapBackground`, `drawRouteOnMap`, `renderBudgetChart`) and the map-click-to-coordinates conversion: floating-point geometry over a browser API.
- `generateId` and `Date.now`: identifiers are parameters. Their uniqueness is not assumed; `SaveNewRoute` states what happens when the identifier is already in use.
- Dates (`toISOString`, `toLocaleDateString`), `formatCurrency` and `formatFileSize`: formatting only.
- `saveData` and `loadData`: `saveData` only logs. `loadData` copies the sample data into the state; `Routes.Store.Loaded` takes the loaded routes and selects the first, and `Budget.Ledger.constructor` takes the loaded categories. The sample data itself is not reproduced.
- `processFiles` with `FileReader`, the uploaded-file list, `importRouteFromFile` and `deleteFile`: asynchronous browser I/O and list bookkeeping around `tryImportRoute`.
- `JSON.parse`, the regular-expression engine and `parseFloat`: what they produce is an input. A JSON `name` or `duration` that is not a string, a `distance` that is not a number, and a `waypoints` value that is not a list (app.js:872-873, 853) are not modelled.
- The files `src/components/TravelPlanner.js`, `src/App.js`, `js/mobile.js` and `js/js/mobile.js`: mapping SDK, layout and storage glue with no logic of the core.
- Floating-point rounding: finite numbers are exact reals.
- Case mapping beyond ASCII in `toLowerCase`.
- Routes.Shuffle: only that the result is a permutation. Nothing about the distribution of the draws is stated.
- Routes.Store.UpdateWaypoint: the source writes the name and notes into the waypoint object. The model replaces the list element with an edited copy. No other reference to a waypoint object exists in the core, so nothing is lost.
- Routes.Store.UpdateWaypoint, Routes.Store.DeleteWaypoint, Routes.Store.ReorderWaypoints: the source throws a TypeError when it reaches the current route and none is selected. The model requires a selection at those points, so that error is not modelled.
- Budget.Ledger.SaveExpense: an amount typed as "Infinity" passes the source's guard. The model's amount is a finite number or NaN, so this case is not covered.
- Budget.Ledger.EditCategory: the answer is reduced to cancelled, empty, not a number, or a number. An answer of only white space passes the source's `isNaN` test, and `parseFloat` then gives NaN as the new ceiling. An answer such as "Infinity" or "1e999" also passes `!isNaN`, and the ceiling becomes Infinity (app.js:665-666), which the model's real-valued ceiling cannot hold. Neither case is modelled.
- Budget.Category is a value replaced in the list rather than an object updated in place. The category objects have no other references in the core.
- Tracker.CategoryRowsSumToTotal assumes that every expense names exactly one table entry. `ListedCategoryOccursOnce` shows the five menu names meet this, and `PieCoversSpending` puts the two together for the component's state.

## Behaviour of the code worth knowing

- **Reordering.** Both indices are taken before the removal, so a waypoint dragged backwards lands just before the target and one dragged forwards lands just after it (`ReorderPlacement`). With both identifiers present the derived fields are always recomputed, also when a waypoint is dropped onto itself.
- **Zero budget.** A zero ceiling is divided by: the percentage is +Infinity, or NaN when nothing was spent (`StatusWithZeroBudget`, `ProgressPercentage`).
- **New route.** A new route's duration is the label "0 minutes" (`ZeroMinutes`).
- **JSON import identifiers.** The JSON path keeps the waypoints' identifiers as they are in the file; only the GPX and KML paths generate new ones.
- **Imported name.** The file name is used when the parsed name is absent and also when it is empty (`||`).
- **Extension case.** Uploads are accepted case-insensitively, but the parser is chosen case-sensitively, so a capitalised extension is accepted and then not imported (`CapitalExtensionAcceptedButNotParsed`).
- **Derived fields.** The derived fields are not recomputed on import or on a waypoint edit. An imported route keeps the distance and duration of its file until its first add, delete, reorder or optimize.
- **Expense descriptions.** `saveExpense` trims the description but does not require one.
