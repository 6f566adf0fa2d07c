# Project profit tracker — a Dafny model

A model of the core of a single-user project profit tracker, a React app. A
user creates named projects, records income and expense transactions
against each, and reads per-project and overall figures:

- **Metrics engine** (`calculateMetrics`, `utils.ts`), module `Utils`. It
  turns one project's transactions into five figures:
  - total income and total expense;
  - profit;
  - profit margin, which is 0 when total income is not positive;
  - the tracker's own "ROI". This is total income as a percentage of total
    expense, and 0 when total expense is not positive. The model keeps this
    non-standard formula as the code has it.
- **App component** (`App.tsx`), module `App`. This covers:
  - the component's state as class `ProjectStore`: the project list, the
    selection, the new-project modal and name field, and the quick-entry form;
  - the four handlers that change that state, as methods;
  - the new lists those handlers compute (append, filter by id, map over the
    selected project), as pure functions over `seq<Project>`;
  - the overview totals and chart rows derived from the list;
  - the break-even read-out of the project view.

Module `Types` holds the records of `types.ts`. Module `Lists` holds the
`filter` semantics that several operations share. Module `Wrappers` holds
`Option`.

Amounts are exact `real`s. `null` selection and a `NaN` parse result are `None`.

These inputs are method parameters:
- the fresh ids and ISO timestamps (`generateId`, `new Date().toISOString()`);
- the answer to the deletion `confirm()` dialog;
- the parsed amount (`parseFloat(txAmount)`);
- the initial list (what was loaded from local storage).

`ProjectStore.Valid()` is an invariant the source never states but keeps:
a selection, when there is one, names a project in the list. So the project
view always finds its project. Every handler also keeps "all recorded
amounts are positive" (`AmountsPositive`) whenever it held before.

Three behaviours of the code are easy to misread; the model follows the code
as written:
- The margin guard is `totalIncome > 0`, so a negative income total also
  gives margin 0, not only a zero total. The ROI guard works the same way.
- `removeTransaction` removes the id only from the currently selected
  project(s), not from "its owning project" in general. With no selection
  it changes nothing.
- Nothing makes project ids unique. Deletion and the two ledger edits act on
  every project that carries the id. The lemmas about totals assume the id
  is unique where the exact-difference statement needs it.

## Model

| member | source | states |
|---|---|---|
| Utils.CalculateMetrics | utils.ts:4-24 | total income/expense equal the kind-restricted sums `KindSum` (an independent per-transaction definition); profit is income minus expense; margin is profit/income×100 when income > 0 and 0 otherwise; ROI is income/expense×100 when expense > 0 and 0 otherwise, so no division by zero |
| Utils.Sum | utils.ts:7 | definition with no contract: the left-fold `reduce` over amounts; its meaning is stated by `Utils.SumOfKindIsKindSum` and `Utils.MetricsPartition` |
| Utils.OfKind | utils.ts:6 | the filtered list holds exactly the transactions of that type and is no longer than the input |
| Utils.SumOfKindIsKindSum | utils.ts:5-11 | filter-by-type then left-fold reduce equals the sum over exactly the transactions of that type, others contributing nothing |
| Utils.MetricsPartition | utils.ts:5-11 | every transaction is counted exactly once: total income plus total expense is the sum of all amounts |
| Utils.MetricsOfEmpty | utils.ts:5-15 | no transactions give all five figures equal to 0 |
| Utils.MetricsAppend | utils.ts:5-11 | appending one transaction raises the total of its own type by exactly its amount and leaves the other total unchanged |
| Utils.MetricsWorkedExample | utils.ts:13-15 | one income of 1000 and one expense of 400 give (1000, 400, 600, 60, 250) |
| Utils.MetricsBounds | utils.ts:13-15 | with non-negative amounts both totals and the ROI are non-negative, profit never exceeds income and the margin never exceeds 100 |
| Utils.MetricsGuardsIff | utils.ts:14-15 | with positive amounts, total income is positive iff some income transaction exists, and total expense likewise, so each guard falls back to 0 exactly when its type is absent |
| Lists.Filter | utils.ts:6 | the result holds exactly the elements the predicate accepts and is no longer than the input |
| Lists.FilterConcat | App.tsx:67 | filtering distributes over concatenation, so survivors keep their original relative order |
| App.Trim | App.tsx:51 | `trim()` gives the empty string iff the name is empty or all ECMAScript white space / line terminators |
| App.NoSelection | App.tsx:75 | definition with no contract: `!selectedProjectId`, true for no selection or the falsy empty id; its effect is stated by `App.ProjectStore.HandleQuickAddTransaction` |
| App.Find | App.tsx:42-43 | the lookup succeeds iff a selection exists and some project carries its id, and then returns the first such project |
| App.WithoutProject | App.tsx:67 | the filtered list holds exactly the old projects whose id differs, and no project with the deleted id |
| App.WithoutTransaction | App.tsx:106 | the filtered ledger holds exactly the old transactions whose id differs |
| App.EntryDescription | App.tsx:86 | a non-empty entered description is kept as is; an empty one becomes `日常收入` for income and `日常支出` for expense |
| App.NewProject | App.tsx:52-58 | the new project has the given id, untrimmed name and timestamp, an empty description and no transactions, so all five of its metrics are 0 |
| App.AddTransactionTo | App.tsx:77-94 | same length; every project whose id is not the selected one is unchanged; every project with that id gets exactly `tx` appended at the end of its ledger, all other fields kept |
| App.RemoveTransactionFrom | App.tsx:102-110 | same length; with no selection nothing changes; projects other than the selected one are unchanged; the selected one keeps its fields and its ledger loses exactly the transactions with that id |
| App.Overall | App.tsx:201-215 | definition with no contract: the overview `reduce` of one figure over all projects; its properties are stated by the lemmas below |
| App.OverallNonNegative | App.tsx:201-208 | with non-negative amounts, overall income and overall expense are non-negative |
| App.OverallProfitIsDifference | App.tsx:201-215 | overall profit equals overall income minus overall expense |
| App.DeleteLowersOverall | App.tsx:67 | deleting a project with a unique id lowers each overview total by exactly that project's own figure |
| App.QuickAddRaisesOverall | App.tsx:77-94 | adding a transaction to a project with a unique id raises overall income (or expense, by its type) by exactly its amount and leaves the other total unchanged |
| App.RemoveTransactionLowersTotals | App.tsx:101-111 | removing the one transaction with a given id lowers its project's total of that type by exactly its amount and leaves the other total unchanged |
| App.ChartData | App.tsx:113-123 | one row per project in project order, carrying its name, its income and expense totals, and profit = income − expense |
| App.ChartMatchesOverview | App.tsx:113-123 | each chart column adds up to the matching overview total |
| App.ProgressWidth | App.tsx:397 | the bar width `min(roi, 100)` (ROI read as 0 without metrics) equals the ROI below 100 and is full (100) iff ROI ≥ 100, is 0 without metrics, and is non-negative for a non-negative ROI |
| App.Shortfall | App.tsx:403 | `max(0, expense − income)` is non-negative, is 0 iff there are no metrics or income covers expense, and otherwise is exactly expense − income |
| App.BreakEvenReached | App.tsx:401 | definition with no contract: the banner test `metrics && metrics.roi >= 100`; its meaning is stated by `App.BreakEvenIff` and `App.IncomeOnlyBannerMismatch` |
| App.BreakEvenIff | App.tsx:397-403 | with expense > 0: the banner says break-even iff income ≥ expense iff the shortfall `max(0, expense − income)` is 0 |
| App.ProgressWidthBounds | App.tsx:397 | with non-negative amounts (or no metrics) the progress width `min(roi, 100)` lies in [0, 100] |
| App.IncomeOnlyBannerMismatch | App.tsx:397-403 | a project with one income of 500 and no expense shows "still to earn" and an empty progress bar, although the shortfall is 0 and income exceeds expense |
| App.BreakEvenIntendedIff | App.tsx:401-403 | the corrected banner: once income is positive it congratulates iff the shortfall is 0, and wherever expense is positive it agrees with the banner as written |
| App.ProjectStore.constructor | App.tsx:23-35 | starts from the saved list with no selection, the modal closed, empty form fields and type `expense` |
| App.ProjectStore.Metrics | App.tsx:42-48 | in a valid state there are metrics iff a project is selected, and they are the metrics of the first project carrying the selected id |
| App.ProjectStore.HandleAddProject | App.tsx:50-63 | a blank name changes nothing; otherwise exactly one project (given id, untrimmed name, empty description, empty ledger) is appended after the unchanged old ones, it becomes the selection, the name is cleared and the modal closed; the invariant is kept |
| App.ProjectStore.HandleDeleteProject | App.tsx:65-70 | a declined confirmation changes nothing; a confirmed one filters out every project with the id, and the selection becomes none iff it was that id; nothing else changes |
| App.ProjectStore.HandleQuickAddTransaction | App.tsx:72-99 | a NaN or non-positive amount, or no (or empty-id) selection, changes nothing and keeps the form; otherwise the entry is appended to the selected project(s) only, and the amount and description fields are cleared; positivity of amounts is kept |
| App.ProjectStore.RemoveTransaction | App.tsx:101-111 | the list becomes `RemoveTransactionFrom` of the old list and the selection; every other field is unchanged |
| App.ProjectStore.SelectProject | App.tsx:162 | selecting a listed project sets only the selection |
| App.ProjectStore.ShowOverview | App.tsx:150 | returning to the overview clears only the selection |

## Left out

- Rendering (JSX, Tailwind classes, `MetricCard` colours, recharts, icons): presentation only.
- Local storage load/save and JSON (de)serialisation: browser I/O. The loaded list is the constructor's parameter.
- `generateId` and `new Date().toISOString()`: nondeterministic. The handlers take the id and timestamp as parameters, and nothing models id collisions.
- `confirm()`: a blocking browser dialog, modelled as the `confirmed` argument.
- `parseFloat`: JS number parsing, modelled as an `Option<real>` argument with `None` for NaN. `Infinity` is a JS number with no `real` counterpart.
- IEEE-754 rounding of the sums and divisions: amounts and figures are exact reals.
- `formatCurrency` and `toFixed(1)`: locale formatting for display.
- The onChange/onClick setters that only copy input into the name, amount, description, type and modal fields: plain field assignments. The handlers' contracts hold for any field values.
- App.ProjectStore.HandleQuickAddTransaction: appends one transaction with one id and one timestamp to every project carrying the selected id. The source calls `generateId()` and `new Date()` once per matching project, so duplicated project ids would get distinct transaction ids there.
- Idempotence of the metrics (computing twice gives the same figures) is immediate, because `CalculateMetrics` is a function.

## Findings

| source | as written | input that shows it | evidently intended | confidence | as-written member | corrected member |
|---|---|---|---|---|---|---|
| App.tsx:397-403 | the break-even banner tests `roi >= 100`, but ROI is defined as 0 when there is no expense | a project with one income of 500 and no expense: the banner says 0 is still to be earned, and the progress bar is empty | the banner congratulates once income is positive and covers expense | medium, not executed | App.IncomeOnlyBannerMismatch | App.BreakEvenIntendedIff |
