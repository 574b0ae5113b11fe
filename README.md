# Credit-application similarity ranker — a Dafny model

The application is a single page, `CCApp`. It loads every stored credit
application and lets the user describe a new applicant with six attributes:
age bracket, gender, salary bracket, job, married and number-of-children
bracket. It ranks the stored applications by how many of those six
attributes they share with the applicant (the KNN match fraction `knn`), adds
a Neyman similarity `1 - (knn - 1)^2 / knn` to each, shows the five best, and
submits the applicant with the credit type of a chosen stored application.

The model covers the ranker and the page state around it, all in
`pages/index.tsx`:

- `records.dfy` (module `Records`): the stored record, the query
  (`NewData`), the submission (`NewDataWithTypeCredit`) and the two annotated
  shapes (`DataWithKNN`, `DataWithKNNAndNeyman`).
- `knn.dfy` (module `KnnSort`): `sortWithKNN`. The six-`if` counter is a
  method proved equal to a count over the list of the six comparisons. The
  engine's stable `sort` is an in-place insertion sort on an array, proved
  equal to the functional stable sort `SortDesc`. `SortDesc` is proved
  ordered, a permutation, and stable.
- `neyman.dfy` (module `Neyman`): the Neyman formula, `sortWithNeyman`, and
  the properties of the whole ranking: one entry per record, each with its
  own score, ordered by `knn` and by Neyman similarity, stable, best match
  first.
- `columns.dfy` (module `Columns`): the `Cell` label mappings, the credit
  badge of a result row, and the dropdown options checked against the labels.
- `app.dfy` (module `App`): the class `CCApp` with the page's state fields.
  Its methods are the handlers and effects: load, calculate, default
  selection, the six form controls, row selection and submission.

Modelling choices:

- `knn` is the exact rational `count / 6` (a `real`). It is not a binary
  float.
- Where no attribute matches, `knn = 0` and the Neyman formula divides by
  zero. The engine yields `-Infinity` there; the model gives `None`. Those
  entries sort last either way.
- The comparator `b.knn - a.knn` with a stable sort puts higher `knn` first
  and keeps input order among equal `knn`. `SortDescStable` states this
  tie-break.
- React re-runs `handleCalculate` when a form field changes value. It then
  resets `selectedID` because `result` changed. `CCApp.Refresh` runs this
  chain synchronously. Setting a field to its current value re-renders
  nothing, so those methods then change nothing.
- The store's answer to a submission is a parameter of `CCApp.Submit`
  (`None` when the request fails). The answer is appended to `data`, but
  `result` is not recomputed, because the effect does not depend on `data`.
- The pending query survives a dropdown being set back to its placeholder
  (-1). Submission is gated only on a query having been built once, so that
  query is still sent. When no record has the selected ID (for instance, the
  record list is empty), the credit type sent is -1, outside 0..2.
  `App.SubmitAfterReset` shows both.

## Model

| member | source | states |
|---|---|---|
| KnnSort.CountMatches | pages/index.tsx:33-39 | the six-`if` counter equals the number of agreeing attributes among the six compared |
| KnnSort.KnnBounds | pages/index.tsx:32-43 | `knn` lies in [0, 1]; it is 1 exactly when all six attributes agree and 0 exactly when none does |
| KnnSort.SortInPlace | pages/index.tsx:45 | the in-place sort leaves the array holding the stable descending-`knn` order of its old contents |
| KnnSort.InsertAt | pages/index.tsx:45 | one insertion step: the sorted prefix gains the next entry after every entry it does not exceed; the rest of the array is untouched |
| KnnSort.SortWithKnn | pages/index.tsx:31-46 | returns a fresh array holding the records, each with its own `knn`, in stable descending-`knn` order |
| KnnSort.SortDescOrdered | pages/index.tsx:45 | the sorted list is non-increasing in `knn` |
| KnnSort.SortDescPermutes | pages/index.tsx:45 | the sorted list holds exactly the input entries, each as often |
| KnnSort.SortDescPermutesRecords | pages/index.tsx:32-45 | the records of the sorted list are a permutation of the input records |
| KnnSort.SortDescStable | pages/index.tsx:45 | for every `knn` value, the entries with that value keep their input order |
| Neyman.NeymanAt | pages/index.tsx:51 | the Neyman similarity at each match fraction 1/6 .. 6/6: -19/6, -1/3, 1/2, 5/6, 29/30, 1 |
| Neyman.NeymanAtMostOne | pages/index.tsx:51 | with at least one match the similarity is defined, at most 1, and 1 exactly at six matches |
| Neyman.NeymanUndefinedAtZero | pages/index.tsx:51 | the formula has no value exactly when no attribute matches |
| Neyman.NeymanMonotone | pages/index.tsx:51 | more matches never give a lower similarity |
| Neyman.AddNeyman | pages/index.tsx:50-56 | each entry keeps its record and `knn`, in order, and gains only the similarity of its own `knn` |
| Neyman.SortWithNeyman | pages/index.tsx:48-57 | returns the KNN ranking with each entry's Neyman similarity added |
| Neyman.RankingPermutes | pages/index.tsx:31-57 | one ranked entry per stored record; the ranked records are a permutation of the record list |
| Neyman.RankingScores | pages/index.tsx:32-56 | every ranked entry is a stored record with its own `knn` in [0, 1] and the Neyman similarity of that `knn` |
| Neyman.RankingOrdered | pages/index.tsx:45-57 | the ranking is non-increasing in `knn` |
| Neyman.RankingStable | pages/index.tsx:45-57 | records with equal `knn` appear in the ranking in their order in the record list |
| Neyman.RankingNeymanOrdered | pages/index.tsx:45-57 | entries with a Neyman similarity come first, in non-increasing order of it |
| Neyman.TopIsBestMatch | pages/index.tsx:45-57 | on a non-empty record list, the first entry is a stored record no other record out-matches |
| Columns.GenderCell | pages/index.tsx:129-131 | "Male" exactly for "M"; every other value reads "Female" |
| Columns.YesNoCell | pages/index.tsx:158-167 | "Yes" exactly for "Y"; every other value reads "No" |
| Columns.SalaryCell | pages/index.tsx:136-153 | a label exactly for the codes 0..6; any other code renders nothing |
| Columns.ChildrenCell | pages/index.tsx:172-183 | "5+" exactly for codes other than 0, 1 and 2 |
| Columns.TypeCreditCell | pages/index.tsx:188-197 | "Approved Regular" exactly for 1, "Approved Gold" exactly for 2, "Rejected" for every other code |
| Columns.CreditBadge | pages/index.tsx:280-288 | a badge exactly for 0, 1 and 2; 1 and 2 read as in the table, 0 reads "Not Approved" where the table says "Rejected" |
| Columns.SalaryOptionsMatchCells | pages/index.tsx:230-241 | each salary option shows in the table under its own dropdown text; the placeholder has no label |
| Columns.ChildrenOptionsMatchCells | pages/index.tsx:254-262 | each children option shows in the table under its own dropdown text |
| Columns.SalaryCellInjective | pages/index.tsx:136-153 | distinct salary brackets have distinct labels |
| App.BuildQuery | pages/index.tsx:69-76 | the query copies age, salary and children, with gender "M" iff the toggle is on, and job and married "Y" iff checked |
| App.QueryLabelsRoundTrip | pages/index.tsx:224-252 | the encoded gender, job and married read back in the table as the form showed them |
| App.DefaultSelection | pages/index.tsx:88 | the ID of the first ranked entry, or -1 when the ranking is empty |
| App.Find | pages/index.tsx:95 | `None` exactly when no record has the ID; otherwise the first record with it |
| App.Shown | pages/index.tsx:275 | the first five ranked entries, or all of them when there are fewer |
| App.ShownAreBest | pages/index.tsx:275 | no entry left out of the five shown has a higher `knn` than a shown one |
| App.DefaultCreditIsTopRecords | pages/index.tsx:88-95 | with distinct IDs, the default credit type submitted is that of the top-ranked record |
| App.CCApp.constructor | pages/index.tsx:58-65 | nothing loaded, no dropdown chosen, no query, empty result, selection -1 |
| App.CCApp.Load | pages/index.tsx:23-27 | the fetched records replace the record list |
| App.CCApp.Calculate | pages/index.tsx:67-80 | with any of age, salary, children at -1, nothing changes; otherwise the query is built and the result is its ranking of the record list |
| App.CCApp.SelectDefault | pages/index.tsx:87-89 | the selection becomes the first ranked ID, or -1 |
| App.CCApp.Refresh | pages/index.tsx:82-89 | recalculates and, when the result changed, reselects its top record; keeps the result the ranking of the pending query |
| App.CCApp.ChooseAge | pages/index.tsx:216 | sets the age; a new value triggers the recalculation, an unchanged one nothing |
| App.CCApp.ToggleGender | pages/index.tsx:226 | flips the gender and triggers the recalculation |
| App.CCApp.ChooseSalary | pages/index.tsx:232 | sets the salary; a new value triggers the recalculation, an unchanged one nothing |
| App.CCApp.SetJob | pages/index.tsx:246 | sets the job flag; a new value triggers the recalculation, an unchanged one nothing |
| App.CCApp.SetMarried | pages/index.tsx:252 | sets the married flag; a new value triggers the recalculation, an unchanged one nothing |
| App.CCApp.ChooseChildren | pages/index.tsx:256 | sets the children bracket; a new value triggers the recalculation, an unchanged one nothing |
| App.CCApp.Select | pages/index.tsx:293 | a row's button selects its ID |
| App.CCApp.Submit | pages/index.tsx:91-114 | without a query nothing is sent; otherwise the query goes out with the credit type of the first record whose ID is selected, or -1, and a returned record is appended to the list, the rest unchanged |
| App.SubmitAfterReset | pages/index.tsx:67-95 | a query completed once is still submitted after a dropdown is set back to its placeholder, with credit type -1 when no record matches |

## Left out

- `pages/api/data.ts`, the HTTP handler over the database, is not part of this model. ID assignment and storage belong to the database, so the store's answer is a parameter of `CCApp.Submit`.
- `fetch`, promise chains and the success toast are left out. So is the stale closure in `setData([...data, res])`: the model appends to the list current at submission time.
- React scheduling, the table library, pagination and rendering are left out. The effect chain runs synchronously in `CCApp.Refresh`.
- Floating point is left out. `knn` is exact, `toFixed(2)` is not modelled, and `-Infinity` at zero matches is `None`.
- Which age codes the age dropdown offers (0, 1, 3, 4) is left out. Age is any integer.
- NeymanAtMostOne: stated for the match fractions m/6 with m in 1..6, not for every real in (0, 1]. `knn` takes no other values (KnnSort.KnnBounds), and the general statement needs nonlinear real arithmetic the solver does not settle.
- NeymanMonotone: stated for the match fractions m/6 only, for the same reason.
- NeymanUndefinedAtZero: stated for the match fractions m/6 only, for the same reason.
