# RetailTracker bookkeeping service in Dafny

This project models the in-browser bookkeeping service of RetailTracker, a small
sales-and-expenses tracker for shop owners, together with the pieces of the
client and server that feed it or read from it:

- **The entry store** (`LocalStorageService`): two lists, sales and expenses,
  each row owned by a user. Rows are created by appending, updated by patching
  the first row with the given id owned by the current user, and deleted by
  filtering out every such row. Every operation first needs a current user.
  The class `Store.LocalStorageService` holds the lists as `seq` fields; its
  methods change them in place and are proved against the list functions
  `RemoveSale`, `SaleIndex`, `NewSale`, `PatchSale` and their expense
  counterparts.
- **The dashboard** (`getDashboardStats`): today's totals, the totals since the
  day a week ago, the five expense categories with the largest totals in that
  window, and the per-day sales series of the window. `Dashboard.StatsOf` is
  the declarative definition; `Dashboard.ComputeStats` computes it as the
  service does, accumulating per-key totals into a keyed record in one pass
  (`Dashboard.GroupSums`, a loop with its invariant).
- **The combined transaction view**: the client service's `getTransactions`
  (optional kind filter and inclusive date range), the duplicate service's
  unfiltered variant without `createdAt`, and the `/api/transactions` handler.
  All three project rows into one `Transaction` shape and sort newest date
  first with a stable sort.
- **The entry form and edit dialog**: the required-field check and field
  renaming on submit, and the mapping from an edited transaction to a
  sale or expense update.
- **The transaction list**: the client-side category filter and the list of
  distinct categories offered.

The service exists twice in the code base, in `client/src/lib/localStorage.ts`
and, nearly identical, in `App.tsx`. Their store and dashboard code is the
same and is modelled once: the members cited against
`client/src/lib/localStorage.ts` for creating, updating and deleting
(lines 75-184) and for the dashboard (lines 187-255) equally model
`App.tsx` lines 117-225 and 227-284. The two `getTransactions`
differ and are modelled separately, with a lemma relating them.

Modelling choices:

- Dates are day numbers (`Records.Day`). The service compares zero-padded
  ISO `YYYY-MM-DD` strings with `===`, `>=`, `localeCompare` and
  `new Date(..).getTime()`, and for such strings all of these agree with the
  order of day numbers. The day a week ago is `today - 7`.
- Amounts are exact integers in minor units (`Records.Cents`); the service's
  `parseFloat` sums and `toString` renderings are not modelled.
- The current user is an `Option<UserId>` parameter; `None` is "not logged in".
  Record ids (`Date.now()`), the current instant and today's date are
  parameters.
- Thrown errors are the `Failure`/`Fail` cases of `Result`/`Outcome`.
- `Array.prototype.sort` is stable and `Object.entries` lists keys in the
  order they were first set, so ties keep first-encountered order. The sort is
  modelled as a stable insertion sort (`Seqs.SortByKey`) and the keyed record
  as keys in first-seen order (`Seqs.Dedup`).
- The week window has a lower bound only: rows dated on or after the day a
  week ago count, including rows dated after today. The window therefore
  covers today and the seven days before it. The model follows the code here.

## Model

| member | source | states |
|---|---|---|
| Records.NewSaleRoundTrip | client/src/lib/localStorage.ts:80-89 | a created sale is owned by the current user and gives back the data it was created from, except that empty notes come back as null |
| Records.NewExpenseRoundTrip | client/src/lib/localStorage.ts:142-151 | a created expense is owned by the current user and gives back its data, except that an empty description comes back as null |
| Records.PatchSaleKeepsIdentity | client/src/lib/localStorage.ts:104-108 | a patch keeps id, owner and creation time and sets `updatedAt`; patching twice equals patching once; an empty patch only refreshes `updatedAt`; a full patch replaces all user data |
| Records.PatchExpenseKeepsIdentity | client/src/lib/localStorage.ts:166-170 | the same for expenses |
| Seqs.FindIndex | client/src/lib/localStorage.ts:101 | the result is the first index whose row satisfies the test, or -1 when none does |
| Seqs.FilterMember | client/src/lib/localStorage.ts:120 | exactly the elements satisfying the predicate survive a filter |
| Seqs.SortByKeySpec | client/src/lib/localStorage.ts:300 | the sort returns a permutation of its input ordered by key |
| Seqs.SortByKeyStable | client/src/lib/localStorage.ts:300 | elements with equal keys keep their input order |
| Seqs.DedupSpec | client/src/components/TransactionsList.tsx:88 | deduplication repeats nothing and keeps every element |
| Seqs.DedupFirstOccurrence | client/src/components/TransactionsList.tsx:88 | deduplicated elements come in the order of their first occurrences |
| Store.RemoveSaleSpec | client/src/lib/localStorage.ts:115-122 | deletion keeps exactly the rows not matching id and user; with no match the list is unchanged; deleting twice equals deleting once |
| Store.RemoveExpenseSpec | client/src/lib/localStorage.ts:177-184 | the same for expenses |
| Store.CreateThenRemoveSale | client/src/lib/localStorage.ts:75-122 | creating a sale under an id the user does not use and deleting that id restores the list |
| Store.CreateThenRemoveExpense | client/src/lib/localStorage.ts:137-184 | the same for expenses |
| Store.UpdateSaleFindsSameRow | client/src/lib/localStorage.ts:101-110 | after an update, looking the row up again finds the same position |
| Store.UpdateExpenseFindsSameRow | client/src/lib/localStorage.ts:163-172 | the same for expenses |
| Store.CreateKeepsOthers | client/src/lib/localStorage.ts:75-94 | creating a sale of one user, into any list including the empty one, leaves every other user's sales unchanged |
| Store.UpdateKeepsOthers | client/src/lib/localStorage.ts:96-113 | updating a user's first matching sale leaves every other user's sales unchanged |
| Store.RemoveKeepsOthers | client/src/lib/localStorage.ts:120 | deleting one user's sale leaves every other user's sales unchanged |
| Store.CreateKeepsOtherExpenses | client/src/lib/localStorage.ts:137-156 | creating an expense of one user, into any list, leaves every other user's expenses unchanged |
| Store.UpdateKeepsOtherExpenses | client/src/lib/localStorage.ts:158-175 | updating a user's first matching expense leaves every other user's expenses unchanged |
| Store.RemoveKeepsOtherExpenses | client/src/lib/localStorage.ts:182 | the same for expense deletion |
| Store.LocalStorageService.constructor | client/src/lib/localStorage.ts:63-73 | with nothing stored both lists read as empty |
| Store.LocalStorageService.CreateSale | client/src/lib/localStorage.ts:75-94 | without a user: NotAuthenticated and nothing changes; otherwise exactly the new sale is appended and returned, expenses untouched |
| Store.LocalStorageService.UpdateSale | client/src/lib/localStorage.ts:96-113 | NotAuthenticated without a user; SaleNotFound, list unchanged, when no row matches id and user; otherwise only the first matching position is replaced by the patched row, which is returned |
| Store.LocalStorageService.DeleteSale | client/src/lib/localStorage.ts:115-122 | NotAuthenticated without a user; otherwise the list becomes the rows not matching id and user, and no error when none match |
| Store.LocalStorageService.CreateExpense | client/src/lib/localStorage.ts:137-156 | as CreateSale, for expenses |
| Store.LocalStorageService.UpdateExpense | client/src/lib/localStorage.ts:158-175 | as UpdateSale, with ExpenseNotFound |
| Store.LocalStorageService.DeleteExpense | client/src/lib/localStorage.ts:177-184 | as DeleteSale, for expenses |
| Store.LocalStorageService.GetDashboardStats | client/src/lib/localStorage.ts:187-255 | NotAuthenticated without a user; otherwise the statistics of the stored lists for that user and day |
| Store.LocalStorageService.GetTransactions | client/src/lib/localStorage.ts:258-301 | NotAuthenticated without a user; otherwise the kinds wanted, the range applied when both bounds are given, newest first |
| Store.LocalStorageService.GetAllTransactions | App.tsx:286-313 | NotAuthenticated without a user; otherwise every row of the user without `createdAt`, newest first |
| Dashboard.AccumulateStep | client/src/lib/localStorage.ts:226-228 | one accumulation step keeps the first-seen key order and each key's running total in step with the rows walked |
| Dashboard.KeySum | client/src/lib/localStorage.ts:223-228 | summing each distinct key's total over the first-seen keys gives the total of all rows |
| Dashboard.GroupTotalsSum | client/src/lib/localStorage.ts:223-228 | the buckets of a grouping together hold exactly the total of the rows grouped: no row is lost or counted twice |
| Dashboard.GroupSums | client/src/lib/localStorage.ts:223-231 | the one-pass accumulation yields one bucket per distinct key, first-seen order, holding that key's total |
| Dashboard.GroupTotalsDistinct | client/src/lib/localStorage.ts:223-231 | no key has two buckets |
| Dashboard.GroupTotalsSpec | client/src/lib/localStorage.ts:236-244 | every bucket holds the total of its key, which is the key of some row, and every row's key has a bucket |
| Dashboard.ComputeStats | client/src/lib/localStorage.ts:198-254 | the service's computation equals the declarative statistics |
| Dashboard.TodayWithinWeek | client/src/lib/localStorage.ts:205-220 | with non-negative amounts today's sales and expenses never exceed the week's |
| Dashboard.ByCategorySpec | client/src/lib/localStorage.ts:223-233 | at most five categories, distinct, largest total first, each holding its total and occurring in the window |
| Dashboard.ByCategoryTop | client/src/lib/localStorage.ts:230-233 | a category of the window is missing only when five categories are listed, each totalling at least as much |
| Dashboard.TrendAscending | client/src/lib/localStorage.ts:243-245 | the sales series is strictly ascending by date |
| Dashboard.TrendSpec | client/src/lib/localStorage.ts:236-245 | each series entry is a day with an in-window sale and holds that day's total; every such day is listed |
| Dashboard.TrendWithinWindow | client/src/lib/localStorage.ts:236-241 | no series day lies before the day a week ago |
| Dashboard.TrendAddsUp | client/src/lib/localStorage.ts:213-245 | the sales series adds up to the week's sales total |
| Dashboard.CategoriesAddUp | client/src/lib/localStorage.ts:217-233 | when the week has at most five expense categories, the breakdown adds up to the week's expense total |
| Dashboard.CategoriesWithinWeek | client/src/lib/localStorage.ts:217-233 | with non-negative amounts the five-category breakdown never adds up to more than the week's expense total |
| Seqs.SumSortByKey | client/src/lib/localStorage.ts:232 | reordering a list by key does not change its sum |
| Dashboard.StatsIgnoreSale | client/src/lib/localStorage.ts:198-216 | a sale of another user, or dated before the window, changes no statistic |
| Dashboard.StatsIgnoreExpense | client/src/lib/localStorage.ts:199-228 | an expense of another user, or dated before the window, changes no statistic |
| Transactions.CombinedSpec | server/routes.ts:170-189 | the handler's answer is a permutation of the selected projected rows, one per fetched row of a wanted kind, newest date first |
| Transactions.CombinedMember | server/routes.ts:158-188 | an entry is exactly the projection of a fetched sale (sales wanted) or expense (expenses wanted), carrying id and `createdAt` |
| Transactions.CombinedKinds | server/routes.ts:161-167 | "sale" yields only sales, "expense" only expenses, any other non-empty value nothing |
| Transactions.CombinedSameDay | server/routes.ts:189 | entries of one date keep their order: sales first, each list in storage order |
| Transactions.SelectedInRange | client/src/lib/localStorage.ts:294-296 | filtering the merged list by range equals merging the range-filtered lists |
| Transactions.ForUserIsCombined | client/src/lib/localStorage.ts:258-300 | the client service answers as the handler does when the handler is given the user's in-range rows in stored order |
| Transactions.ForUserSpec | client/src/lib/localStorage.ts:258-300 | the answer's length is the number of qualifying sales plus qualifying expenses, newest date first |
| Transactions.ForUserMember | client/src/lib/localStorage.ts:262-296 | an entry is exactly the projection of a row of the user, of a wanted kind, in range when both bounds are given |
| Transactions.SalesInRangeMember | client/src/lib/localStorage.ts:265-296 | the qualifying sales are the user's sales within the range |
| Transactions.ExpensesInRangeMember | client/src/lib/localStorage.ts:280-296 | the qualifying expenses are the user's expenses within the range |
| Transactions.AllForUserIsForUser | App.tsx:286-313 | the duplicate service's list is the client service's unfiltered answer without `createdAt`, same order |
| Transactions.AllForUserSpec | App.tsx:286-313 | it holds each of the user's sales and expenses exactly once, newest date first |
| EntryForm.HandleSubmitSpec | App.tsx:884-900 | a store call happens exactly when amount, category and date are filled in, and creates the chosen kind |
| EntryForm.SubmitThenList | App.tsx:893-895 | the created record shows the form's amount, category (an expense's type) and date, and its notes as description, empty notes as absent |
| EntryForm.EditSale | App.tsx:1191-1197 | the patch the dialog sends targets the listed sale's id and, applied to that sale, shows the dialog's values, description as notes |
| EntryForm.EditExpense | App.tsx:1198-1204 | the same for an expense: category as type, description as description |
| EntryForm.EditListedSale | App.tsx:1191-1197 | when the listed sale is the first row with its id and owner, the store's update patches exactly that row, which is then listed with the dialog's values |
| EntryForm.EditSharedIdSale | App.tsx:1191-1197 | when an earlier row of the same user shares the id, the store's update does not patch the listed sale |
| EntryForm.EditListedExpense | App.tsx:1198-1204 | the same as EditListedSale for an expense |
| EntryForm.EditUnchangedSale | App.tsx:1185-1197 | saving the dialog unchanged keeps the sale except that absent notes become empty text |
| EntryForm.EditUnchangedExpense | App.tsx:1185-1204 | the same for an expense's description |
| TransactionsList.NoData | client/src/components/TransactionsList.tsx:82-88 | without a list both the filtered list and the categories are empty |
| TransactionsList.FilterAll | client/src/components/TransactionsList.tsx:83 | "all" keeps every transaction in order |
| TransactionsList.FilterCategory | client/src/components/TransactionsList.tsx:82-85 | any other value keeps exactly the transactions of that category, in order |
| TransactionsList.CategoriesSpec | client/src/components/TransactionsList.tsx:88 | categories are distinct, exactly the transactions' categories, in first-occurrence order |
| TransactionsList.OfferedCategoryShowsSomething | client/src/components/TransactionsList.tsx:82-88 | choosing any offered category, even one named "all", never shows an empty list |

## Left out

- Logging in and out and reading the current user from browser storage: the current user is a parameter.
- Reading and writing the lists as JSON in browser storage, and the empty-list fallback for malformed data: the lists are the class's fields.
- `parseFloat` sums, `toString` renderings and currency formatting: floating point and locale formatting; amounts are exact.
- The clock: `Date.now()` ids, `toISOString` timestamps and today's date are parameters; a new record's id, `createdAt` and `updatedAt` come from separate clock reads in the code, and the model uses one instant for both timestamps. Ids are not assumed unique; update acts on the first matching row and delete on all of them.
- Malformed date strings (for which `new Date(..).getTime()` is NaN and the comparator is inconsistent): dates are day numbers.
- server/storage.ts is not part of this model: the handler's inputs are the rows it returns.
- Store.LocalStorageService.UpdateSale: the patch carries only the four input fields; the code spreads an arbitrary object (`any` in the duplicate service), which could also overwrite `id`, `userId` or `createdAt`, or set a field to `undefined`.
- Store.LocalStorageService.UpdateExpense: the same restriction of the patch to the four input fields.
- EntryForm.EditRequest: the dialog's amount and date are always values; an emptied amount or date field, which the code would send as an empty string, is not modelled.
- Dashboard.GroupTotals: keys are listed in first-seen order; `Object.entries` lists keys that look like array indices (a category named "42") first, in numeric order, which only changes the order among categories with equal totals. The grouping record is a plain object, so a category named after an `Object.prototype` member breaks the code: `__proto__` never gets a bucket, and `constructor`, `toString`, `valueOf` and the like start from a function and total to NaN; the model gives such categories ordinary totals.
- Transactions.ForUserIsCombined: server/storage.ts returns rows by date then creation time, newest first, while the client service keeps stored (creation) order, so after the stable date sort the server lists entries of one day newest-created first and the client service oldest first; the lemma relates the two only for rows given in stored order.
- Transactions.ForUser: an empty-string date bound counts as absent, as `startDate && endDate` treats it; the range then does not apply.
- React components, toasts, dialogs, routing, query plumbing and the zod schemas: user interface and library code.
