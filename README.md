# Finance tracker backend — a Dafny model of its services

This project models the service layer of a personal-finance backend. Users record income and expense
transactions tagged by category. They also define weekly or monthly budgets per category, and the
service reports how much of each budget has been spent. The database is replaced by in-memory tables:
each service is a class holding its table as a `seq` of rows and a counter that hands out primary keys.

- `Calendar` (calendar.dfy): calendar days as stored in a `date` column. It has their order and their
  numbering from 1970-01-01. It also models the two pieces of JavaScript `Date` arithmetic the budget
  window uses: `setDate(getDate() + 7)` and `setMonth(getMonth() + 1)`. For both, a day-of-month past
  the end of the month overflows forward into the next month; it is not clamped.
- `Table`, `Sorting` (table.dfy, sorting.dfy): the repository calls, written over a sequence of rows.
  A `find` with a filter, a `findOne`, an `update` and a `delete` over every row the filter matches,
  and `ORDER BY` as a sort specified by sortedness and permutation.
- `Transactions` (transactions.dfy): the `transactions` table and `TransactionsService`. It covers
  owner-scoped create/findOne/update/remove, the paginated listing, and the income/expense summary.
- `TransactionDto` (transaction_dto.dfy): the `isRecurring` coercion and the `income | expense` rule.
- `Budgets` (budgets.dfy): the `budgets` table and `BudgetsService`. It covers owner-scoped CRUD, the
  listing by start date, and the progress report: the period window, the expense sum and `remaining`.
- `Categories` (categories.dfy): the global `categories` table and `CategoriesService`. It covers CRUD
  with not-found checks, the listing by name, and the idempotent seeding of eight default categories.

Money is a whole number of cents (the columns are `decimal(12,2)`). Dates are calendar days. Row ids
are natural numbers. The current instant (`now`, `createdAt`) is a parameter. Pure queries
(`findOne`, `findAll`, `getSummary`, `getProgress`) are functions of the tables. Operations that change
a table are methods of the service classes. Their contracts give the new table in terms of the old one.

The model follows the code where it departs from what a reader might expect of a budgeting app:
- A monthly window ends on the same day-of-month one month later, with JavaScript `setMonth` overflow
  (January 31st ends on March 3rd, or March 2nd in a leap year). It is not clamped to the end of
  the month (a month-end clamp would end it on the last day of February). `Calendar.AddMonth` proves that a monthly window always ends exactly as many days after
  its start as the start's month has.
- The window is always the budget's first period, starting on its own `startDate`. The computed `now`
  is never used.
- The window's range test is SQL `BETWEEN`, which includes both ends. A transaction dated on the end
  day counts.
- The code does not enforce a non-negative amount. The DTO accepts any number. Amounts are therefore
  unrestricted integers, and `remaining` may be negative.

## Model

| member | source | states |
|---|---|---|
| Calendar.FirstOfNextMonth | src/budgets/budgets.service.ts:50 | the month after December is January of the next year; the next month's first day lies exactly one month-length after this month's first day |
| Calendar.MakeDay | src/budgets/budgets.service.ts:50 | a day-of-month past the month's end overflows forward: the result is the day `dd - 1` days after the first of the month |
| Calendar.AddDays | src/budgets/budgets.service.ts:50 | `setDate(getDate() + n)` gives the day exactly `n` days later |
| Calendar.AddMonth | src/budgets/budgets.service.ts:50 | `setMonth(getMonth() + 1)` gives the day `day - 1` days after the first of the next month, which is exactly the start month's length after the start |
| Calendar.AddMonthKeepsDay | src/budgets/budgets.service.ts:50 | when the next month has the day, the result keeps the day-of-month in month + 1, with December rolling into January of the next year |
| Calendar.AddMonthOverflows | src/budgets/budgets.service.ts:50 | when the next month is too short, the result is not clamped: it is in the month after, on day `day - length of next month` |
| Calendar.AddMonthExamples | src/budgets/budgets.service.ts:50 | Jan 31 2023 gives Mar 3, Jan 31 2024 gives Mar 2, Dec 15 2024 gives Jan 15 2025, Mar 1 2024 gives Apr 1 |
| Calendar.OrderAgreesWithDayNumber | src/budgets/budgets.service.ts:58 | comparing `date` values agrees with comparing day numbers, both directions |
| Table.FilterDropsOne | src/budgets/budgets.service.ts:38 | a delete whose filter matches exactly one row removes that row and keeps the rest in order |
| Table.RemoveAtKeeps | src/budgets/budgets.service.ts:38 | deleting one row keeps every other row, and the remaining ids stay distinct and below the id counter |
| Sorting.Sort | src/transactions/transactions.service.ts:20 | the ordered result is sorted by the order and is a permutation of the input |
| Transactions.NewTransaction | src/transactions/transactions.service.ts:11-14 | the created row carries the caller's userId whatever the request holds, the request's fields, and `isRecurring` false unless supplied true |
| Transactions.ApplyPatch | src/transactions/transactions.service.ts:34 | a field changes only when supplied, and then takes the supplied value; id, owner and creation instant are kept |
| Transactions.PatchIdempotent | src/transactions/transactions.service.ts:32-36 | applying the same update twice equals applying it once |
| Transactions.EmptyPatchKeepsRow | src/transactions/transactions.service.ts:34 | an update that supplies no field leaves the row unchanged |
| Transactions.FindOne | src/transactions/transactions.service.ts:26-30 | succeeds exactly when a row has that id and the caller's userId, and returns such a row; otherwise NotFound |
| Transactions.ListedBeforeIsTotalPreorder | src/transactions/transactions.service.ts:20 | date descending, then createdAt descending, is a total preorder |
| Transactions.Listing | src/transactions/transactions.service.ts:17-20 | the caller's rows, sorted by date then createdAt, both descending, each exactly as often as in the table |
| Transactions.ListingIsOwned | src/transactions/transactions.service.ts:18 | every listed row is in the table and belongs to the caller |
| Transactions.FindAll | src/transactions/transactions.service.ts:16-24 | a page holds the caller's rows in listing order; it is empty when `(page - 1) * limit` reaches the end of the listing, and otherwise holds `limit` rows or all that remain, whichever is fewer |
| Transactions.PageAt | src/transactions/transactions.service.ts:21-22 | entry `m < limit` of page `page` is listing row `(page - 1) * limit + m` whenever that row exists |
| Transactions.PageHoldsRow | src/transactions/transactions.service.ts:21-22 | listing row `i` is entry `i % limit` of page `i / limit + 1`: the pages cut the listing into consecutive pieces and miss no row |
| Transactions.TotalAppend | src/transactions/transactions.service.ts:49-50 | the sum of amounts is additive over concatenated tables |
| Transactions.FindAllDefault | src/transactions/transactions.service.ts:16-24 | with the service's defaults, page 1 of 20, the result is the first `min(20, n)` rows of the caller's listing |
| Transactions.InRange | src/transactions/transactions.service.ts:45-46 | a selected row is the caller's and implies `start <= end`; the caller's rows dated on `start` or on `end` are selected (BETWEEN includes both ends) |
| Transactions.InRangeByDayNumber | src/transactions/transactions.service.ts:45-46 | a row is selected exactly when it is the caller's and its day number lies between those of `start` and `end`, both included |
| Transactions.KindTotal | src/transactions/transactions.service.ts:49-50 | the filtered sum of one kind is the whole total when every row is of that kind and 0 when none is |
| Transactions.SummaryOf | src/transactions/transactions.service.ts:49-52 | balance is income minus expense and count is the number of rows the query found |
| Transactions.SummaryOfAppend | src/transactions/transactions.service.ts:49-52 | the figures of two disjoint pieces of a result add up component-wise |
| Transactions.GetSummary | src/transactions/transactions.service.ts:44-53 | balance is income minus expense; count is the number of rows the range query selects, never more than the table size |
| Transactions.OneRowSummary | src/transactions/transactions.service.ts:45-52 | a single row gives zeros when it is not selected; otherwise its amount is income or expense by its kind, with count 1 |
| Transactions.SummaryStep | src/transactions/transactions.service.ts:45-52 | one more row adds nothing when it is not selected; otherwise it adds its amount to income if it is income and to expense if it is expense, and one to the count |
| Transactions.ThreeRowSummary | src/transactions/transactions.service.ts:45-52 | the summary of three rows is the sum of the three rows' own figures |
| Transactions.SummaryAppend | src/transactions/transactions.service.ts:45-52 | the summary of two tables together is the component-wise sum of their summaries |
| Transactions.SummaryIgnoresUnselected | src/transactions/transactions.service.ts:45-47 | rows of other users or dated outside [start, end] do not change the summary |
| Transactions.NoSelectedZero | src/transactions/transactions.service.ts:45-52 | when the query selects no row, income, expense, balance and count are all 0 |
| Transactions.EmptyRangeSummary | src/transactions/transactions.service.ts:45-52 | a range whose end lies before its start yields income 0, expense 0, balance 0, count 0 |
| Transactions.IncomeAndExpenseCoverRange | src/transactions/transactions.service.ts:49-52 | income plus expense is the total of the selected amounts, and count counts the selected rows of both kinds |
| Transactions.JanuarySummary | src/transactions/transactions.service.ts:44-53 | income 1000.00 on Jan 5, expense 300.00 on Jan 10 and 50.00 on Feb 1, over January, give 1000.00 / 300.00 / 700.00 / 2 |
| Transactions.TransactionsService.Create | src/transactions/transactions.service.ts:11-14 | appends one fresh row built from the request and owned by the caller |
| Transactions.TransactionsService.Update | src/transactions/transactions.service.ts:32-36 | NotFound with the table unchanged unless the caller owns that id; otherwise only that row is patched and the fresh row returned; other users' rows never change |
| Transactions.TransactionsService.Remove | src/transactions/transactions.service.ts:38-42 | NotFound with the table unchanged unless the caller owns that id; otherwise exactly that row is deleted and `{deleted: true}` returned; other users' rows stay |
| TransactionDto.CoerceRecurring | src/transactions/dto/transaction.dto.ts:20-24 | `'true'` and `true` become true, `'false'` and `false` become false (both directions), anything else passes through unchanged |
| TransactionDto.CoerceRecurringIdempotent | src/transactions/dto/transaction.dto.ts:20-24 | coercing twice is coercing once |
| TransactionDto.ParseRecurring | src/transactions/dto/transaction.dto.ts:19-26 | after the coercion, exactly the booleans, their two string forms, null and a missing value pass validation, with the matching boolean |
| TransactionDto.ParseType | src/transactions/dto/transaction.dto.ts:9-10 | exactly `income` and `expense` are accepted, each as the type of that name |
| TransactionDto.ParseTypeName | src/transactions/dto/transaction.dto.ts:9-10 | every type is accepted under its own name |
| Budgets.NewBudget | src/budgets/budgets.service.ts:15-18 | the created budget belongs to the caller, carries the request's fields, and is monthly unless weekly was requested |
| Budgets.ApplyPatch | src/budgets/budgets.service.ts:32 | a field changes only when supplied, and then takes the supplied value; id and owner are kept |
| Budgets.PatchIdempotent | src/budgets/budgets.service.ts:30-34 | applying the same update twice equals applying it once |
| Budgets.FindOne | src/budgets/budgets.service.ts:24-28 | succeeds exactly when a budget has that id and the caller's userId; another user's budget is never returned |
| Budgets.StartsLaterIsTotalPreorder | src/budgets/budgets.service.ts:21 | startDate descending is a total preorder |
| Budgets.FindAll | src/budgets/budgets.service.ts:20-22 | the caller's budgets, each exactly as often as in the table, sorted by startDate descending |
| Budgets.PeriodWindow | src/budgets/budgets.service.ts:44-50 | the window starts at the budget's own startDate whatever `now` is; it ends 7 days later for weekly, and one start-month length later for monthly |
| Budgets.Counts | src/budgets/budgets.service.ts:55-58 | a counted row is the caller's expense in the budget's category and implies a non-empty window; rows dated on the window's first or last day are counted (BETWEEN includes both ends) |
| Budgets.CountsByDayNumber | src/budgets/budgets.service.ts:55-58 | a transaction counts exactly when it is the caller's expense in the budget's category and its day number lies between the window's start and end, both included |
| Budgets.Spent | src/budgets/budgets.service.ts:52-61 | when no transaction matches, `SUM` is `NULL` and spent is 0 |
| Budgets.SpentStep | src/budgets/budgets.service.ts:52-58 | a transaction adds its amount to spent exactly when it is the caller's, in the budget's category, an expense, and dated in the window with both ends included |
| Budgets.WeeklyWindowDays | src/budgets/budgets.service.ts:48-58 | a weekly window counts exactly the days 0 to 7 after the start date, eight days in all |
| Budgets.BudgetProgress | src/budgets/budgets.service.ts:61 | an entry keeps the budget; remaining is amount minus spent, negative exactly on overspend |
| Budgets.ProgressOf | src/budgets/budgets.service.ts:46-47 | one entry per budget, in the given order |
| Budgets.GetProgress | src/budgets/budgets.service.ts:42-64 | one entry per `findAll` budget in `findAll` order, each with that budget's spent and remaining |
| Budgets.ProgressIgnoresNow | src/budgets/budgets.service.ts:44 | the report is the same whatever `now` is |
| Budgets.MarchProgress | src/budgets/budgets.service.ts:42-64 | a 500.00 monthly budget from 2024-03-01 with expenses of 120.00, 80.00 (March) and 50.00 (April 2nd) reports 200.00 spent and 300.00 remaining |
| Budgets.BudgetsService.Create | src/budgets/budgets.service.ts:15-18 | appends one fresh budget built from the request and owned by the caller |
| Budgets.BudgetsService.Update | src/budgets/budgets.service.ts:30-34 | NotFound with the table unchanged unless the caller owns that id; otherwise only that row is patched and returned; other users' budgets never change |
| Budgets.BudgetsService.Remove | src/budgets/budgets.service.ts:36-40 | NotFound with the table unchanged unless the caller owns that id; otherwise exactly that row is deleted; other users' budgets stay |
| Categories.NewCategory | src/categories/categories.service.ts:11-14 | the created category takes the request's fields, icon `tag` and color `#6B7280` when absent, and is not a default |
| Categories.ApplyPatch | src/categories/categories.service.ts:28 | a field changes only when supplied, and then takes the supplied value; id and default flag are kept |
| Categories.NameOrderTotal | src/categories/categories.service.ts:17 | any two names are ordered one way or the other |
| Categories.NameOrderTransitive | src/categories/categories.service.ts:17 | name order is transitive |
| Categories.ByNameIsTotalPreorder | src/categories/categories.service.ts:17 | name ascending is a total preorder |
| Categories.FindAll | src/categories/categories.service.ts:16-18 | every category exactly as often as in the table, sorted by name ascending |
| Categories.FindOne | src/categories/categories.service.ts:20-24 | succeeds exactly when a category has that id; otherwise NotFound |
| Categories.DefaultCategories | src/categories/categories.service.ts:41-51 | eight rows, all flagged default, with consecutive fresh ids |
| Categories.DefaultsShape | src/categories/categories.service.ts:41-51 | seeding yields eight categories, all flagged default, with distinct names; the first is Salary, of kind income, and the other seven are of kind expense, so an income category always exists |
| Categories.CategoriesService.Create | src/categories/categories.service.ts:11-14 | appends one fresh category built from the request |
| Categories.CategoriesService.Update | src/categories/categories.service.ts:26-30 | NotFound with the table unchanged for an unknown id; otherwise only that category is patched and returned |
| Categories.CategoriesService.Remove | src/categories/categories.service.ts:32-36 | NotFound with the table unchanged for an unknown id; otherwise exactly that category is deleted and `{deleted: true}` returned |
| Categories.CategoriesService.SeedDefaults | src/categories/categories.service.ts:38-53 | a non-empty table is left alone and nothing is returned; an empty table receives exactly the eight defaults, which are returned |
| Categories.SeedDefaultsTwice | src/categories/categories.service.ts:38-53 | seeding twice leaves the table as seeding once does: eight categories from an empty table, never sixteen |

## Left out

- Authentication and users (src/auth/auth.service.ts, src/users/user.entity.ts) are not modelled: password hashing and token signing are library calls.
- Controllers are not modelled. They are routing; the `page`/`limit` defaults of src/transactions/transactions.controller.ts:19 are not modelled. The service's own defaults (`page = 1`, `limit = 20`) are `Transactions.FindAllDefault`.
- Cascade and set-null deletes in the entity decorators are enforced by the database, so removing a category does not touch transactions or budgets here.
- Foreign keys are not modelled. The database rejects a `categoryId` or `userId` that names no row (src/transactions/transaction.entity.ts:25-35, src/budgets/budget.entity.ts:19-29). The model's `Create` and `Update` accept any id and succeed.
- The `category` relation that `findOne`, `findAll` and the budget listing join in is not modelled; rows carry `categoryId` only.
- Transactions.TransactionsService.Update, Budgets.BudgetsService.Update, Categories.CategoriesService.Update: a request that supplies no field is modelled as a successful update that changes nothing. The ORM throws an "update values missing" error for an `update` with nothing to set (src/transactions/transactions.service.ts:34, src/budgets/budgets.service.ts:32, src/categories/categories.service.ts:28), and the request then fails after the not-found check. That library behaviour is not part of the repository.
- Transactions.FindAll: requires `page >= 1` and `limit >= 1`. The repository code does not say what a zero, negative or non-numeric page or limit does, because that is up to the database layer.
- Amounts are exact cents: the JavaScript float summation (`+t.amount`) and its rounding, and the `decimal(12,2)` range limit, are not modelled.
- Time zones and `Date` parsing of request strings are not modelled: dates are calendar days, and the summary's `startDate`/`endDate` arrive as valid days.
- The `Promise.all` fan-out of `getProgress` is a sequential map that keeps order; a failing query aborting the batch is not modelled.
- The SQL query builder and `SUM` are a filter and a fold; `SUM` returning null on no rows is the fold's 0.
- Generated uuids are drawn from a counter. An id that is not a well-formed uuid, which the database rejects with an error rather than NotFound, is not modelled.
- Ties in `ORDER BY` are left to the database, so the listing contracts promise only sortedness and permutation. The model fixes one listing order for every page. The database may break ties on (date, createdAt) differently from one page query to the next, so `Transactions.PageHoldsRow` (no row is missed across pages) assumes a stable order. Name order compares characters by code point; a database collation may order names differently.
- Request bodies carry only their declared fields. Request validation beyond `isRecurring` and the transaction `type` (`@IsNumber`, `@IsDateString`, `@IsUUID`, `@IsString`) is not modelled. A `null` sent for a non-nullable column, which the database rejects, is not modelled.
- Request numbers in `TransactionDto.Value` are whole numbers; fractional numbers are not represented.
- Concurrency and the lack of atomicity across requests are not modelled.
