/** The `transactions` table and `TransactionsService`: owner-scoped
    create/read/update/delete, the paginated listing and the income/expense
    summary over an inclusive date range. */
module Transactions {
  import opened Wrappers
  import opened Table
  import opened Calendar
  import opened Sorting

  datatype TxType = Income | Expense

  /** A row of the `transactions` table. `amount` is a `decimal(12,2)` held as
      a whole number of cents; `createdAt` is the insertion instant. */
  datatype Transaction = Transaction(
    id: Id,
    amount: int,
    kind: TxType,
    date: Date,
    notes: Option<string>,
    isRecurring: bool,
    userId: Id,
    categoryId: Option<Id>,
    createdAt: int)

  /** A validated create request; absent optional fields are `None`. */
  datatype CreateTransactionDto = CreateTransactionDto(
    amount: int,
    kind: TxType,
    date: Date,
    notes: Option<string>,
    isRecurring: Option<bool>,
    categoryId: Option<Id>)

  /** A validated update request: `None` for a field not supplied. The two
      nullable columns can also be supplied as `null` (`Some(None)`). */
  datatype UpdateTransactionDto = UpdateTransactionDto(
    amount: Option<int>,
    kind: Option<TxType>,
    date: Option<Date>,
    notes: Option<Option<string>>,
    isRecurring: Option<bool>,
    categoryId: Option<Option<Id>>)

  const NoChange := UpdateTransactionDto(None, None, None, None, None, None)

  /** The row `create` builds from a request: the caller's `userId` wins over
      anything in the request, and `isRecurring` defaults to false. */
  function NewTransaction(id: Id, userId: Id, dto: CreateTransactionDto, createdAt: int): (t: Transaction)
    ensures t.id == id && t.userId == userId && t.createdAt == createdAt
    ensures t.amount == dto.amount && t.kind == dto.kind && t.date == dto.date
    ensures t.notes == dto.notes && t.categoryId == dto.categoryId
    ensures t.isRecurring <==> dto.isRecurring == Some(true)
  {
    Transaction(id, dto.amount, dto.kind, dto.date, dto.notes,
                if dto.isRecurring.Some? then dto.isRecurring.value else false,
                userId, dto.categoryId, createdAt)
  }

  /** The row after `repo.update(..., dto)`: a field changes only when the
      request supplies it, and then takes the supplied value; the
      identity, owner and creation instant kept. */
  function ApplyPatch(t: Transaction, p: UpdateTransactionDto): (r: Transaction)
    ensures r.id == t.id && r.userId == t.userId && r.createdAt == t.createdAt
    ensures p.amount.Some? ==> r.amount == p.amount.value
    ensures r.amount != t.amount ==> p.amount == Some(r.amount)
    ensures p.kind.Some? ==> r.kind == p.kind.value
    ensures r.kind != t.kind ==> p.kind == Some(r.kind)
    ensures p.date.Some? ==> r.date == p.date.value
    ensures r.date != t.date ==> p.date == Some(r.date)
    ensures p.notes.Some? ==> r.notes == p.notes.value
    ensures r.notes != t.notes ==> p.notes == Some(r.notes)
    ensures p.isRecurring.Some? ==> r.isRecurring == p.isRecurring.value
    ensures r.isRecurring != t.isRecurring ==> p.isRecurring == Some(r.isRecurring)
    ensures p.categoryId.Some? ==> r.categoryId == p.categoryId.value
    ensures r.categoryId != t.categoryId ==> p.categoryId == Some(r.categoryId)
  {
    t.(amount := Supplied(p.amount, t.amount),
       kind := Supplied(p.kind, t.kind),
       date := Supplied(p.date, t.date),
       notes := Supplied(p.notes, t.notes),
       isRecurring := Supplied(p.isRecurring, t.isRecurring),
       categoryId := Supplied(p.categoryId, t.categoryId))
  }

  /** An update that supplies nothing leaves the row as it is. */
  lemma EmptyPatchKeepsRow(t: Transaction)
    ensures ApplyPatch(t, NoChange) == t
  {
  }

  /** Repeating an update changes nothing more. */
  lemma PatchIdempotent(t: Transaction, p: UpdateTransactionDto)
    ensures ApplyPatch(ApplyPatch(t, p), p) == ApplyPatch(t, p)
  {
  }

  /** The `{ id, userId }` filter of `findOne`, `update` and `delete`. */
  function Owned(userId: Id, id: Id): Transaction -> bool {
    (t: Transaction) => t.id == id && t.userId == userId
  }

  function IndexOf(rows: seq<Transaction>, userId: Id, id: Id): Option<nat> {
    FirstIndex(rows, Owned(userId, id))
  }

  /** `findOne`: the caller's row with that id, or NotFound. Another user's
      row is never returned, even when the id matches. */
  function FindOne(rows: seq<Transaction>, userId: Id, id: Id): (r: Result<Transaction>)
    ensures r.Ok? <==> exists i :: 0 <= i < |rows| && rows[i].id == id && rows[i].userId == userId
    ensures r.Ok? ==> r.value in rows && r.value.id == id && r.value.userId == userId
    ensures r.Err? ==> r.error == NotFound
  {
    match IndexOf(rows, userId, id)
    case None => Err(NotFound)
    case Some(k) => Ok(rows[k])
  }

  /** The listing order: `date` descending, then `createdAt` descending. */
  predicate ListedBefore(a: Transaction, b: Transaction) {
    if a.date == b.date then a.createdAt >= b.createdAt else OnOrBefore(b.date, a.date)
  }

  lemma ListedBeforeIsTotalPreorder()
    ensures TotalPreorder(ListedBefore)
  {
  }

  function OwnedBy(userId: Id): Transaction -> bool {
    (t: Transaction) => t.userId == userId
  }

  /** All of the caller's rows in listing order. */
  function Listing(rows: seq<Transaction>, userId: Id): (r: seq<Transaction>)
    ensures Sorted(r, ListedBefore)
    ensures multiset(r) == multiset(Filter(rows, OwnedBy(userId)))
  {
    ListedBeforeIsTotalPreorder();
    Sort(Filter(rows, OwnedBy(userId)), ListedBefore)
  }

  /** Listing holds the caller's rows and no one else's. */
  lemma ListingIsOwned(rows: seq<Transaction>, userId: Id, i: nat)
    requires i < |Listing(rows, userId)|
    ensures Listing(rows, userId)[i] in rows && Listing(rows, userId)[i].userId == userId
  {
    var all := Listing(rows, userId);
    assert all[i] in multiset(all);
    var mine := Filter(rows, OwnedBy(userId));
    assert all[i] in multiset(mine);
    var k :| 0 <= k < |mine| && mine[k] == all[i];
  }

  function Min(a: int, b: int): int {
    if a <= b then a else b
  }

  /** How many rows come before page `page`. */
  function Offset(page: nat, limit: nat): nat
    requires page >= 1
  {
    (page - 1) * limit
  }

  /** `findAll(userId, page, limit)`: skips `(page - 1) * limit` rows of the
      caller's listing and returns at most `limit`. */
  function FindAll(rows: seq<Transaction>, userId: Id, page: nat, limit: nat): (r: seq<Transaction>)
    requires page >= 1 && limit >= 1
    ensures |r| <= limit
    ensures |r| == if Offset(page, limit) >= |Listing(rows, userId)| then 0
      else Min(limit, |Listing(rows, userId)| - Offset(page, limit))
    ensures Sorted(r, ListedBefore)
    ensures forall i :: 0 <= i < |r| ==> r[i] in rows && r[i].userId == userId
  {
    var all := Listing(rows, userId);
    var skip := Offset(page, limit);
    if skip >= |all| then []
    else
      SortedSlice(all, ListedBefore, skip, Min(skip + limit, |all|));
      SliceOwned(rows, userId, skip, Min(skip + limit, |all|));
      all[skip..Min(skip + limit, |all|)]
  }

  /** Every piece of the listing holds the caller's rows only. */
  lemma SliceOwned(rows: seq<Transaction>, userId: Id, lo: nat, hi: nat)
    requires lo <= hi <= |Listing(rows, userId)|
    ensures forall i :: 0 <= i < hi - lo ==>
      Listing(rows, userId)[lo..hi][i] in rows && Listing(rows, userId)[lo..hi][i].userId == userId
  {
    var all := Listing(rows, userId);
    forall i | 0 <= i < hi - lo
      ensures all[lo..hi][i] in rows && all[lo..hi][i].userId == userId
    {
      assert all[lo..hi][i] == all[lo + i];
      ListingIsOwned(rows, userId, lo + i);
    }
  }

  /** The page, counted from 1, that row `i` of the listing falls on. */
  function PageOf(i: nat, limit: nat): nat
    requires limit >= 1
  {
    i / limit + 1
  }

  /** Where row `i` of the listing sits on its page. */
  function Slot(i: nat, limit: nat): nat
    requires limit >= 1
  {
    i % limit
  }

  /** `findAll(userId)` with the service's own defaults, page 1 of 20. */
  function FindAllDefault(rows: seq<Transaction>, userId: Id): (r: seq<Transaction>)
    ensures |r| == Min(20, |Listing(rows, userId)|)
    ensures forall i :: 0 <= i < |r| ==> r[i] == Listing(rows, userId)[i]
  {
    var r := FindAll(rows, userId, 1, 20);
    forall i | 0 <= i < |r|
      ensures r[i] == Listing(rows, userId)[i]
    {
      PageAt(rows, userId, 1, 20, i);
    }
    r
  }

  /** Row `i` of the listing is entry `Slot(i, limit)` of page
      `PageOf(i, limit)`: the pages cut the listing into consecutive pieces. */
  lemma PageHoldsRow(rows: seq<Transaction>, userId: Id, limit: nat, i: nat)
    requires limit >= 1 && i < |Listing(rows, userId)|
    ensures PageOf(i, limit) >= 1
    ensures |FindAll(rows, userId, PageOf(i, limit), limit)| > Slot(i, limit)
    ensures FindAll(rows, userId, PageOf(i, limit), limit)[Slot(i, limit)] == Listing(rows, userId)[i]
  {
    RowOffset(i, limit);
    PageAt(rows, userId, PageOf(i, limit), limit, Slot(i, limit));
  }

  /** Entry `m` of page `page` is row `Offset(page, limit) + m` of the listing. */
  lemma PageAt(rows: seq<Transaction>, userId: Id, page: nat, limit: nat, m: nat)
    requires page >= 1 && limit >= 1 && m < limit
    requires Offset(page, limit) + m < |Listing(rows, userId)|
    ensures |FindAll(rows, userId, page, limit)| > m
    ensures FindAll(rows, userId, page, limit)[m] == Listing(rows, userId)[Offset(page, limit) + m]
  {
    var all, skip := Listing(rows, userId), Offset(page, limit);
    assert FindAll(rows, userId, page, limit) == all[skip..Min(skip + limit, |all|)];
  }

  /** Row `i` is entry `Slot(i, limit)` past the start of page `PageOf(i, limit)`. */
  lemma RowOffset(i: nat, limit: nat)
    requires limit >= 1
    ensures PageOf(i, limit) >= 1 && Slot(i, limit) < limit
    ensures Offset(PageOf(i, limit), limit) + Slot(i, limit) == i
  {
    DivMod(i, limit);
  }

  lemma DivMod(i: nat, limit: nat)
    requires limit >= 1
    ensures (i / limit) * limit + i % limit == i && 0 <= i % limit < limit
  {
  }

  /** The sum of the amounts of `rows`. */
  function Total(rows: seq<Transaction>): int {
    if rows == [] then 0 else rows[0].amount + Total(rows[1..])
  }

  lemma {:induction false} TotalAppend(a: seq<Transaction>, b: seq<Transaction>)
    ensures Total(a + b) == Total(a) + Total(b)
  {
    if a == [] {
      assert a + b == b;
    } else {
      assert (a + b)[1..] == a[1..] + b;
      TotalAppend(a[1..], b);
    }
  }

  function OfKind(k: TxType): Transaction -> bool {
    (t: Transaction) => t.kind == k
  }

  /** The summary's filter: the caller's rows dated within `[start, end]`,
      both ends included. */
  function InRange(userId: Id, start: Date, end: Date): (r: Transaction -> bool)
    ensures forall t: Transaction :: r(t) ==> t.userId == userId && OnOrBefore(start, end)
    ensures forall t: Transaction ::
      (t.userId == userId && OnOrBefore(start, end) && (t.date == start || t.date == end)) ==> r(t)
  {
    (t: Transaction) => t.userId == userId && OnOrBefore(start, t.date) && OnOrBefore(t.date, end)
  }

  /** The range is the closed range of day numbers from `start` to `end`. */
  lemma InRangeByDayNumber(userId: Id, start: Date, end: Date, t: Transaction)
    ensures InRange(userId, start, end)(t)
      <==> t.userId == userId && DayNumber(start) <= DayNumber(t.date) <= DayNumber(end)
  {
    OrderAgreesWithDayNumber(start, t.date);
    OrderAgreesWithDayNumber(t.date, end);
  }

  datatype Summary = Summary(income: int, expense: int, balance: int, count: nat)

  const Zero := Summary(0, 0, 0, 0)

  /** Two summaries of disjoint sets of rows combined. */
  function Plus(a: Summary, b: Summary): Summary {
    Summary(a.income + b.income, a.expense + b.expense, a.balance + b.balance, a.count + b.count)
  }

  /** The figures `getSummary` reports for the rows its query found. */
  function SummaryOf(found: seq<Transaction>): (s: Summary)
    ensures s.balance == s.income - s.expense
    ensures s.count == |found|
  {
    var income := KindTotal(found, Income);
    var expense := KindTotal(found, Expense);
    Summary(income, expense, income - expense, |found|)
  }

  /** `getSummary(userId, startDate, endDate)`. */
  function GetSummary(rows: seq<Transaction>, userId: Id, start: Date, end: Date): (s: Summary)
    ensures s.balance == s.income - s.expense
    ensures s.count == |Filter(rows, InRange(userId, start, end))| <= |rows|
  {
    SummaryOf(Filter(rows, InRange(userId, start, end)))
  }

  /** The summary of two tables together is the sum of their summaries. */
  lemma SummaryAppend(a: seq<Transaction>, b: seq<Transaction>, userId: Id, start: Date, end: Date)
    ensures GetSummary(a + b, userId, start, end)
      == Plus(GetSummary(a, userId, start, end), GetSummary(b, userId, start, end))
  {
    var sel := InRange(userId, start, end);
    FilterAppend(a, b, sel);
    SummaryOfAppend(Filter(a, sel), Filter(b, sel));
  }

  /** The figures for two disjoint pieces of a result add up. */
  lemma SummaryOfAppend(a: seq<Transaction>, b: seq<Transaction>)
    ensures SummaryOf(a + b) == Plus(SummaryOf(a), SummaryOf(b))
  {
    KindTotalAppend(a, b, Income);
    KindTotalAppend(a, b, Expense);
  }

  /** The sum of the amounts of the rows of kind `k`: the whole total when
      every row is of that kind, 0 when none is. */
  function KindTotal(rows: seq<Transaction>, k: TxType): (r: int)
    ensures (forall i :: 0 <= i < |rows| ==> rows[i].kind == k) ==> r == Total(rows)
    ensures (forall i :: 0 <= i < |rows| ==> rows[i].kind != k) ==> r == 0
  {
    FilterKeepsAll(rows, OfKind(k));
    Total(Filter(rows, OfKind(k)))
  }

  /** The total of one kind over two tables is the sum of the two totals. */
  lemma KindTotalAppend(a: seq<Transaction>, b: seq<Transaction>, k: TxType)
    ensures KindTotal(a + b, k) == KindTotal(a, k) + KindTotal(b, k)
  {
    FilterAppend(a, b, OfKind(k));
    TotalAppend(Filter(a, OfKind(k)), Filter(b, OfKind(k)));
  }

  /** What one row adds to a summary: nothing when the query does not
      select it, otherwise its amount on the income or the expense side
      according to its kind, and one more in the count. */
  function RowSummary(t: Transaction, userId: Id, start: Date, end: Date): Summary {
    if !InRange(userId, start, end)(t) then Zero
    else if t.kind == Income then Summary(t.amount, 0, t.amount, 1)
    else Summary(0, t.amount, -t.amount, 1)
  }

  /** One more row changes the summary by exactly its own figures. */
  lemma SummaryStep(rows: seq<Transaction>, t: Transaction, userId: Id, start: Date, end: Date)
    ensures GetSummary(rows + [t], userId, start, end)
      == Plus(GetSummary(rows, userId, start, end), RowSummary(t, userId, start, end))
  {
    SummaryAppend(rows, [t], userId, start, end);
    OneRowSummary(t, userId, start, end);
  }

  /** The summary of a single row is that row's figures. */
  lemma OneRowSummary(t: Transaction, userId: Id, start: Date, end: Date)
    ensures GetSummary([t], userId, start, end) == RowSummary(t, userId, start, end)
  {
    var sel := InRange(userId, start, end);
    assert [t][1..] == [];
    if sel(t) {
      assert Filter([t], sel) == [t];
      assert Total([t]) == t.amount + Total([]);
    } else {
      assert Filter([t], sel) == [];
    }
  }

  /** The summary of three rows, one row at a time. */
  lemma ThreeRowSummary(a: Transaction, b: Transaction, c: Transaction, userId: Id, start: Date, end: Date)
    ensures GetSummary([a, b, c], userId, start, end)
      == Plus(Plus(RowSummary(a, userId, start, end), RowSummary(b, userId, start, end)), RowSummary(c, userId, start, end))
  {
    AppendedRowsSummary(a, b, c, userId, start, end);
    ThreeRowsAppended(a, b, c, userId, start, end);
  }

  lemma ThreeRowsAppended(a: Transaction, b: Transaction, c: Transaction, userId: Id, start: Date, end: Date)
    ensures GetSummary([a, b, c], userId, start, end) == GetSummary([a] + [b] + [c], userId, start, end)
  {
    assert [a, b, c] == [a] + [b] + [c];
  }

  lemma AppendedRowsSummary(a: Transaction, b: Transaction, c: Transaction, userId: Id, start: Date, end: Date)
    ensures GetSummary([a] + [b] + [c], userId, start, end)
      == Plus(Plus(RowSummary(a, userId, start, end), RowSummary(b, userId, start, end)), RowSummary(c, userId, start, end))
  {
    OneRowSummary(a, userId, start, end);
    SummaryStep([a], b, userId, start, end);
    SummaryStep([a] + [b], c, userId, start, end);
  }

  /** Rows outside the caller's range, or belonging to another user, do not
      change the summary. */
  lemma SummaryIgnoresUnselected(rows: seq<Transaction>, others: seq<Transaction>, userId: Id, start: Date, end: Date)
    requires forall i :: 0 <= i < |others| ==> !InRange(userId, start, end)(others[i])
    ensures GetSummary(rows + others, userId, start, end) == GetSummary(rows, userId, start, end)
  {
    SummaryAppend(rows, others, userId, start, end);
    FilterRejectsAll(others, InRange(userId, start, end));
  }

  /** When the query selects no row the summary is all zeros; the reduce
      over an empty result never fails. */
  lemma NoSelectedZero(rows: seq<Transaction>, userId: Id, start: Date, end: Date)
    requires forall i :: 0 <= i < |rows| ==> !InRange(userId, start, end)(rows[i])
    ensures GetSummary(rows, userId, start, end) == Zero
  {
    FilterRejectsAll(rows, InRange(userId, start, end));
    assert KindTotal([], Income) == 0 && KindTotal([], Expense) == 0;
  }

  /** An empty range (end before start) yields all zeros. */
  lemma EmptyRangeSummary(rows: seq<Transaction>, userId: Id, start: Date, end: Date)
    requires !OnOrBefore(start, end)
    ensures GetSummary(rows, userId, start, end) == Zero
  {
  }

  lemma {:induction false} KindsPartition(s: seq<Transaction>)
    ensures KindTotal(s, Income) + KindTotal(s, Expense) == Total(s)
    ensures |Filter(s, OfKind(Income))| + |Filter(s, OfKind(Expense))| == |s|
  {
    if s != [] {
      KindsPartition(s[1..]);
    }
  }

  /** Every selected row is income or expense: the two sums together are
      the total of the selected amounts, and `count` counts both kinds. */
  lemma IncomeAndExpenseCoverRange(rows: seq<Transaction>, userId: Id, start: Date, end: Date)
    ensures
      var s := GetSummary(rows, userId, start, end);
      var found := Filter(rows, InRange(userId, start, end));
      && s.income + s.expense == Total(found)
      && s.count == |Filter(found, OfKind(Income))| + |Filter(found, OfKind(Expense))|
  {
    KindsPartition(Filter(rows, InRange(userId, start, end)));
  }

  /** January 2024: income 1000.00 on the 5th, expense 300.00 on the 10th,
      and an expense of 50.00 on February 1st that falls outside. */
  lemma JanuarySummary()
    ensures
      var rows := [
        Transaction(1, 100000, Income, Ymd(2024, 1, 5), None, false, 7, None, 0),
        Transaction(2, 30000, Expense, Ymd(2024, 1, 10), None, false, 7, None, 1),
        Transaction(3, 5000, Expense, Ymd(2024, 2, 1), None, false, 7, None, 2)];
      GetSummary(rows, 7, Ymd(2024, 1, 1), Ymd(2024, 1, 31)) == Summary(100000, 30000, 70000, 2)
  {
    var income := Transaction(1, 100000, Income, Ymd(2024, 1, 5), None, false, 7, None, 0);
    var expense := Transaction(2, 30000, Expense, Ymd(2024, 1, 10), None, false, 7, None, 1);
    var late := Transaction(3, 5000, Expense, Ymd(2024, 2, 1), None, false, 7, None, 2);
    var start, end := Ymd(2024, 1, 1), Ymd(2024, 1, 31);
    ThreeRowSummary(income, expense, late, 7, start, end);
    assert OnOrBefore(start, income.date) && OnOrBefore(income.date, end);
    assert RowSummary(income, 7, start, end) == Summary(100000, 0, 100000, 1);
    assert OnOrBefore(start, expense.date) && OnOrBefore(expense.date, end);
    assert RowSummary(expense, 7, start, end) == Summary(0, 30000, -30000, 1);
    assert RowSummary(late, 7, start, end) == Zero;
  }

  function IdOf(r: Transaction): Id {
    r.id
  }

  /** The in-memory `transactions` table behind `TransactionsService`. */
  class TransactionsService {
    var table: seq<Transaction>
    var nextId: Id

    ghost predicate Valid()
      reads this
    {
      UniqueKeys(table, IdOf) && KeysBelow(table, IdOf, nextId)
    }

    constructor ()
      ensures Valid() && table == []
    {
      table := [];
      nextId := 0;
    }

    /** With unique ids, the row at `k` is the only one the owner filter
        matches. */
    lemma OnlyMatch(userId: Id, id: Id, k: nat)
      requires Valid() && k < |table| && Owned(userId, id)(table[k])
      ensures forall j :: 0 <= j < |table| && j != k ==> !Owned(userId, id)(table[j])
    {
    }

    /** `create(userId, dto)`: appends a fresh row owned by the caller. */
    method Create(userId: Id, dto: CreateTransactionDto, createdAt: int) returns (t: Transaction)
      requires Valid()
      modifies this
      ensures Valid()
      ensures t == NewTransaction(old(nextId), userId, dto, createdAt)
      ensures table == old(table) + [t]
    {
      t := NewTransaction(nextId, userId, dto, createdAt);
      table := table + [t];
      nextId := nextId + 1;
    }

    /** `update(userId, id, dto)`: NotFound and no change unless the caller
        owns a row with that id; otherwise only that row takes the supplied
        fields, and the fresh row is returned. */
    method Update(userId: Id, id: Id, dto: UpdateTransactionDto) returns (r: Result<Transaction>)
      requires Valid()
      modifies this
      ensures Valid() && nextId == old(nextId)
      ensures IndexOf(old(table), userId, id).None? ==> r == Err(NotFound) && table == old(table)
      ensures IndexOf(old(table), userId, id).Some? ==>
        var k := IndexOf(old(table), userId, id).value;
        && table == old(table)[k := ApplyPatch(old(table)[k], dto)]
        && r == Ok(table[k])
      ensures forall i :: 0 <= i < |table| && old(table)[i].userId != userId ==> table[i] == old(table)[i]
    {
      var found := FindOne(table, userId, id);
      if found.Err? {
        return Err(NotFound);
      }
      var k := IndexOf(table, userId, id).value;
      OnlyMatch(userId, id, k);
      ghost var before := table;
      var patched := ApplyPatch(table[k], dto);
      table := MapWhere(table, Owned(userId, id), (t: Transaction) => ApplyPatch(t, dto));
      assert table == before[k := patched];
      assert forall j :: 0 <= j < |table| ==> table[j].id == before[j].id;
      FirstIndexOfUnique(table, Owned(userId, id), k);
      r := FindOne(table, userId, id);
    }

    /** `remove(userId, id)`: NotFound and no change unless the caller owns a
        row with that id; otherwise exactly that row is deleted. */
    method Remove(userId: Id, id: Id) returns (r: Result<Deleted>)
      requires Valid()
      modifies this
      ensures Valid() && nextId == old(nextId)
      ensures IndexOf(old(table), userId, id).None? ==> r == Err(NotFound) && table == old(table)
      ensures IndexOf(old(table), userId, id).Some? ==>
        var k := IndexOf(old(table), userId, id).value;
        && table == old(table)[..k] + old(table)[k + 1..]
        && r == Ok(Deleted(true))
      ensures forall i :: 0 <= i < |old(table)| && old(table)[i].userId != userId ==> old(table)[i] in table
    {
      var found := FindOne(table, userId, id);
      if found.Err? {
        return Err(NotFound);
      }
      var k := IndexOf(table, userId, id).value;
      OnlyMatch(userId, id, k);
      ghost var before := table;
      var keep := (t: Transaction) => !Owned(userId, id)(t);
      FilterDropsOne(table, keep, k);
      table := Filter(table, keep);
      RemoveAtKeeps(before, k, IdOf, nextId);
      r := Ok(Deleted(true));
    }
  }
}
