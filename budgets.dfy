/** The `budgets` table and `BudgetsService`: owner-scoped create/read/
    update/delete, and the progress report that sums each budget's expenses
    over its first period. */
module Budgets {
  import opened Wrappers
  import opened Table
  import opened Calendar
  import opened Sorting
  import Tx = Transactions

  /** The renewal cadence; a budget created without one is monthly. */
  datatype Period = Weekly | Monthly

  /** A row of the `budgets` table; `amount` in cents. */
  datatype Budget = Budget(
    id: Id,
    amount: int,
    period: Period,
    startDate: Date,
    userId: Id,
    categoryId: Id)

  datatype CreateBudgetDto = CreateBudgetDto(
    amount: int,
    period: Option<Period>,
    startDate: Date,
    categoryId: Id)

  /** A validated update request: `None` for a field not supplied. */
  datatype UpdateBudgetDto = UpdateBudgetDto(
    amount: Option<int>,
    period: Option<Period>,
    startDate: Option<Date>,
    categoryId: Option<Id>)

  /** The row `create` builds: the caller owns it, and the period defaults to
      monthly. */
  function NewBudget(id: Id, userId: Id, dto: CreateBudgetDto): (b: Budget)
    ensures b.id == id && b.userId == userId
    ensures b.amount == dto.amount && b.startDate == dto.startDate && b.categoryId == dto.categoryId
    ensures b.period == Weekly <==> dto.period == Some(Weekly)
  {
    Budget(id, dto.amount, if dto.period.Some? then dto.period.value else Monthly,
           dto.startDate, userId, dto.categoryId)
  }

  /** The row after `repo.update(..., dto)`: a field changes only when the
      request supplies it, and then takes the supplied value; the
      identity and owner kept. */
  function ApplyPatch(b: Budget, p: UpdateBudgetDto): (r: Budget)
    ensures r.id == b.id && r.userId == b.userId
    ensures p.amount.Some? ==> r.amount == p.amount.value
    ensures r.amount != b.amount ==> p.amount == Some(r.amount)
    ensures p.period.Some? ==> r.period == p.period.value
    ensures r.period != b.period ==> p.period == Some(r.period)
    ensures p.startDate.Some? ==> r.startDate == p.startDate.value
    ensures r.startDate != b.startDate ==> p.startDate == Some(r.startDate)
    ensures p.categoryId.Some? ==> r.categoryId == p.categoryId.value
    ensures r.categoryId != b.categoryId ==> p.categoryId == Some(r.categoryId)
  {
    b.(amount := Supplied(p.amount, b.amount),
       period := Supplied(p.period, b.period),
       startDate := Supplied(p.startDate, b.startDate),
       categoryId := Supplied(p.categoryId, b.categoryId))
  }

  /** Repeating an update changes nothing more. */
  lemma PatchIdempotent(b: Budget, p: UpdateBudgetDto)
    ensures ApplyPatch(ApplyPatch(b, p), p) == ApplyPatch(b, p)
  {
  }

  function Owned(userId: Id, id: Id): Budget -> bool {
    (b: Budget) => b.id == id && b.userId == userId
  }

  function IndexOf(rows: seq<Budget>, userId: Id, id: Id): Option<nat> {
    FirstIndex(rows, Owned(userId, id))
  }

  /** `findOne`: the caller's budget with that id, or NotFound. Another
      user's budget is never returned, even when the id matches. */
  function FindOne(rows: seq<Budget>, userId: Id, id: Id): (r: Result<Budget>)
    ensures r.Ok? <==> exists i :: 0 <= i < |rows| && rows[i].id == id && rows[i].userId == userId
    ensures r.Ok? ==> r.value in rows && r.value.id == id && r.value.userId == userId
    ensures r.Err? ==> r.error == NotFound
  {
    match IndexOf(rows, userId, id)
    case None => Err(NotFound)
    case Some(k) => Ok(rows[k])
  }

  /** The listing order: `startDate` descending. */
  predicate StartsLater(a: Budget, b: Budget) {
    OnOrBefore(b.startDate, a.startDate)
  }

  lemma StartsLaterIsTotalPreorder()
    ensures TotalPreorder(StartsLater)
  {
  }

  /** `findAll(userId)`: every budget of the caller, latest start first. */
  function FindAll(rows: seq<Budget>, userId: Id): (r: seq<Budget>)
    ensures Sorted(r, StartsLater)
    ensures multiset(r) == multiset(Filter(rows, (b: Budget) => b.userId == userId))
  {
    StartsLaterIsTotalPreorder();
    Sort(Filter(rows, (b: Budget) => b.userId == userId), StartsLater)
  }

  /** The days a budget's progress covers, both ends included. */
  datatype Window = Window(start: Date, end: Date)

  /** The window of `getProgress`: always the budget's first period, starting
      on its own start date whatever the current instant `now` is; a week is
      seven days, a month runs to the same day-of-month of the next month. */
  function PeriodWindow(b: Budget, now: int): (w: Window)
    ensures w.start == b.startDate
    ensures b.period == Weekly ==> DayNumber(w.end) == DayNumber(w.start) + 7
    ensures b.period == Monthly ==>
      DayNumber(w.end) == DayNumber(w.start) + DaysInMonth(w.start.year, w.start.month)
  {
    var start := b.startDate;
    match b.period
    case Monthly => Window(start, AddMonth(start))
    case Weekly => Window(start, AddDays(start, 7))
  }

  /** The spend query's filter: the caller's expenses in the budget's
      category dated within the window, both ends included. */
  function Counts(userId: Id, categoryId: Id, w: Window): (r: Tx.Transaction -> bool)
    ensures forall t: Tx.Transaction :: r(t) ==>
      t.userId == userId && t.categoryId == Some(categoryId) && t.kind == Tx.Expense && OnOrBefore(w.start, w.end)
    ensures forall t: Tx.Transaction ::
      && t.userId == userId && t.categoryId == Some(categoryId) && t.kind == Tx.Expense
      && OnOrBefore(w.start, w.end) && (t.date == w.start || t.date == w.end)
      ==> r(t)
  {
    (t: Tx.Transaction) =>
      && t.userId == userId
      && t.categoryId == Some(categoryId)
      && t.kind == Tx.Expense
      && OnOrBefore(w.start, t.date) && OnOrBefore(t.date, w.end)
  }

  /** A transaction counts against a budget exactly when it is the caller's
      expense in the budget's category and its day number lies between the
      window's first and last day, both included. */
  lemma CountsByDayNumber(userId: Id, b: Budget, now: int, t: Tx.Transaction)
    ensures Counts(userId, b.categoryId, PeriodWindow(b, now))(t)
      <==> && t.userId == userId && t.categoryId == Some(b.categoryId) && t.kind == Tx.Expense
           && DayNumber(b.startDate) <= DayNumber(t.date) <= DayNumber(PeriodWindow(b, now).end)
  {
    var w := PeriodWindow(b, now);
    OrderAgreesWithDayNumber(w.start, t.date);
    OrderAgreesWithDayNumber(t.date, w.end);
  }

  /** `SUM(t.amount)` over the matching transactions; with no matching row
      the sum is `NULL` and the spend is 0. */
  function Spent(txs: seq<Tx.Transaction>, userId: Id, b: Budget, now: int): (r: int)
    ensures (forall i :: 0 <= i < |txs| ==> !Counts(userId, b.categoryId, PeriodWindow(b, now))(txs[i])) ==> r == 0
  {
    var sel := Counts(userId, b.categoryId, PeriodWindow(b, now));
    FilterRejectsAll(txs, sel);
    Tx.Total(Filter(txs, sel))
  }

  /** A new transaction adds its amount to the spend exactly when it matches
      the budget's filter; other users' rows, income, other categories and
      days outside the window change nothing. */
  lemma SpentStep(txs: seq<Tx.Transaction>, t: Tx.Transaction, userId: Id, b: Budget, now: int)
    ensures Spent(txs + [t], userId, b, now)
      == Spent(txs, userId, b, now) + (if Counts(userId, b.categoryId, PeriodWindow(b, now))(t) then t.amount else 0)
  {
    var sel := Counts(userId, b.categoryId, PeriodWindow(b, now));
    FilterAppend(txs, [t], sel);
    Tx.TotalAppend(Filter(txs, sel), Filter([t], sel));
  }

  /** A weekly window takes in eight calendar days: the start date and the
      seven days after it. */
  lemma WeeklyWindowDays(b: Budget, now: int, d: Date)
    requires b.period == Weekly
    ensures
      var w := PeriodWindow(b, now);
      (OnOrBefore(w.start, d) && OnOrBefore(d, w.end))
        <==> DayNumber(b.startDate) <= DayNumber(d) <= DayNumber(b.startDate) + 7
  {
    var w := PeriodWindow(b, now);
    OrderAgreesWithDayNumber(w.start, d);
    OrderAgreesWithDayNumber(d, w.end);
  }

  /** One entry of the progress report: the budget's own fields, what was
      spent, and what remains (negative on overspend, never clamped). */
  datatype Progress = Progress(budget: Budget, spent: int, remaining: int)

  function BudgetProgress(txs: seq<Tx.Transaction>, userId: Id, b: Budget, now: int): (p: Progress)
    ensures p.budget == b
    ensures p.remaining == b.amount - p.spent
    ensures p.remaining < 0 <==> p.spent > b.amount
  {
    var spent := Spent(txs, userId, b, now);
    Progress(b, spent, b.amount - spent)
  }

  function ProgressOf(txs: seq<Tx.Transaction>, userId: Id, budgets: seq<Budget>, now: int): (r: seq<Progress>)
    ensures |r| == |budgets|
    ensures forall i :: 0 <= i < |r| ==> r[i] == BudgetProgress(txs, userId, budgets[i], now)
  {
    if budgets == [] then []
    else [BudgetProgress(txs, userId, budgets[0], now)] + ProgressOf(txs, userId, budgets[1..], now)
  }

  /** `getProgress(userId)`: one entry per budget of the caller, in `findAll`
      order. */
  function GetProgress(rows: seq<Budget>, txs: seq<Tx.Transaction>, userId: Id, now: int): (r: seq<Progress>)
    ensures |r| == |FindAll(rows, userId)|
    ensures forall i :: 0 <= i < |r| ==> r[i].budget == FindAll(rows, userId)[i]
    ensures forall i :: 0 <= i < |r| ==>
      r[i].spent == Spent(txs, userId, r[i].budget, now) && r[i].remaining == r[i].budget.amount - r[i].spent
  {
    ProgressOf(txs, userId, FindAll(rows, userId), now)
  }

  /** The report does not depend on when it is asked for. */
  lemma ProgressIgnoresNow(rows: seq<Budget>, txs: seq<Tx.Transaction>, userId: Id, now1: int, now2: int)
    ensures GetProgress(rows, txs, userId, now1) == GetProgress(rows, txs, userId, now2)
  {
  }

  /** A monthly budget of 500.00 from 2024-03-01 with expenses of 120.00 on
      March 5th, 80.00 on March 20th and 50.00 on April 2nd: 200.00 spent,
      300.00 remaining. */
  lemma MarchProgress()
    ensures
      var b := Budget(1, 50000, Monthly, Ymd(2024, 3, 1), 7, 3);
      var txs := [
        Tx.Transaction(1, 12000, Tx.Expense, Ymd(2024, 3, 5), None, false, 7, Some(3), 0),
        Tx.Transaction(2, 8000, Tx.Expense, Ymd(2024, 3, 20), None, false, 7, Some(3), 1),
        Tx.Transaction(3, 5000, Tx.Expense, Ymd(2024, 4, 2), None, false, 7, Some(3), 2)];
      BudgetProgress(txs, 7, b, 0) == Progress(b, 20000, 30000)
  {
  }

  function IdOf(r: Budget): Id {
    r.id
  }

  /** The in-memory `budgets` table behind `BudgetsService`. */
  class BudgetsService {
    var table: seq<Budget>
    var nextId: Id

    ghost predicate Valid()
      reads this
    {
      UniqueKeys(table, IdOf) && KeysBelow(table, IdOf, nextId)
    }

    constructor ()
      ensures Valid() && table == []
    {
      table := [];
      nextId := 0;
    }

    lemma OnlyMatch(userId: Id, id: Id, k: nat)
      requires Valid() && k < |table| && Owned(userId, id)(table[k])
      ensures forall j :: 0 <= j < |table| && j != k ==> !Owned(userId, id)(table[j])
    {
    }

    /** `create(userId, dto)`: appends a fresh budget owned by the caller. */
    method Create(userId: Id, dto: CreateBudgetDto) returns (b: Budget)
      requires Valid()
      modifies this
      ensures Valid()
      ensures b == NewBudget(old(nextId), userId, dto)
      ensures table == old(table) + [b]
    {
      b := NewBudget(nextId, userId, dto);
      table := table + [b];
      nextId := nextId + 1;
    }

    /** `update(userId, id, dto)`: NotFound and no change unless the caller
        owns a budget with that id; otherwise only that row takes the
        supplied fields, and the fresh row is returned. */
    method Update(userId: Id, id: Id, dto: UpdateBudgetDto) returns (r: Result<Budget>)
      requires Valid()
      modifies this
      ensures Valid() && nextId == old(nextId)
      ensures IndexOf(old(table), userId, id).None? ==> r == Err(NotFound) && table == old(table)
      ensures IndexOf(old(table), userId, id).Some? ==>
        var k := IndexOf(old(table), userId, id).value;
        && table == old(table)[k := ApplyPatch(old(table)[k], dto)]
        && r == Ok(table[k])
      ensures forall i :: 0 <= i < |table| && old(table)[i].userId != userId ==> table[i] == old(table)[i]
    {
      var found := FindOne(table, userId, id);
      if found.Err? {
        return Err(NotFound);
      }
      var k := IndexOf(table, userId, id).value;
      OnlyMatch(userId, id, k);
      ghost var before := table;
      var patched := ApplyPatch(table[k], dto);
      table := MapWhere(table, Owned(userId, id), (b: Budget) => ApplyPatch(b, dto));
      assert table == before[k := patched];
      assert forall j :: 0 <= j < |table| ==> table[j].id == before[j].id;
      FirstIndexOfUnique(table, Owned(userId, id), k);
      r := FindOne(table, userId, id);
    }

    /** `remove(userId, id)`: NotFound and no change unless the caller owns a
        budget with that id; otherwise exactly that row is deleted. */
    method Remove(userId: Id, id: Id) returns (r: Result<Deleted>)
      requires Valid()
      modifies this
      ensures Valid() && nextId == old(nextId)
      ensures IndexOf(old(table), userId, id).None? ==> r == Err(NotFound) && table == old(table)
      ensures IndexOf(old(table), userId, id).Some? ==>
        var k := IndexOf(old(table), userId, id).value;
        && table == old(table)[..k] + old(table)[k + 1..]
        && r == Ok(Deleted(true))
      ensures forall i :: 0 <= i < |old(table)| && old(table)[i].userId != userId ==> old(table)[i] in table
    {
      var found := FindOne(table, userId, id);
      if found.Err? {
        return Err(NotFound);
      }
      var k := IndexOf(table, userId, id).value;
      OnlyMatch(userId, id, k);
      ghost var before := table;
      var keep := (b: Budget) => !Owned(userId, id)(b);
      FilterDropsOne(table, keep, k);
      table := Filter(table, keep);
      RemoveAtKeeps(before, k, IdOf, nextId);
      r := Ok(Deleted(true));
    }
  }
}
