/**
 * The two insight routes of Backend/src/routes/insights.ts over one user's
 * expenses: the AI analysis route, which selects the 100 newest expenses and
 * folds them into an `AnalysisData` (the text generated from it is not part of
 * this model), and the statistics route, which folds all of them into
 * current-month, per-category and per-month totals and picks the highest and
 * lowest expense.
 */
module Insights {
  import opened Calendar
  import opened Grouping
  import opened Sorting

  datatype Option<T> = None | Some(value: T)

  /** An expense as the analysis route reads it (the `Expenses` interface). */
  datatype Expense = Expense(amount: real, category: string, createdAt: int)

  /** An expense document as the statistics route reads it: amount and category may be absent. */
  datatype Document = Document(amount: Option<real>, category: Option<string>, createdAt: int)

  /** The analysis route asks for at most this many expenses. */
  const ExpenseLimit: nat := 100

  const NoExpensesMessage := "No expenses found"

  const Uncategorized := "uncategorized"

  function Amount(e: Expense): real { e.amount }

  function Category(e: Expense): string { e.category }

  function CreatedAt(e: Expense): real { e.createdAt as real }

  /** The key of `monthlyTotals`: the month and the year of the expense. */
  function MonthYearKey(e: Expense): MonthYear { MonthYearOf(e.createdAt) }

  datatype Timespan = Timespan(start: int, end: int)

  datatype AnalysisData = AnalysisData(
    total: real,
    categoryPercentages: map<string, Quotient>,
    monthlyTotals: map<MonthYear, real>,
    timespan: Timespan)

  /**
   * `prepareExpenseData`: monthly totals, category totals, their sum and each
   * category's share of it, and the creation times of the last and first
   * expense. The route calls it only on a non-empty list.
   */
  method PrepareExpenseData(expenses: seq<Expense>) returns (data: AnalysisData)
    requires |expenses| > 0
    ensures data.monthlyTotals == Grouped(expenses, MonthYearKey, Amount)
    ensures data.total == Sum(expenses, Amount) && MapSum(data.monthlyTotals) == data.total
    ensures data.categoryPercentages.Keys == Grouped(expenses, Category, Amount).Keys == Keys(expenses, Category)
    ensures forall c :: c in data.categoryPercentages ==>
              data.categoryPercentages[c] == Percent(Grouped(expenses, Category, Amount)[c], data.total)
    ensures data.timespan == Timespan(expenses[|expenses| - 1].createdAt, expenses[0].createdAt)
  {
    var monthlyTotals := GroupSum(expenses, MonthYearKey, Amount);
    var categoryTotals := GroupSum(expenses, Category, Amount);
    var total := SumValues(categoryTotals);
    GroupedTotal(expenses, Category, Amount);
    GroupedTotal(expenses, MonthYearKey, Amount);
    GroupedKeys(expenses, Category, Amount);
    var percentages := Percentages(categoryTotals, total);
    data := AnalysisData(total, percentages, monthlyTotals,
                         Timespan(expenses[|expenses| - 1].createdAt, expenses[0].createdAt));
  }

  /** When the total is not zero, the category percentages add up to 100. */
  lemma CategoryPercentagesSumToHundred(expenses: seq<Expense>)
    requires Sum(expenses, Amount) != 0.0
    ensures MapSum(Shares(Grouped(expenses, Category, Amount), Sum(expenses, Amount))) == 100.0
  {
    GroupedTotal(expenses, Category, Amount);
    PercentagesSumToHundred(Grouped(expenses, Category, Amount), Sum(expenses, Amount));
  }

  /** Amounts accepted by the expense schema are positive, so a non-empty list has a positive total. */
  lemma {:induction false} PositiveTotal(expenses: seq<Expense>)
    requires |expenses| > 0
    requires forall i :: 0 <= i < |expenses| ==> expenses[i].amount > 0.0
    ensures Sum(expenses, Amount) > 0.0
  {
    var init := expenses[..|expenses| - 1];
    if |init| > 0 {
      assert forall i :: 0 <= i < |init| ==> init[i] == expenses[i];
      PositiveTotal(init);
    }
  }

  /** `find({ user }).sort({ createdAt: -1 }).limit(100)`. */
  function Newest(stored: seq<Expense>): seq<Expense>
  {
    SortDesc(stored, CreatedAt)[..if |stored| < ExpenseLimit then |stored| else ExpenseLimit]
  }

  /**
   * The selection holds the 100 newest expenses, or all of them when the user
   * has fewer: newest first, all of them the user's, and every expense left
   * out is no newer than every one selected.
   */
  lemma NewestSelection(stored: seq<Expense>)
    ensures var sel := Newest(stored);
            && |sel| == (if |stored| < ExpenseLimit then |stored| else ExpenseLimit)
            && Descending(sel, CreatedAt)
            && multiset(sel) <= multiset(stored)
            && forall x, y :: x in multiset(stored) - multiset(sel) && y in sel ==> x.createdAt <= y.createdAt
  {
    var n := if |stored| < ExpenseLimit then |stored| else ExpenseLimit;
    TopOfSort(stored, CreatedAt, n);
    var sorted := SortDesc(stored, CreatedAt);
    assert multiset(stored) - multiset(sorted[..n]) == multiset(sorted[n..]);
    forall x, y | x in multiset(stored) - multiset(Newest(stored)) && y in Newest(stored)
      ensures x.createdAt <= y.createdAt
    {
      assert x in sorted[n..];
      assert CreatedAt(x) <= CreatedAt(y);
    }
  }

  datatype AnalysisResponse = AnalysisNotFound(message: string) | Analysis(data: AnalysisData)

  /**
   * GET /ai-analysis without the text generation: a 404 when the user has no
   * expenses, otherwise the analysis of the newest ones, whose timespan starts
   * no later than it ends.
   */
  method AiAnalysis(stored: seq<Expense>) returns (r: AnalysisResponse)
    ensures r.AnalysisNotFound? <==> |stored| == 0
    ensures r.AnalysisNotFound? ==> r.message == NoExpensesMessage
    ensures r.Analysis? ==>
      var sel := Newest(stored);
      && r.data.total == Sum(sel, Amount)
      && r.data.monthlyTotals == Grouped(sel, MonthYearKey, Amount)
      && r.data.categoryPercentages.Keys == Grouped(sel, Category, Amount).Keys == Keys(sel, Category)
      && (forall c :: c in r.data.categoryPercentages ==>
            r.data.categoryPercentages[c] == Percent(Grouped(sel, Category, Amount)[c], r.data.total))
      && r.data.timespan == Timespan(sel[|sel| - 1].createdAt, sel[0].createdAt)
      && r.data.timespan.start <= r.data.timespan.end
  {
    var selected := Newest(stored);
    NewestSelection(stored);
    if |selected| == 0 {
      return AnalysisNotFound(NoExpensesMessage);
    }
    var data := PrepareExpenseData(selected);
    assert CreatedAt(selected[|selected| - 1]) <= CreatedAt(selected[0]);
    r := Analysis(data);
  }

  /** `expense.amount ?? 0`. */
  function AmountOrZero(d: Document): real
  {
    match d.amount
    case Some(a) => a
    case None => 0.0
  }

  /** `expense.category ?? "uncategorized"`. */
  function CategoryOrUncategorized(d: Document): string
  {
    match d.category
    case Some(c) => c
    case None => Uncategorized
  }

  function DocumentMonthYear(d: Document): MonthYear { MonthYearOf(d.createdAt) }

  /** The key of `monthlySpending`: the long month name alone. */
  function DocumentMonthName(d: Document): string { MonthNameOf(d.createdAt) }

  /** The expenses whose month and year are those of `now`. */
  function CurrentMonthExpenses(docs: seq<Document>, now: int): seq<Document>
  {
    Matching(docs, DocumentMonthYear, MonthYearOf(now))
  }

  datatype Statistics = Statistics(
    monthlyTotalSpending: real,
    categorySpending: map<string, real>,
    monthlySpending: map<string, real>,
    highestExpense: Document,
    lowestExpense: Document)

  datatype StatisticsResponse = StatisticsNotFound(message: string) | Stats(stats: Statistics)

  /**
   * GET /statistics: a 404 when the user has no expenses; otherwise the total
   * of the current month, totals per category and per month name, and the
   * highest and lowest expense by amount, from a stable sort of a copy.
   */
  method ComputeStatistics(docs: seq<Document>, now: int) returns (r: StatisticsResponse)
    ensures r.StatisticsNotFound? <==> |docs| == 0
    ensures r.StatisticsNotFound? ==> r.message == NoExpensesMessage
    ensures r.Stats? ==>
      var st := r.stats;
      && st.monthlyTotalSpending == Sum(CurrentMonthExpenses(docs, now), AmountOrZero)
      && st.categorySpending == Grouped(docs, CategoryOrUncategorized, AmountOrZero)
      && st.monthlySpending == Grouped(docs, DocumentMonthName, AmountOrZero)
      && st.highestExpense == docs[FirstMaxIndex(docs, AmountOrZero)]
      && st.lowestExpense == docs[LastMinIndex(docs, AmountOrZero)]
      && (forall d :: d in docs ==> AmountOrZero(st.lowestExpense) <= AmountOrZero(d) <= AmountOrZero(st.highestExpense))
  {
    if |docs| == 0 {
      return StatisticsNotFound(NoExpensesMessage);
    }
    var monthlyTotalSpending := Sum(CurrentMonthExpenses(docs, now), AmountOrZero);
    var categorySpending := GroupSum(docs, CategoryOrUncategorized, AmountOrZero);
    var monthlySpending := GroupSum(docs, DocumentMonthName, AmountOrZero);
    var sorted := SortDesc(docs, AmountOrZero);
    SortHead(docs, AmountOrZero);
    SortLast(docs, AmountOrZero);
    r := Stats(Statistics(monthlyTotalSpending, categorySpending, monthlySpending,
                          sorted[0], sorted[|sorted| - 1]));
  }

  /** The month number a long month name stands for, or 0 for any other string. */
  function MonthNumber(name: string): nat
  {
    if name == "January" then 1 else if name == "February" then 2
    else if name == "March" then 3 else if name == "April" then 4
    else if name == "May" then 5 else if name == "June" then 6
    else if name == "July" then 7 else if name == "August" then 8
    else if name == "September" then 9 else if name == "October" then 10
    else if name == "November" then 11 else if name == "December" then 12
    else 0
  }

  /** Each month has its own name. */
  lemma MonthNameNamesMonth(m: nat)
    requires 1 <= m <= 12
    ensures MonthNumber(MonthName(m)) == m
  {
  }

  /**
   * `monthlySpending` is keyed by month name only: the same month of two
   * different years goes to one key. When no expense of this month's name lies
   * in another year, that key's total is the current month's total.
   */
  lemma MonthNameTotalIsCurrentMonth(docs: seq<Document>, now: int)
    requires forall i :: 0 <= i < |docs| && DocumentMonthName(docs[i]) == MonthNameOf(now) ==>
               DocumentMonthYear(docs[i]).year == MonthYearOf(now).year
    ensures Sum(Matching(docs, DocumentMonthName, MonthNameOf(now)), AmountOrZero)
            == Sum(CurrentMonthExpenses(docs, now), AmountOrZero)
  {
    forall i | 0 <= i < |docs|
      ensures DocumentMonthYear(docs[i]) == MonthYearOf(now) <==> DocumentMonthName(docs[i]) == MonthNameOf(now)
    {
      var a, b := DocumentMonthYear(docs[i]), MonthYearOf(now);
      if DocumentMonthName(docs[i]) == MonthNameOf(now) {
        MonthNameNamesMonth(a.month);
        MonthNameNamesMonth(b.month);
      }
    }
    MatchingSameSelection(docs, DocumentMonthYear, MonthYearOf(now), DocumentMonthName, MonthNameOf(now));
  }
}
