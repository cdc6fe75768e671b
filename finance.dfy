/** The finance screen (`Finance.tsx`): income, expense and balance totals,
    the recent-transactions list, the daily income/expense series, and the
    add-transaction form. */
module Finance {
  import opened Wrappers
  import opened Seqs
  import opened Text
  import opened Domain
  import opened Store

  // ---------------------------------------------------------------------------
  // Totals

  function Amount(t: Transaction): int { t.amount }
  predicate IsIncome(t: Transaction) { t.kind == Income }
  predicate IsExpense(t: Transaction) { t.kind == Expense }

  /** What a transaction adds to each total, and to the balance. */
  function IncomeShare(t: Transaction): int { if t.kind == Income then t.amount else 0 }
  function ExpenseShare(t: Transaction): int { if t.kind == Expense then t.amount else 0 }
  function SignedAmount(t: Transaction): int { if t.kind == Income then t.amount else -t.amount }

  /** `totalIncome`: the income amounts summed, each expense counting 0. */
  function TotalIncome(txs: seq<Transaction>): (r: int)
    ensures r == SumOf(txs, IncomeShare)
  {
    SumOfFilter(txs, IsIncome, Amount, IncomeShare);
    SumOf(Filter(txs, IsIncome), Amount)
  }

  /** `totalExpenses`: the expense amounts summed, each income counting 0. */
  function TotalExpenses(txs: seq<Transaction>): (r: int)
    ensures r == SumOf(txs, ExpenseShare)
  {
    SumOfFilter(txs, IsExpense, Amount, ExpenseShare);
    SumOf(Filter(txs, IsExpense), Amount)
  }

  /** `netProfit`: the ledger summed with income counted up and expenses down. */
  function NetProfit(txs: seq<Transaction>): (r: int)
    ensures r == SumOf(txs, SignedAmount)
  {
    SumOfDifference(txs, IncomeShare, ExpenseShare, SignedAmount);
    TotalIncome(txs) - TotalExpenses(txs)
  }

  /** Every transaction is income or expense, so the two totals add up to the
      sum of all amounts. */
  lemma IncomeAndExpensesCoverAll(txs: seq<Transaction>)
    ensures TotalIncome(txs) + TotalExpenses(txs) == SumOf(txs, Amount)
  {
    SumOfSplit(txs, IsIncome, IsExpense, Amount);
  }

  /** Recording a transaction moves exactly one of the two totals, by its amount. */
  lemma AddingMovesOneTotal(txs: seq<Transaction>, t: Transaction)
    ensures t.kind == Income ==> TotalIncome(txs + [t]) == TotalIncome(txs) + t.amount
                                 && TotalExpenses(txs + [t]) == TotalExpenses(txs)
    ensures t.kind == Expense ==> TotalExpenses(txs + [t]) == TotalExpenses(txs) + t.amount
                                  && TotalIncome(txs + [t]) == TotalIncome(txs)
    ensures NetProfit(txs + [t]) == NetProfit(txs) + (if t.kind == Income then t.amount else -t.amount)
  {
    FilterAppend(txs, [t], IsIncome);
    FilterAppend(txs, [t], IsExpense);
    SumOfAppend(Filter(txs, IsIncome), Filter([t], IsIncome), Amount);
    SumOfAppend(Filter(txs, IsExpense), Filter([t], IsExpense), Amount);
  }

  function CustomerBalance(c: Customer): int { c.balance }
  function SupplierBalance(s: Supplier): int { s.balance }

  /** `totalReceivables`: what customers owe, never negative while no balance is. */
  function Receivables(customers: seq<Customer>): (r: int)
    ensures (forall i :: 0 <= i < |customers| ==> customers[i].balance >= 0) ==> r >= 0
  {
    if forall i :: 0 <= i < |customers| ==> customers[i].balance >= 0 then
      SumOfNonNegative(customers, CustomerBalance);
      SumOf(customers, CustomerBalance)
    else
      SumOf(customers, CustomerBalance)
  }

  /** `totalPayables`: what is owed to suppliers, never negative while no balance is. */
  function Payables(suppliers: seq<Supplier>): (r: int)
    ensures (forall i :: 0 <= i < |suppliers| ==> suppliers[i].balance >= 0) ==> r >= 0
  {
    if forall i :: 0 <= i < |suppliers| ==> suppliers[i].balance >= 0 then
      SumOfNonNegative(suppliers, SupplierBalance);
      SumOf(suppliers, SupplierBalance)
    else
      SumOf(suppliers, SupplierBalance)
  }

  /** A new supplier from the quick form starts at zero balance and does not
      move the payables; one from the wizard adds its opening balance. */
  lemma NewSupplierAddsItsBalance(suppliers: seq<Supplier>, s: Supplier)
    ensures Payables(suppliers + [s]) == Payables(suppliers) + s.balance
  {
    SumOfAppend(suppliers, [s], SupplierBalance);
  }

  // ---------------------------------------------------------------------------
  // Recent transactions

  /** `transactions.slice(-10).reverse()`: the last ten, newest first. */
  function RecentTransactions(txs: seq<Transaction>, n: nat): (r: seq<Transaction>)
    ensures |r| == if n < |txs| then n else |txs|
    ensures forall i :: 0 <= i < |r| ==> r[i] == txs[|txs| - 1 - i]
  {
    Reverse(LastN(txs, n))
  }

  /** The transaction just recorded heads the list. */
  lemma NewestFirst(txs: seq<Transaction>, t: Transaction, n: nat)
    requires n >= 1
    ensures RecentTransactions(txs + [t], n)[0] == t
  {
  }

  // ---------------------------------------------------------------------------
  // The daily series

  /** One point of the chart: a date with its income and expense sums. */
  datatype DayTotal = DayTotal(date: string, income: int, expense: int)

  function OnDateOfKind(d: string, k: TransactionKind): Transaction -> bool
  {
    (t: Transaction) => t.date == d && t.kind == k
  }

  /** The sum of the amounts of kind `k` dated `d`, added up in order. */
  function AmountOn(txs: seq<Transaction>, d: string, k: TransactionKind): int
    decreases |txs|
  {
    if txs == [] then 0
    else
      var last := txs[|txs| - 1];
      AmountOn(txs[..|txs| - 1], d, k) + (if last.date == d && last.kind == k then last.amount else 0)
  }

  /** The same sum as filtering the transactions of that date and kind and adding their amounts. */
  lemma {:induction false} AmountOnIsFilteredSum(txs: seq<Transaction>, d: string, k: TransactionKind)
    ensures AmountOn(txs, d, k) == SumOf(Filter(txs, OnDateOfKind(d, k)), Amount)
    decreases |txs|
  {
    if txs != [] {
      var init := txs[..|txs| - 1];
      var last := txs[|txs| - 1];
      assert txs == init + [last];
      AmountOnIsFilteredSum(init, d, k);
      FilterAppend(init, [last], OnDateOfKind(d, k));
      SumOfAppend(Filter(init, OnDateOfKind(d, k)), Filter([last], OnDateOfKind(d, k)), Amount);
    }
  }

  /** The entry the series should hold for a date. */
  function DayTotalOf(txs: seq<Transaction>, d: string): DayTotal
  {
    DayTotal(d, AmountOn(txs, d, Income), AmountOn(txs, d, Expense))
  }

  predicate HasDate(txs: seq<Transaction>, d: string)
  {
    exists i :: 0 <= i < |txs| && txs[i].date == d
  }

  lemma AmountOnAppend(txs: seq<Transaction>, t: Transaction, d: string, k: TransactionKind)
    ensures AmountOn(txs + [t], d, k) == AmountOn(txs, d, k) + (if t.date == d && t.kind == k then t.amount else 0)
  {
    assert (txs + [t])[..|txs|] == txs;
  }

  lemma {:induction false} AmountOnAbsentDate(txs: seq<Transaction>, d: string, k: TransactionKind)
    requires !HasDate(txs, d)
    ensures AmountOn(txs, d, k) == 0
    decreases |txs|
  {
    if txs != [] {
      var init := txs[..|txs| - 1];
      forall i | 0 <= i < |init| ensures init[i].date != d {
        assert init[i] == txs[i];
      }
      AmountOnAbsentDate(init, d, k);
    }
  }

  /** Chart points compared by date, as the sort's comparator does. */
  function DateLe(a: DayTotal, b: DayTotal): bool
  {
    LexLe(a.date, b.date)
  }

  lemma DateLeIsTotalPreorder()
    ensures TotalPreorder(DateLe)
  {
    forall a, b ensures DateLe(a, b) || DateLe(b, a) {
      LexLeTotal(a.date, b.date);
    }
    forall a, b, c | DateLe(a, b) && DateLe(b, c) ensures DateLe(a, c) {
      LexLeTransitive(a.date, b.date, c.date);
    }
  }

  /** Dates strictly increase along the series. */
  ghost predicate StrictlyAscending(series: seq<DayTotal>)
  {
    forall i, j :: 0 <= i < j < |series| ==> LexLe(series[i].date, series[j].date) && series[i].date != series[j].date
  }

  /** Each entry holds its date's sums, and its date occurs among the transactions. */
  ghost predicate EntriesCorrect(txs: seq<Transaction>, series: seq<DayTotal>)
  {
    forall i :: 0 <= i < |series| ==> series[i] == DayTotalOf(txs, series[i].date) && HasDate(txs, series[i].date)
  }

  ghost predicate InSeries(series: seq<DayTotal>, d: string)
  {
    exists i :: 0 <= i < |series| && series[i].date == d
  }

  ghost predicate BeforeAll(series: seq<DayTotal>, d: string)
  {
    forall i :: 0 <= i < |series| ==> LexLe(d, series[i].date) && d != series[i].date
  }

  /** Every transaction's date is in the series, or the series is full and the
      date is older than all of it. */
  ghost predicate Covers(txs: seq<Transaction>, series: seq<DayTotal>)
  {
    forall t :: t in txs ==> InSeries(series, t.date) || (|series| == 14 && BeforeAll(series, t.date))
  }

  /** What the series promises about the transactions: at most fourteen points
      in strictly increasing date order, each holding its date's sums, and
      every date left out older than every date kept. */
  ghost predicate IsDailySeries(txs: seq<Transaction>, series: seq<DayTotal>)
  {
    |series| <= 14 && StrictlyAscending(series) && EntriesCorrect(txs, series) && Covers(txs, series)
  }

  /** `byDate[t.date].income += t.amount` or the same for expense. */
  function Accumulate(e: DayTotal, t: Transaction): DayTotal
  {
    if t.kind == Income then e.(income := e.income + t.amount) else e.(expense := e.expense + t.amount)
  }

  /** One more transaction adds to its own date's entry only. */
  lemma DayTotalOfAppend(txs: seq<Transaction>, t: Transaction, d: string)
    ensures DayTotalOf(txs + [t], d) == if d == t.date then Accumulate(DayTotalOf(txs, d), t) else DayTotalOf(txs, d)
  {
    AmountOnAppend(txs, t, d, Income);
    AmountOnAppend(txs, t, d, Expense);
  }

  /** One more transaction adds its own date to the dates present, and no other. */
  lemma HasDateAppend(txs: seq<Transaction>, t: Transaction, d: string)
    ensures HasDate(txs + [t], d) <==> HasDate(txs, d) || d == t.date
  {
    var s := txs + [t];
    if HasDate(s, d) && d != t.date {
      var i :| 0 <= i < |s| && s[i].date == d;
      assert txs[i].date == d;
    }
    if HasDate(txs, d) {
      var i :| 0 <= i < |txs| && txs[i].date == d;
      assert s[i].date == d;
    }
    if d == t.date {
      assert s[|txs|].date == d;
    }
  }

  /** `byDate` holds, under each date present in `txs` and no other, that
      date's sums, and `dates` lists its keys once each. */
  ghost predicate ByDate(txs: seq<Transaction>, byDate: map<string, DayTotal>, dates: seq<string>)
  {
    && Distinct(dates)
    && (forall i :: 0 <= i < |dates| ==> dates[i] in byDate)
    && |byDate| == |dates|
    && (forall d :: d in byDate <==> HasDate(txs, d))
    && (forall d :: d in byDate ==> byDate[d] == DayTotalOf(txs, d))
  }

  /** The entry a transaction's amount is added to: its date's entry, or a new empty one. */
  function EntryFor(byDate: map<string, DayTotal>, t: Transaction): DayTotal
  {
    if t.date in byDate then byDate[t.date] else DayTotal(t.date, 0, 0)
  }

  /** One more transaction: its date is added if new, and its amount added to the date's entry. */
  lemma ByDateStep(txs: seq<Transaction>, t: Transaction, byDate: map<string, DayTotal>, dates: seq<string>)
    requires ByDate(txs, byDate, dates)
    ensures ByDate(txs + [t], byDate[t.date := Accumulate(EntryFor(byDate, t), t)],
                   if t.date in byDate then dates else dates + [t.date])
  {
    var byDate' := byDate[t.date := Accumulate(EntryFor(byDate, t), t)];
    if t.date !in byDate {
      assert forall i :: 0 <= i < |dates| ==> dates[i] != t.date;
    }
    forall d ensures d in byDate' <==> HasDate(txs + [t], d) {
      HasDateAppend(txs, t, d);
    }
    forall d | d in byDate' ensures byDate'[d] == DayTotalOf(txs + [t], d) {
      DayTotalOfAppend(txs, t, d);
      if d == t.date && t.date !in byDate {
        AmountOnAbsentDate(txs, d, Income);
        AmountOnAbsentDate(txs, d, Expense);
      }
    }
  }

  /** Nothing folded yet: no dates. */
  lemma ByDateNothing(txs: seq<Transaction>)
    requires txs == []
    ensures ByDate(txs, map[], [])
  {
  }

  /** One step of the per-day `forEach`: a date seen for the first time gets
      an empty entry and its place at the end of the key order, then the
      transaction's amount is added to the date's entry. */
  function AddDay(byDate: map<string, DayTotal>, dates: seq<string>, t: Transaction): (map<string, DayTotal>, seq<string>)
  {
    (byDate[t.date := Accumulate(EntryFor(byDate, t), t)], if t.date in byDate then dates else dates + [t.date])
  }

  /** The dictionary and its key order after the `forEach` over `txs`. */
  function FoldDays(txs: seq<Transaction>): (map<string, DayTotal>, seq<string>)
    decreases |txs|
  {
    if txs == [] then (map[], [])
    else
      var before := FoldDays(txs[..|txs| - 1]);
      AddDay(before.0, before.1, txs[|txs| - 1])
  }

  /** The fold keys each date present once, under that date's sums. */
  lemma {:induction false} FoldDaysByDate(txs: seq<Transaction>)
    ensures ByDate(txs, FoldDays(txs).0, FoldDays(txs).1)
    decreases |txs|
  {
    if txs == [] {
      ByDateNothing(txs);
    } else {
      var init, t := txs[..|txs| - 1], txs[|txs| - 1];
      FoldDaysByDate(init);
      ByDateStep(init, t, FoldDays(init).0, FoldDays(init).1);
      assert init + [t] == txs;
    }
  }

  /** The per-day `forEach` of the finance chart. */
  method GroupByDate(txs: seq<Transaction>) returns (byDate: map<string, DayTotal>, dates: seq<string>)
    ensures (byDate, dates) == FoldDays(txs)
    ensures ByDate(txs, byDate, dates)
  {
    byDate := map[];
    dates := [];
    var k := 0;
    while k < |txs|
      invariant 0 <= k <= |txs|
      invariant (byDate, dates) == FoldDays(txs[..k])
    {
      var t := txs[k];
      assert txs[..k + 1][..k] == txs[..k];
      if t.date !in byDate {
        dates := dates + [t.date];
      }
      byDate := byDate[t.date := Accumulate(EntryFor(byDate, t), t)];
      k := k + 1;
    }
    assert txs[..k] == txs;
    FoldDaysByDate(txs);
  }

  /** `Object.values(byDate)`: the entries listed in key insertion order. */
  method ValuesInKeyOrder(byDate: map<string, DayTotal>, dates: seq<string>) returns (values: seq<DayTotal>)
    requires forall i :: 0 <= i < |dates| ==> dates[i] in byDate
    ensures |values| == |dates|
    ensures forall i :: 0 <= i < |dates| ==> values[i] == byDate[dates[i]]
  {
    values := [];
    var j := 0;
    while j < |dates|
      invariant 0 <= j <= |dates| && |values| == j
      invariant forall i :: 0 <= i < j ==> values[i] == byDate[dates[i]]
    {
      values := values + [byDate[dates[j]]];
      j := j + 1;
    }
  }

  /** `dailySeries`: one entry per date, accumulated by `GroupByDate`, listed
      in key order, sorted by date and cut to the last fourteen. */
  method DailySeries(txs: seq<Transaction>) returns (series: seq<DayTotal>)
    ensures IsDailySeries(txs, series)
  {
    var byDate, dates := GroupByDate(txs);
    var values := ValuesInKeyOrder(byDate, dates);
    DistinctEntries(txs, dates, byDate, values);
    DateLeIsTotalPreorder();
    var sorted := Sort(values, DateLe);
    series := LastN(sorted, 14);
    SortedEntries(txs, values, sorted);
    CutKeepsTheSeries(txs, sorted, series);
  }

  /** The dictionary's values, listed by its distinct keys, have distinct dates,
      the right sums, and cover every transaction. */
  lemma DistinctEntries(txs: seq<Transaction>, dates: seq<string>, byDate: map<string, DayTotal>, values: seq<DayTotal>)
    requires ByDate(txs, byDate, dates) && |values| == |dates|
    requires forall i :: 0 <= i < |values| ==> values[i] == byDate[dates[i]]
    ensures Distinct(values) && EntriesCorrect(txs, values)
    ensures forall t :: t in txs ==> InSeries(values, t.date)
  {
    forall i | 0 <= i < |values| ensures values[i].date == dates[i] {
      assert dates[i] in byDate;
    }
    forall t | t in txs ensures InSeries(values, t.date) {
      var i :| 0 <= i < |txs| && txs[i] == t;
      assert HasDate(txs, t.date);
      var m := ListedWhenAsLarge(dates, byDate.Keys, t.date);
      assert values[m].date == t.date;
    }
  }

  /** Sorting keeps the entries; with distinct dates the order is strict. */
  lemma SortedEntries(txs: seq<Transaction>, values: seq<DayTotal>, sorted: seq<DayTotal>)
    requires Distinct(values) && EntriesCorrect(txs, values)
    requires forall t :: t in txs ==> InSeries(values, t.date)
    requires multiset(sorted) == multiset(values) && SortedBy(sorted, DateLe)
    ensures StrictlyAscending(sorted) && EntriesCorrect(txs, sorted)
    ensures forall t :: t in txs ==> InSeries(sorted, t.date)
  {
    DistinctPermutation(sorted, values);
    forall i | 0 <= i < |sorted| ensures sorted[i] in values {
      assert sorted[i] in multiset(values);
    }
    forall t | t in txs ensures InSeries(sorted, t.date) {
      var v :| 0 <= v < |values| && values[v].date == t.date;
      assert values[v] in multiset(sorted);
      var m :| 0 <= m < |sorted| && sorted[m] == values[v];
      assert sorted[m].date == t.date;
    }
  }

  /** Keeping the last fourteen of a strictly ascending, covering list gives a
      daily series. */
  lemma CutKeepsTheSeries(txs: seq<Transaction>, sorted: seq<DayTotal>, series: seq<DayTotal>)
    requires StrictlyAscending(sorted) && EntriesCorrect(txs, sorted)
    requires forall t :: t in txs ==> InSeries(sorted, t.date)
    requires series == LastN(sorted, 14)
    ensures IsDailySeries(txs, series)
  {
    forall t | t in txs ensures InSeries(series, t.date) || (|series| == 14 && BeforeAll(series, t.date)) {
      CutKeepsOrLeavesOlder(sorted, series, t.date);
    }
  }

  /** A date of the sorted list is kept by the cut, or is older than everything kept. */
  lemma CutKeepsOrLeavesOlder(sorted: seq<DayTotal>, series: seq<DayTotal>, d: string)
    requires StrictlyAscending(sorted) && InSeries(sorted, d)
    requires series == LastN(sorted, 14)
    ensures InSeries(series, d) || (|series| == 14 && BeforeAll(series, d))
  {
    var drop := |sorted| - |series|;
    var m :| 0 <= m < |sorted| && sorted[m].date == d;
    if m >= drop {
      assert series[m - drop].date == d;
    } else {
      forall i | 0 <= i < |series| ensures LexLe(d, series[i].date) && d != series[i].date {
        assert series[i] == sorted[drop + i];
      }
    }
  }

  // ---------------------------------------------------------------------------
  // The add-transaction form

  /** The form's fields (`formData`). */
  datatype TransactionFields = TransactionFields(
    kind: TransactionKind, category: string, description: string, amount: int, date: string, reference: string)

  /** The initial and reset value, dated `today`. */
  function DefaultFields(today: string): TransactionFields
  {
    TransactionFields(Expense, "", "", 0, today, "")
  }

  /** The type select clears the category, whose choices depend on the type. */
  function WithKind(f: TransactionFields, k: TransactionKind): (r: TransactionFields)
    ensures r.kind == k && r.category == ""
    ensures r.(kind := f.kind, category := f.category) == f
  {
    f.(kind := k, category := "")
  }

  /** `addTransaction(formData)`: the fields as typed. The inputs' `required`
      attributes, which the browser checks before submitting, are not modelled. */
  function NewTransaction(f: TransactionFields): (t: Transaction)
    ensures t.kind == f.kind && t.category == f.category && t.description == f.description
    ensures t.amount == f.amount && t.date == f.date && t.reference == Some(f.reference)
  {
    Transaction("", f.kind, f.category, f.description, f.amount, f.date, Some(f.reference))
  }

  class FinanceView {
    var form: TransactionFields

    constructor (today: string)
      ensures form == DefaultFields(today)
    {
      form := DefaultFields(today);
    }

    method SetKind(k: TransactionKind)
      modifies this
      ensures form == WithKind(old(form), k)
    {
      form := WithKind(form, k);
    }

    /** `handleSubmit`: records the form under `newId` and resets it to `today`. */
    method Submit(store: DataStore, newId: string, today: string)
      requires newId !in Ids(store.transactions, TransactionId)
      modifies this, store
      ensures store.Snapshot() == Apply(old(store.Snapshot()), TransactionAdded(NewTransaction(old(form)), newId))
      ensures RecentTransactions(store.transactions, 10)[0] == NewTransaction(old(form)).(id := newId)
      ensures form == DefaultFields(today)
    {
      store.AddTransaction(NewTransaction(form), newId);
      NewestFirst(old(store.transactions), NewTransaction(form).(id := newId), 10);
      form := DefaultFields(today);
    }
  }
}
