/** The reports screen (`Reports.tsx`): date-range filters, totals, the
    group-by dictionaries built in place by `reduce`, and the ranked lists. */
module Reports {
  import opened Wrappers
  import opened Seqs
  import opened Text
  import opened Domain
  import opened Store
  import Inventory
  import Finance

  // ---------------------------------------------------------------------------
  // The date range

  /** `date >= from && date <= to` under string comparison: both ends of a
      range belong to it, and a range whose start is after its end holds no date. */
  function InRange(date: string, from: string, to: string): (r: bool)
    ensures (date == from || date == to) && LexLe(from, to) ==> r
    ensures r ==> LexLe(from, to)
  {
    if LexLe(from, date) && LexLe(date, to) then
      LexLeTransitive(from, date, to);
      true
    else
      false
  }

  function SaleInRange(from: string, to: string): SalesOrder -> bool
  {
    (o: SalesOrder) => InRange(o.date, from, to)
  }

  function PurchaseInRange(from: string, to: string): PurchaseOrder -> bool
  {
    (o: PurchaseOrder) => InRange(o.date, from, to)
  }

  function TransactionInRange(from: string, to: string): Transaction -> bool
  {
    (t: Transaction) => InRange(t.date, from, to)
  }

  /** `filteredSalesOrders`. */
  function SalesInRange(orders: seq<SalesOrder>, from: string, to: string): (r: seq<SalesOrder>)
    ensures IsSubsequence(r, orders)
    ensures forall o :: o in r <==> o in orders && InRange(o.date, from, to)
  {
    Filter(orders, SaleInRange(from, to))
  }

  /** `filteredPurchaseOrders`. */
  function PurchasesInRange(orders: seq<PurchaseOrder>, from: string, to: string): (r: seq<PurchaseOrder>)
    ensures IsSubsequence(r, orders)
    ensures forall o :: o in r <==> o in orders && InRange(o.date, from, to)
  {
    Filter(orders, PurchaseInRange(from, to))
  }

  /** `filteredTransactions`. */
  function TransactionsInRange(txs: seq<Transaction>, from: string, to: string): (r: seq<Transaction>)
    ensures IsSubsequence(r, txs)
    ensures forall t :: t in r <==> t in txs && InRange(t.date, from, to)
  {
    Filter(txs, TransactionInRange(from, to))
  }

  // ---------------------------------------------------------------------------
  // Totals

  function SaleAmount(o: SalesOrder): int { o.totalAmount }
  function PurchaseAmount(o: PurchaseOrder): int { o.totalAmount }

  /** An order's amount when its date is in the range, otherwise 0. */
  function SaleShare(from: string, to: string): SalesOrder -> int
  {
    (o: SalesOrder) => if InRange(o.date, from, to) then o.totalAmount else 0
  }

  function PurchaseShare(from: string, to: string): PurchaseOrder -> int
  {
    (o: PurchaseOrder) => if InRange(o.date, from, to) then o.totalAmount else 0
  }

  /** `totalSales`: over all orders, the amounts of those dated in the range. */
  function TotalSales(orders: seq<SalesOrder>, from: string, to: string): (r: int)
    ensures r == SumOf(orders, SaleShare(from, to))
  {
    SumOfFilter(orders, SaleInRange(from, to), SaleAmount, SaleShare(from, to));
    SumOf(SalesInRange(orders, from, to), SaleAmount)
  }

  /** `totalPurchases`: over all orders, the amounts of those dated in the range. */
  function TotalPurchases(orders: seq<PurchaseOrder>, from: string, to: string): (r: int)
    ensures r == SumOf(orders, PurchaseShare(from, to))
  {
    SumOfFilter(orders, PurchaseInRange(from, to), PurchaseAmount, PurchaseShare(from, to));
    SumOf(PurchasesInRange(orders, from, to), PurchaseAmount)
  }

  /** A range holding every transaction gives the finance screen's totals. */
  lemma FullRangeMatchesFinance(txs: seq<Transaction>, from: string, to: string)
    requires forall i :: 0 <= i < |txs| ==> InRange(txs[i].date, from, to)
    ensures TransactionsInRange(txs, from, to) == txs
    ensures Finance.TotalIncome(TransactionsInRange(txs, from, to)) == Finance.TotalIncome(txs)
    ensures Finance.TotalExpenses(TransactionsInRange(txs, from, to)) == Finance.TotalExpenses(txs)
  {
    FilterKeepsAll(txs, TransactionInRange(from, to));
  }

  /** The sales outside the range add what the range leaves out. */
  lemma SalesSplitByRange(orders: seq<SalesOrder>, from: string, to: string)
    ensures TotalSales(orders, from, to) + SumOf(Filter(orders, (o: SalesOrder) => !InRange(o.date, from, to)), SaleAmount)
         == SumOf(orders, SaleAmount)
  {
    SumOfSplit(orders, SaleInRange(from, to), (o: SalesOrder) => !InRange(o.date, from, to), SaleAmount);
  }

  /** `Math.round(total / count)`, or 0 when there are no orders: the nearest
      integer, halves rounded up. */
  function Average(total: int, count: int): (avg: int)
    ensures count <= 0 ==> avg == 0
    ensures count > 0 ==> -count < 2 * (avg * count - total) <= count
  {
    if count > 0 then (2 * total + count) / (2 * count) else 0
  }

  /** The profit-margin card: 0 without income, otherwise the net profit as a
      percentage of income. */
  function ProfitMargin(income: int, expenses: int): (m: real)
    ensures income <= 0 ==> m == 0.0
    ensures income > 0 ==> m * income as real == (income - expenses) as real * 100.0
  {
    if income > 0 then (income - expenses) as real * 100.0 / income as real else 0.0
  }

  // ---------------------------------------------------------------------------
  // Group-by dictionaries

  /** One `[key, amount]` pair of `Object.entries`. */
  datatype Entry = Entry(key: string, amount: int)

  function EntryAmount(e: Entry): int { e.amount }

  ghost predicate HasKey<T>(xs: seq<T>, key: T -> string, k: string)
  {
    exists i :: 0 <= i < |xs| && key(xs[i]) == k
  }

  function KeyIs<T>(key: T -> string, k: string): T -> bool
  {
    x => key(x) == k
  }

  /** What the dictionary should hold for `k`: the sum of `value` over the
      elements whose key is `k`, added up in order. */
  function KeySum<T>(xs: seq<T>, key: T -> string, value: T -> int, k: string): int
    decreases |xs|
  {
    if xs == [] then 0
    else
      var last := xs[|xs| - 1];
      KeySum(xs[..|xs| - 1], key, value, k) + (if key(last) == k then value(last) else 0)
  }

  /** The same sum as the filter-then-sum the screens use elsewhere. */
  lemma {:induction false} KeySumIsFilteredSum<T(!new)>(xs: seq<T>, key: T -> string, value: T -> int, k: string)
    ensures KeySum(xs, key, value, k) == SumOf(Filter(xs, KeyIs(key, k)), value)
    decreases |xs|
  {
    if xs != [] {
      var init := xs[..|xs| - 1];
      var last := xs[|xs| - 1];
      assert xs == init + [last];
      KeySumIsFilteredSum(init, key, value, k);
      FilterAppend(init, [last], KeyIs(key, k));
      SumOfAppend(Filter(init, KeyIs(key, k)), Filter([last], KeyIs(key, k)), value);
    }
  }

  /** `Object.entries(acc)` for a dictionary whose keys were inserted in the order `keys`. */
  function Entries(keys: seq<string>, sums: map<string, int>): (r: seq<Entry>)
    requires forall i :: 0 <= i < |keys| ==> keys[i] in sums
    ensures |r| == |keys|
    ensures forall i :: 0 <= i < |r| ==> r[i] == Entry(keys[i], sums[keys[i]])
  {
    if keys == [] then [] else [Entry(keys[0], sums[keys[0]])] + Entries(keys[1..], sums)
  }

  lemma HasKeyAppend<T>(xs: seq<T>, x: T, key: T -> string)
    ensures forall k :: HasKey(xs + [x], key, k) <==> HasKey(xs, key, k) || k == key(x)
  {
    var s := xs + [x];
    forall k ensures HasKey(s, key, k) <==> HasKey(xs, key, k) || k == key(x) {
      if HasKey(s, key, k) && k != key(x) {
        var i :| 0 <= i < |s| && key(s[i]) == k;
        assert key(xs[i]) == k;
      }
      if HasKey(xs, key, k) {
        var i :| 0 <= i < |xs| && key(xs[i]) == k;
        assert key(s[i]) == k;
      }
      if k == key(x) {
        assert key(s[|xs|]) == k;
      }
    }
  }

  lemma KeySumAppend<T>(xs: seq<T>, x: T, key: T -> string, value: T -> int)
    ensures forall k :: KeySum(xs + [x], key, value, k) == KeySum(xs, key, value, k) + (if key(x) == k then value(x) else 0)
  {
    assert (xs + [x])[..|xs|] == xs;
  }

  lemma {:induction false} KeySumAbsent<T>(xs: seq<T>, key: T -> string, value: T -> int, k: string)
    requires !HasKey(xs, key, k)
    ensures KeySum(xs, key, value, k) == 0
    decreases |xs|
  {
    if xs != [] {
      KeySumAbsent(xs[..|xs| - 1], key, value, k);
    }
  }

  /** The sum of a dictionary's values, one key updated. */
  lemma EntriesUpdate(keys: seq<string>, sums: map<string, int>, p: nat, v: int)
    requires Distinct(keys) && p < |keys|
    requires forall i :: 0 <= i < |keys| ==> keys[i] in sums
    ensures SumOf(Entries(keys, sums[keys[p] := v]), EntryAmount) == SumOf(Entries(keys, sums), EntryAmount) - sums[keys[p]] + v
  {
    var es := Entries(keys, sums);
    assert Entries(keys, sums[keys[p] := v]) == es[p := Entry(keys[p], v)];
    SumOfUpdate(es, p, Entry(keys[p], v), EntryAmount);
  }

  /** The sum of a dictionary's values, one key added. */
  lemma EntriesInsert(keys: seq<string>, sums: map<string, int>, k: string, v: int)
    requires k !in keys
    requires forall i :: 0 <= i < |keys| ==> keys[i] in sums
    ensures SumOf(Entries(keys + [k], sums[k := v]), EntryAmount) == SumOf(Entries(keys, sums), EntryAmount) + v
  {
    var es := Entries(keys, sums);
    assert Entries(keys + [k], sums[k := v]) == es + [Entry(k, v)];
    SumOfAppend(es, [Entry(k, v)], EntryAmount);
  }

  /** `keys` lists each key of the dictionary `sums` once. */
  ghost predicate Listed(keys: seq<string>, sums: map<string, int>)
  {
    && Distinct(keys)
    && (forall i :: 0 <= i < |keys| ==> keys[i] in sums)
    && |sums| == |keys|
  }

  /** The dictionary `sums`, with keys inserted in the order `keys`, is what
      grouping `xs` by `key` and adding up `value` gives: one key per distinct
      key among `xs`, each holding the sum over its elements. */
  ghost predicate Grouped<T>(xs: seq<T>, key: T -> string, value: T -> int, keys: seq<string>, sums: map<string, int>)
  {
    && Listed(keys, sums)
    && (forall k :: k in sums <==> HasKey(xs, key, k))
    && (forall k :: k in sums ==> sums[k] == KeySum(xs, key, value, k))
  }

  /** Every key of a grouped dictionary is listed in `keys`; returns where. */
  lemma KeyPosition(keys: seq<string>, sums: map<string, int>, k: string) returns (p: nat)
    requires Listed(keys, sums) && k in sums
    ensures p < |keys| && keys[p] == k
  {
    p := ListedWhenAsLarge(keys, sums.Keys, k);
  }

  /** One more element: its key is added if new, and its value added to the key. */
  lemma GroupedStep<T>(xs: seq<T>, x: T, key: T -> string, value: T -> int, keys: seq<string>, sums: map<string, int>,
                       keys': seq<string>, sums': map<string, int>)
    requires Grouped(xs, key, value, keys, sums)
    requires key(x) in sums ==> keys' == keys && sums' == sums[key(x) := sums[key(x)] + value(x)]
    requires key(x) !in sums ==> keys' == keys + [key(x)] && sums' == sums[key(x) := value(x)]
    ensures Grouped(xs + [x], key, value, keys', sums')
  {
    var k := key(x);
    HasKeyAppend(xs, x, key);
    KeySumAppend(xs, x, key, value);
    if k !in sums {
      KeySumAbsent(xs, key, value, k);
    }
  }

  /** Adding to a key already present keeps the values adding up to the sum over all elements. */
  lemma TotalOfKnownKey<T>(xs: seq<T>, x: T, value: T -> int, keys: seq<string>, sums: map<string, int>, k: string)
    requires Listed(keys, sums) && k in sums
    requires SumOf(Entries(keys, sums), EntryAmount) == SumOf(xs, value)
    ensures SumOf(Entries(keys, sums[k := sums[k] + value(x)]), EntryAmount) == SumOf(xs + [x], value)
  {
    SumOfAppend(xs, [x], value);
    var p := KeyPosition(keys, sums, k);
    EntriesUpdate(keys, sums, p, sums[k] + value(x));
  }

  /** Adding a new key keeps the values adding up to the sum over all elements. */
  lemma TotalOfNewKey<T>(xs: seq<T>, x: T, value: T -> int, keys: seq<string>, sums: map<string, int>, k: string)
    requires Listed(keys, sums) && k !in sums
    requires SumOf(Entries(keys, sums), EntryAmount) == SumOf(xs, value)
    ensures SumOf(Entries(keys + [k], sums[k := value(x)]), EntryAmount) == SumOf(xs + [x], value)
  {
    SumOfAppend(xs, [x], value);
    EntriesInsert(keys, sums, k, value(x));
  }

  /** Nothing grouped yet: no keys, and a total of zero. */
  lemma GroupedNothing<T>(xs: seq<T>, key: T -> string, value: T -> int)
    requires xs == []
    ensures Grouped(xs, key, value, [], map[])
    ensures SumOf(Entries([], map[]), EntryAmount) == SumOf(xs, value)
  {
  }

  /** One call of the `reduce` callback: `acc[k] = (acc[k] || 0) + v`, a new
      key entering the dictionary's key order at the end. */
  function AddToGroup(keys: seq<string>, sums: map<string, int>, k: string, v: int): (seq<string>, map<string, int>)
  {
    (if k in sums then keys else keys + [k], sums[k := (if k in sums then sums[k] else 0) + v])
  }

  /** The dictionary, with its key order, after the `reduce` over `xs`. */
  function FoldGroups<T>(xs: seq<T>, key: T -> string, value: T -> int): (seq<string>, map<string, int>)
    decreases |xs|
  {
    if xs == [] then ([], map[])
    else
      var before := FoldGroups(xs[..|xs| - 1], key, value);
      var x := xs[|xs| - 1];
      AddToGroup(before.0, before.1, key(x), value(x))
  }

  /** The fold groups `xs` by key, and its values add up to the sum over all elements. */
  lemma {:induction false} FoldGroupsGrouped<T>(xs: seq<T>, key: T -> string, value: T -> int)
    ensures Grouped(xs, key, value, FoldGroups(xs, key, value).0, FoldGroups(xs, key, value).1)
    ensures SumOf(Entries(FoldGroups(xs, key, value).0, FoldGroups(xs, key, value).1), EntryAmount) == SumOf(xs, value)
    decreases |xs|
  {
    if xs == [] {
      GroupedNothing(xs, key, value);
    } else {
      var init, x := xs[..|xs| - 1], xs[|xs| - 1];
      assert init + [x] == xs;
      FoldGroupsGrouped(init, key, value);
      var keys, sums := FoldGroups(init, key, value).0, FoldGroups(init, key, value).1;
      var k := key(x);
      if k in sums {
        assert FoldGroups(xs, key, value) == (keys, sums[k := sums[k] + value(x)]);
        GroupedStep(init, x, key, value, keys, sums, keys, sums[k := sums[k] + value(x)]);
        TotalOfKnownKey(init, x, value, keys, sums, k);
      } else {
        assert FoldGroups(xs, key, value) == (keys + [k], sums[k := value(x)]);
        GroupedStep(init, x, key, value, keys, sums, keys + [k], sums[k := value(x)]);
        TotalOfNewKey(init, x, value, keys, sums, k);
      }
    }
  }

  /** `xs.reduce((acc, x) => { acc[key(x)] = (acc[key(x)] || 0) + value(x); return acc }, {})`,
      with the order in which keys enter the dictionary; its values add up to
      the sum over all elements. */
  method GroupSum<T>(xs: seq<T>, key: T -> string, value: T -> int) returns (keys: seq<string>, sums: map<string, int>)
    ensures (keys, sums) == FoldGroups(xs, key, value)
    ensures Grouped(xs, key, value, keys, sums)
    ensures SumOf(Entries(keys, sums), EntryAmount) == SumOf(xs, value)
  {
    keys := [];
    sums := map[];
    var n := 0;
    while n < |xs|
      invariant 0 <= n <= |xs|
      invariant (keys, sums) == FoldGroups(xs[..n], key, value)
    {
      var x := xs[n];
      var k := key(x);
      assert xs[..n + 1][..n] == xs[..n];
      var prior := if k in sums then sums[k] else 0;
      if k !in sums {
        keys := keys + [k];
      }
      sums := sums[k := prior + value(x)];
      n := n + 1;
    }
    assert xs[..n] == xs;
    FoldGroupsGrouped(xs, key, value);
  }


  // ---------------------------------------------------------------------------
  // The keys the screen groups by

  function CustomerName(o: SalesOrder): string { o.customerName }
  function SupplierName(o: PurchaseOrder): string { o.supplierName }
  function WarehouseOf(item: InventoryItem): string { item.warehouse }

  /** `` `${order.riceType} - ${order.grade}` ``: the type, `" - "`, then the grade. */
  function RiceTypeKey(o: SalesOrder): (r: string)
    ensures |r| == |o.riceType| + 3 + |o.grade|
    ensures r[..|o.riceType|] == o.riceType && r[|r| - |o.grade|..] == o.grade
  {
    o.riceType + " - " + o.grade
  }

  /** The rice-type key is not injective: a dash in a type or grade lets two
      different pairs share a row. */
  lemma RiceTypeKeysCanCollide(o: SalesOrder)
    ensures var a := o.(riceType := "A - B", grade := "C");
            var b := o.(riceType := "A", grade := "B - C");
            (a.riceType, a.grade) != (b.riceType, b.grade) && RiceTypeKey(a) == RiceTypeKey(b)
  {
    assert "A - B" + " - " + "C" == "A" + " - " + "B - C";
  }

  /** The distinct keys among the elements. */
  function DistinctKeys<T>(xs: seq<T>, key: T -> string): set<string>
  {
    set i | 0 <= i < |xs| :: key(xs[i])
  }

  /** There are never more distinct keys than elements. */
  lemma {:induction false} DistinctKeysAtMostLength<T>(xs: seq<T>, key: T -> string)
    ensures |DistinctKeys(xs, key)| <= |xs|
    decreases |xs|
  {
    if xs != [] {
      var init := xs[..|xs| - 1];
      DistinctKeysAtMostLength(init, key);
      assert DistinctKeys(xs, key) == DistinctKeys(init, key) + {key(xs[|xs| - 1])} by {
        forall k ensures k in DistinctKeys(xs, key) <==> k in DistinctKeys(init, key) + {key(xs[|xs| - 1])} {
          if k in DistinctKeys(xs, key) {
            var i :| 0 <= i < |xs| && key(xs[i]) == k;
            if i < |init| {
              assert key(init[i]) == k;
            }
          }
          if k in DistinctKeys(init, key) {
            var i :| 0 <= i < |init| && key(init[i]) == k;
            assert key(xs[i]) == k;
          }
        }
      }
    }
  }

  /** A grouped dictionary has one key per distinct key among the elements:
      "Active Customers" and "Active Suppliers" count distinct names. */
  lemma KeyCountIsDistinctKeys<T>(xs: seq<T>, key: T -> string, value: T -> int, keys: seq<string>, sums: map<string, int>)
    requires Grouped(xs, key, value, keys, sums)
    ensures |keys| == |DistinctKeys(xs, key)|
  {
    var present := DistinctKeys(xs, key);
    forall k ensures k in sums.Keys <==> k in present {
      if k in present {
        var i :| 0 <= i < |xs| && key(xs[i]) == k;
        assert HasKey(xs, key, k);
      }
    }
    assert sums.Keys == present;
  }

  // ---------------------------------------------------------------------------
  // Ranked lists

  /** `.sort(([, a], [, b]) => b - a)`: larger amounts first. */
  predicate AmountFirst(a: Entry, b: Entry) { a.amount >= b.amount }

  lemma AmountFirstIsTotalPreorder()
    ensures TotalPreorder(AmountFirst)
  {
  }

  /** `.sort(([, a], [, b]) => b - a).slice(0, n)` on a list of entries. */
  function TopEntries(es: seq<Entry>, n: nat): (r: seq<Entry>)
    ensures |r| == if n < |es| then n else |es|
    ensures SortedBy(r, AmountFirst)
    ensures multiset(r) <= multiset(es)
    ensures n >= |es| ==> multiset(r) == multiset(es)
    ensures forall e :: e in es ==> e in r || (|r| == n && forall i :: 0 <= i < |r| ==> r[i].amount >= e.amount)
  {
    AmountFirstIsTotalPreorder();
    TopN(es, AmountFirst, n)
  }

  /** A ranking of the groups of `xs`: distinct keys, each with its group's
      sum, largest first. */
  ghost predicate RanksGroups<T>(r: seq<Entry>, xs: seq<T>, key: T -> string, value: T -> int)
  {
    && SortedBy(r, AmountFirst)
    && (forall i :: 0 <= i < |r| ==> HasKey(xs, key, r[i].key) && r[i].amount == KeySum(xs, key, value, r[i].key))
    && (forall i, j :: 0 <= i < j < |r| ==> r[i].key != r[j].key)
  }

  /** Every group of `xs` is listed, or `n` are listed and each of them is at
      least as large as it. */
  ghost predicate KeepsLargest<T>(r: seq<Entry>, xs: seq<T>, key: T -> string, value: T -> int, n: nat)
  {
    forall k :: HasKey(xs, key, k) ==>
      (exists i :: 0 <= i < |r| && r[i].key == k)
      || (|r| == n && forall i :: 0 <= i < |r| ==> r[i].amount >= KeySum(xs, key, value, k))
  }

  /** `Object.entries(acc).sort(...).slice(0, n)` over a grouped dictionary
      ranks the groups and keeps the `n` largest. */
  lemma TopGroups<T>(xs: seq<T>, key: T -> string, value: T -> int, keys: seq<string>, sums: map<string, int>, n: nat)
    requires Grouped(xs, key, value, keys, sums)
    ensures var r := TopEntries(Entries(keys, sums), n);
            |r| <= n && RanksGroups(r, xs, key, value) && KeepsLargest(r, xs, key, value, n)
  {
    TopEntriesAreGroups(xs, key, value, keys, sums, n);
    TopKeysDistinct(keys, sums, n);
    TopKeepsLargest(xs, key, value, keys, sums, n);
  }

  lemma TopEntriesAreGroups<T>(xs: seq<T>, key: T -> string, value: T -> int, keys: seq<string>, sums: map<string, int>, n: nat)
    requires Grouped(xs, key, value, keys, sums)
    ensures var r := TopEntries(Entries(keys, sums), n);
            forall i :: 0 <= i < |r| ==> HasKey(xs, key, r[i].key) && r[i].amount == KeySum(xs, key, value, r[i].key)
  {
    var es := Entries(keys, sums);
    var r := TopEntries(es, n);
    forall i | 0 <= i < |r| ensures r[i] in es {
      assert r[i] in multiset(r);
    }
  }

  lemma TopKeepsLargest<T>(xs: seq<T>, key: T -> string, value: T -> int, keys: seq<string>, sums: map<string, int>, n: nat)
    requires Grouped(xs, key, value, keys, sums)
    ensures KeepsLargest(TopEntries(Entries(keys, sums), n), xs, key, value, n)
  {
    var es := Entries(keys, sums);
    var r := TopEntries(es, n);
    forall k | HasKey(xs, key, k)
      ensures (exists i :: 0 <= i < |r| && r[i].key == k)
              || (|r| == n && forall i :: 0 <= i < |r| ==> r[i].amount >= KeySum(xs, key, value, k))
    {
      var p := KeyPosition(keys, sums, k);
      TopKeepsEntry(es, n, p);
    }
  }

  /** An entry is kept by the cut, or everything kept is at least as large. */
  lemma TopKeepsEntry(es: seq<Entry>, n: nat, p: nat)
    requires p < |es|
    ensures var r := TopEntries(es, n);
            (exists i :: 0 <= i < |r| && r[i].key == es[p].key)
            || (|r| == n && forall i :: 0 <= i < |r| ==> r[i].amount >= es[p].amount)
  {
    var r := TopEntries(es, n);
    var e := es[p];
    assert e in es;
    if e in r {
      var i :| 0 <= i < |r| && r[i] == e;
      assert r[i].key == e.key;
    }
  }

  /** The kept entries of a dictionary have distinct keys. */
  lemma TopKeysDistinct(keys: seq<string>, sums: map<string, int>, n: nat)
    requires Distinct(keys)
    requires forall i :: 0 <= i < |keys| ==> keys[i] in sums
    ensures var r := TopEntries(Entries(keys, sums), n);
            forall i, j :: 0 <= i < j < |r| ==> r[i].key != r[j].key
  {
    var es := Entries(keys, sums);
    var r := TopEntries(es, n);
    assert Distinct(es) by {
      forall i, j | 0 <= i < j < |es| ensures es[i] != es[j] {
        assert es[i].key == keys[i] && es[j].key == keys[j];
      }
    }
    forall i | 0 <= i < |r| ensures r[i] in es {
      assert r[i] in multiset(r);
    }
    forall i, j | 0 <= i < j < |r| ensures r[i].key != r[j].key {
      if r[i].key == r[j].key {
        SameKeySameEntry(keys, sums, es, r[i], r[j]);
        TwoPositionsCountTwice(r, i, j);
        DistinctCountsOnce(es, r[i]);
      }
    }
  }

  /** Two entries of a dictionary with the same key are the same entry. */
  lemma SameKeySameEntry(keys: seq<string>, sums: map<string, int>, es: seq<Entry>, a: Entry, b: Entry)
    requires forall i :: 0 <= i < |keys| ==> keys[i] in sums
    requires es == Entries(keys, sums) && a in es && b in es && a.key == b.key
    ensures a == b
  {
  }

  // ---------------------------------------------------------------------------
  // Stock and balance lists

  /** `.sort((a, b) => a.quantity - b.quantity)`: fewest bags first. */
  predicate QuantityFirst(a: InventoryItem, b: InventoryItem) { a.quantity <= b.quantity }

  /** `.sort((a, b) => b.balance - a.balance)`: largest balance first. */
  predicate CustomerBalanceFirst(a: Customer, b: Customer) { a.balance >= b.balance }
  predicate SupplierBalanceFirst(a: Supplier, b: Supplier) { a.balance >= b.balance }

  lemma OrdersAreTotalPreorders()
    ensures TotalPreorder(QuantityFirst)
    ensures TotalPreorder(CustomerBalanceFirst)
    ensures TotalPreorder(SupplierBalanceFirst)
  {
  }

  predicate Owes(c: Customer) { c.balance > 0 }
  predicate Owed(s: Supplier) { s.balance > 0 }

  /** The "Low Stock Items" list: items under 50 bags, fewest first, at most
      five; empty exactly when every item is well stocked. */
  function LowStockList(items: seq<InventoryItem>): (r: seq<InventoryItem>)
    ensures |r| <= 5
    ensures forall i :: 0 <= i < |r| ==> r[i] in items && r[i].quantity < 50
    ensures forall i, j :: 0 <= i < j < |r| ==> r[i].quantity <= r[j].quantity
    ensures forall item :: item in items && item.quantity < 50 ==>
              item in r || (|r| == 5 && forall i :: 0 <= i < |r| ==> r[i].quantity <= item.quantity)
    ensures r == [] <==> forall item :: item in items ==> item.quantity >= 50
  {
    assert TotalPreorder(QuantityFirst) by { OrdersAreTotalPreorders(); }
    var r := TopN(Filter(items, Inventory.IsLowStock), QuantityFirst, 5);
    LowStockListFacts(items, r);
    r
  }

  lemma LowStockListFacts(items: seq<InventoryItem>, r: seq<InventoryItem>)
    requires TotalPreorder(QuantityFirst) && r == TopN(Filter(items, Inventory.IsLowStock), QuantityFirst, 5)
    ensures |r| <= 5
    ensures forall i :: 0 <= i < |r| ==> r[i] in items && r[i].quantity < 50
    ensures forall i, j :: 0 <= i < j < |r| ==> r[i].quantity <= r[j].quantity
    ensures forall item :: item in items && item.quantity < 50 ==>
              item in r || (|r| == 5 && forall i :: 0 <= i < |r| ==> r[i].quantity <= item.quantity)
    ensures r == [] <==> forall item :: item in items ==> item.quantity >= 50
  {
    TopNOfFilter(items, Inventory.IsLowStock, QuantityFirst, 5);
    forall i, j | 0 <= i < j < |r| ensures r[i].quantity <= r[j].quantity {
      assert QuantityFirst(r[i], r[j]);
    }
    forall item | item in items && item.quantity < 50
      ensures item in r || (|r| == 5 && forall i :: 0 <= i < |r| ==> r[i].quantity <= item.quantity)
    {
      assert Inventory.IsLowStock(item);
      if item !in r {
        forall i | 0 <= i < |r| ensures r[i].quantity <= item.quantity {
          assert QuantityFirst(r[i], item);
        }
      }
    }
  }

  /** The "Outstanding Receivables" list: customers with a positive balance,
      largest first, at most five; empty exactly when nobody owes anything. */
  function ReceivablesList(customers: seq<Customer>): (r: seq<Customer>)
    ensures |r| <= 5
    ensures forall i :: 0 <= i < |r| ==> r[i] in customers && r[i].balance > 0
    ensures forall i, j :: 0 <= i < j < |r| ==> r[i].balance >= r[j].balance
    ensures forall c :: c in customers && c.balance > 0 ==>
              c in r || (|r| == 5 && forall i :: 0 <= i < |r| ==> r[i].balance >= c.balance)
    ensures r == [] <==> forall c :: c in customers ==> c.balance <= 0
  {
    assert TotalPreorder(CustomerBalanceFirst) by { OrdersAreTotalPreorders(); }
    var r := TopN(Filter(customers, Owes), CustomerBalanceFirst, 5);
    ReceivablesListFacts(customers, r);
    r
  }

  lemma ReceivablesListFacts(customers: seq<Customer>, r: seq<Customer>)
    requires TotalPreorder(CustomerBalanceFirst) && r == TopN(Filter(customers, Owes), CustomerBalanceFirst, 5)
    ensures |r| <= 5
    ensures forall i :: 0 <= i < |r| ==> r[i] in customers && r[i].balance > 0
    ensures forall i, j :: 0 <= i < j < |r| ==> r[i].balance >= r[j].balance
    ensures forall c :: c in customers && c.balance > 0 ==>
              c in r || (|r| == 5 && forall i :: 0 <= i < |r| ==> r[i].balance >= c.balance)
    ensures r == [] <==> forall c :: c in customers ==> c.balance <= 0
  {
    TopNOfFilter(customers, Owes, CustomerBalanceFirst, 5);
    forall i, j | 0 <= i < j < |r| ensures r[i].balance >= r[j].balance {
      assert CustomerBalanceFirst(r[i], r[j]);
    }
    forall c | c in customers && c.balance > 0
      ensures c in r || (|r| == 5 && forall i :: 0 <= i < |r| ==> r[i].balance >= c.balance)
    {
      assert Owes(c);
      if c !in r {
        forall i | 0 <= i < |r| ensures r[i].balance >= c.balance {
          assert CustomerBalanceFirst(r[i], c);
        }
      }
    }
  }

  /** The "Outstanding Payables" list: suppliers with a positive balance,
      largest first, at most five; empty exactly when nothing is owed. */
  function PayablesList(suppliers: seq<Supplier>): (r: seq<Supplier>)
    ensures |r| <= 5
    ensures forall i :: 0 <= i < |r| ==> r[i] in suppliers && r[i].balance > 0
    ensures forall i, j :: 0 <= i < j < |r| ==> r[i].balance >= r[j].balance
    ensures forall s :: s in suppliers && s.balance > 0 ==>
              s in r || (|r| == 5 && forall i :: 0 <= i < |r| ==> r[i].balance >= s.balance)
    ensures r == [] <==> forall s :: s in suppliers ==> s.balance <= 0
  {
    assert TotalPreorder(SupplierBalanceFirst) by { OrdersAreTotalPreorders(); }
    var r := TopN(Filter(suppliers, Owed), SupplierBalanceFirst, 5);
    PayablesListFacts(suppliers, r);
    r
  }

  lemma PayablesListFacts(suppliers: seq<Supplier>, r: seq<Supplier>)
    requires TotalPreorder(SupplierBalanceFirst) && r == TopN(Filter(suppliers, Owed), SupplierBalanceFirst, 5)
    ensures |r| <= 5
    ensures forall i :: 0 <= i < |r| ==> r[i] in suppliers && r[i].balance > 0
    ensures forall i, j :: 0 <= i < j < |r| ==> r[i].balance >= r[j].balance
    ensures forall s :: s in suppliers && s.balance > 0 ==>
              s in r || (|r| == 5 && forall i :: 0 <= i < |r| ==> r[i].balance >= s.balance)
    ensures r == [] <==> forall s :: s in suppliers ==> s.balance <= 0
  {
    TopNOfFilter(suppliers, Owed, SupplierBalanceFirst, 5);
    forall i, j | 0 <= i < j < |r| ensures r[i].balance >= r[j].balance {
      assert SupplierBalanceFirst(r[i], r[j]);
    }
    forall s | s in suppliers && s.balance > 0
      ensures s in r || (|r| == 5 && forall i :: 0 <= i < |r| ==> r[i].balance >= s.balance)
    {
      assert Owed(s);
      if s !in r {
        forall i | 0 <= i < |r| ensures r[i].balance >= s.balance {
          assert SupplierBalanceFirst(r[i], s);
        }
      }
    }
  }

  /** The five largest groups of `xs`, ranked. */
  ghost predicate TopFive<T>(r: seq<Entry>, xs: seq<T>, key: T -> string, value: T -> int)
  {
    |r| <= 5 && RanksGroups(r, xs, key, value) && KeepsLargest(r, xs, key, value, 5)
  }

  /** Every group of `xs` is listed. */
  ghost predicate ListsAllGroups<T>(r: seq<Entry>, xs: seq<T>, key: T -> string)
  {
    forall k :: HasKey(xs, key, k) ==> exists i :: 0 <= i < |r| && r[i].key == k
  }

  /** The entries of a grouped dictionary, in key order, list each group once with its sum. */
  lemma EntriesAreGroups<T>(xs: seq<T>, key: T -> string, value: T -> int, keys: seq<string>, sums: map<string, int>)
    requires Grouped(xs, key, value, keys, sums)
    ensures var es := Entries(keys, sums);
            && (forall i :: 0 <= i < |es| ==> HasKey(xs, key, es[i].key) && es[i].amount == KeySum(xs, key, value, es[i].key))
            && (forall i, j :: 0 <= i < j < |es| ==> es[i].key != es[j].key)
            && ListsAllGroups(es, xs, key)
  {
    var es := Entries(keys, sums);
    forall k | HasKey(xs, key, k) ensures exists i :: 0 <= i < |es| && es[i].key == k {
      var p := KeyPosition(keys, sums, k);
      assert es[p].key == k;
    }
  }

  /** Groups `xs` by `key`, summing `value`, and ranks the groups largest
      first, keeping `n`: returns how many distinct keys there are and the
      ranked list. */
  method RankGroups<T>(xs: seq<T>, key: T -> string, value: T -> int, n: nat) returns (distinct: nat, top: seq<Entry>)
    ensures distinct == |DistinctKeys(xs, key)|
    ensures |top| <= n && RanksGroups(top, xs, key, value) && KeepsLargest(top, xs, key, value, n)
    ensures n >= distinct ==> |top| == distinct && ListsAllGroups(top, xs, key)
  {
    var keys, sums := GroupSum(xs, key, value);
    KeyCountIsDistinctKeys(xs, key, value, keys, sums);
    distinct := |keys|;
    TopGroups(xs, key, value, keys, sums, n);
    if n >= distinct {
      TopAllListsAll(xs, key, value, keys, sums, n);
    }
    top := TopEntries(Entries(keys, sums), n);
  }

  /** Keeping at least as many entries as there are lists them all. */
  lemma TopAllListsAll<T>(xs: seq<T>, key: T -> string, value: T -> int, keys: seq<string>, sums: map<string, int>, n: nat)
    requires Grouped(xs, key, value, keys, sums) && n >= |keys|
    ensures ListsAllGroups(TopEntries(Entries(keys, sums), n), xs, key)
  {
    var es := Entries(keys, sums);
    var r := TopEntries(es, n);
    forall k | HasKey(xs, key, k) ensures exists i :: 0 <= i < |r| && r[i].key == k {
      var p := KeyPosition(keys, sums, k);
      assert es[p] in multiset(r);
      var i :| 0 <= i < |r| && r[i] == es[p];
    }
  }

  // ---------------------------------------------------------------------------
  // The screen

  datatype ReportTab = SalesTab | PurchaseTab | InventoryTab | FinancialTab

  /** The screen's state: the chosen report and the date range. The defaults
      (thirty days ago to today) come from the clock and are parameters here. */
  class ReportsView {
    var tab: ReportTab
    var from: string
    var to: string

    constructor (from: string, to: string)
      ensures tab == SalesTab && this.from == from && this.to == to
    {
      tab := SalesTab;
      this.from := from;
      this.to := to;
    }

    method SetTab(t: ReportTab)
      modifies this
      ensures tab == t && from == old(from) && to == old(to)
    {
      tab := t;
    }

    method SetFrom(d: string)
      modifies this
      ensures from == d && tab == old(tab) && to == old(to)
    {
      from := d;
    }

    method SetTo(d: string)
      modifies this
      ensures to == d && tab == old(tab) && from == old(from)
    {
      to := d;
    }

    /** The sales report: total, order count, average, distinct customers, and
        the five largest customers and rice-type keys. */
    method SalesReport(data: Collections)
      returns (total: int, count: nat, average: int, activeCustomers: nat, byCustomer: seq<Entry>, byRiceType: seq<Entry>)
      ensures var orders := SalesInRange(data.salesOrders, from, to);
        && total == TotalSales(data.salesOrders, from, to)
        && count == |orders| && average == Average(total, count)
        && activeCustomers == |DistinctKeys(orders, CustomerName)|
        && TopFive(byCustomer, orders, CustomerName, SaleAmount)
        && TopFive(byRiceType, orders, RiceTypeKey, SaleAmount)
    {
      var orders := SalesInRange(data.salesOrders, from, to);
      total := SumOf(orders, SaleAmount);
      count := |orders|;
      average := Average(total, count);
      activeCustomers, byCustomer := RankGroups(orders, CustomerName, SaleAmount, 5);
      var _, top := RankGroups(orders, RiceTypeKey, SaleAmount, 5);
      byRiceType := top;
    }

    /** The purchase report: total, order count, average, distinct suppliers,
        and every supplier ranked by amount (sorted, not cut). */
    method PurchaseReport(data: Collections)
      returns (total: int, count: nat, average: int, activeSuppliers: nat, bySupplier: seq<Entry>)
      ensures var orders := PurchasesInRange(data.purchaseOrders, from, to);
        && total == TotalPurchases(data.purchaseOrders, from, to)
        && count == |orders| && average == Average(total, count)
        && activeSuppliers == |DistinctKeys(orders, SupplierName)|
        && |bySupplier| == activeSuppliers && RanksGroups(bySupplier, orders, SupplierName, PurchaseAmount)
        && ListsAllGroups(bySupplier, orders, SupplierName)
    {
      var orders := PurchasesInRange(data.purchaseOrders, from, to);
      total := SumOf(orders, PurchaseAmount);
      count := |orders|;
      average := Average(total, count);
      // No slice: there are never more suppliers than orders.
      DistinctKeysAtMostLength(orders, SupplierName);
      activeSuppliers, bySupplier := RankGroups(orders, SupplierName, PurchaseAmount, |orders|);
    }

    /** The inventory report, which ignores the date range: item count, total
        weight and value, the value held in each warehouse (in the order
        warehouses first occur), and the low-stock list. */
    method InventoryReport(data: Collections)
      returns (itemCount: nat, weight: int, value: int, byWarehouse: seq<Entry>, lowStock: seq<InventoryItem>)
      ensures var items := data.inventory;
        && itemCount == |items|
        && weight == Inventory.TotalWeight(items) && value == Inventory.TotalValue(items)
        && (forall i :: 0 <= i < |byWarehouse| ==>
              HasKey(items, WarehouseOf, byWarehouse[i].key)
              && byWarehouse[i].amount == KeySum(items, WarehouseOf, Inventory.ValueOf, byWarehouse[i].key))
        && (forall i, j :: 0 <= i < j < |byWarehouse| ==> byWarehouse[i].key != byWarehouse[j].key)
        && ListsAllGroups(byWarehouse, items, WarehouseOf)
        && SumOf(byWarehouse, EntryAmount) == value
        && lowStock == LowStockList(items)
    {
      var items := data.inventory;
      itemCount := |items|;
      weight := Inventory.TotalWeight(items);
      value := Inventory.TotalValue(items);
      var warehouses, valueSums := GroupSum(items, WarehouseOf, Inventory.ValueOf);
      EntriesAreGroups(items, WarehouseOf, Inventory.ValueOf, warehouses, valueSums);
      byWarehouse := Entries(warehouses, valueSums);
      lowStock := LowStockList(items);
    }

    /** The financial report: income, expenses, net and margin over the range,
        and the receivables and payables lists, which ignore the range. */
    method FinancialReport(data: Collections)
      returns (income: int, expenses: int, net: int, margin: real, receivables: seq<Customer>, payables: seq<Supplier>)
      ensures var txs := TransactionsInRange(data.transactions, from, to);
        && income == Finance.TotalIncome(txs) && expenses == Finance.TotalExpenses(txs)
        && net == income - expenses && margin == ProfitMargin(income, expenses)
        && receivables == ReceivablesList(data.customers) && payables == PayablesList(data.suppliers)
    {
      var txs := TransactionsInRange(data.transactions, from, to);
      income := Finance.TotalIncome(txs);
      expenses := Finance.TotalExpenses(txs);
      net := income - expenses;
      margin := ProfitMargin(income, expenses);
      receivables := ReceivablesList(data.customers);
      payables := PayablesList(data.suppliers);
    }
  }
}
