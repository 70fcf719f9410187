/**
  * The dashboard page: the daily income/expense chart, the recent
  * transactions list, the category picker, the add/edit form and the three
  * headline figures.
  */
module Dashboard {
  import opened Wrappers
  import opened Js
  import opened Seqs
  import opened Text
  import opened Calendar
  import opened Ledger
  import Gateway
  import Session

  // ---------------------------------------------------------------------
  // The chart
  // ---------------------------------------------------------------------

  /** A chart label `"<day> <short month>"`: the day of the month and the month, without the year. */
  datatype Key = Key(day: int, month: int)

  function KeyOf(t: Transaction): Key {
    Key(t.date.day, t.date.month)
  }

  /** The chart's x axis and its two series, index by index. */
  datatype Chart = Chart(labels: seq<Key>, income: seq<int>, expense: seq<int>)

  predicate Aligned(c: Chart) {
    |c.income| == |c.labels| && |c.expense| == |c.labels|
  }

  predicate Distinct(ks: seq<Key>) {
    forall i, j :: 0 <= i < j < |ks| ==> ks[i] != ks[j]
  }

  /**
    * Whether a transaction's amount is added to the income series: an explicit
    * income always, an explicit expense never, an untyped one when it is not
    * negative, and one of any other type when it is positive.
    */
  function GoesToIncome(t: Transaction): (income: bool)
    ensures t.kind == "income" ==> income
    ensures t.kind == "expense" ==> !income
    ensures t.kind == "" ==> (income <==> t.amount >= 0)
    ensures t.kind != "" && t.kind != "income" && t.kind != "expense" ==> (income <==> t.amount > 0)
  {
    var ty := InferType(t);
    ty == "income" || (ty != "expense" && t.amount > 0)
  }

  /** The position of `k` in `ks`, or `|ks|` when it is absent. */
  function IndexOf(ks: seq<Key>, k: Key): (i: nat)
    ensures i <= |ks|
    ensures i < |ks| ==> ks[i] == k
    ensures forall j :: 0 <= j < i ==> ks[j] != k
  {
    if ks == [] then 0 else if ks[0] == k then 0 else 1 + IndexOf(ks[1..], k)
  }

  /** What a transaction adds to day `k`'s income, and to its expense. */
  function IncomeShare(k: Key, t: Transaction): int {
    if KeyOf(t) == k && GoesToIncome(t) then Abs(t.amount) else 0
  }

  function ExpenseShare(k: Key, t: Transaction): int {
    if KeyOf(t) == k && !GoesToIncome(t) then Abs(t.amount) else 0
  }

  /**
    * Adds one transaction to its day's bucket, opening a new bucket at the
    * end for a day not seen before: every other bucket stays as it was.
    */
  function AddToChart(c: Chart, t: Transaction): (r: Chart)
    requires Aligned(c) && Distinct(c.labels)
    ensures Aligned(r) && Distinct(r.labels)
  {
    var k := KeyOf(t);
    var a := Abs(t.amount);
    var i := IndexOf(c.labels, k);
    if i == |c.labels| then
      Chart(c.labels + [k],
            c.income + [if GoesToIncome(t) then a else 0],
            c.expense + [if GoesToIncome(t) then 0 else a])
    else if GoesToIncome(t) then
      Chart(c.labels, c.income[i := c.income[i] + a], c.expense)
    else
      Chart(c.labels, c.income, c.expense[i := c.expense[i] + a])
  }

  /** A new day opens one bucket at the end; every bucket grows by the transaction's share of its day. */
  lemma AddToChartEffect(c: Chart, t: Transaction)
    requires Aligned(c) && Distinct(c.labels)
    ensures var r := AddToChart(c, t);
      (KeyOf(t) in c.labels ==> r.labels == c.labels)
      && (KeyOf(t) !in c.labels ==>
            r.labels == c.labels + [KeyOf(t)]
            && r.income[|c.labels|] == IncomeShare(KeyOf(t), t)
            && r.expense[|c.labels|] == ExpenseShare(KeyOf(t), t))
      && (forall j :: 0 <= j < |c.labels| ==>
            r.income[j] == c.income[j] + IncomeShare(c.labels[j], t)
            && r.expense[j] == c.expense[j] + ExpenseShare(c.labels[j], t))
  {
  }

  /** The chart of a sequence of transactions taken in order. */
  function Buckets(s: seq<Transaction>): (c: Chart)
    ensures Aligned(c) && Distinct(c.labels)
  {
    if s == [] then Chart([], [], []) else AddToChart(Buckets(s[..|s| - 1]), s[|s| - 1])
  }

  lemma BucketsAppend(s: seq<Transaction>, t: Transaction)
    ensures Buckets(s + [t]) == AddToChart(Buckets(s), t)
  {
    assert (s + [t])[..|s|] == s;
  }

  /** The label of every transaction, in order. */
  function Keys(s: seq<Transaction>): (ks: seq<Key>)
    ensures |ks| == |s|
  {
    seq(|s|, i requires 0 <= i < |s| => KeyOf(s[i]))
  }

  /** `ks` without repeats, each key kept where it first occurs: in the order of first occurrences. */
  function Dedup(ks: seq<Key>): (d: seq<Key>)
    ensures forall k :: k in d <==> k in ks
    ensures Distinct(d)
    ensures forall i, j :: 0 <= i < j < |d| ==> IndexOf(ks, d[i]) < IndexOf(ks, d[j])
  {
    if ks == [] then []
    else
      var d := Dedup(ks[..|ks| - 1]);
      var k := ks[|ks| - 1];
      DedupStep(ks, d);
      if k in d then d else d + [k]
  }

  /** One more key keeps the keys, their distinctness and the order of first occurrences. */
  lemma DedupStep(ks: seq<Key>, d: seq<Key>)
    requires ks != []
    requires forall x :: x in d <==> x in ks[..|ks| - 1]
    requires Distinct(d)
    requires forall i, j :: 0 <= i < j < |d| ==> IndexOf(ks[..|ks| - 1], d[i]) < IndexOf(ks[..|ks| - 1], d[j])
    ensures var k := ks[|ks| - 1];
      var e := if k in d then d else d + [k];
      (forall x :: x in e <==> x in ks) && Distinct(e)
      && forall i, j :: 0 <= i < j < |e| ==> IndexOf(ks, e[i]) < IndexOf(ks, e[j])
  {
    var p, k := ks[..|ks| - 1], ks[|ks| - 1];
    assert ks == p + [k];
    forall x | x in d
      ensures IndexOf(ks, x) == IndexOf(p, x) < |p|
    {
      IndexOfAppend(p, k, x);
    }
    if k !in d {
      IndexOfAppend(p, k, k);
    }
  }

  /** Appending a key leaves the positions of the keys already present. */
  lemma {:induction false} IndexOfAppend(p: seq<Key>, k: Key, x: Key)
    ensures x in p ==> IndexOf(p + [k], x) == IndexOf(p, x) < |p|
    ensures x !in p && x == k ==> IndexOf(p + [k], x) == |p|
  {
    if p != [] {
      assert (p + [k])[1..] == p[1..] + [k];
      if p[0] != x {
        IndexOfAppend(p[1..], k, x);
      }
    }
  }

  function IncomeShares(k: Key): Transaction -> int {
    t => IncomeShare(k, t)
  }

  function ExpenseShares(k: Key): Transaction -> int {
    t => ExpenseShare(k, t)
  }

  /** Day `k`'s income: the absolute amounts of that day's income transactions. */
  function IncomeOf(s: seq<Transaction>, k: Key): int {
    SumOf(s, IncomeShares(k))
  }

  /** Day `k`'s expense: the absolute amounts of that day's other transactions. */
  function ExpenseOf(s: seq<Transaction>, k: Key): int {
    SumOf(s, ExpenseShares(k))
  }

  lemma KeysOfPrefix(s: seq<Transaction>)
    requires s != []
    ensures Keys(s[..|s| - 1]) == Keys(s)[..|s| - 1]
    ensures Keys(s)[|s| - 1] == KeyOf(s[|s| - 1])
  {
  }

  /** Appending a transaction adds its share to every day's totals. */
  lemma DayTotalsAppend(s: seq<Transaction>, t: Transaction, k: Key)
    ensures IncomeOf(s + [t], k) == IncomeOf(s, k) + IncomeShare(k, t)
    ensures ExpenseOf(s + [t], k) == ExpenseOf(s, k) + ExpenseShare(k, t)
  {
    SumOfAppend(s, t, IncomeShares(k));
    SumOfAppend(s, t, ExpenseShares(k));
  }

  lemma {:induction false} TotalsOfAbsentDay(s: seq<Transaction>, k: Key)
    requires k !in Keys(s)
    ensures IncomeOf(s, k) == 0 && ExpenseOf(s, k) == 0
  {
    if s != [] {
      var n := |s|;
      KeysOfPrefix(s);
      assert s == s[..n - 1] + [s[n - 1]];
      assert k !in Keys(s[..n - 1]);
      TotalsOfAbsentDay(s[..n - 1], k);
      DayTotalsAppend(s[..n - 1], s[n - 1], k);
    }
  }

  /**
    * The labels are the days that occur in `s`, each once, in the order in
    * which each day first occurs (`Object.keys` keeps insertion order).
    */
  lemma {:induction false} BucketLabels(s: seq<Transaction>)
    ensures Buckets(s).labels == Dedup(Keys(s))
  {
    if s != [] {
      var n := |s|;
      var ks := Keys(s);
      KeysOfPrefix(s);
      BucketLabels(s[..n - 1]);
      assert Buckets(s) == AddToChart(Buckets(s[..n - 1]), s[n - 1]);
      assert Dedup(ks) == if ks[n - 1] in Dedup(ks[..n - 1]) then Dedup(ks[..n - 1]) else Dedup(ks[..n - 1]) + [ks[n - 1]];
    }
  }

  /** Each of `c`'s labels carries that day's totals in `s`. */
  predicate DayTotals(c: Chart, s: seq<Transaction>)
    requires Aligned(c)
  {
    forall j :: 0 <= j < |c.labels| ==>
      c.income[j] == IncomeOf(s, c.labels[j]) && c.expense[j] == ExpenseOf(s, c.labels[j])
  }

  /** Each label's income and expense are that day's totals. */
  lemma {:induction false} BucketTotals(s: seq<Transaction>)
    ensures DayTotals(Buckets(s), s)
  {
    if s != [] {
      var n := |s|;
      var prefix, t := s[..n - 1], s[n - 1];
      assert s == prefix + [t];
      BucketTotals(prefix);
      var before := Buckets(prefix);
      var c := Buckets(s);
      assert c == AddToChart(before, t);
      AddToChartEffect(before, t);
      forall j | 0 <= j < |c.labels|
        ensures c.income[j] == IncomeOf(s, c.labels[j]) && c.expense[j] == ExpenseOf(s, c.labels[j])
      {
        var l := c.labels[j];
        DayTotalsAppend(prefix, t, l);
        if j < |before.labels| {
          assert l == before.labels[j];
          assert before.income[j] == IncomeOf(prefix, l);
          assert before.expense[j] == ExpenseOf(prefix, l);
        } else {
          assert l == KeyOf(t) && l !in before.labels;
          BucketLabels(prefix);
          TotalsOfAbsentDay(prefix, l);
        }
      }
    }
  }

  /** Nothing is lost or counted twice: the two series together add up to the absolute amounts. */
  lemma {:induction false} BucketsTotal(s: seq<Transaction>)
    ensures Sum(Buckets(s).income) + Sum(Buckets(s).expense) == SumAbs(s)
  {
    if s != [] {
      var n := |s|;
      var prefix, t := s[..n - 1], s[n - 1];
      assert s == prefix + [t];
      BucketsTotal(prefix);
      SumOfAppend(prefix, t, AbsAmount);
      AddToChartTotal(Buckets(prefix), t);
    }
  }

  lemma AddToChartTotal(c: Chart, t: Transaction)
    requires Aligned(c) && Distinct(c.labels)
    ensures var r := AddToChart(c, t);
      Sum(r.income) + Sum(r.expense) == Sum(c.income) + Sum(c.expense) + Abs(t.amount)
  {
    var i := IndexOf(c.labels, KeyOf(t));
    var a := Abs(t.amount);
    if i == |c.labels| {
      SumAppend(c.income, if GoesToIncome(t) then a else 0);
      SumAppend(c.expense, if GoesToIncome(t) then 0 else a);
    } else if GoesToIncome(t) {
      SumUpdate(c.income, i, a);
    } else {
      SumUpdate(c.expense, i, a);
    }
  }

  /** A day's running totals while the chart is built. */
  datatype Totals = Totals(income: int, expense: int)

  /**
    * `updateChartFromData`: sorts the transactions oldest first, adds each
    * one's absolute amount to its day's income or expense in a map, and reads
    * the map back in insertion order.
    */
  method UpdateChartFromData(transactions: seq<Transaction>) returns (chart: Chart)
    ensures chart == ChartOf(transactions)
  {
    var sortedTxns := SortBy(transactions, Chronological);
    var dateMap: map<Key, Totals> := map[];
    var order: seq<Key> := [];
    MirrorsStart(sortedTxns);
    var i := 0;
    while i < |sortedTxns|
      invariant 0 <= i <= |sortedTxns|
      invariant Mirrors(dateMap, order, Buckets(sortedTxns[..i]))
    {
      MirrorsNext(dateMap, order, sortedTxns, i);
      dateMap, order := Tally(dateMap, order, sortedTxns[i]);
      i := i + 1;
    }
    assert sortedTxns[..i] == sortedTxns;
    var income := Series(dateMap, order, true);
    var expense := Series(dateMap, order, false);
    chart := Chart(order, income, expense);
    ReadBack(dateMap, order, Buckets(sortedTxns), income, expense);
  }

  /** Before the loop: the empty map and order hold the chart of no transactions. */
  lemma MirrorsStart(s: seq<Transaction>)
    ensures Mirrors(map[], [], Buckets(s[..0]))
  {
    assert s[..0] == [];
  }

  /** One turn of the loop: tallying `s[i]` turns the chart of `s[..i]` into that of `s[..i + 1]`. */
  lemma MirrorsNext(dateMap: map<Key, Totals>, order: seq<Key>, s: seq<Transaction>, i: nat)
    requires i < |s| && Mirrors(dateMap, order, Buckets(s[..i]))
    ensures Mirrors(Added(dateMap, s[i]), if KeyOf(s[i]) in dateMap then order else order + [KeyOf(s[i])],
                    Buckets(s[..i + 1]))
  {
    assert s[..i + 1] == s[..i] + [s[i]];
    BucketsAppend(s[..i], s[i]);
    MirrorsStep(dateMap, Buckets(s[..i]), s[i]);
  }

  /** After the loop: reading the map back along the insertion order gives the chart it mirrors. */
  lemma ReadBack(dateMap: map<Key, Totals>, order: seq<Key>, c: Chart, income: seq<int>, expense: seq<int>)
    requires Mirrors(dateMap, order, c)
    requires |income| == |order| && |expense| == |order|
    requires forall j :: 0 <= j < |order| ==> income[j] == dateMap[order[j]].income
    requires forall j :: 0 <= j < |order| ==> expense[j] == dateMap[order[j]].expense
    ensures Chart(order, income, expense) == c
  {
    assert income == c.income;
    assert expense == c.expense;
  }

  /**
    * The `forEach` callback: opens the transaction's day at zero when it is
    * new (appending it to the insertion order), then adds the absolute amount
    * to the day's income or expense.
    */
  method Tally(dateMap: map<Key, Totals>, order: seq<Key>, txn: Transaction)
    returns (updated: map<Key, Totals>, updatedOrder: seq<Key>)
    ensures updated == Added(dateMap, txn)
    ensures updatedOrder == if KeyOf(txn) in dateMap then order else order + [KeyOf(txn)]
  {
    updated, updatedOrder := dateMap, order;
    var dateKey := KeyOf(txn);
    if dateKey !in updated {
      updated := updated[dateKey := Totals(0, 0)];
      updatedOrder := updatedOrder + [dateKey];
    }
    var amt := txn.amount;
    var ty := InferType(txn);
    if ty == "income" || (ty != "expense" && amt > 0) {
      updated := updated[dateKey := updated[dateKey].(income := updated[dateKey].income + Abs(amt))];
    } else {
      updated := updated[dateKey := updated[dateKey].(expense := updated[dateKey].expense + Abs(amt))];
    }
  }

  /** `labels.map(l => dateMap[l].income)`, or `.expense` when `ofIncome` is false. */
  method Series(dateMap: map<Key, Totals>, labels: seq<Key>, ofIncome: bool) returns (values: seq<int>)
    requires forall l :: l in labels ==> l in dateMap
    ensures |values| == |labels|
    ensures forall j :: 0 <= j < |labels| ==>
      values[j] == if ofIncome then dateMap[labels[j]].income else dateMap[labels[j]].expense
  {
    values := [];
    var j := 0;
    while j < |labels|
      invariant 0 <= j <= |labels|
      invariant |values| == j
      invariant forall i :: 0 <= i < j ==>
        values[i] == if ofIncome then dateMap[labels[i]].income else dateMap[labels[i]].expense
    {
      values := values + [if ofIncome then dateMap[labels[j]].income else dateMap[labels[j]].expense];
      j := j + 1;
    }
  }

  /** The loop's map and insertion order hold exactly the chart `c`. */
  ghost predicate Mirrors(dateMap: map<Key, Totals>, order: seq<Key>, c: Chart) {
    Aligned(c) && Distinct(c.labels) && order == c.labels
    && (forall k :: k in dateMap <==> k in order)
    && (forall j :: 0 <= j < |order| ==> dateMap[order[j]] == Totals(c.income[j], c.expense[j]))
  }

  /** The map once `t` is added to its day, starting that day at zero when it is new. */
  function Added(dateMap: map<Key, Totals>, t: Transaction): map<Key, Totals> {
    var k := KeyOf(t);
    var m := if k in dateMap then dateMap else dateMap[k := Totals(0, 0)];
    if GoesToIncome(t) then m[k := m[k].(income := m[k].income + Abs(t.amount))]
    else m[k := m[k].(expense := m[k].expense + Abs(t.amount))]
  }

  /** One turn of the loop keeps the map in step with the chart. */
  lemma MirrorsStep(dateMap: map<Key, Totals>, c: Chart, t: Transaction)
    requires Mirrors(dateMap, c.labels, c)
    ensures Mirrors(Added(dateMap, t), if KeyOf(t) in dateMap then c.labels else c.labels + [KeyOf(t)], AddToChart(c, t))
  {
    var r := AddToChart(c, t);
    var after := Added(dateMap, t);
    AddToChartEffect(c, t);
    forall j | 0 <= j < |r.labels|
      ensures r.labels[j] in after && after[r.labels[j]] == Totals(r.income[j], r.expense[j])
    {
      if j < |c.labels| {
        assert r.labels[j] == c.labels[j];
      }
    }
  }

  /** The chart the dashboard draws: the transactions' buckets, oldest day first. */
  function ChartOf(transactions: seq<Transaction>): Chart {
    Buckets(SortBy(transactions, Chronological))
  }

  /**
    * What the chart shows: one label per day that occurs, each once, in date
    * order of first occurrence; under each, that day's income and expense;
    * and the two series together add up to the absolute amounts.
    */
  lemma ChartOfTransactions(transactions: seq<Transaction>)
    ensures var c := ChartOf(transactions);
      Aligned(c) && Distinct(c.labels)
      && c.labels == Dedup(Keys(SortBy(transactions, Chronological)))
      && (forall k :: k in c.labels <==> k in Keys(transactions))
      && DayTotals(c, transactions)
      && Sum(c.income) + Sum(c.expense) == SumAbs(transactions)
      && (transactions == [] ==> c == Chart([], [], []))
  {
    var sorted := SortBy(transactions, Chronological);
    BucketLabels(sorted);
    ChartOfAnyOrder(transactions, sorted);
  }

  /**
    * A 50 000 expense and a 200 000 income on 2 March make one bucket
    * "2 Mar" holding 200 000 income and 50 000 expense.
    */
  lemma SameDayBucket()
    ensures ChartOf([
      Transaction("1", -50000, Date(2024, 3, 2), "expense", "", "Food", "", ""),
      Transaction("2", 200000, Date(2024, 3, 2), "income", "", "", "", "")])
      == Chart([Key(2, 3)], [200000], [50000])
  {
    var food := Transaction("1", -50000, Date(2024, 3, 2), "expense", "", "Food", "", "");
    var pay := Transaction("2", 200000, Date(2024, 3, 2), "income", "", "", "", "");
    var sorted := SortBy([food, pay], Chronological);
    assert |sorted| == 2 && multiset(sorted) == multiset{food, pay};
    assert sorted == [food, pay] || sorted == [pay, food] by {
      assert sorted[0] in multiset{food, pay} && sorted[1] in multiset{food, pay};
    }
    assert Buckets([food]) == Chart([Key(2, 3)], [0], [50000]);
    assert Buckets([pay]) == Chart([Key(2, 3)], [200000], [0]);
    assert [food, pay][..1] == [food];
    assert [pay, food][..1] == [pay];
  }

  /** The day totals, the day set and the grand total do not depend on the order the transactions come in. */
  lemma ChartOfAnyOrder(s: seq<Transaction>, sorted: seq<Transaction>)
    requires multiset(sorted) == multiset(s)
    ensures var c := Buckets(sorted);
      (forall k :: k in c.labels <==> k in Keys(s))
      && DayTotals(c, s)
      && Sum(c.income) + Sum(c.expense) == SumAbs(s)
  {
    LabelsAreDays(sorted);
    KeysOfPermutation(s, sorted);
    BucketTotals(sorted);
    BucketsTotal(sorted);
    SumOfPermutation(sorted, s, AbsAmount);
    forall k: Key
      ensures IncomeOf(sorted, k) == IncomeOf(s, k) && ExpenseOf(sorted, k) == ExpenseOf(s, k)
    {
      SumOfPermutation(sorted, s, IncomeShares(k));
      SumOfPermutation(sorted, s, ExpenseShares(k));
    }
  }

  /** The labels are exactly the days that occur. */
  lemma LabelsAreDays(s: seq<Transaction>)
    ensures forall k :: k in Buckets(s).labels <==> k in Keys(s)
  {
    BucketLabels(s);
  }

  /** Reordering the transactions keeps the set of days. */
  lemma KeysOfPermutation(s: seq<Transaction>, sorted: seq<Transaction>)
    requires multiset(sorted) == multiset(s)
    ensures forall k :: k in Keys(sorted) <==> k in Keys(s)
  {
    forall k | k in Keys(sorted)
      ensures k in Keys(s)
    {
      var i :| 0 <= i < |sorted| && Keys(sorted)[i] == k;
      assert sorted[i] in multiset(s);
      var j :| 0 <= j < |s| && s[j] == sorted[i];
      assert Keys(s)[j] == k;
    }
    forall k | k in Keys(s)
      ensures k in Keys(sorted)
    {
      var i :| 0 <= i < |s| && Keys(s)[i] == k;
      assert s[i] in multiset(sorted);
      var j :| 0 <= j < |sorted| && sorted[j] == s[i];
      assert Keys(sorted)[j] == k;
    }
  }

  // ---------------------------------------------------------------------
  // The recent transactions list
  // ---------------------------------------------------------------------

  /** The position of the first category with id `id`, or `|cats|` when there is none. */
  function FindIndex(cats: seq<Category>, id: string): (i: nat)
    ensures i <= |cats|
    ensures i < |cats| ==> cats[i].id == id
    ensures forall j :: 0 <= j < i ==> cats[j].id != id
  {
    if cats == [] then 0 else if cats[0].id == id then 0 else 1 + FindIndex(cats[1..], id)
  }

  /** `userCategories.find(c => c.id === id)`: the first category with that id. */
  function FindCategory(cats: seq<Category>, id: string): (r: Option<Category>)
    ensures r.None? <==> forall c :: c in cats ==> c.id != id
    ensures r.Some? ==> r.value in cats && r.value.id == id
    ensures r.Some? ==> r.value == cats[FindIndex(cats, id)]
  {
    var i := FindIndex(cats, id);
    if i < |cats| then Some(cats[i]) else None
  }

  /**
    * The category name a row shows: the record's `category`, else its
    * `category_name`, else the name of the first known category with its
    * `category_id`, else "Uncategorized". It is never empty.
    */
  function CategoryLabel(t: Transaction, cats: seq<Category>): (name: string)
    ensures name != ""
    ensures t.category != "" ==> name == t.category
    ensures t.category == "" && t.categoryName != "" ==> name == t.categoryName
    ensures t.category == "" && t.categoryName == "" ==>
      (name == "Uncategorized" || exists c :: c in cats && c.id == t.categoryId && c.name == name)
    ensures t.category == "" && t.categoryName == "" && t.categoryId != "" && FindCategory(cats, t.categoryId).Some? ==>
      name == Or2(FindCategory(cats, t.categoryId).value.name, "Uncategorized")
    ensures t.category == "" && t.categoryName == "" && (t.categoryId == "" || forall c :: c in cats ==> c.id != t.categoryId) ==>
      name == "Uncategorized"
  {
    var named := Or2(t.category, t.categoryName);
    var looked :=
      if named == "" && t.categoryId != "" && |cats| > 0 then
        match FindCategory(cats, t.categoryId)
        case Some(c) => c.name
        case None => named
      else named;
    Or2(looked, "Uncategorized")
  }

  /** `a || b` on two strings. */
  function Or2(a: string, b: string): string {
    if a != "" then a else b
  }

  /** One row of the list: its title, its category, the sign shown and the amount shown without sign. */
  datatype Row = Row(title: string, category: string, sign: char, amount: int)

  /**
    * A row of `renderTransactions`: the title is the note unless it is blank,
    * otherwise the category; the sign is '-' for an expense or a negative
    * amount, '+' otherwise; the amount is shown without its sign.
    */
  function RenderRow(t: Transaction, cats: seq<Category>): (row: Row)
    ensures row.amount == Abs(t.amount)
    ensures row.sign == '-' || row.sign == '+'
    ensures row.sign == '-' <==> InferType(t) == "expense" || t.amount < 0
    ensures row.category == CategoryLabel(t, cats)
    ensures row.title != ""
    ensures Trim(t.note) != "" ==> row.title == t.note
    ensures Trim(t.note) == "" ==> row.title == row.category
  {
    var ty := InferType(t);
    var categoryName := CategoryLabel(t, cats);
    var title := if t.note != "" && Trim(t.note) != "" then t.note else categoryName;
    var isExpense := ty == "expense" || t.amount < 0;
    Row(title, categoryName, if isExpense then '-' else '+', Abs(t.amount))
  }

  /** `transactions.slice(0, 10)`, one row each, in the order received. */
  function RecentRows(transactions: seq<Transaction>, cats: seq<Category>): (rows: seq<Row>)
    ensures |rows| == if |transactions| < 10 then |transactions| else 10
    ensures forall i :: 0 <= i < |rows| ==> rows[i] == RenderRow(transactions[i], cats)
  {
    var n := if |transactions| < 10 then |transactions| else 10;
    seq(n, i requires 0 <= i < n => RenderRow(transactions[i], cats))
  }

  /** Without a type, the sign and the amount shown give back the stored amount. */
  lemma SignedRowAmount(t: Transaction, cats: seq<Category>)
    requires t.kind == ""
    ensures var row := RenderRow(t, cats);
      (if row.sign == '-' then -row.amount else row.amount) == t.amount
  {
  }

  /**
    * The list and the chart agree on which side a transaction is on whenever
    * its amount is not zero and an income-typed record is not negative: '+'
    * exactly for the transactions the chart counts as income.
    */
  lemma RowSignMatchesChart(t: Transaction, cats: seq<Category>)
    requires t.amount != 0
    requires t.kind == "income" ==> t.amount > 0
    ensures RenderRow(t, cats).sign == '+' <==> GoesToIncome(t)
  {
  }

  // ---------------------------------------------------------------------
  // The category picker and the add/edit form
  // ---------------------------------------------------------------------

  /** `type === 'income' ? 1 : 2` */
  function TypeIdFor(kind: string): (id: int)
    ensures id == 1 <==> kind == "income"
    ensures id == 2 <==> kind != "income"
  {
    if kind == "income" then 1 else 2
  }

  /** `renderCategoryOptions`: the categories of the chosen type, in their order; an option per category. */
  function CategoryOptions(cats: seq<Category>, kind: string): (options: seq<Category>)
    ensures forall c :: c in options <==> c in cats && c.typeId == TypeIdFor(kind)
    ensures IsSubsequence(options, cats)
    ensures forall c :: multiset(options)[c] == if c.typeId == TypeIdFor(kind) then multiset(cats)[c] else 0
  {
    var typeId := TypeIdFor(kind);
    Filter(cats, (c: Category) => c.typeId == typeId)
  }

  /**
    * The form's fields when submitted. `amount` is `parseFloat` of the amount
    * field (None for NaN); `kind` and `category` are "" when nothing is chosen.
    */
  datatype FormFields = FormFields(kind: string, amount: Option<int>, date: string, category: string, note: string)

  /** Line 292: an expense is sent negative, anything else positive, the magnitude kept. */
  function SubmittedAmount(kind: string, amount: int): (r: int)
    ensures Abs(r) == Abs(amount)
    ensures kind == "expense" ==> r <= 0
    ensures kind != "expense" ==> r >= 0
  {
    if kind == "expense" then -Abs(amount) else Abs(amount)
  }

  /** `formData.get(name)` for a radio group or a select: null when nothing is chosen. */
  function Chosen(s: string): Value {
    if s == "" then Null else Str(s)
  }

  /** The JSON body the form sends (`JSON.stringify` turns NaN into null). */
  function SubmitBody(f: FormFields): (body: map<string, Value>)
    ensures body.Keys == {"amount", "date", "category_name", "note", "type"}
    ensures f.amount.None? ==> body["amount"] == Null
    ensures f.amount.Some? ==> body["amount"] == Num(SubmittedAmount(f.kind, f.amount.value))
    ensures body["date"] == Str(f.date) && body["note"] == Str(f.note)
    ensures f.category == "" ==> body["category_name"] == Null
    ensures f.category != "" ==> body["category_name"] == Str(f.category)
    ensures f.kind == "" ==> body["type"] == Null
    ensures f.kind != "" ==> body["type"] == Str(f.kind)
  {
    map[
      "amount" := (match f.amount case Some(a) => Num(SubmittedAmount(f.kind, a)) case None => Null),
      "date" := Str(f.date),
      "category_name" := Chosen(f.category),
      "note" := Str(f.note),
      "type" := Chosen(f.kind)]
  }

  /** A request the page sends through the gateway: its route and body. */
  datatype Outbound = Outbound(route: Gateway.Route, body: map<string, Value>)

  /** PUT to the edited transaction while editing, POST otherwise. */
  function SubmitRequest(editingId: string, f: FormFields): (r: Outbound)
    ensures r.body == SubmitBody(f)
    ensures editingId != "" <==> r.route == Gateway.UpdateTransaction(editingId)
    ensures editingId == "" <==> r.route == Gateway.AddTransaction
  {
    Outbound(if editingId != "" then Gateway.UpdateTransaction(editingId) else Gateway.AddTransaction, SubmitBody(f))
  }

  /**
    * A new transaction passes the gateway's check exactly when the amount is
    * a non-zero number and a date and a type are given.
    */
  lemma NewTransactionAccepted(f: FormFields)
    ensures !Gateway.MissingRequiredField(SubmitBody(f)) <==>
      f.amount.Some? && f.amount.value != 0 && f.date != "" && f.kind != ""
  {
    if f.amount.Some? {
      var r := SubmittedAmount(f.kind, f.amount.value);
      assert r == 0 <==> f.amount.value == 0;
    }
  }

  /**
    * Whether the category select offers `name`: `renderCategoryOptions(kind)`
    * adds one option per category of that type, valued by its name.
    */
  predicate IsOption(cats: seq<Category>, kind: string, name: string) {
    exists c :: c in CategoryOptions(cats, kind) && c.name == name
  }

  /**
    * `openEditModal`'s fields: the inferred type, the amount without sign,
    * the date (an input of type date keeps only a valid "YYYY-MM-DD"), the
    * category and the note. Setting the select to `category || category_name`
    * selects the option of that name among those drawn from the categories
    * loaded so far (`cats`, empty before the first load); when there is none,
    * nothing is selected and the form reads no category.
    */
  function Prefill(t: Transaction, cats: seq<Category>): (f: FormFields)
    ensures f.kind == InferType(t) && f.amount == Some(Abs(t.amount)) && f.note == t.note
    ensures IsOption(cats, f.kind, Or2(t.category, t.categoryName)) ==> f.category == Or2(t.category, t.categoryName)
    ensures !IsOption(cats, f.kind, Or2(t.category, t.categoryName)) ==> f.category == ""
    ensures ValidDate(t.date) && IsoYear(t.date) ==> ParseIsoDate(f.date) == Some(t.date)
  {
    var valid := ValidDate(t.date) && IsoYear(t.date);
    var date := if valid then IsoDate(t.date) else "";
    assert valid ==> ParseIsoDate(date) == Some(t.date) by {
      if valid {
        ParseIsoDateOfIsoDate(t.date);
      }
    }
    var kind := InferType(t);
    var wanted := Or2(t.category, t.categoryName);
    FormFields(kind, Some(Abs(t.amount)), date, if IsOption(cats, kind, wanted) then wanted else "", t.note)
  }

  /**
    * Editing a transaction and saving it unchanged sends back its amount and
    * its type whenever its sign agrees with its type, and its category only
    * when the select offers it: otherwise `category_name` is null.
    */
  lemma EditRoundTrip(t: Transaction, cats: seq<Category>)
    requires t.kind == "expense" ==> t.amount <= 0
    requires t.kind != "" && t.kind != "expense" ==> t.amount >= 0
    ensures var body, wanted := SubmitBody(Prefill(t, cats)), Or2(t.category, t.categoryName);
      body["amount"] == Num(t.amount) && body["type"] == Str(InferType(t)) && body["note"] == Str(t.note)
      && (IsOption(cats, InferType(t), wanted) && wanted != "" ==> body["category_name"] == Str(wanted))
      && (!IsOption(cats, InferType(t), wanted) ==> body["category_name"] == Null)
  {
  }

  /** Whatever the user types, a saved record's sign agrees with its type, so the list and the chart agree on it. */
  lemma SavedRecordsAgree(f: FormFields, t: Transaction, cats: seq<Category>)
    requires f.kind == "income" || f.kind == "expense"
    requires f.amount.Some? && f.amount.value != 0
    requires t.kind == f.kind && t.amount == SubmittedAmount(f.kind, f.amount.value)
    ensures RenderRow(t, cats).sign == '+' <==> GoesToIncome(t)
  {
    RowSignMatchesChart(t, cats);
  }

  /** What the submit handler shows afterwards. */
  datatype Toast = Saved | Updated | Failed

  predicate Ok(status: int) {
    200 <= status < 300
  }

  /** The add/edit modal: which transaction, if any, is being edited. */
  class TransactionForm {
    /** `editingId`: the id of the transaction being edited, "" (null) while adding. */
    var editingId: string

    constructor ()
      ensures editingId == ""
    {
      editingId := "";
    }

    /**
      * `openEditModal(txn)`: remembers the id and fills the form from the
      * record with the categories loaded so far. A record whose type is
      * neither "income" nor "expense" has no radio button to check: the
      * handler throws there, after remembering the id, and the modal does not
      * open (None).
      */
    method OpenEdit(t: Transaction, cats: seq<Category>) returns (f: Option<FormFields>)
      modifies this
      ensures editingId == t.id
      ensures f.Some? <==> InferType(t) == "income" || InferType(t) == "expense"
      ensures f.Some? ==> f.value == Prefill(t, cats)
    {
      editingId := t.id;
      var kind := InferType(t);
      if kind == "income" || kind == "expense" {
        f := Some(Prefill(t, cats));
      } else {
        f := None;
      }
    }

    /** `openTransactionModal`: a new transaction. */
    method OpenNew()
      modifies this
      ensures editingId == ""
    {
      editingId := "";
    }

    /** `closeTransactionModal` */
    method Close()
      modifies this
      ensures editingId == ""
    {
      editingId := "";
    }

    /**
      * The submit handler: sends the fields through `authFetch` as a PUT while
      * editing and a POST otherwise; on an ok answer it shows "Updated!" or
      * "Saved!", closes the modal and starts the page's two refreshes without
      * waiting for them (`fetchTransactions(); fetchStats();` on the dashboard,
      * `fetchCategoryStats(); fetchMonthlyExpenses();` on the statistics page);
      * otherwise it shows the error and the modal stays as it was. Both
      * refresh requests leave before either answer (`firstRefresh`,
      * `secondRefresh`) comes back, so a 401 on one of them cannot hold the
      * other back, and the latch still redirects only once.
      */
    method Submit(f: FormFields, session: Session.AuthSession, outcome: Session.FetchOutcome,
                  firstRefresh: Session.FetchOutcome, secondRefresh: Session.FetchOutcome)
      returns (request: Outbound, toast: Toast)
      requires session.Valid()
      modifies this, session
      ensures session.Valid()
      ensures request == SubmitRequest(old(editingId), f)
      ensures var ok := !old(session.redirecting) && outcome.Received? && Ok(outcome.response.status);
        (ok ==> editingId == "" && toast == (if old(editingId) != "" then Updated else Saved))
        && (!ok ==> editingId == old(editingId) && toast == Failed)
      ensures old(session.redirecting) ==>
        session.requestsSent == old(session.requestsSent) && session.redirects == old(session.redirects)
      ensures var ok := !old(session.redirecting) && outcome.Received? && Ok(outcome.response.status);
        !old(session.redirecting) && !ok ==>
          session.requestsSent == old(session.requestsSent) + 1
          && (session.redirecting <==> Session.Is401(outcome))
      ensures var ok := !old(session.redirecting) && outcome.Received? && Ok(outcome.response.status);
        ok ==>
          session.requestsSent == old(session.requestsSent) + 3
          && (session.redirecting <==> Session.Is401(firstRefresh) || Session.Is401(secondRefresh))
    {
      request := SubmitRequest(editingId, f);
      var res := session.AuthFetch(outcome);
      if res.Returned? && Ok(res.response.status) {
        toast := if editingId != "" then Updated else Saved;
        Close();
        var sentFirst := session.Send();
        var sentSecond := session.Send();
        if sentFirst {
          var ignored := session.Receive(firstRefresh);
        }
        if sentSecond {
          var ignored := session.Receive(secondRefresh);
        }
      } else {
        toast := Failed;
      }
    }
  }

  // ---------------------------------------------------------------------
  // The headline figures
  // ---------------------------------------------------------------------

  /** Balance, income and expense as shown. */
  datatype Figures = Figures(balance: Value, income: Value, expense: Value)

  /** `value || 0` */
  function OrZero(v: Value): (r: Value)
    ensures Truthy(v) ==> r == v
    ensures !Truthy(v) ==> r == Num(0)
  {
    Or(v, Num(0))
  }

  /** A figure shown as `v || 0`: `v` itself when truthy, 0 otherwise. */
  predicate ShowsOrZero(shown: Value, v: Value) {
    (Truthy(v) ==> shown == v) && (!Truthy(v) ==> shown == Num(0))
  }

  /**
    * `fetchStats` and `renderStats`: nothing is drawn when `authFetch` gave
    * null; an error answer, a network failure or a body that is JSON null
    * (reading `data.data` throws) shows zeros; otherwise the figures are read
    * from `data.data || data`, each falling back to 0.
    */
  function ShownFigures(r: Session.FetchResult): (shown: Option<Figures>)
    ensures r.NullResult? <==> shown.None?
    ensures r.Rethrown? || (r.Returned? && (!Ok(r.response.status) || Nullish(r.response.body))) ==>
      shown == Some(Figures(Num(0), Num(0), Num(0)))
    ensures r.Returned? && Ok(r.response.status) && !Nullish(r.response.body) ==>
      var data := r.response.body;
      var stats := if Truthy(Get(data, "data")) then Get(data, "data") else data;
      shown.Some? && ShowsOrZero(shown.value.balance, Get(stats, "balance"))
      && ShowsOrZero(shown.value.income, Get(stats, "income"))
      && ShowsOrZero(shown.value.expense, Get(stats, "expense"))
  {
    match r
    case NullResult => None
    case Rethrown => Some(Figures(Num(0), Num(0), Num(0)))
    case Returned(response) =>
      if !Ok(response.status) || Nullish(response.body) then Some(Figures(Num(0), Num(0), Num(0)))
      else
        var data := response.body;
        var stats := Or(Get(data, "data"), data);
        Some(Figures(OrZero(Get(stats, "balance")), OrZero(Get(stats, "income")), OrZero(Get(stats, "expense"))))
  }

  /**
    * The name in the sidebar: `full_name || email.split('@')[0]`, that is the
    * full name, or else the part of the e-mail address before its first '@'.
    */
  function SidebarName(fullName: string, email: string): (name: string)
    ensures fullName != "" ==> name == fullName
    ensures fullName == "" ==>
      '@' !in name && |name| <= |email| && email[..|name|] == name && (|name| == |email| || email[|name|] == '@')
  {
    if fullName != "" then fullName
    else
      FirstPiece(email, '@');
      Split(email, '@')[0]
  }
}
