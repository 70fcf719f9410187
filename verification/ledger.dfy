/**
  * The transaction and category records the automation engine returns and
  * both pages work on, the type-from-sign rule, and the date sort
  * (`Array.prototype.sort` with a date comparator).
  */
module Ledger {
  import opened Calendar
  import opened Seqs

  /**
    * A transaction. Text fields hold "" where the record has no value: the
    * pages only ever test them with `||` or `&&`, for which undefined, null
    * and "" are alike. `kind` is the record's `type` field.
    */
  datatype Transaction = Transaction(
    id: string,
    amount: int,
    date: Date,
    kind: string,
    category: string,
    categoryName: string,
    categoryId: string,
    note: string)

  /** A category; `typeId` is 1 for income categories and 2 for expense categories. */
  datatype Category = Category(id: string, name: string, typeId: int)

  /** `Math.abs` */
  function Abs(x: int): (r: int)
    ensures r >= 0 && (r == x || r == -x)
  {
    if x < 0 then -x else x
  }

  /**
    * `txn.type || (txn.amount < 0 ? 'expense' : 'income')`: an explicit type
    * wins; without one the sign decides.
    */
  function InferType(t: Transaction): (ty: string)
    ensures ty != ""
    ensures t.kind != "" ==> ty == t.kind
    ensures t.kind == "" ==> (ty == "expense" <==> t.amount < 0) && (ty == "income" <==> t.amount >= 0)
  {
    if t.kind != "" then t.kind else if t.amount < 0 then "expense" else "income"
  }

  function AbsAmount(t: Transaction): int {
    Abs(t.amount)
  }

  /** `reduce((sum, t) => sum + Math.abs(t.amount), 0)` */
  function SumAbs(s: seq<Transaction>): int {
    SumOf(s, AbsAmount)
  }

  /** Sort keys: oldest first, and newest first. */
  function Chronological(t: Transaction): int {
    Ordinal(t.date)
  }

  function NewestFirst(t: Transaction): int {
    -Ordinal(t.date)
  }

  predicate SortedBy(s: seq<Transaction>, key: Transaction -> int) {
    forall i, j :: 0 <= i < j < |s| ==> key(s[i]) <= key(s[j])
  }

  /** Inserts `x` before the first element whose key is not smaller. */
  function Insert(x: Transaction, s: seq<Transaction>, key: Transaction -> int): (r: seq<Transaction>)
    requires SortedBy(s, key)
    ensures SortedBy(r, key)
    ensures multiset(r) == multiset(s) + multiset{x}
    ensures forall y :: y in r ==> y == x || y in s
  {
    if s == [] || key(x) <= key(s[0]) then
      BelowAll(key(x), s, key);
      ConsSorted(x, s, key);
      [x] + s
    else
      var rest := Insert(x, s[1..], key);
      RestAbove(x, s, rest, key);
      ConsSorted(s[0], rest, key);
      assert s == [s[0]] + s[1..];
      [s[0]] + rest
  }

  /** A bound below the first key of a sorted sequence is below every key. */
  lemma BelowAll(b: int, s: seq<Transaction>, key: Transaction -> int)
    requires SortedBy(s, key) && (s == [] || b <= key(s[0]))
    ensures forall i :: 0 <= i < |s| ==> b <= key(s[i])
  {
  }

  /** Putting an element no greater than all the others in front keeps a sequence sorted. */
  lemma ConsSorted(h: Transaction, t: seq<Transaction>, key: Transaction -> int)
    requires SortedBy(t, key)
    requires forall i :: 0 <= i < |t| ==> key(h) <= key(t[i])
    ensures SortedBy([h] + t, key)
  {
  }

  /** Once `x` goes past the head, the head's key is below everything `x` is inserted among. */
  lemma RestAbove(x: Transaction, s: seq<Transaction>, rest: seq<Transaction>, key: Transaction -> int)
    requires s != [] && key(s[0]) < key(x) && SortedBy(s, key)
    requires forall y :: y in rest ==> y == x || y in s[1..]
    ensures forall i :: 0 <= i < |rest| ==> key(s[0]) <= key(rest[i])
  {
    forall i | 0 <= i < |rest|
      ensures key(s[0]) <= key(rest[i])
    {
      if rest[i] != x {
        assert rest[i] in s[1..];
        var j :| 0 <= j < |s| - 1 && s[1..][j] == rest[i];
        assert s[j + 1] == rest[i];
      }
    }
  }

  /**
    * `[...s].sort((a, b) => key(a) - key(b))`, as an insertion sort: the
    * result is ordered by `key` and holds exactly the elements of `s`.
    */
  function SortBy(s: seq<Transaction>, key: Transaction -> int): (r: seq<Transaction>)
    ensures SortedBy(r, key)
    ensures multiset(r) == multiset(s)
    ensures |r| == |s|
  {
    if s == [] then []
    else
      assert s == [s[0]] + s[1..];
      Insert(s[0], SortBy(s[1..], key), key)
  }
}
