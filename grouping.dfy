/**
 * Group-by, order-by and filter over in-memory rows: the shape of the ORM
 * queries `values(label).annotate(total=Sum(..), count=Count('id')).order_by(..)`
 * that the analysis views run against the ledger.
 */
module Grouping {

  /** One input row of a grouped query: the value of the grouping column and the value summed. */
  datatype Row<L> = Row(key: L, value: real)

  /** One output row of a grouped query: the group's label, the sum of its values and its row count. */
  datatype Bucket<L> = Bucket(key: L, total: real, count: nat)

  // ---------------------------------------------------------------------------
  // Reference definitions: what a group's sum and count are, row by row.
  // ---------------------------------------------------------------------------

  /** Sum of the values of the rows labelled `l`. */
  function SumWhere<L(==)>(rows: seq<Row<L>>, l: L): real
  {
    if rows == [] then 0.0
    else SumWhere(rows[..|rows| - 1], l) + (if rows[|rows| - 1].key == l then rows[|rows| - 1].value else 0.0)
  }

  /** Number of rows labelled `l`. */
  function CountWhere<L(==)>(rows: seq<Row<L>>, l: L): nat
  {
    if rows == [] then 0
    else CountWhere(rows[..|rows| - 1], l) + (if rows[|rows| - 1].key == l then 1 else 0)
  }

  /** Sum of the values of all rows (an aggregate over the whole table). */
  function SumAll<L>(rows: seq<Row<L>>): real
  {
    if rows == [] then 0.0 else SumAll(rows[..|rows| - 1]) + rows[|rows| - 1].value
  }

  /** Sum of the bucket totals. */
  function Totals<L>(bs: seq<Bucket<L>>): real
  {
    if bs == [] then 0.0 else bs[0].total + Totals(bs[1..])
  }

  /** Sum of the bucket counts. */
  function Counts<L>(bs: seq<Bucket<L>>): nat
  {
    if bs == [] then 0 else bs[0].count + Counts(bs[1..])
  }

  ghost predicate DistinctLabels<L>(bs: seq<Bucket<L>>)
  {
    forall i, j :: 0 <= i < j < |bs| ==> bs[i].key != bs[j].key
  }

  /**
   * `bs` is a grouping of `rows`: labels are distinct, every bucket holds the
   * sum and the (positive) count of its rows, and every row's label has a bucket.
   */
  ghost predicate IsGrouping<L>(bs: seq<Bucket<L>>, rows: seq<Row<L>>)
  {
    && DistinctLabels(bs)
    && (forall i :: 0 <= i < |bs| ==>
          && bs[i].total == SumWhere(rows, bs[i].key)
          && bs[i].count == CountWhere(rows, bs[i].key)
          && bs[i].count > 0)
    && (forall k :: 0 <= k < |rows| ==> exists i :: 0 <= i < |bs| && bs[i].key == rows[k].key)
  }

  /** With no negative value among the rows, no group sums to a negative total. */
  lemma {:induction false} SumWhereNonNegative<L>(rows: seq<Row<L>>, l: L)
    requires forall k :: 0 <= k < |rows| ==> rows[k].value >= 0.0
    ensures SumWhere(rows, l) >= 0.0
  {
    if rows != [] {
      SumWhereNonNegative(rows[..|rows| - 1], l);
    }
  }

  // ---------------------------------------------------------------------------
  // Group-by as a fold over the rows.
  // ---------------------------------------------------------------------------

  /** Position of the bucket labelled `l`, or -1 when there is none. */
  function IndexOf<L(==)>(bs: seq<Bucket<L>>, l: L): (k: int)
    ensures -1 <= k < |bs|
    ensures 0 <= k ==> bs[k].key == l
    ensures k < 0 ==> forall i :: 0 <= i < |bs| ==> bs[i].key != l
  {
    if bs == [] then -1
    else if bs[0].key == l then 0
    else
      var k := IndexOf(bs[1..], l);
      assert forall i :: 0 < i < |bs| ==> bs[i] == bs[1..][i - 1];
      if k < 0 then -1 else k + 1
  }

  /** Adds one row to a partial grouping: into its label's bucket, or as a new bucket. */
  function AddRow<L(==)>(bs: seq<Bucket<L>>, r: Row<L>): seq<Bucket<L>>
  {
    var k := IndexOf(bs, r.key);
    if k < 0 then bs + [Bucket(r.key, r.value, 1)]
    else bs[k := Bucket(r.key, bs[k].total + r.value, bs[k].count + 1)]
  }

  /**
   * The grouped aggregate of `rows`: it is a grouping, and its totals and
   * counts partition the grand total and the number of rows.
   */
  function GroupBy<L(==)>(rows: seq<Row<L>>): (bs: seq<Bucket<L>>)
    ensures IsGrouping(bs, rows)
    ensures Totals(bs) == SumAll(rows)
    ensures Counts(bs) == |rows|
  {
    if rows == [] then []
    else
      var prefix := rows[..|rows| - 1];
      var last := rows[|rows| - 1];
      assert rows == prefix + [last];
      var g := GroupBy(prefix);
      AddRowGrouping(g, prefix, last);
      AddRow(g, last)
  }

  lemma {:induction false} AbsentLabel<L>(rows: seq<Row<L>>, l: L)
    requires forall k :: 0 <= k < |rows| ==> rows[k].key != l
    ensures SumWhere(rows, l) == 0.0 && CountWhere(rows, l) == 0
  {
    if rows != [] {
      AbsentLabel(rows[..|rows| - 1], l);
    }
  }

  lemma {:induction false} TotalsSnoc<L>(bs: seq<Bucket<L>>, b: Bucket<L>)
    ensures Totals(bs + [b]) == Totals(bs) + b.total
    ensures Counts(bs + [b]) == Counts(bs) + b.count
  {
    if bs != [] {
      assert (bs + [b])[1..] == bs[1..] + [b];
      TotalsSnoc(bs[1..], b);
    }
  }

  lemma {:induction false} TotalsUpdate<L>(bs: seq<Bucket<L>>, k: nat, b: Bucket<L>)
    requires k < |bs|
    ensures Totals(bs[k := b]) == Totals(bs) - bs[k].total + b.total
    ensures Counts(bs[k := b]) == Counts(bs) - bs[k].count + b.count
  {
    if k > 0 {
      assert bs[k := b][1..] == bs[1..][k - 1 := b];
      TotalsUpdate(bs[1..], k - 1, b);
    }
  }

  lemma AddRowGrouping<L>(bs: seq<Bucket<L>>, rows: seq<Row<L>>, r: Row<L>)
    requires IsGrouping(bs, rows)
    requires Totals(bs) == SumAll(rows) && Counts(bs) == |rows|
    ensures IsGrouping(AddRow(bs, r), rows + [r])
    ensures Totals(AddRow(bs, r)) == SumAll(rows + [r])
    ensures Counts(AddRow(bs, r)) == |rows| + 1
  {
    var k := IndexOf(bs, r.key);
    if k < 0 {
      assert AddRow(bs, r) == bs + [Bucket(r.key, r.value, 1)];
      AddNewBucket(bs, rows, r);
    } else {
      assert AddRow(bs, r) == bs[k := Bucket(r.key, bs[k].total + r.value, bs[k].count + 1)];
      AddToBucket(bs, rows, r, k);
    }
  }

  /** One more row adds its value and one to its own label's sum and count, and nothing to any other. */
  lemma RowSnoc<L>(rows: seq<Row<L>>, r: Row<L>, l: L)
    ensures SumWhere(rows + [r], l) == SumWhere(rows, l) + (if r.key == l then r.value else 0.0)
    ensures CountWhere(rows + [r], l) == CountWhere(rows, l) + (if r.key == l then 1 else 0)
  {
    assert (rows + [r])[..|rows|] == rows;
  }

  /** A row whose label has no bucket yet opens a new bucket at the end. */
  lemma AddNewBucket<L>(bs: seq<Bucket<L>>, rows: seq<Row<L>>, r: Row<L>)
    requires IsGrouping(bs, rows)
    requires Totals(bs) == SumAll(rows) && Counts(bs) == |rows|
    requires forall i :: 0 <= i < |bs| ==> bs[i].key != r.key
    ensures IsGrouping(bs + [Bucket(r.key, r.value, 1)], rows + [r])
    ensures Totals(bs + [Bucket(r.key, r.value, 1)]) == SumAll(rows + [r])
    ensures Counts(bs + [Bucket(r.key, r.value, 1)]) == |rows| + 1
  {
    var s := rows + [r];
    var bs' := bs + [Bucket(r.key, r.value, 1)];
    assert s[..|s| - 1] == rows;
    TotalsSnoc(bs, Bucket(r.key, r.value, 1));
    NoBucketNoRow(bs, rows, r.key);
    NewBucketExact(bs, rows, r, bs', s);
    Covered(bs, rows, r, bs', s, |bs|);
    NewLabelDistinct(bs, Bucket(r.key, r.value, 1));
  }

  lemma NewLabelDistinct<L>(bs: seq<Bucket<L>>, b: Bucket<L>)
    requires DistinctLabels(bs) && forall i :: 0 <= i < |bs| ==> bs[i].key != b.key
    ensures DistinctLabels(bs + [b])
  {
    forall i, j | 0 <= i < j < |bs| + 1 ensures (bs + [b])[i].key != (bs + [b])[j].key {
      if j == |bs| {
        assert (bs + [b])[i] == bs[i];
      } else {
        assert (bs + [b])[i] == bs[i] && (bs + [b])[j] == bs[j];
      }
    }
  }

  /** A label with no bucket labels none of the rows. */
  lemma NoBucketNoRow<L>(bs: seq<Bucket<L>>, rows: seq<Row<L>>, l: L)
    requires forall k :: 0 <= k < |rows| ==> exists i :: 0 <= i < |bs| && bs[i].key == rows[k].key
    requires forall i :: 0 <= i < |bs| ==> bs[i].key != l
    ensures forall j :: 0 <= j < |rows| ==> rows[j].key != l
  {
    forall j | 0 <= j < |rows| ensures rows[j].key != l {
      var i :| 0 <= i < |bs| && bs[i].key == rows[j].key;
    }
  }

  lemma NewBucketExact<L>(bs: seq<Bucket<L>>, rows: seq<Row<L>>, r: Row<L>, bs': seq<Bucket<L>>, s: seq<Row<L>>)
    requires forall i :: 0 <= i < |bs| ==>
      bs[i].total == SumWhere(rows, bs[i].key) && bs[i].count == CountWhere(rows, bs[i].key) && bs[i].count > 0
    requires forall i :: 0 <= i < |bs| ==> bs[i].key != r.key
    requires forall j :: 0 <= j < |rows| ==> rows[j].key != r.key
    requires bs' == bs + [Bucket(r.key, r.value, 1)] && s == rows + [r]
    ensures forall i :: 0 <= i < |bs'| ==>
      bs'[i].total == SumWhere(s, bs'[i].key) && bs'[i].count == CountWhere(s, bs'[i].key) && bs'[i].count > 0
  {
    AbsentLabel(rows, r.key);
    forall i | 0 <= i < |bs'|
      ensures bs'[i].total == SumWhere(s, bs'[i].key) && bs'[i].count == CountWhere(s, bs'[i].key)
    {
      RowSnoc(rows, r, bs'[i].key);
    }
  }

  /**
   * After one more row, every row's label still has a bucket, when the old
   * buckets keep their labels at their positions and bucket `k` has the new row's label.
   */
  lemma Covered<L>(bs: seq<Bucket<L>>, rows: seq<Row<L>>, r: Row<L>, bs': seq<Bucket<L>>, s: seq<Row<L>>, k: nat)
    requires forall k :: 0 <= k < |rows| ==> exists i :: 0 <= i < |bs| && bs[i].key == rows[k].key
    requires |bs| <= |bs'| && forall i :: 0 <= i < |bs| ==> bs'[i].key == bs[i].key
    requires k < |bs'| && bs'[k].key == r.key && s == rows + [r]
    ensures forall j :: 0 <= j < |s| ==> exists i :: 0 <= i < |bs'| && bs'[i].key == s[j].key
  {
    forall j | 0 <= j < |s| ensures exists i :: 0 <= i < |bs'| && bs'[i].key == s[j].key {
      if j == |rows| {
        assert bs'[k].key == s[j].key;
      } else {
        var i :| 0 <= i < |bs| && bs[i].key == rows[j].key;
        assert bs'[i].key == s[j].key;
      }
    }
  }

  /** A row whose label has bucket `k` adds its value and one to that bucket. */
  lemma AddToBucket<L>(bs: seq<Bucket<L>>, rows: seq<Row<L>>, r: Row<L>, k: nat)
    requires IsGrouping(bs, rows)
    requires Totals(bs) == SumAll(rows) && Counts(bs) == |rows|
    requires k < |bs| && bs[k].key == r.key
    ensures IsGrouping(bs[k := Bucket(r.key, bs[k].total + r.value, bs[k].count + 1)], rows + [r])
    ensures Totals(bs[k := Bucket(r.key, bs[k].total + r.value, bs[k].count + 1)]) == SumAll(rows + [r])
    ensures Counts(bs[k := Bucket(r.key, bs[k].total + r.value, bs[k].count + 1)]) == |rows| + 1
  {
    var s := rows + [r];
    var bs' := bs[k := Bucket(r.key, bs[k].total + r.value, bs[k].count + 1)];
    assert s[..|s| - 1] == rows;
    TotalsUpdate(bs, k, Bucket(r.key, bs[k].total + r.value, bs[k].count + 1));
    UpdatedBucketExact(bs, rows, r, k, bs', s);
    Covered(bs, rows, r, bs', s, k);
  }

  lemma UpdatedBucketExact<L>(bs: seq<Bucket<L>>, rows: seq<Row<L>>, r: Row<L>, k: nat, bs': seq<Bucket<L>>, s: seq<Row<L>>)
    requires forall i :: 0 <= i < |bs| ==>
      bs[i].total == SumWhere(rows, bs[i].key) && bs[i].count == CountWhere(rows, bs[i].key) && bs[i].count > 0
    requires DistinctLabels(bs)
    requires k < |bs| && bs[k].key == r.key
    requires bs' == bs[k := Bucket(r.key, bs[k].total + r.value, bs[k].count + 1)] && s == rows + [r]
    ensures forall i :: 0 <= i < |bs'| ==>
      bs'[i].total == SumWhere(s, bs'[i].key) && bs'[i].count == CountWhere(s, bs'[i].key) && bs'[i].count > 0
  {
    forall i | 0 <= i < |bs'|
      ensures bs'[i].total == SumWhere(s, bs'[i].key) && bs'[i].count == CountWhere(s, bs'[i].key)
    {
      RowSnoc(rows, r, bs'[i].key);
    }
  }

  // ---------------------------------------------------------------------------
  // Order-by: insertion sort under a total preorder.
  // ---------------------------------------------------------------------------

  /** `le` is total and transitive, so it can serve as an `order_by` comparison. */
  ghost predicate TotalPreorder<T(!new)>(le: (T, T) -> bool)
  {
    && (forall a, b :: le(a, b) || le(b, a))
    && (forall a, b, c :: le(a, b) && le(b, c) ==> le(a, c))
  }

  ghost predicate SortedBy<T>(s: seq<T>, le: (T, T) -> bool)
  {
    forall i, j :: 0 <= i < j < |s| ==> le(s[i], s[j])
  }

  /** Inserts `x` in front of the first element it may precede. */
  function Insert<T(!new)>(s: seq<T>, x: T, le: (T, T) -> bool): (r: seq<T>)
    requires TotalPreorder(le) && SortedBy(s, le)
    ensures SortedBy(r, le)
    ensures multiset(r) == multiset(s) + multiset{x}
  {
    if s == [] then [x]
    else if le(x, s[0]) then
      assert s == [s[0]] + s[1..];
      [x] + s
    else
      var rest := Insert(s[1..], x, le);
      assert s == [s[0]] + s[1..];
      HeadPrecedesRest(s, x, le, rest);
      ConsSorted(s[0], rest, le);
      [s[0]] + rest
  }

  /** When `x` may not precede the head of `s`, the head may precede everything `x` is inserted among. */
  lemma HeadPrecedesRest<T(!new)>(s: seq<T>, x: T, le: (T, T) -> bool, rest: seq<T>)
    requires TotalPreorder(le) && SortedBy(s, le) && s != [] && !le(x, s[0])
    requires multiset(rest) == multiset(s[1..]) + multiset{x}
    ensures forall j :: 0 <= j < |rest| ==> le(s[0], rest[j])
  {
    forall j | 0 <= j < |rest| ensures le(s[0], rest[j]) {
      assert rest[j] in multiset(rest);
      if rest[j] != x {
        assert rest[j] in multiset(s[1..]);
        var m :| 0 <= m < |s[1..]| && s[1..][m] == rest[j];
        assert s[1 + m] == rest[j];
      }
    }
  }

  lemma ConsSorted<T>(h: T, rest: seq<T>, le: (T, T) -> bool)
    requires SortedBy(rest, le) && forall j :: 0 <= j < |rest| ==> le(h, rest[j])
    ensures SortedBy([h] + rest, le)
  {
    forall i, j | 0 <= i < j < |rest| + 1 ensures le(([h] + rest)[i], ([h] + rest)[j]) {
      assert ([h] + rest)[j] == rest[j - 1];
      if i > 0 {
        assert ([h] + rest)[i] == rest[i - 1];
      }
    }
  }

  /** The rows of `s` ordered by `le`: a sorted permutation of `s`. */
  function SortBy<T(!new)>(s: seq<T>, le: (T, T) -> bool): (r: seq<T>)
    requires TotalPreorder(le)
    ensures SortedBy(r, le)
    ensures multiset(r) == multiset(s)
    ensures |r| == |s|
  {
    if s == [] then []
    else
      assert s == [s[0]] + s[1..];
      Insert(SortBy(s[1..], le), s[0], le)
  }

  // ---------------------------------------------------------------------------
  // A reordered grouping is still a grouping with the same totals.
  // ---------------------------------------------------------------------------

  lemma {:induction false} DistinctMultiplicity<T>(s: seq<T>, x: T)
    requires forall i, j :: 0 <= i < j < |s| ==> s[i] != s[j]
    ensures multiset(s)[x] <= 1
  {
    if s != [] {
      assert s == [s[0]] + s[1..];
      DistinctMultiplicity(s[1..], x);
      if s[0] == x {
        assert forall j :: 0 <= j < |s[1..]| ==> s[1..][j] != x by {
          forall j | 0 <= j < |s[1..]| ensures s[1..][j] != x { assert s[1..][j] == s[1 + j]; }
        }
        assert x !in multiset(s[1..]);
      }
    }
  }

  lemma DuplicateMultiplicity<T>(s: seq<T>, i: nat, j: nat)
    requires i < j < |s| && s[i] == s[j]
    ensures multiset(s)[s[i]] >= 2
  {
    assert s == s[..j] + s[j..];
    assert s[i] in s[..j];
    assert s[j..][0] == s[i];
  }

  lemma PermutationKeepsGrouping<L>(a: seq<Bucket<L>>, b: seq<Bucket<L>>, rows: seq<Row<L>>)
    requires IsGrouping(a, rows)
    requires multiset(a) == multiset(b)
    ensures IsGrouping(b, rows)
  {
    forall i | 0 <= i < |b| ensures exists p :: 0 <= p < |a| && a[p] == b[i] {
      assert b[i] in multiset(b);
      assert b[i] in a;
    }
    forall i, j | 0 <= i < j < |b| ensures b[i].key != b[j].key {
      if b[i].key == b[j].key {
        var p :| 0 <= p < |a| && a[p] == b[i];
        var q :| 0 <= q < |a| && a[q] == b[j];
        assert p == q;
        DuplicateMultiplicity(b, i, j);
        DistinctMultiplicity(a, b[i]);
        assert false;
      }
    }
    forall k | 0 <= k < |rows| ensures exists i :: 0 <= i < |b| && b[i].key == rows[k].key {
      var r := rows[k];
      var p :| 0 <= p < |a| && a[p].key == r.key;
      assert a[p] in multiset(a);
      assert a[p] in b;
      var i :| 0 <= i < |b| && b[i] == a[p];
    }
  }

  lemma {:induction false} InsertTotals<L(!new)>(s: seq<Bucket<L>>, x: Bucket<L>, le: (Bucket<L>, Bucket<L>) -> bool)
    requires TotalPreorder(le) && SortedBy(s, le)
    ensures Totals(Insert(s, x, le)) == Totals(s) + x.total
    ensures Counts(Insert(s, x, le)) == Counts(s) + x.count
  {
    if s != [] && !le(x, s[0]) {
      InsertTotals(s[1..], x, le);
    }
  }

  lemma {:induction false} SortTotals<L(!new)>(bs: seq<Bucket<L>>, le: (Bucket<L>, Bucket<L>) -> bool)
    requires TotalPreorder(le)
    ensures Totals(SortBy(bs, le)) == Totals(bs)
    ensures Counts(SortBy(bs, le)) == Counts(bs)
  {
    if bs != [] {
      SortTotals(bs[1..], le);
      InsertTotals(SortBy(bs[1..], le), bs[0], le);
    }
  }

  /**
   * `values(label).annotate(..).order_by(..)`: the grouping of `rows`, in the
   * order `le` gives, whose totals and counts still partition the table.
   */
  function GroupedQuery<L(==,!new)>(rows: seq<Row<L>>, le: (Bucket<L>, Bucket<L>) -> bool): (q: seq<Bucket<L>>)
    requires TotalPreorder(le)
    ensures IsGrouping(q, rows) && SortedBy(q, le)
    ensures Totals(q) == SumAll(rows) && Counts(q) == |rows|
  {
    var g := GroupBy(rows);
    var q := SortBy(g, le);
    PermutationKeepsGrouping(g, q, rows);
    SortTotals(g, le);
    q
  }

  // ---------------------------------------------------------------------------
  // Filtering the rows of a query result, as a view's `if` inside its loop does.
  // ---------------------------------------------------------------------------

  /** The elements of `s` that satisfy `keep`, in their order in `s`. */
  function Filter<T(!new)>(s: seq<T>, keep: T -> bool): (r: seq<T>)
    ensures |r| <= |s|
    ensures forall x :: x in r <==> x in s && keep(x)
  {
    if s == [] then []
    else (if keep(s[0]) then [s[0]] else []) + Filter(s[1..], keep)
  }

  lemma {:induction false} FilterSnoc<T(!new)>(s: seq<T>, x: T, keep: T -> bool)
    ensures Filter(s + [x], keep) == Filter(s, keep) + (if keep(x) then [x] else [])
  {
    if s != [] {
      assert (s + [x])[1..] == s[1..] + [x];
      FilterSnoc(s[1..], x, keep);
    }
  }

  lemma {:induction false} FilterKeepsOrder<T(!new)>(s: seq<T>, keep: T -> bool, le: (T, T) -> bool)
    requires SortedBy(s, le)
    ensures SortedBy(Filter(s, keep), le)
  {
    if s != [] {
      var rest := Filter(s[1..], keep);
      FilterKeepsOrder(s[1..], keep, le);
      if keep(s[0]) {
        forall j | 0 <= j < |rest| ensures le(s[0], rest[j]) {
          assert rest[j] in rest;
          var m :| 0 <= m < |s[1..]| && s[1..][m] == rest[j];
          assert s[1 + m] == rest[j];
        }
      }
    }
  }

  lemma {:induction false} FilterKeepsDistinct<L(!new)>(bs: seq<Bucket<L>>, keep: Bucket<L> -> bool)
    requires DistinctLabels(bs)
    ensures DistinctLabels(Filter(bs, keep))
  {
    if bs != [] {
      var rest := Filter(bs[1..], keep);
      FilterKeepsDistinct(bs[1..], keep);
      if keep(bs[0]) {
        forall j | 0 <= j < |rest| ensures bs[0].key != rest[j].key {
          assert rest[j] in rest;
          var m :| 0 <= m < |bs[1..]| && bs[1..][m] == rest[j];
          assert bs[1 + m] == rest[j];
        }
      }
    }
  }

  lemma {:induction false} FilterCounts<L(!new)>(bs: seq<Bucket<L>>, keep: Bucket<L> -> bool)
    ensures Counts(Filter(bs, keep)) <= Counts(bs)
  {
    if bs != [] {
      FilterCounts(bs[1..], keep);
      var rest := Filter(bs[1..], keep);
      if keep(bs[0]) {
        assert Filter(bs, keep) == [bs[0]] + rest;
        assert ([bs[0]] + rest)[1..] == rest;
      } else {
        assert Filter(bs, keep) == rest;
      }
    }
  }

  // ---------------------------------------------------------------------------
  // How many groups a query has at least.
  // ---------------------------------------------------------------------------

  /** A label that is counted at least once is the label of some row. */
  lemma {:induction false} CountedLabelHasRow<L>(rows: seq<Row<L>>, l: L)
    requires CountWhere(rows, l) > 0
    ensures exists k :: 0 <= k < |rows| && rows[k].key == l
  {
    var last := |rows| - 1;
    if rows[last].key != l {
      CountedLabelHasRow(rows[..last], l);
      var k :| 0 <= k < last && rows[..last][k].key == l;
      assert rows[k].key == l;
    }
  }

  /** Some bucket has label `l`. */
  ghost predicate HasBucket<L>(bs: seq<Bucket<L>>, l: L)
  {
    exists p :: 0 <= p < |bs| && bs[p].key == l
  }

  /** A label some row carries has a bucket in any grouping of the rows. */
  lemma CountedLabelHasBucket<L>(bs: seq<Bucket<L>>, rows: seq<Row<L>>, l: L)
    requires IsGrouping(bs, rows) && CountWhere(rows, l) > 0
    ensures HasBucket(bs, l)
  {
    CountedLabelHasRow(rows, l);
    var k :| 0 <= k < |rows| && rows[k].key == l;
    var p :| 0 <= p < |bs| && bs[p].key == rows[k].key;
  }

  /** Distinct labels that each have a bucket are no more numerous than the buckets. */
  lemma {:induction false} DistinctLabelsFit<L>(labels: seq<L>, bs: seq<Bucket<L>>)
    requires forall i, j :: 0 <= i < j < |labels| ==> labels[i] != labels[j]
    requires forall i :: 0 <= i < |labels| ==> HasBucket(bs, labels[i])
    ensures |labels| <= |bs|
  {
    if labels != [] {
      var last := |labels| - 1;
      assert HasBucket(bs, labels[last]);
      var p :| 0 <= p < |bs| && bs[p].key == labels[last];
      var rest := bs[..p] + bs[p + 1..];
      var front := labels[..last];
      forall i | 0 <= i < |front|
        ensures HasBucket(rest, front[i])
      {
        assert front[i] == labels[i] && labels[i] != labels[last];
        assert HasBucket(bs, labels[i]);
        var p' :| 0 <= p' < |bs| && bs[p'].key == labels[i];
        if p' < p {
          assert rest[p'] == bs[p'];
        } else {
          assert rest[p' - 1] == bs[p'];
        }
      }
      forall i, j | 0 <= i < j < |front|
        ensures front[i] != front[j]
      {
        assert front[i] == labels[i] && front[j] == labels[j];
      }
      DistinctLabelsFit(front, rest);
    }
  }
}
