/**
 * The ordering step of `generateContract` in `src/App.tsx`: the contract lines are sorted
 * with a comparator that only tells bundle lines from the rest. `Array.prototype.sort` is
 * stable, so the result is the stable partition: bundle lines first, each group in
 * selection order.
 */
module BundleSort {
  import opened JsValues

  /** A line whose `serviceType` is "bundle". */
  predicate IsBundleLine(line: Record)
  {
    Get(line, "serviceType") == Str("bundle")
  }

  /** The comparator: a bundle line before any other, otherwise no preference. */
  function CompareLines(a: Record, b: Record): (c: int)
    ensures c == -1 <==> IsBundleLine(a) && !IsBundleLine(b)
    ensures c == 1 <==> !IsBundleLine(a) && IsBundleLine(b)
    ensures c == 0 <==> (IsBundleLine(a) <==> IsBundleLine(b))
  {
    if IsBundleLine(a) && !IsBundleLine(b) then -1
    else if !IsBundleLine(a) && IsBundleLine(b) then 1
    else 0
  }

  /** Inserts `x` before the first line it does not sort after: one line longer, and `x`
      goes to the front when it is a bundle line or when the first line is not one. */
  function Insert(x: Record, sorted: seq<Record>): (r: seq<Record>)
    ensures |r| == |sorted| + 1
    ensures IsBundleLine(x) || |sorted| == 0 || !IsBundleLine(sorted[0]) ==> r == [x] + sorted
    decreases |sorted|
  {
    if |sorted| == 0 then [x]
    else if CompareLines(x, sorted[0]) <= 0 then [x] + sorted
    else [sorted[0]] + Insert(x, sorted[1..])
  }

  /** A stable sort by the comparator: each line is inserted, in reverse order, ahead of the
      lines it ties with, so ties keep their original order. */
  function SortLines(lines: seq<Record>): (r: seq<Record>)
    ensures |r| == |lines|
    ensures (forall i | 0 <= i < |lines| :: !IsBundleLine(lines[i])) ==> r == lines
    decreases |lines|
  {
    if |lines| == 0 then []
    else
      assert forall i | 1 <= i < |lines| :: lines[1..][i - 1] == lines[i];
      assert lines == [lines[0]] + lines[1..];
      Insert(lines[0], SortLines(lines[1..]))
  }

  /** The bundle lines, in order. */
  function BundleLines(lines: seq<Record>): (r: seq<Record>)
    ensures forall i | 0 <= i < |r| :: IsBundleLine(r[i])
    ensures |r| <= |lines|
    decreases |lines|
  {
    if |lines| == 0 then []
    else if IsBundleLine(lines[0]) then [lines[0]] + BundleLines(lines[1..])
    else BundleLines(lines[1..])
  }

  /** The other lines, in order. */
  function OtherLines(lines: seq<Record>): (r: seq<Record>)
    ensures forall i | 0 <= i < |r| :: !IsBundleLine(r[i])
    ensures |r| <= |lines|
    decreases |lines|
  {
    if |lines| == 0 then []
    else if !IsBundleLine(lines[0]) then [lines[0]] + OtherLines(lines[1..])
    else OtherLines(lines[1..])
  }

  predicate AllBundle(lines: seq<Record>)
  {
    forall i | 0 <= i < |lines| :: IsBundleLine(lines[i])
  }

  predicate NoBundle(lines: seq<Record>)
  {
    forall i | 0 <= i < |lines| :: !IsBundleLine(lines[i])
  }

  /** Inserting into a partitioned list puts a bundle line at the front and any other line
      right after the bundle group. */
  lemma {:induction false} InsertIntoPartition(x: Record, bundles: seq<Record>, others: seq<Record>)
    requires AllBundle(bundles) && NoBundle(others)
    ensures IsBundleLine(x) ==> Insert(x, bundles + others) == [x] + bundles + others
    ensures !IsBundleLine(x) ==> Insert(x, bundles + others) == bundles + [x] + others
    decreases |bundles|
  {
    if IsBundleLine(x) {
      if |bundles + others| > 0 {
        assert CompareLines(x, (bundles + others)[0]) <= 0;
      }
    } else if |bundles| == 0 {
      assert bundles + others == others;
      if |others| > 0 {
        assert CompareLines(x, others[0]) == 0;
      }
    } else {
      assert (bundles + others)[0] == bundles[0];
      assert CompareLines(x, bundles[0]) == 1;
      assert (bundles + others)[1..] == bundles[1..] + others;
      InsertIntoPartition(x, bundles[1..], others);
      assert [bundles[0]] + (bundles[1..] + [x] + others) == bundles + [x] + others;
    }
  }

  /** The sort is the stable partition: the bundle lines in order, then the others in order. */
  lemma {:induction false} SortIsStablePartition(lines: seq<Record>)
    ensures SortLines(lines) == BundleLines(lines) + OtherLines(lines)
    decreases |lines|
  {
    if |lines| > 0 {
      SortIsStablePartition(lines[1..]);
      InsertIntoPartition(lines[0], BundleLines(lines[1..]), OtherLines(lines[1..]));
    }
  }

  /** Splitting a list into its two groups loses and gains nothing. */
  lemma {:induction false} PartitionPreservesLines(lines: seq<Record>)
    ensures multiset(BundleLines(lines)) + multiset(OtherLines(lines)) == multiset(lines)
    ensures |BundleLines(lines)| + |OtherLines(lines)| == |lines|
    decreases |lines|
  {
    if |lines| > 0 {
      PartitionPreservesLines(lines[1..]);
      assert lines == [lines[0]] + lines[1..];
    }
  }

  /** A list that is already partitioned splits back into its two parts. */
  lemma {:induction false} PartitionOfPartitioned(bundles: seq<Record>, others: seq<Record>)
    requires AllBundle(bundles) && NoBundle(others)
    ensures BundleLines(bundles + others) == bundles
    ensures OtherLines(bundles + others) == others
    decreases |bundles| + |others|
  {
    if |bundles| > 0 {
      assert (bundles + others)[0] == bundles[0];
      assert (bundles + others)[1..] == bundles[1..] + others;
      PartitionOfPartitioned(bundles[1..], others);
    } else if |others| > 0 {
      assert bundles + others == others;
      assert others[1..] == [] + others[1..];
      PartitionOfPartitioned([], others[1..]);
    }
  }

  /** The sorted lines are a permutation of the lines, every bundle line comes before every
      other line, and sorting again changes nothing. */
  lemma SortFacts(lines: seq<Record>)
    ensures |SortLines(lines)| == |lines|
    ensures multiset(SortLines(lines)) == multiset(lines)
    ensures forall i, j | 0 <= i < j < |SortLines(lines)| ::
      IsBundleLine(SortLines(lines)[j]) ==> IsBundleLine(SortLines(lines)[i])
    ensures SortLines(SortLines(lines)) == SortLines(lines)
  {
    SortIsStablePartition(lines);
    PartitionPreservesLines(lines);
    var b, o := BundleLines(lines), OtherLines(lines);
    var s := b + o;
    SortIsStablePartition(s);
    PartitionOfPartitioned(b, o);
  }

  /** The sum of `max(price, 0)` over lines, as the contract total adds them up. */
  function SumOfPositivePrices(lines: seq<Record>): (total: int)
    ensures total >= 0
    ensures (forall i | 0 <= i < |lines| :: NumOrZero(Get(lines[i], "price")) <= 0) ==> total == 0
    decreases |lines|
  {
    if |lines| == 0 then 0
    else
      var p := NumOrZero(Get(lines[0], "price"));
      assert forall i | 1 <= i < |lines| :: lines[1..][i - 1] == lines[i];
      (if p > 0 then p else 0) + SumOfPositivePrices(lines[1..])
  }

  lemma {:induction false} SumOfPositivePricesAppend(a: seq<Record>, b: seq<Record>)
    ensures SumOfPositivePrices(a + b) == SumOfPositivePrices(a) + SumOfPositivePrices(b)
    decreases |a|
  {
    if |a| > 0 {
      assert (a + b)[1..] == a[1..] + b;
      SumOfPositivePricesAppend(a[1..], b);
    } else {
      assert a + b == b;
    }
  }

  lemma {:induction false} SumOfPositivePricesPartition(lines: seq<Record>)
    ensures SumOfPositivePrices(BundleLines(lines)) + SumOfPositivePrices(OtherLines(lines)) == SumOfPositivePrices(lines)
    decreases |lines|
  {
    if |lines| > 0 {
      SumOfPositivePricesPartition(lines[1..]);
    }
  }

  /** Sorting does not change the total. */
  lemma SortKeepsSum(lines: seq<Record>)
    ensures SumOfPositivePrices(SortLines(lines)) == SumOfPositivePrices(lines)
  {
    SortIsStablePartition(lines);
    SumOfPositivePricesAppend(BundleLines(lines), OtherLines(lines));
    SumOfPositivePricesPartition(lines);
  }

  /** Every summand is non-negative. */
  lemma {:induction false} SumOfPositivePricesNonNegative(lines: seq<Record>)
    ensures SumOfPositivePrices(lines) >= 0
    decreases |lines|
  {
    if |lines| > 0 {
      SumOfPositivePricesNonNegative(lines[1..]);
    }
  }
}
