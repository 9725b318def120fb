/** Kotlin's nullable values. */
module Nullable {
  datatype Option<+T> = None | Some(value: T)
}

/** The disk-usage tree the sync client reports, the `calculateSizeInMb`
    extension on it, and the two-field metrics record shown in the UI. */
module DiskUsage {
  import opened Nullable
  import opened Strings

  /** One node of the disk-usage tree: a path, its size in bytes and its
      children, which may be absent (Kotlin `null`). */
  datatype DiskUsageItem = DiskUsageItem(
    path: string,
    sizeInBytes: int,
    childItems: Option<seq<DiskUsageItem>>)

  /** Megabytes of the local store and of the replication data. */
  datatype DiskUsageMetrics = DiskUsageMetrics(storeSizeInMb: int, replicationSizeInMb: int)

  const BytesPerMb: int := 1024 * 1024
  const StoreSuffix: string := "ditto_store"
  const ReplicationSuffix: string := "ditto_replication"

  /** Both metrics start at zero. */
  function ZeroMetrics(): (m: DiskUsageMetrics)
    ensures m.storeSizeInMb == 0 && m.replicationSizeInMb == 0
  {
    DiskUsageMetrics(0, 0)
  }

  /** Kotlin's integer `/`, which rounds toward zero, for a positive divisor. */
  function TruncDiv(a: int, d: int): (q: int)
    requires d > 0
    ensures a >= 0 ==> 0 <= q && q * d <= a < q * d + d
    ensures a < 0 ==> q <= 0 && q * d - d < a <= q * d
  {
    var n := if a >= 0 then a else -a;
    var q0 := n / d;
    assert 0 <= q0 && q0 * d <= n < q0 * d + d by { DivModBounds(n, d); }
    assert (-q0) * d == -(q0 * d);
    if a >= 0 then q0 else -q0
  }

  /** Euclidean division of a non-negative number by a positive one. */
  lemma DivModBounds(n: int, d: int)
    requires n >= 0 && d > 0
    ensures 0 <= n / d && (n / d) * d <= n < (n / d) * d + d
  {
    assert n == (n / d) * d + n % d && 0 <= n % d < d;
  }

  /** Truncating division is the same function on both sides of zero: it
      commutes with negation. */
  lemma TruncDivOdd(a: int, d: int)
    requires d > 0
    ensures TruncDiv(-a, d) == -TruncDiv(a, d)
  {
  }

  /** The quotient that satisfies TruncDiv's bounds is unique. */
  lemma TruncDivUnique(a: int, d: int, q: int)
    requires d > 0 && a >= 0
    requires q * d <= a < q * d + d
    ensures q == TruncDiv(a, d)
  {
    var t := TruncDiv(a, d);
    if q < t {
      MulMonotone(q + 1, t, d);
    } else if t < q {
      MulMonotone(t + 1, q, d);
    }
  }

  lemma MulMonotone(x: int, y: int, d: int)
    requires x <= y && d > 0
    ensures x * d <= y * d
  {
  }

  /** Whole megabytes in a byte count, as `sizeInBytes / (1024 * 1024)`. */
  function BytesToMb(bytes: int): (mb: int)
    ensures bytes >= 0 ==> mb >= 0 && mb * 1048576 <= bytes < (mb + 1) * 1048576
  {
    TruncDiv(bytes, BytesPerMb)
  }

  /** More bytes never give fewer megabytes, on either side of zero. */
  lemma BytesToMbMonotone(a: int, b: int)
    requires a <= b
    ensures BytesToMb(a) <= BytesToMb(b)
  {
    var qa, qb := BytesToMb(a), BytesToMb(b);
    if qb < qa {
      MulMonotone(qb + 1, qa, BytesPerMb);
    }
  }

  /** Index of the first item whose path ends with `suffix`, as
      `firstOrNull { it.path.endsWith(suffix) }` finds it. */
  function FirstMatchIndex(items: seq<DiskUsageItem>, suffix: string): (r: Option<nat>)
    ensures r.Some? ==> r.value < |items| && EndsWith(items[r.value].path, suffix)
    ensures r.Some? ==> forall j :: 0 <= j < r.value ==> !EndsWith(items[j].path, suffix)
    ensures r.None? ==> forall j :: 0 <= j < |items| ==> !EndsWith(items[j].path, suffix)
  {
    if |items| == 0 then None
    else if EndsWith(items[0].path, suffix) then Some(0)
    else match FirstMatchIndex(items[1..], suffix)
      case None => None
      case Some(k) => Some(k + 1)
  }

  /** True when `i` is the position of the first child matching `suffix`. */
  predicate IsFirstMatch(items: seq<DiskUsageItem>, suffix: string, i: int) {
    0 <= i < |items| && EndsWith(items[i].path, suffix)
    && forall j :: 0 <= j < i ==> !EndsWith(items[j].path, suffix)
  }

  predicate NoMatch(items: seq<DiskUsageItem>, suffix: string) {
    forall j :: 0 <= j < |items| ==> !EndsWith(items[j].path, suffix)
  }

  /** `DiskUsageItem.calculateSizeInMb(path)`: the size, in whole megabytes,
      of the first child whose path ends with `suffix`; zero when the item has
      no children or none matches. */
  function CalculateSizeInMb(item: DiskUsageItem, suffix: string): (mb: int)
    ensures item.childItems.None? ==> mb == 0
    ensures item.childItems.Some? && NoMatch(item.childItems.value, suffix) ==> mb == 0
    ensures forall i :: item.childItems.Some? && IsFirstMatch(item.childItems.value, suffix, i) ==>
              mb == BytesToMb(item.childItems.value[i].sizeInBytes)
  {
    match item.childItems
    case None => 0
    case Some(children) =>
      match FirstMatchIndex(children, suffix)
      case None => 0
      case Some(i) => BytesToMb(children[i].sizeInBytes)
  }

  /** A matching child decides the result alone: children after it, matching
      or not, are never looked at. */
  lemma {:induction false} LaterChildrenIgnored(path: string, size: int, front: seq<DiskUsageItem>,
                                                 back: seq<DiskUsageItem>, suffix: string, i: nat)
    requires IsFirstMatch(front, suffix, i)
    ensures CalculateSizeInMb(DiskUsageItem(path, size, Some(front + back)), suffix)
         == CalculateSizeInMb(DiskUsageItem(path, size, Some(front)), suffix)
         == BytesToMb(front[i].sizeInBytes)
  {
    assert IsFirstMatch(front + back, suffix, i) by {
      forall j | 0 <= j <= i
        ensures (front + back)[j] == front[j]
      {
      }
    }
  }

  /** Whole-megabyte bounds on the result for a non-negative matching size:
      `mb * 2^20 <= size < (mb + 1) * 2^20`. */
  lemma SizeInMbBounds(item: DiskUsageItem, suffix: string, i: nat)
    requires item.childItems.Some? && IsFirstMatch(item.childItems.value, suffix, i)
    requires item.childItems.value[i].sizeInBytes >= 0
    ensures var mb := CalculateSizeInMb(item, suffix);
            var b := item.childItems.value[i].sizeInBytes;
            0 <= mb && mb * 1048576 <= b < (mb + 1) * 1048576
  {
  }

  /** The metrics a disk-usage observation publishes: the store size from the
      child ending in "ditto_store" and the replication size from the child
      ending in "ditto_replication". */
  function MetricsOf(item: DiskUsageItem): (m: DiskUsageMetrics)
    ensures m.storeSizeInMb == CalculateSizeInMb(item, StoreSuffix)
    ensures m.replicationSizeInMb == CalculateSizeInMb(item, ReplicationSuffix)
  {
    DiskUsageMetrics(CalculateSizeInMb(item, StoreSuffix), CalculateSizeInMb(item, ReplicationSuffix))
  }
}
