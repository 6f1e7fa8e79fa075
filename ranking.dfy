/** The process record, the four orders the ranking sorts by, and the
    in-place sort that both process fetchers apply before truncating. */
module Ranking {
  import opened GoLib
  import opened Text

  /** ProcessInfo: one row of the ranking. Float fields are reals here. */
  datatype ProcessInfo = ProcessInfo(
    PID: int32,
    ParentPID: int32,
    Name: string,
    Username: string,
    CPUPercent: real,
    MemoryPercent: real,
    MemoryUsage: real,
    RunningTime: string)

  /** Bytes in a megabyte, 1024 * 1024: MemoryUsage is RSS divided by this. */
  const BytesPerMB: real := 1048576.0

  /** SortCriteria is a Go string type; any string can be passed, and only
      these four select an order. */
  type SortCriteria = string

  const SortByCPU: SortCriteria := "cpu"
  const SortByMemory: SortCriteria := "memory"
  const SortByPID: SortCriteria := "pid"
  const SortByName: SortCriteria := "name"

  predicate IsCriterion(sortBy: SortCriteria) {
    sortBy == SortByCPU || sortBy == SortByMemory || sortBy == SortByPID || sortBy == SortByName
  }

  /** The `less(i, j)` that sort.Slice is given for criterion `sortBy` and
      direction `ascending`: `<` on the key when ascending, `>` otherwise.
      An unrecognised criterion has no comparator (and no sort). */
  predicate Less(sortBy: SortCriteria, ascending: bool, x: ProcessInfo, y: ProcessInfo)
    ensures Less(sortBy, ascending, x, y) ==> IsCriterion(sortBy)
  {
    if sortBy == SortByCPU then
      if ascending then x.CPUPercent < y.CPUPercent else x.CPUPercent > y.CPUPercent
    else if sortBy == SortByName then
      if ascending then LexLess(x.Name, y.Name) else LexLess(y.Name, x.Name)
    else if sortBy == SortByMemory then
      if ascending then x.MemoryUsage < y.MemoryUsage else x.MemoryUsage > y.MemoryUsage
    else if sortBy == SortByPID then
      if ascending then x.PID < y.PID else x.PID > y.PID
    else false
  }

  /** What sort.Slice guarantees: no record is strictly less than one before it. */
  ghost predicate Sorted(sortBy: SortCriteria, ascending: bool, s: seq<ProcessInfo>) {
    forall i, j :: 0 <= i < j < |s| ==> !Less(sortBy, ascending, s[j], s[i])
  }

  /** Turning the direction round swaps the two records compared. */
  lemma LessFlipsDirection(sortBy: SortCriteria, x: ProcessInfo, y: ProcessInfo)
    ensures Less(sortBy, true, x, y) <==> Less(sortBy, false, y, x)
  {
  }

  lemma LessAsymmetric(sortBy: SortCriteria, ascending: bool, x: ProcessInfo, y: ProcessInfo)
    requires Less(sortBy, ascending, x, y)
    ensures !Less(sortBy, ascending, y, x)
  {
    if sortBy == SortByName {
      if ascending {
        LexLessAsymmetric(x.Name, y.Name);
      } else {
        LexLessAsymmetric(y.Name, x.Name);
      }
    }
  }

  /** "x comes no later than y" is transitive for every criterion. */
  lemma NotLessTransitive(sortBy: SortCriteria, ascending: bool, x: ProcessInfo, y: ProcessInfo, z: ProcessInfo)
    requires !Less(sortBy, ascending, y, x) && !Less(sortBy, ascending, z, y)
    ensures !Less(sortBy, ascending, z, x)
  {
    if sortBy == SortByName {
      if ascending {
        LexNotLessTransitive(x.Name, y.Name, z.Name);
      } else {
        LexNotLessTransitive(z.Name, y.Name, x.Name);
      }
    }
  }

  method Swap(a: array<ProcessInfo>, i: int, j: int)
    requires 0 <= i < j < a.Length
    modifies a
    ensures a[i] == old(a[j]) && a[j] == old(a[i])
    ensures forall k :: 0 <= k < a.Length && k != i && k != j ==> a[k] == old(a[k])
    ensures multiset(a[..]) == multiset(old(a[..]))
  {
    a[i], a[j] := a[j], a[i];
  }

  /** sort.Slice(a, less): afterwards `a` is ordered by `less` and holds the
      same records. Ties may end in any order; nothing here promises stability. */
  method SortInPlace(a: array<ProcessInfo>, sortBy: SortCriteria, ascending: bool)
    modifies a
    ensures Sorted(sortBy, ascending, a[..])
    ensures multiset(a[..]) == multiset(old(a[..]))
  {
    var i := 0;
    while i < a.Length
      invariant 0 <= i <= a.Length
      invariant forall k, m :: 0 <= k < m < i ==> !Less(sortBy, ascending, a[m], a[k])
      invariant multiset(a[..]) == multiset(old(a[..]))
    {
      InsertLast(a, i, sortBy, ascending);
      i := i + 1;
    }
  }

  /** sort.Slice on a slice of records: the slice's backing array is sorted
      in place and the slice then reads the sorted records. */
  method SortSlice(s: seq<ProcessInfo>, sortBy: SortCriteria, ascending: bool) returns (sorted: seq<ProcessInfo>)
    ensures Sorted(sortBy, ascending, sorted)
    ensures multiset(sorted) == multiset(s)
  {
    var a := new ProcessInfo[|s|](k requires 0 <= k < |s| => s[k]);
    assert a[..] == s;
    SortInPlace(a, sortBy, ascending);
    sorted := a[..];
  }

  /** One pass of insertion: moves a[i] left past every record it is less
      than, so that a[..i+1] ends up ordered. */
  method InsertLast(a: array<ProcessInfo>, i: int, sortBy: SortCriteria, ascending: bool)
    requires 0 <= i < a.Length
    requires forall k, m :: 0 <= k < m < i ==> !Less(sortBy, ascending, a[m], a[k])
    modifies a
    ensures forall k, m :: 0 <= k < m <= i ==> !Less(sortBy, ascending, a[m], a[k])
    ensures forall k :: i < k < a.Length ==> a[k] == old(a[k])
    ensures multiset(a[..]) == multiset(old(a[..]))
  {
    var j := i;
    while j > 0 && Less(sortBy, ascending, a[j], a[j - 1])
      invariant 0 <= j <= i
      invariant forall k, m :: 0 <= k < m < j ==> !Less(sortBy, ascending, a[m], a[k])
      invariant forall k, m :: j <= k < m <= i ==> !Less(sortBy, ascending, a[m], a[k])
      invariant forall k, m :: 0 <= k < j < m <= i ==> !Less(sortBy, ascending, a[m], a[k])
      invariant forall k :: i < k < a.Length ==> a[k] == old(a[k])
      invariant multiset(a[..]) == multiset(old(a[..]))
    {
      LessAsymmetric(sortBy, ascending, a[j], a[j - 1]);
      Swap(a, j - 1, j);
      j := j - 1;
    }
    if j > 0 {
      forall k | 0 <= k < j
        ensures !Less(sortBy, ascending, a[j], a[k])
      {
        if k < j - 1 {
          NotLessTransitive(sortBy, ascending, a[k], a[j - 1], a[j]);
        }
      }
    }
  }

  /** The promise of a sort followed by truncation to `limit`: `out` has
      min(limit, n) records, is ordered, holds only records of `built` (with
      multiplicity), and no record left out is strictly less than a kept one. */
  ghost predicate RankedPrefix(sortBy: SortCriteria, ascending: bool, limit: nat, built: seq<ProcessInfo>, out: seq<ProcessInfo>) {
    && |out| == Min(limit, |built|)
    && Sorted(sortBy, ascending, out)
    && multiset(out) <= multiset(built)
    && forall x, y :: x in out && y in multiset(built) - multiset(out) ==> !Less(sortBy, ascending, y, x)
  }

  /** Cutting an ordered permutation of `built` to its first `limit` records
      gives a ranked prefix. */
  lemma {:induction false} PrefixOfSortedIsRanked(sortBy: SortCriteria, ascending: bool, limit: nat, built: seq<ProcessInfo>, sorted: seq<ProcessInfo>)
    requires Sorted(sortBy, ascending, sorted)
    requires multiset(sorted) == multiset(built)
    ensures RankedPrefix(sortBy, ascending, limit, built, sorted[..Min(limit, |sorted|)])
  {
    var k := Min(limit, |sorted|);
    var kept, dropped := sorted[..k], sorted[k..];
    assert sorted == kept + dropped;
    assert multiset(sorted) == multiset(kept) + multiset(dropped);
    assert |built| == |multiset(built)| == |multiset(sorted)| == |sorted|;
    forall x, y | x in kept && y in multiset(built) - multiset(kept)
      ensures !Less(sortBy, ascending, y, x)
    {
      assert y in multiset(dropped);
      var i :| 0 <= i < k && kept[i] == x;
      var j :| 0 <= j < |dropped| && dropped[j] == y;
      assert sorted[i] == x && sorted[k + j] == y;
    }
  }
}
