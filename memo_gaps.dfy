/** The gap ledger (`MemoGaps`): a hand-grown array of gaps that keeps a running
    minimum, maximum, midpoint probe and median-of-three pivot as entries are
    appended. */
module Ledger {
  import opened Handle
  import opened Gaps

  /** Smallest recorded size. */
  function MinSize(s: seq<Gap>): (m: nat)
    requires |s| > 0
    ensures forall i :: 0 <= i < |s| ==> m <= s[i].blockSize
    ensures exists i :: 0 <= i < |s| && s[i].blockSize == m
  {
    if |s| == 1 then s[0].blockSize
    else
      var rest := MinSize(s[..|s| - 1]);
      if s[|s| - 1].blockSize < rest then s[|s| - 1].blockSize else rest
  }

  /** Largest recorded size. */
  function MaxSize(s: seq<Gap>): (m: nat)
    requires |s| > 0
    ensures forall i :: 0 <= i < |s| ==> s[i].blockSize <= m
    ensures exists i :: 0 <= i < |s| && s[i].blockSize == m
  {
    if |s| == 1 then s[0].blockSize
    else
      var rest := MaxSize(s[..|s| - 1]);
      if s[|s| - 1].blockSize > rest then s[|s| - 1].blockSize else rest
  }

  /** In a stable ordering of the triple (low, mid, high) by value, the estimate
      `a` at position `i` comes before the estimate `b` at position `j`. */
  predicate SortsBefore(a: PivotIndex, i: nat, b: PivotIndex, j: nat) {
    a.value < b.value || (a.value == b.value && i < j)
  }

  /** `m` is the middle element of the stable sort of (a, b, c) by value:
      exactly one of the other two sorts before it. */
  predicate IsStableMedian(m: PivotIndex, a: PivotIndex, b: PivotIndex, c: PivotIndex) {
    || (m == a && SortsBefore(b, 1, a, 0) != SortsBefore(c, 2, a, 0))
    || (m == b && SortsBefore(a, 0, b, 1) != SortsBefore(c, 2, b, 1))
    || (m == c && SortsBefore(a, 0, c, 2) != SortsBefore(b, 1, c, 2))
  }

  /** At least two of x, y, z are at most v and at least two are at least v. */
  predicate IsMedianValue(v: nat, x: nat, y: nat, z: nat) {
    && ((x <= v && y <= v) || (x <= v && z <= v) || (y <= v && z <= v))
    && ((x >= v && y >= v) || (x >= v && z >= v) || (y >= v && z >= v))
  }

  /** The three conditional swaps of the median-of-three network. */
  method SelectMedian(low: PivotIndex, mid: PivotIndex, high: PivotIndex) returns (m: PivotIndex)
    ensures IsStableMedian(m, low, mid, high)
    ensures IsMedianValue(m.value, low.value, mid.value, high.value)
  {
    var a0, a1, a2 := low, mid, high;
    if a0.value > a1.value { a0, a1 := a1, a0; }
    if a1.value > a2.value { a1, a2 := a2, a1; }
    if a0.value > a1.value { a0, a1 := a1, a0; }
    m := a1;
  }

  /** The running estimates describe the entries `s`: all at their defaults
      while there are none; otherwise each points at the slot it was read from,
      `low` and `high` hold the smallest and largest size, `mid` sits halfway
      between their positions and `pivot` is the median of the three. */
  ghost predicate EstimatesTrack(s: seq<Gap>, low: PivotIndex, mid: PivotIndex, high: PivotIndex, pivot: PivotIndex) {
    && (|s| == 0 ==> low == NoPivot && mid == NoPivot && high == NoPivot && pivot == NoPivot)
    && (|s| > 0 ==>
          && low.idx < |s| && high.idx < |s|
          && mid.idx == (low.idx + high.idx) / 2
          && s[low.idx].blockSize == low.value
          && s[mid.idx].blockSize == mid.value
          && s[high.idx].blockSize == high.value
          && AllWithin(s, low.value, high.value)
          && IsStableMedian(pivot, low, mid, high))
  }

  /** Every recorded size lies in `lo..hi`. */
  ghost predicate AllWithin(s: seq<Gap>, lo: nat, hi: nat) {
    |s| == 0 || (lo <= s[|s| - 1].blockSize <= hi && AllWithin(s[..|s| - 1], lo, hi))
  }

  lemma {:induction false} AllWithinAt(s: seq<Gap>, lo: nat, hi: nat, i: nat)
    requires AllWithin(s, lo, hi) && i < |s|
    ensures lo <= s[i].blockSize <= hi
  {
    if i < |s| - 1 {
      AllWithinAt(s[..|s| - 1], lo, hi, i);
    }
  }

  /** Widening the bounds and appending a size inside them keeps every size in bounds. */
  lemma {:induction false} AllWithinAppend(s: seq<Gap>, lo: nat, hi: nat, g: Gap, lo': nat, hi': nat)
    requires AllWithin(s, lo, hi) && lo' <= lo && hi <= hi' && lo' <= g.blockSize <= hi'
    ensures AllWithin(s + [g], lo', hi')
  {
    AllWithinWiden(s, lo, hi, lo', hi');
    assert (s + [g])[..|s|] == s;
  }

  lemma {:induction false} AllWithinWiden(s: seq<Gap>, lo: nat, hi: nat, lo': nat, hi': nat)
    requires AllWithin(s, lo, hi) && lo' <= lo && hi <= hi'
    ensures AllWithin(s, lo', hi')
  {
    if |s| > 0 {
      AllWithinWiden(s[..|s| - 1], lo, hi, lo', hi');
    }
  }

  /** Tracked estimates are exactly the smallest and largest recorded size. */
  lemma EstimatesAreMinAndMax(s: seq<Gap>, low: PivotIndex, mid: PivotIndex, high: PivotIndex, pivot: PivotIndex)
    requires EstimatesTrack(s, low, mid, high, pivot) && |s| > 0
    ensures low.value == MinSize(s) && high.value == MaxSize(s)
  {
    var m := MinSize(s);
    var x := MaxSize(s);
    var i :| 0 <= i < |s| && s[i].blockSize == m;
    var j :| 0 <= j < |s| && s[j].blockSize == x;
    AllWithinAt(s, low.value, high.value, i);
    AllWithinAt(s, low.value, high.value, j);
  }

  /** The estimates as a push of an entry of size `b` at position `|s|` finds
      them: those tracking `s`, or, before the first entry, `low` and `high`
      seeded with `b` at position 0. */
  ghost predicate Seeded(s: seq<Gap>, low: PivotIndex, mid: PivotIndex, high: PivotIndex, pivot: PivotIndex, b: nat) {
    if |s| == 0 then low == PivotIndex(b, 0) && high == PivotIndex(b, 0)
    else EstimatesTrack(s, low, mid, high, pivot)
  }

  /** One push keeps the estimates in step with the entries: `low` is
      replaced only by a strictly smaller size, `high` only by a strictly larger
      one, `mid` is re-read halfway between them and `pivot` is their median. */
  lemma PushKeepsEstimates(
    s: seq<Gap>, low: PivotIndex, mid: PivotIndex, high: PivotIndex, pivot: PivotIndex,
    g: Gap, low': PivotIndex, mid': PivotIndex, high': PivotIndex, pivot': PivotIndex)
    requires Seeded(s, low, mid, high, pivot, g.blockSize)
    requires low' == (if g.blockSize < low.value then PivotIndex(g.blockSize, |s|) else low)
    requires high' == (if g.blockSize > high.value then PivotIndex(g.blockSize, |s|) else high)
    requires mid'.idx == (low'.idx + high'.idx) / 2
    requires mid'.idx < |s| + 1 && mid'.value == (s + [g])[mid'.idx].blockSize
    requires IsStableMedian(pivot', low', mid', high')
    ensures EstimatesTrack(s + [g], low', mid', high', pivot')
  {
    var t := s + [g];
    assert t[low'.idx].blockSize == low'.value;
    assert t[high'.idx].blockSize == high'.value;
    if |s| == 0 {
      assert t[..0] == s;
    } else {
      AllWithinAppend(s, low.value, high.value, g, low'.value, high'.value);
    }
  }

  /** Every entry is a well-formed gap. */
  ghost predicate AllWellFormed(s: seq<Gap>) {
    forall i :: 0 <= i < |s| ==> WellFormed(s[i])
  }

  /** A grown copy of `arr`: the first `arr.Length` slots keep their entries,
      the remaining ones hold unspecified gaps. */
  method Realloc(arr: array<Gap>, newCapacity: nat) returns (grown: array<Gap>)
    requires arr.Length <= newCapacity
    ensures fresh(grown) && grown.Length == newCapacity
    ensures forall i :: 0 <= i < arr.Length ==> grown[i] == arr[i]
  {
    var kept := arr[..];
    var garbage: Gap :| true;
    grown := new Gap[newCapacity]((i: nat) => if i < |kept| then kept[i] else garbage);
  }

  class MemoGaps {
    var gaps: array?<Gap>
    var size: nat
    var capacity: nat
    var low: PivotIndex
    var mid: PivotIndex
    var high: PivotIndex
    var pivot: PivotIndex
    /** The recorded entries, in slot order. */
    ghost var Contents: seq<Gap>

    /** The storage holds `entries` in its first `n` slots and zeroed gaps in
        the rest. */
    ghost predicate Holds(entries: seq<Gap>, n: nat)
      reads this`gaps, this`capacity, gaps
    {
      || gaps == null
      || (&& gaps.Length == capacity && n <= capacity && |entries| == n
          && (forall i :: 0 <= i < n ==> gaps[i] == entries[i])
          && (forall i :: n <= i < capacity ==> gaps[i] == EmptyGap))
    }

    /** The ledger invariant: without storage there is nothing; with it the
        slots hold the well-formed entries followed by zeroed gaps; and the
        positions of `low` and `high` never point past the next free slot, so
        the midpoint probe stays inside the array. */
    ghost predicate Valid()
      reads this, gaps
    {
      && (gaps != null || (capacity == 0 && size == 0 && Contents == []))
      && Holds(Contents, size)
      && AllWellFormed(Contents)
      && low.idx <= size && high.idx <= size
    }

    /** The estimates invariant: the estimates track the recorded entries. */
    ghost predicate Tracked()
      reads this`Contents, this`low, this`mid, this`high, this`pivot
    {
      EstimatesTrack(Contents, low, mid, high, pivot)
    }

    /** A fresh ledger has no storage at all. */
    constructor ()
      ensures Valid() && Tracked() && Contents == []
      ensures gaps == null && size == 0 && capacity == 0
      ensures low == NoPivot && mid == NoPivot && high == NoPivot && pivot == NoPivot
    {
      gaps := null;
      size, capacity := 0, 0;
      low, mid, high, pivot := NoPivot, NoPivot, NoPivot, NoPivot;
      Contents := [];
    }

    /** The field reset of the destructor (the storage is released). */
    method Destroy()
      modifies this
      ensures Valid() && Tracked() && Contents == []
      ensures gaps == null && size == 0 && capacity == 0
      ensures low == NoPivot && mid == NoPivot && high == NoPivot && pivot == NoPivot
    {
      gaps := null;
      size, capacity := 0, 0;
      low, mid, high, pivot := NoPivot, NoPivot, NoPivot, NoPivot;
      Contents := [];
    }

    /** Storage is present and has room for at least one entry. */
    function Check(): (r: Status)
      reads this
      ensures r == Success <==> gaps != null && capacity > 0
      ensures r != Nullable
    {
      if gaps != null && capacity > 0 then Success else Failure
    }

    /** Makes room for one more entry, doubling a full array. The outcome of
        the reallocation is not determined by the model: either it succeeds or
        it reports `Nullable` and leaves everything as it was. */
    method Resize() returns (r: Status)
      requires Valid()
      modifies this`gaps, this`capacity
      ensures Valid() && Contents == old(Contents)
      ensures old(Check()) != Success ==> r == Failure && gaps == old(gaps) && capacity == old(capacity)
      ensures old(Check()) == Success && old(size) < old(capacity) ==>
                r == Success && gaps == old(gaps) && capacity == old(capacity)
      ensures old(Check()) == Success && old(size) == old(capacity) ==>
                || (r == Nullable && gaps == old(gaps) && capacity == old(capacity))
                || (&& r == Success && gaps != null && fresh(gaps)
                    && capacity == 2 * old(capacity)
                    && (forall i :: 0 <= i < old(capacity) ==> gaps[i] == old(gaps[i]))
                    && forall i :: old(capacity) <= i < capacity ==> gaps[i] == EmptyGap)
      ensures r == Success ==> Check() == Success && size < capacity
    {
      if Check() != Success {
        return Failure;
      }
      if size < capacity {
        return Success;
      }
      // `capacity` is positive here, so the seed of 4 is never chosen.
      var newCapacity := if capacity == 0 then 4 else capacity * 2;
      var reallocated: bool :| true;
      if !reallocated {
        return Nullable;
      }
      var newArr := Realloc(gaps, newCapacity);
      for i := capacity to newCapacity
        modifies newArr
        invariant forall k :: 0 <= k < capacity ==> newArr[k] == old(gaps[k])
        invariant forall k :: capacity <= k < i ==> newArr[k] == EmptyGap
      {
        newArr[i] := EmptyGap;
      }
      gaps := newArr;
      capacity := newCapacity;
      return Success;
    }

    /** Updates the estimates `low`, `mid` and `high` (passed in and handed
        back, as the references of the source) for the size `bSize` just
        written at slot `size`, counts the entry and returns the median of the
        three estimates. */
    method HandlePivot(low: PivotIndex, mid: PivotIndex, high: PivotIndex, bSize: nat)
      returns (low': PivotIndex, mid': PivotIndex, high': PivotIndex, p: PivotIndex)
      requires gaps != null && size < gaps.Length
      requires low.idx <= size && high.idx <= size
      modifies this`size
      ensures size == old(size) + 1
      ensures low' == (if bSize < low.value then PivotIndex(bSize, old(size)) else low)
      ensures high' == (if bSize > high.value then PivotIndex(bSize, old(size)) else high)
      ensures mid'.idx == (low'.idx + high'.idx) / 2 && mid'.idx <= old(size)
      ensures mid'.value == gaps[mid'.idx].blockSize
      ensures IsStableMedian(p, low', mid', high')
      ensures IsMedianValue(p.value, low'.value, mid'.value, high'.value)
    {
      low', high' := low, high;
      if bSize < low'.value {
        low' := PivotIndex(bSize, size);
      }
      if bSize > high'.value {
        high' := PivotIndex(bSize, size);
      }
      var midIdx := (high'.idx + low'.idx) / 2;
      mid' := PivotIndex(gaps[midIdx].blockSize, midIdx);
      size := size + 1;
      p := SelectMedian(low', mid', high');
    }

    /** The gap's own push into the first free slot; a zero size leaves the
        zeroed slot as it is. */
    method WriteSlot(begin: Address, last: Address, bSize: nat) returns (written: Gap)
      requires gaps != null && Holds(Contents, size) && size < capacity
      modifies gaps
      ensures written == Stored(begin, last, bSize)
      ensures Holds(Contents + [written], size + 1)
    {
      var (_, w) := gaps[size].Push(begin, last, bSize);
      gaps[size] := w;
      written := w;
    }

    /** Writes the gap into the first free slot of a ledger that has room,
        then updates the estimates and the pivot. */
    method Record(begin: Address, last: Address, bSize: nat)
      requires Valid() && gaps != null && size < capacity
      modifies gaps, this`low, this`mid, this`high, this`size, this`pivot, this`Contents
      ensures Valid() && (old(Tracked()) ==> Tracked())
      ensures size == old(size) + 1
      ensures Contents == old(Contents) + [Stored(begin, last, bSize)]
      ensures low == (if old(size) == 0 then PivotIndex(bSize, 0)
                      else if bSize < old(low.value) then PivotIndex(bSize, old(size)) else old(low))
      ensures high == (if old(size) == 0 then PivotIndex(bSize, 0)
                       else if bSize > old(high.value) then PivotIndex(bSize, old(size)) else old(high))
      ensures mid.idx == (low.idx + high.idx) / 2 && mid.value == Contents[mid.idx].blockSize
      ensures IsStableMedian(pivot, low, mid, high)
    {
      ghost var entries, tracked := Contents, Tracked();
      var lo, md, hi := low, mid, high;
      if size == 0 {
        lo, md, hi := lo.(value := bSize), md.(value := bSize), hi.(value := bSize);
      }
      var written := WriteSlot(begin, last, bSize);
      low, mid, high, pivot := HandlePivot(lo, md, hi, bSize);
      Contents := entries + [written];
      if tracked {
        PushKeepsEstimates(entries, lo, md, hi, old(pivot), written, low, mid, high, pivot);
      }
    }

    /** Appends a gap. Fails, changing nothing, when the ledger has no storage
        or the array is full and cannot grow; otherwise records the gap (a zero
        size leaves the zeroed slot as it is), updates the estimates and
        reports success. */
    method Push(begin: Address, last: Address, bSize: nat) returns (r: Status)
      requires Valid()
      modifies this, gaps
      ensures Valid() && (old(Tracked()) ==> Tracked())
      ensures gaps == old(gaps) || fresh(gaps)
      ensures r == Success || r == Failure
      ensures Check() == old(Check())
      ensures old(Check()) != Success ==> r == Failure
      ensures old(Check()) == Success && old(size) < old(capacity) ==> r == Success
      ensures r == Failure ==> unchanged(this) && (gaps != null ==> unchanged(gaps))
      ensures r == Success ==>
                && size == old(size) + 1
                && Contents == old(Contents) + [Stored(begin, last, bSize)]
                && (capacity == old(capacity) || (old(size) == old(capacity) && capacity == 2 * old(capacity)))
      ensures r == Success ==>
                && low == (if old(size) == 0 then PivotIndex(bSize, 0)
                           else if bSize < old(low.value) then PivotIndex(bSize, old(size)) else old(low))
                && high == (if old(size) == 0 then PivotIndex(bSize, 0)
                            else if bSize > old(high.value) then PivotIndex(bSize, old(size)) else old(high))
                && mid.idx == (low.idx + high.idx) / 2
                && mid.value == Contents[mid.idx].blockSize
                && IsStableMedian(pivot, low, mid, high)
    {
      var resized := Resize();
      if resized != Success {
        return Failure;
      }
      Record(begin, last, bSize);
      return Success;
    }

    /** Bounds-checked access to a recorded entry. */
    function Get(idx: nat): (r: Option<Gap>)
      requires Valid()
      reads this, gaps
      ensures r.None? <==> idx >= size
      ensures r.Some? ==> r.value == Contents[idx]
    {
      if idx >= size then None else Some(gaps[idx])
    }
  }

  /** A ledger straight from its constructor has no storage, so a push into it
      fails and leaves it empty and without storage. */
  method PushIntoFreshLedger(begin: Address, last: Address, bSize: nat)
    returns (r: Status, size: nat, status: Status)
    ensures r == Failure && size == 0 && status == Failure
  {
    var ledger := new MemoGaps();
    r := ledger.Push(begin, last, bSize);
    size := ledger.size;
    status := ledger.Check();
  }

  /** In a non-empty ledger whose estimates track its entries, `low` and
      `high` hold the smallest and largest recorded size and all three
      estimates point at recorded slots. */
  lemma TrackedEstimates(m: MemoGaps)
    requires m.Valid() && m.Tracked() && m.size > 0
    ensures m.low.value == MinSize(m.Contents) && m.high.value == MaxSize(m.Contents)
    ensures m.low.idx < m.size && m.mid.idx < m.size && m.high.idx < m.size
    ensures m.Contents[m.mid.idx].blockSize == m.mid.value
  {
    EstimatesAreMinAndMax(m.Contents, m.low, m.mid, m.high, m.pivot);
  }

  /** The pivot of a non-empty ledger lies between its smallest and largest size. */
  lemma PivotWithinRange(m: MemoGaps)
    requires m.Valid() && m.Tracked() && m.size > 0
    ensures MinSize(m.Contents) <= m.pivot.value <= MaxSize(m.Contents)
  {
    var s := m.Contents;
    assert s[m.low.idx].blockSize == m.low.value;
    assert s[m.mid.idx].blockSize == m.mid.value;
    assert s[m.high.idx].blockSize == m.high.value;
  }
}
