/** The sorting side of the registry (`MemoBlocks`): a sortedness probe, the
    split of a ledger around its pivot, the merge of two ledgers back into
    one, and the quicksort that chains them. */
module Sorting {
  import opened Handle
  import opened Gaps
  import opened Ledger
  import opened Subsequences

  /** Each entry's size is at most the next one's. */
  ghost predicate SortedBySize(s: seq<Gap>) {
    forall i :: 0 <= i < |s| - 1 ==> s[i].blockSize <= s[i + 1].blockSize
  }

  /** Sorted neighbours make the whole sequence ordered by size. */
  lemma {:induction false} SortedIsOrdered(s: seq<Gap>, i: nat, j: nat)
    requires SortedBySize(s) && i <= j < |s|
    ensures s[i].blockSize <= s[j].blockSize
    decreases j - i
  {
    if i < j {
      SortedIsOrdered(s, i + 1, j);
    }
  }

  /** Walks the neighbouring pairs and reports whether none is out of order. */
  method CheckSorting(partition: MemoGaps) returns (sorted: bool)
    requires partition.Valid()
    ensures sorted <==> SortedBySize(partition.Contents)
  {
    var i := 0;
    while i + 1 < partition.size
      invariant i == 0 || i < partition.size
      invariant forall k :: 0 <= k < i ==> partition.Contents[k].blockSize <= partition.Contents[k + 1].blockSize
    {
      var here := partition.Get(i);
      var next := partition.Get(i + 1);
      if here.value.blockSize > next.value.blockSize {
        return false;
      }
      i := i + 1;
    }
    return true;
  }

  /** The two halves of a split. */
  datatype Side = Left | Right

  /** Where the split sends an entry: sizes below the pivot and ties go left,
      sizes above it go right. */
  function SideOf(g: Gap, pivot: nat): (side: Side)
    ensures side == Left <==> g.blockSize <= pivot
  {
    if g.blockSize < pivot then Left
    else if g.blockSize > pivot then Right
    else Left
  }

  /** The entries the split sends to `side`, in their original order. */
  function Part(s: seq<Gap>, pivot: nat, side: Side): (p: seq<Gap>)
    ensures |p| <= |s|
  {
    if |s| == 0 then []
    else Part(s[..|s| - 1], pivot, side) + (if SideOf(s[|s| - 1], pivot) == side then [s[|s| - 1]] else [])
  }

  /** Every entry of a part belongs to that side. */
  lemma {:induction false} PartIsOneSided(s: seq<Gap>, pivot: nat, side: Side)
    ensures forall k :: 0 <= k < |Part(s, pivot, side)| ==> SideOf(Part(s, pivot, side)[k], pivot) == side
  {
    if |s| > 0 {
      PartIsOneSided(s[..|s| - 1], pivot, side);
    }
  }

  /** Extending the input by one entry extends exactly its own side's part by it. */
  lemma PartStep(s: seq<Gap>, i: nat, pivot: nat, side: Side)
    requires i < |s|
    ensures Part(s[..i + 1], pivot, side) ==
              if SideOf(s[i], pivot) == side then Part(s[..i], pivot, side) + [s[i]] else Part(s[..i], pivot, side)
  {
    assert s[..i + 1][..i] == s[..i];
    assert Part(s[..i], pivot, side) + [] == Part(s[..i], pivot, side);
  }

  /** Adding the last entry of `s` to one of two collections that together
      hold the rest of `s` makes them hold all of `s`. */
  lemma AddLast(s: seq<Gap>, l: seq<Gap>, r: seq<Gap>, l': seq<Gap>, r': seq<Gap>)
    requires |s| > 0 && multiset(l) + multiset(r) == multiset(s[..|s| - 1])
    requires (l' == l + [s[|s| - 1]] && r' == r) || (l' == l && r' == r + [s[|s| - 1]])
    ensures multiset(l') + multiset(r') == multiset(s)
  {
    var x := s[|s| - 1];
    assert s == s[..|s| - 1] + [x];
    assert multiset(s) == multiset(s[..|s| - 1]) + multiset{x};
    if l' == l + [x] {
      assert multiset(l') == multiset(l) + multiset{x};
    } else {
      assert multiset(r') == multiset(r) + multiset{x};
    }
  }

  /** The two parts together hold every entry exactly once. */
  lemma {:induction false} SplitIsPermutation(s: seq<Gap>, pivot: nat)
    ensures multiset(Part(s, pivot, Left)) + multiset(Part(s, pivot, Right)) == multiset(s)
  {
    if |s| > 0 {
      SplitIsPermutation(s[..|s| - 1], pivot);
      AddLast(s, Part(s[..|s| - 1], pivot, Left), Part(s[..|s| - 1], pivot, Right),
              Part(s, pivot, Left), Part(s, pivot, Right));
    }
  }

  /** The part of a prefix is never longer than the part of the whole. */
  lemma {:induction false} PartOfPrefix(s: seq<Gap>, i: nat, pivot: nat, side: Side)
    requires i <= |s|
    ensures |Part(s[..i], pivot, side)| <= |Part(s, pivot, side)|
    decreases |s| - i
  {
    if i < |s| {
      PartStep(s, i, pivot, side);
      PartOfPrefix(s, i + 1, pivot, side);
    } else {
      assert s[..i] == s;
    }
  }

  /** Entry `i` still has a place in its own side's part after the first `i`
      entries have been routed. */
  lemma RoomForNext(s: seq<Gap>, i: nat, pivot: nat)
    requires i < |s|
    ensures |Part(s[..i], pivot, SideOf(s[i], pivot))| < |Part(s, pivot, SideOf(s[i], pivot))|
  {
    PartStep(s, i, pivot, SideOf(s[i], pivot));
    PartOfPrefix(s, i + 1, pivot, SideOf(s[i], pivot));
  }

  /** When no size exceeds the pivot, the left part is the whole input and the
      right part is empty: the left half is then no smaller than the input. */
  lemma {:induction false} LeftTakesAll(s: seq<Gap>, pivot: nat)
    requires forall i :: 0 <= i < |s| ==> s[i].blockSize <= pivot
    ensures Part(s, pivot, Left) == s && Part(s, pivot, Right) == []
  {
    if |s| > 0 {
      LeftTakesAll(s[..|s| - 1], pivot);
      assert s == s[..|s| - 1] + [s[|s| - 1]];
    }
  }

  /** An entry that goes left keeps the right part shorter than the input. */
  lemma {:induction false} RightPartMisses(s: seq<Gap>, pivot: nat, k: nat)
    requires k < |s| && s[k].blockSize <= pivot
    ensures |Part(s, pivot, Right)| < |s|
  {
    if k < |s| - 1 {
      RightPartMisses(s[..|s| - 1], pivot, k);
    } else {
      assert |Part(s[..|s| - 1], pivot, Right)| <= |s| - 1;
    }
  }

  /** The smallest entry of a non-empty ledger goes left, so its right part is
      strictly smaller than the ledger. */
  lemma RightPartShrinks(m: MemoGaps)
    requires m.Valid() && m.Tracked() && m.size > 0
    ensures |Part(m.Contents, m.pivot.value, Right)| < m.size
  {
    PivotWithinRange(m);
    var k :| 0 <= k < |m.Contents| && m.Contents[k].blockSize == MinSize(m.Contents);
    RightPartMisses(m.Contents, m.pivot.value, k);
  }

  /** Routing entry `i` keeps one side's collection best-effort: the side it
      belongs to may have received it, the other side is as it was. */
  lemma FillStep(s: seq<Gap>, i: nat, pivot: nat, side: Side,
                 before: seq<Gap>, cur: seq<Gap>, next: seq<Gap>, complete: bool)
    requires i < |s|
    requires BestEffort(before, cur, Part(s[..i], pivot, side), complete)
    requires SideOf(s[i], pivot) == side ==> next == cur + [s[i]] || next == cur
    requires SideOf(s[i], pivot) == side && complete ==> next == cur + [s[i]]
    requires SideOf(s[i], pivot) != side ==> next == cur
    ensures BestEffort(before, next, Part(s[..i + 1], pivot, side), complete)
  {
    PartStep(s, i, pivot, side);
    if SideOf(s[i], pivot) == side {
      BestEffortStep(before, cur, Part(s[..i], pivot, side), s[i], next, complete);
    } else {
      assert Part(s[..i], pivot, side) + [] == Part(s[..i], pivot, side);
    }
  }

  /** Two distinct ledgers that do not share storage. */
  ghost predicate Separate(a: MemoGaps, b: MemoGaps)
    reads a, b
  {
    a != b && (a.gaps == null || a.gaps != b.gaps)
  }

  /** Room for `extra` more entries without growing: storage is present and
      the current array can take them all. */
  ghost predicate HasRoom(m: MemoGaps, extra: nat)
    reads m
  {
    m.Check() == Success && m.size + extra <= m.capacity
  }

  /** Pushes a copy of the well-formed entry `g` into `target`: either `g`
      is appended or nothing changes; nothing changes when `target` has no
      storage, `g` is appended without growing when there is room, and the
      estimates keep tracking the entries. */
  method PushCopy(target: MemoGaps, g: Gap) returns (r: Status)
    requires target.Valid() && WellFormed(g)
    modifies target, target.gaps
    ensures target.Valid() && (target.gaps == old(target.gaps) || fresh(target.gaps))
    ensures target.Check() == old(target.Check())
    ensures r == Success ==> target.Contents == old(target.Contents) + [g]
    ensures r != Success ==> unchanged(target) && (target.gaps != null ==> unchanged(target.gaps))
    ensures old(target.Check()) != Success ==> r == Failure
    ensures old(HasRoom(target, 1)) ==> r == Success && target.capacity == old(target.capacity)
    ensures old(target.Tracked()) ==> target.Tracked()
  {
    StoredRoundTrip(g);
    r := target.Push(g.initial, g.final, g.blockSize);
  }

  /** A ledger's state when a split starts: its entries, its status, its
      capacity, whether it had room for its whole part of `total` entries,
      and whether its estimates tracked its entries. */
  datatype Mark = Mark(start: seq<Gap>, check: Status, cap: nat, room: bool, tracked: bool)

  ghost function MarkOf(x: MemoGaps, total: nat): (m: Mark)
    reads x
    ensures m.room <==> HasRoom(x, total)
    ensures m.tracked <==> x.Tracked()
  {
    Mark(x.Contents, x.Check(), x.capacity, HasRoom(x, total), x.Tracked())
  }

  /** Midway through a split, a side has received a best-effort copy of
      `part`, with its status unchanged, its capacity unchanged while it had
      room for all of `total`, its entries unchanged without storage, and
      its estimates tracking its entries if they did at the start. */
  ghost predicate Filling(x: MemoGaps, m: Mark, part: seq<Gap>, total: nat)
    reads x, x.gaps
  {
    && x.Valid() && x.Check() == m.check
    && BestEffort(m.start, x.Contents, part, m.room)
    && (!m.room || (x.capacity == m.cap && m.check == Success && |m.start| + total <= m.cap))
    && (m.check == Success || x.Contents == m.start)
    && (!m.tracked || x.Tracked())
  }

  /** While a side had room for all of `total`, it still has room for one
      more entry as long as fewer than `total` have arrived. */
  lemma FillingHasRoom(x: MemoGaps, m: Mark, part: seq<Gap>, total: nat)
    requires Filling(x, m, part, total) && m.room && |part| < total
    ensures HasRoom(x, 1)
  {
    assert x.Contents == m.start + part;
  }

  /** The first `i` entries of `ledger` have been routed: `ledger` still
      carries `entries` split around `pv`, the three ledgers are apart, and
      both sides are filling with their share of the first `i` entries. */
  ghost predicate Dealt(ledger: MemoGaps, left: MemoGaps, right: MemoGaps,
                        entries: seq<Gap>, pv: nat, lm: Mark, rm: Mark, i: nat)
    reads ledger, ledger.gaps, left, left.gaps, right, right.gaps
  {
    && ledger.Valid() && entries == ledger.Contents && pv == ledger.pivot.value && i <= |entries|
    && Separate(ledger, left) && Separate(ledger, right) && Separate(left, right)
    && Filling(left, lm, Part(entries[..i], pv, Left), |Part(entries, pv, Left)|)
    && Filling(right, rm, Part(entries[..i], pv, Right), |Part(entries, pv, Right)|)
  }

  /** Pushes `g` into `x`, which is filling with `part` out of `total`
      entries, one more of which is `g`. */
  method Append(x: MemoGaps, g: Gap, ghost part: seq<Gap>, ghost total: nat, ghost m: Mark)
    requires Filling(x, m, part, total) && |part| < total && WellFormed(g)
    modifies x, x.gaps
    ensures Filling(x, m, part + [g], total)
    ensures x.gaps == old(x.gaps) || fresh(x.gaps)
  {
    if m.room {
      FillingHasRoom(x, m, part, total);
    }
    var pushed := PushCopy(x, g);
    BestEffortStep(m.start, old(x.Contents), part, g, x.Contents, m.room);
  }

  /** Pushes entry `i` of `entries`, which belongs to `side`, into that
      side's ledger `x`, which keeps filling. */
  method Offer(x: MemoGaps, g: Gap, ghost entries: seq<Gap>, ghost pv: nat, ghost i: nat,
               ghost side: Side, ghost m: Mark)
    requires i < |entries| && entries[i] == g && SideOf(g, pv) == side && WellFormed(g)
    requires Filling(x, m, Part(entries[..i], pv, side), |Part(entries, pv, side)|)
    modifies x, x.gaps
    ensures Filling(x, m, Part(entries[..i + 1], pv, side), |Part(entries, pv, side)|)
    ensures x.gaps == old(x.gaps) || fresh(x.gaps)
  {
    RoomForNext(entries, i, pv);
    PartStep(entries, i, pv, side);
    Append(x, g, Part(entries[..i], pv, side), |Part(entries, pv, side)|, m);
  }

  /** Entry `i` goes to the other side, so a side filling with its part of
      the first `i` entries is filling with its part of the first `i + 1`. */
  lemma PassOver(x: MemoGaps, m: Mark, entries: seq<Gap>, pv: nat, i: nat, side: Side)
    requires i < |entries| && SideOf(entries[i], pv) != side
    requires Filling(x, m, Part(entries[..i], pv, side), |Part(entries, pv, side)|)
    ensures Filling(x, m, Part(entries[..i + 1], pv, side), |Part(entries, pv, side)|)
  {
    PartStep(entries, i, pv, side);
  }

  /** Pushes entry `i` of `ledger`, which goes left, into `left`; `right`
      is untouched. */
  method DealLeft(ledger: MemoGaps, i: nat, g: Gap, left: MemoGaps, right: MemoGaps,
                  ghost entries: seq<Gap>, ghost pv: nat, ghost lm: Mark, ghost rm: Mark)
    requires Dealt(ledger, left, right, entries, pv, lm, rm, i) && i < ledger.size
    requires g == entries[i] && SideOf(g, pv) == Left
    modifies left, left.gaps
    ensures Dealt(ledger, left, right, entries, pv, lm, rm, i + 1)
    ensures left.gaps == old(left.gaps) || fresh(left.gaps)
  {
    AllWellFormedAt(entries, i);
    Offer(left, g, entries, pv, i, Left, lm);
    PassOver(right, rm, entries, pv, i, Right);
  }

  /** Pushes entry `i` of `ledger`, which goes right, into `right`; `left`
      is untouched. */
  method DealRight(ledger: MemoGaps, i: nat, g: Gap, left: MemoGaps, right: MemoGaps,
                   ghost entries: seq<Gap>, ghost pv: nat, ghost lm: Mark, ghost rm: Mark)
    requires Dealt(ledger, left, right, entries, pv, lm, rm, i) && i < ledger.size
    requires g == entries[i] && SideOf(g, pv) == Right
    modifies right, right.gaps
    ensures Dealt(ledger, left, right, entries, pv, lm, rm, i + 1)
    ensures right.gaps == old(right.gaps) || fresh(right.gaps)
  {
    AllWellFormedAt(entries, i);
    Offer(right, g, entries, pv, i, Right, rm);
    PassOver(left, lm, entries, pv, i, Left);
  }

  /** Routes entry `i` of `ledger` to its side: sizes below the pivot go
      left, sizes above it go right, ties go left. The other side's part does
      not grow. */
  method Deal(ledger: MemoGaps, i: nat, left: MemoGaps, right: MemoGaps,
              ghost entries: seq<Gap>, ghost pv: nat, ghost lm: Mark, ghost rm: Mark)
    requires Dealt(ledger, left, right, entries, pv, lm, rm, i) && i < ledger.size
    modifies left, left.gaps, right, right.gaps
    ensures Dealt(ledger, left, right, entries, pv, lm, rm, i + 1)
    ensures left.gaps == old(left.gaps) || fresh(left.gaps)
    ensures right.gaps == old(right.gaps) || fresh(right.gaps)
  {
    var g := ledger.Get(i).value;
    if g.blockSize < ledger.pivot.value {
      DealLeft(ledger, i, g, left, right, entries, pv, lm, rm);
    } else if g.blockSize > ledger.pivot.value {
      DealRight(ledger, i, g, left, right, entries, pv, lm, rm);
    } else {
      DealLeft(ledger, i, g, left, right, entries, pv, lm, rm);
    }
  }

  /** Each entry of an all-well-formed sequence is well formed. */
  lemma AllWellFormedAt(s: seq<Gap>, i: nat)
    requires AllWellFormed(s) && i < |s|
    ensures WellFormed(s[i])
  {
  }

  /** Before any entry is routed, both sides are filling with nothing. */
  lemma StartDealing(ledger: MemoGaps, left: MemoGaps, right: MemoGaps)
    requires ledger.Valid() && left.Valid() && right.Valid()
    requires Separate(ledger, left) && Separate(ledger, right) && Separate(left, right)
    ensures Dealt(ledger, left, right, ledger.Contents, ledger.pivot.value,
                  MarkOf(left, |Part(ledger.Contents, ledger.pivot.value, Left)|),
                  MarkOf(right, |Part(ledger.Contents, ledger.pivot.value, Right)|), 0)
  {
    var entries := ledger.Contents;
    assert entries[..0] == [];
    ExtendsByNothing(left.Contents);
    ExtendsByNothing(right.Contents);
  }

  /** Sends every entry of `ledger` to `left` or `right` by its side of the
      pivot. Each push may be refused, so each side ends up with its old
      entries followed by an ordered selection of its part; a side without
      usable storage keeps its entries, a side with room for its whole part
      receives all of it, and a side whose estimates tracked its entries
      keeps them tracking. A ledger without storage is not walked, and
      neither side changes at all. */
  method FillPartitions(ledger: MemoGaps, left: MemoGaps, right: MemoGaps)
    requires ledger.Valid() && left.Valid() && right.Valid()
    requires Separate(ledger, left) && Separate(ledger, right) && Separate(left, right)
    modifies left, left.gaps, right, right.gaps
    ensures left.Valid() && right.Valid() && Separate(left, right)
    ensures left.gaps == old(left.gaps) || fresh(left.gaps)
    ensures right.gaps == old(right.gaps) || fresh(right.gaps)
    ensures BestEffort(old(left.Contents), left.Contents, Part(ledger.Contents, ledger.pivot.value, Left),
                       old(HasRoom(left, |Part(ledger.Contents, ledger.pivot.value, Left)|)))
    ensures BestEffort(old(right.Contents), right.Contents, Part(ledger.Contents, ledger.pivot.value, Right),
                       old(HasRoom(right, |Part(ledger.Contents, ledger.pivot.value, Right)|)))
    ensures old(left.Check()) != Success ==> left.Contents == old(left.Contents)
    ensures old(right.Check()) != Success ==> right.Contents == old(right.Contents)
    ensures old(left.Tracked()) ==> left.Tracked()
    ensures old(right.Tracked()) ==> right.Tracked()
    ensures ledger.gaps == null ==>
              && unchanged(left) && (left.gaps != null ==> unchanged(left.gaps))
              && unchanged(right) && (right.gaps != null ==> unchanged(right.gaps))
  {
    ghost var entries, pv := ledger.Contents, ledger.pivot.value;
    ghost var lm := MarkOf(left, |Part(entries, pv, Left)|);
    ghost var rm := MarkOf(right, |Part(entries, pv, Right)|);
    StartDealing(ledger, left, right);
    var i := 0;
    if ledger.gaps != null {
      while i < ledger.size
        invariant Dealt(ledger, left, right, entries, pv, lm, rm, i)
        invariant left.gaps == old(left.gaps) || fresh(left.gaps)
        invariant right.gaps == old(right.gaps) || fresh(right.gaps)
      {
        Deal(ledger, i, left, right, entries, pv, lm, rm);
        i := i + 1;
      }
    }
    assert entries[..i] == entries;
    FillingDone(left, lm, Part(entries, pv, Left), old(left.Contents),
                old(HasRoom(left, |Part(ledger.Contents, ledger.pivot.value, Left)|)), old(left.Check()),
                old(left.Tracked()));
    FillingDone(right, rm, Part(entries, pv, Right), old(right.Contents),
                old(HasRoom(right, |Part(ledger.Contents, ledger.pivot.value, Right)|)), old(right.Check()),
                old(right.Tracked()));
  }

  /** A valid ledger is filling with nothing, out of any total. */
  lemma StartFilling(x: MemoGaps, total: nat)
    requires x.Valid()
    ensures Filling(x, MarkOf(x, total), [], total)
  {
    ExtendsByNothing(x.Contents);
  }

  /** Once the whole of `batch` has been offered, a filling ledger holds a
      best-effort copy of it after the entries it started with, and its
      estimates track its entries if they did at the start. */
  lemma FillingDone(x: MemoGaps, m: Mark, batch: seq<Gap>, start: seq<Gap>, room: bool, check: Status, tracked: bool)
    requires Filling(x, m, batch, |batch|)
    requires start == m.start && room == m.room && check == m.check && tracked == m.tracked
    ensures BestEffort(start, x.Contents, batch, room)
    ensures check != Success ==> x.Contents == start
    ensures tracked ==> x.Tracked()
  {
  }

  /** Pushes every entry of `source` onto `ledger`, which is filling with
      `prefix` and goes on filling with `prefix` followed by those entries. */
  method CopyAll(ledger: MemoGaps, source: MemoGaps, ghost prefix: seq<Gap>, ghost total: nat, ghost m: Mark)
    requires source.Valid() && Separate(ledger, source)
    requires Filling(ledger, m, prefix, total) && |prefix| + source.size <= total
    modifies ledger, ledger.gaps
    ensures Filling(ledger, m, prefix + source.Contents, total)
    ensures ledger.gaps == old(ledger.gaps) || fresh(ledger.gaps)
    ensures source.size == 0 ==> unchanged(ledger) && (ledger.gaps != null ==> unchanged(ledger.gaps))
  {
    var i := 0;
    assert prefix + source.Contents[..0] == prefix;
    while i < source.size
      invariant i <= source.size && Separate(ledger, source)
      invariant ledger.gaps == old(ledger.gaps) || fresh(ledger.gaps)
      invariant Filling(ledger, m, prefix + source.Contents[..i], total)
      invariant source.size == 0 ==> unchanged(ledger) && (ledger.gaps != null ==> unchanged(ledger.gaps))
    {
      var g := source.Get(i).value;
      assert prefix + source.Contents[..i + 1] == prefix + source.Contents[..i] + [g];
      Append(ledger, g, prefix + source.Contents[..i], total, m);
      i := i + 1;
    }
    assert source.Contents[..i] == source.Contents;
  }

  /** Pushes every entry of `left`, then every entry of `right`, back onto
      `ledger`, after whatever it already holds. Each push may be refused, so
      `ledger` ends up with its old entries followed by an ordered selection
      of the two halves; without usable storage it keeps its entries, with
      room for both halves it receives all of them, and estimates that
      tracked its entries keep tracking them. */
  method Rebase(ledger: MemoGaps, left: MemoGaps, right: MemoGaps)
    requires ledger.Valid() && left.Valid() && right.Valid()
    requires Separate(ledger, left) && Separate(ledger, right)
    modifies ledger, ledger.gaps
    ensures ledger.Valid() && (ledger.gaps == old(ledger.gaps) || fresh(ledger.gaps))
    ensures BestEffort(old(ledger.Contents), ledger.Contents, left.Contents + right.Contents,
                       old(HasRoom(ledger, left.size + right.size)))
    ensures old(ledger.Check()) != Success ==> ledger.Contents == old(ledger.Contents)
    ensures old(ledger.Tracked()) ==> ledger.Tracked()
    ensures left.size + right.size == 0 ==>
              unchanged(ledger) && (ledger.gaps != null ==> unchanged(ledger.gaps))
  {
    ghost var total := left.size + right.size;
    ghost var m := MarkOf(ledger, total);
    StartFilling(ledger, total);
    CopyAll(ledger, left, [], total, m);
    CopyAll(ledger, right, [] + left.Contents, total, m);
    assert [] + left.Contents + right.Contents == left.Contents + right.Contents;
    FillingDone(ledger, m, left.Contents + right.Contents, old(ledger.Contents),
                old(HasRoom(ledger, left.size + right.size)), old(ledger.Check()), old(ledger.Tracked()));
  }

  /** The quicksort as written: a ledger of two or more entries is split into
      two freshly constructed halves, each unsorted half is sorted in turn,
      and the halves are pushed back onto the ledger. A fresh half has no
      storage, so the split leaves both halves empty: both are sorted, the
      recursive calls are never reached, nothing is pushed back, and the
      ledger is left exactly as it was. */
  method Quicksort(ledger: MemoGaps)
    requires ledger.Valid()
    modifies ledger, ledger.gaps
    ensures ledger.Valid()
    ensures unchanged(ledger) && (ledger.gaps != null ==> unchanged(ledger.gaps))
  {
    if ledger.size <= 1 {
      return;
    }
    var left := new MemoGaps();
    var right := new MemoGaps();
    FillPartitions(ledger, left, right);
    var leftSorted := CheckSorting(left);
    if !leftSorted {
      assert false;
    }
    var rightSorted := CheckSorting(right);
    if !rightSorted {
      assert false;
    }
    Rebase(ledger, left, right);
    left.Destroy();
    right.Destroy();
  }
}
