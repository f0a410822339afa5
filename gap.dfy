/** Value records of the free-block registry: one reclaimed address range (Gap)
    and one (value, position) pivot estimate (PivotIndex). */
module Gaps {
  import opened Handle

  /** Addresses are opaque; `Null` plays the role of the null pointer. */
  type Address = nat
  const Null: Address := 0

  datatype Option<T> = None | Some(value: T)

  /** One reclaimed range. `Gap()` in the source is `EmptyGap` here. */
  datatype Gap = Gap(initial: Address, final: Address, blockSize: nat)
  {
    /** Records a range into this slot; a zero size is refused and the slot is left as it was. */
    function Push(begin: Address, last: Address, size: nat): (r: (Status, Gap))
      ensures r.0 == Failure <==> size == 0
      ensures r.0 != Nullable
      ensures r.0 == Failure ==> r.1 == this
      ensures r.0 == Success ==> r.1.initial == begin && r.1.final == last && r.1.blockSize == size
    {
      if size == 0 then (Failure, this)
      else (Success, this.(initial := begin, final := last, blockSize := size))
    }
  }

  const EmptyGap := Gap(Null, Null, 0)

  /** A slot holds either a recorded range (positive size) or the zeroed default. */
  predicate WellFormed(g: Gap) {
    g.blockSize > 0 || g == EmptyGap
  }

  /** What a push of (begin, last, size) leaves in a zeroed slot. */
  function Stored(begin: Address, last: Address, size: nat): (g: Gap)
    ensures WellFormed(g)
    ensures size > 0 ==> g == Gap(begin, last, size)
    ensures size == 0 ==> g == EmptyGap
  {
    EmptyGap.Push(begin, last, size).1
  }

  /** Pushing the fields of a well-formed gap into any slot reproduces that gap;
      for a positive size the slot's previous contents do not matter. */
  lemma PushRoundTrip(slot: Gap, g: Gap)
    requires g.blockSize > 0
    ensures slot.Push(g.initial, g.final, g.blockSize) == (Success, g)
  {
  }

  /** Re-recording a well-formed gap into a zeroed slot stores the gap itself. */
  lemma StoredRoundTrip(g: Gap)
    requires WellFormed(g)
    ensures Stored(g.initial, g.final, g.blockSize) == g
  {
  }

  /** A size estimate and the slot it was read from. */
  datatype PivotIndex = PivotIndex(value: nat, idx: nat)

  const NoPivot := PivotIndex(0, 0)
}
