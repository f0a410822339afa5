# memoblocks free-block registry in Dafny

This project models the free-block registry of the memoblocks allocator
(`include/quicklist.hpp`), as the code is written, and proves properties of
that model.

- **`Gap`** is a record of one reclaimed address range and its block size.
- **`MemoGaps`** is a hand-grown array of gaps. While entries are appended it
  keeps running estimates: the smallest size (`low`), the largest (`high`), a
  midpoint probe (`mid`) and a median-of-three `pivot`.
- **`MemoBlocks`** holds a quicksort over a `MemoGaps`, built from four
  parts:
  - a sortedness probe;
  - a split of the entries around the pivot into two fresh ledgers;
  - a "rebase" that pushes both halves back;
  - the quicksort that chains them.

Files, one module each:

| file | module | content |
|---|---|---|
| `status.dfy` | `Handle` | the three-valued `Status` |
| `gap.dfy` | `Gaps` | `Gap` with its `Push`, `PivotIndex`, opaque addresses |
| `memo_gaps.dfy` | `Ledger` | class `MemoGaps` (fields updated in place, an `array?<Gap>` as storage), the median-of-three network, the estimates invariant |
| `subseq.dfy` | `Subsequences` | ordered subsequences and best-effort appends |
| `memo_blocks.dfy` | `Sorting` | `CheckSorting`, `FillPartitions`, `Rebase`, `Quicksort` |

The ledger state and its invariants:

- `gaps == null` means "no storage".
- `capacity` is a separate field, as in the source.
- A ghost field `Contents` lists the recorded entries. `Valid()` ties it to the array:
  - the first `size` slots hold `Contents`;
  - the remaining slots up to `capacity` hold zeroed gaps;
  - every entry is well formed (a positive size, or the zeroed gap);
  - `low.idx` and `high.idx` never point past the next free slot, so the midpoint read stays inside the array.
- `Tracked()` is the estimates invariant:
  - `low` and `high` hold the smallest and largest recorded size, each read from the slot it names;
  - `mid` sits halfway between their positions;
  - `pivot` is the median of the three.
- The constructor and `Destroy` establish both invariants, and every push preserves them.

A push inside the split or the rebase may be refused, and the source ignores
the refusal. Those operations are therefore specified as *best-effort
appends*:

- the target ends with its old entries followed by an ordered subsequence of the batch offered to it;
- a target without storage keeps its entries;
- a target that started with room for the whole batch receives all of it.

## Behaviour as written

The code differs from the registry's intended design in five places. The
model follows the code in each.

1. **A fresh ledger refuses every push.**
   - `check` fails unless storage is present and the capacity is positive.
   - `resize` starts with that check.
   - The constructor leaves `gaps` null with capacity 0.
   - So a push into a new ledger reports `Failure` and changes nothing (`PushIntoFreshLedger`). The capacity-0 seed of 4 in `resize` can never be chosen, and the doubling sequence 4, 8, 16, … never starts. Nothing in the core ever allocates the first array.
2. **A zero size is not rejected by the ledger.**
   - `Gap::push` refuses size 0, but the ledger ignores that result.
   - The ledger still counts the entry, leaves the zeroed slot in place and reports `Success`.
   - The intended design rejects it as an invalid argument.
3. **A failed reallocation is reported as `Failure`.**
   - `resize` reports `Nullable`, but `push` maps every non-success to `Failure`.
   - The intended design reports exhausted resources.
4. **`rebase` appends without clearing.**
   - The entries that were split stay in the ledger.
   - Both halves are pushed after them.
5. **The quicksort never sorts.**
   - The two halves are freshly constructed, so, by item 1, every push into them is refused and they stay empty.
   - Both halves are therefore sorted, so neither recursive call is reached. `rebase` then pushes nothing, and the ledger is left exactly as it was (`Quicksort`).
   - The recursion carries no termination argument. If the halves did accept pushes, a ledger whose sizes all lie at or below its pivot would hand all of them to the left half (`LeftTakesAll`), which could then repeat the same split.

## Model

| member | source | states |
|---|---|---|
| Gaps.Gap.Push | include/quicklist.hpp:14-23 | size 0 reports `Failure` and leaves all three fields as they were; any other size stores begin, last and size and reports `Success`; `Nullable` is never reported |
| Gaps.Stored | include/quicklist.hpp:12-23 | what a push leaves in a zeroed slot: the range itself for a positive size, the zeroed gap for size 0; always well formed |
| Gaps.PushRoundTrip | include/quicklist.hpp:14-23 | pushing the fields of a gap with a positive size into any slot succeeds and reproduces exactly that gap |
| Gaps.StoredRoundTrip | include/quicklist.hpp:14-23 | re-pushing a well-formed gap into a zeroed slot, as the split and the rebase do, reproduces it |
| Ledger.MemoGaps.constructor | include/quicklist.hpp:45-46 | no storage, size and capacity 0, all four estimates at their defaults, no entries; both invariants hold |
| Ledger.MemoGaps.Check | include/quicklist.hpp:57-59 | `Success` exactly when storage is present with a positive capacity, otherwise `Failure`; never `Nullable` |
| Ledger.MemoGaps.Destroy | include/quicklist.hpp:48-55 | the destructor's field reset: no storage, zero size and capacity, default estimates |
| Ledger.Realloc | include/quicklist.hpp:70 | a fresh array of the new capacity whose first slots are the old array's; the tail is left unspecified |
| Ledger.MemoGaps.Resize | include/quicklist.hpp:61-82 | refused (`Failure`, nothing changed) without storage; `Success` with nothing changed when there is room; when full, either `Nullable` with storage and capacity untouched, or a fresh array of twice the capacity that keeps every old slot and zero-fills every new one; success always leaves room for one more entry |
| Ledger.SelectMedian | include/quicklist.hpp:99-105 | the three conditional swaps return the middle element of the stable ordering of (low, mid, high) by value, so its value has two of the three at or below it and two at or above it |
| Ledger.MemoGaps.HandlePivot | include/quicklist.hpp:84-106 | `low` is replaced only by a strictly smaller size and `high` only by a strictly larger one, both at the current position; `mid` is re-read halfway between them at a slot already written; the size grows by one; the result is the median of the three |
| Ledger.MemoGaps.WriteSlot | include/quicklist.hpp:115 | the gap's own push into the first free slot stores the range, or leaves the zeroed slot for size 0; storage then holds the entries plus that slot |
| Ledger.MemoGaps.Record | include/quicklist.hpp:112-117 | with room: the first push seeds all three estimates with its size; the entry is appended; the estimates follow `HandlePivot`; storage stays valid and the estimates invariant is kept |
| Ledger.MemoGaps.Push | include/quicklist.hpp:108-119 | only `Success` or `Failure`; `Failure` exactly when `resize` did not succeed, with the ledger and its array untouched; on success the size grows by one, the stored gap (zeroed for size 0) is appended after unchanged entries, the capacity stays or doubles from full, the estimates are updated, and both invariants are kept |
| Ledger.MemoGaps.Get | include/quicklist.hpp:121-123 | absent exactly when the index is at or past the size, otherwise the entry recorded at that index |
| Ledger.PushIntoFreshLedger | include/quicklist.hpp:57-63 | a push into a freshly constructed ledger reports `Failure`, the size stays 0 and `check` keeps failing |
| Ledger.PushKeepsEstimates | include/quicklist.hpp:84-97 | one push keeps the estimates invariant: new extremes replace `low`/`high`, `mid` is re-read halfway, and every size stays between `low` and `high` |
| Ledger.EstimatesAreMinAndMax | include/quicklist.hpp:85-93 | tracked estimates are exactly the minimum and the maximum of all recorded sizes |
| Ledger.TrackedEstimates | include/quicklist.hpp:85-96 | in a valid, tracked, non-empty ledger, `low`/`high` are the minimum/maximum size and all three estimates point at recorded slots, with `mid` holding its slot's size |
| Ledger.PivotWithinRange | include/quicklist.hpp:99-105 | the pivot of a tracked non-empty ledger lies between its smallest and largest size |
| Sorting.CheckSorting | include/quicklist.hpp:130-136 | true exactly when every adjacent pair of entries is in non-decreasing size order (vacuously for 0 or 1 entries) |
| Sorting.SortedIsOrdered | include/quicklist.hpp:130-136 | sorted neighbours give a totally ordered sequence: any earlier entry's size is at most any later one's |
| Sorting.SideOf | include/quicklist.hpp:151-157 | an entry goes left exactly when its size is at most the pivot (ties go left) |
| Sorting.PartIsOneSided | include/quicklist.hpp:151-157 | every entry routed to a side belongs to that side |
| Sorting.SplitIsPermutation | include/quicklist.hpp:150-158 | the two parts together hold every entry of the ledger exactly once |
| Sorting.LeftTakesAll | include/quicklist.hpp:151-157 | when no size exceeds the pivot, the left part is the whole input, in order, and the right part is empty |
| Sorting.RightPartShrinks | include/quicklist.hpp:151-157 | the smallest entry of a tracked non-empty ledger goes left, so the right part is strictly shorter than the ledger |
| Sorting.PushCopy | include/quicklist.hpp:152 | pushing a copy of a stored entry into a ledger appends it or changes nothing; nothing changes without storage; with room it is appended without growing; estimates that tracked the entries keep tracking them |
| Sorting.Offer | include/quicklist.hpp:151-157 | pushing the next entry into its own side keeps that side a best-effort copy of its part so far |
| Sorting.DealLeft | include/quicklist.hpp:151-157 | an entry that goes left (below or equal to the pivot) is offered to the left half only; the left half keeps filling with its part and the right half, untouched, stays filling with its part so far |
| Sorting.DealRight | include/quicklist.hpp:153-154 | an entry above the pivot is offered to the right half only; the right half keeps filling and the left half is untouched |
| Sorting.PassOver | include/quicklist.hpp:151-157 | an entry routed to the other side leaves a half's part, and so its best-effort fill, as it was |
| Sorting.Deal | include/quicklist.hpp:151-157 | one loop step routes entry `i` by the three source branches; the side it belongs to keeps filling and the other side's part does not grow |
| Sorting.FillPartitions | include/quicklist.hpp:149-161 | each side ends with its old entries followed by an ordered selection of its part (left: sizes at most the pivot, right: larger, both in source order); a side without usable storage keeps its entries; a side with room for its whole part receives all of it; each side whose estimates tracked its entries keeps them tracking; when the source ledger has no storage neither side changes at all; the source ledger is not modified |
| Sorting.CopyAll | include/quicklist.hpp:140-146 | one rebase loop: the target goes on filling with every entry of the source ledger in order, and is untouched when the source is empty |
| Sorting.Rebase | include/quicklist.hpp:139-147 | the ledger keeps its old entries and receives an ordered selection of the left entries followed by the right ones; without usable storage it keeps its entries; with room for both halves it receives all of them; estimates that tracked its entries keep tracking them; with two empty halves it is untouched |
| Sorting.Quicksort | include/quicklist.hpp:163-182 | as written, the call leaves the ledger and its array exactly as they were, and it stays valid |

## Left out

- `layout/status.hpp` is not part of this model. `Status` is a three-valued datatype, and only the names of its values are used.
- Memory management:
  - `realloc` is `Realloc` plus a nondeterministic success flag.
  - `free` is not modelled; `Destroy` performs only the destructor's field reset.
  - `new`/`delete` of the halves become the constructor and `Destroy`.
- Addresses (`void*`) are opaque natural numbers. The code never relates them to the size, and neither does the model.
- `size_t` wrap-around is not modelled: sizes, indices and capacities are unbounded. This covers a doubling of a capacity near the top of `size_t` and the sum `high.idx + low.idx` in the midpoint.
- Ledger.MemoGaps.Get returns the entry as a value (`Option<Gap>`), not a pointer into the array. Writes through the returned pointer are not modelled, and the core makes none.
- Ledger.MemoGaps.HandlePivot takes the three estimates as values and hands back their new values. This is the source's reference parameters written as in/out values; the caller stores them back into the fields.
- `std::swap` in the median-of-three network is a simultaneous assignment of two local values. `<iostream>` is not used by the core.
- Sorting.FillPartitions and Sorting.Rebase require their ledgers to be distinct and not to share an array. The source's only caller passes two freshly constructed halves, so aliased ledgers are not modelled.
- Ledger.MemoGaps.Push keeps the estimates invariant only when it held before (`old(Tracked()) ==> Tracked()`). The constructor and `Destroy` establish it, so every ledger built through them keeps it.
- Sorting.FillPartitions and Sorting.Rebase state only that a target without usable storage keeps its entries, not that its estimates, capacity and array are untouched. Every push into it is refused and changes nothing, but carrying the whole field state through the loop was left out; the source ledger without storage in `FillPartitions`, and two empty halves in `Rebase`, do come with the full unchanged state.
- Sorting.FillPartitions and Sorting.Rebase do not state which pushes succeed when an array must grow. Growth may fail nondeterministically, so only "an ordered selection, and all of it when there was room" is claimed.
- Sorting.Quicksort: the recursive calls are unreachable as written, so they appear as dead branches and no termination argument is given. For a variant in which the halves accept pushes, the model claims neither termination nor a sorted, duplicate-free result.
- The `map` field of `MemoBlocks` is never read, because every method takes the ledger as a parameter. The operations are therefore module-level methods, and the parameter is named `ledger`.
