/** Ordered subsequences and best-effort appends: the shape of a batch of
    pushes that may each be refused. */
module Subsequences {
  /** `a` is `b` with some elements dropped, the rest kept in order. */
  ghost predicate IsSubseq<T>(a: seq<T>, b: seq<T>)
    decreases |b|
  {
    if |a| == 0 then true
    else if |b| == 0 then false
    else (a[|a| - 1] == b[|b| - 1] && IsSubseq(a[..|a| - 1], b[..|b| - 1]))
         || IsSubseq(a, b[..|b| - 1])
  }

  lemma {:induction false} SubseqOfEmpty<T>(a: seq<T>)
    requires IsSubseq(a, [])
    ensures a == []
  {
  }

  /** An element appended to both sides keeps the relation. */
  lemma {:induction false} SubseqExtendBoth<T>(a: seq<T>, b: seq<T>, x: T)
    requires IsSubseq(a, b)
    ensures IsSubseq(a + [x], b + [x])
  {
    assert (a + [x])[..|a|] == a;
    assert (b + [x])[..|b|] == b;
  }

  /** An element appended to the larger side only keeps the relation. */
  lemma {:induction false} SubseqExtendRight<T>(a: seq<T>, b: seq<T>, x: T)
    requires IsSubseq(a, b)
    ensures IsSubseq(a, b + [x])
  {
    assert (b + [x])[..|b|] == b;
  }

  /** A subsequence is never longer than the sequence it is taken from. */
  lemma {:induction false} SubseqLength<T>(a: seq<T>, b: seq<T>)
    requires IsSubseq(a, b)
    ensures |a| <= |b|
    decreases |b|
  {
    if |a| > 0 {
      if a[|a| - 1] == b[|b| - 1] && IsSubseq(a[..|a| - 1], b[..|b| - 1]) {
        SubseqLength(a[..|a| - 1], b[..|b| - 1]);
      } else {
        SubseqLength(a, b[..|b| - 1]);
      }
    }
  }

  /** `after` is `before` followed by some of the elements of `batch`, in order. */
  ghost predicate Extends<T>(before: seq<T>, after: seq<T>, batch: seq<T>) {
    |before| <= |after| && after[..|before|] == before && IsSubseq(after[|before|..], batch)
  }

  /** Nothing appended extends by the empty batch. */
  lemma ExtendsByNothing<T>(before: seq<T>)
    ensures Extends(before, before, [])
  {
  }

  /** One more element offered: appended or refused, the append stays best-effort. */
  lemma {:induction false} ExtendsStep<T>(before: seq<T>, cur: seq<T>, batch: seq<T>, x: T, next: seq<T>)
    requires Extends(before, cur, batch)
    requires next == cur + [x] || next == cur
    ensures Extends(before, next, batch + [x])
  {
    if next == cur + [x] {
      assert next[..|before|] == cur[..|before|];
      assert next[|before|..] == cur[|before|..] + [x];
      SubseqExtendBoth(cur[|before|..], batch, x);
    } else {
      SubseqExtendRight(cur[|before|..], batch, x);
    }
  }

  /** A best-effort append of an empty batch appends nothing. */
  lemma ExtendsByEmpty<T>(before: seq<T>, after: seq<T>)
    requires Extends(before, after, [])
    ensures after == before
  {
    SubseqOfEmpty(after[|before|..]);
  }

  /** A batch offered one element at a time to a store that may refuse each:
      the store ends up with its old contents followed by an ordered selection
      of the batch, and with the whole batch when every offer is accepted. */
  ghost predicate BestEffort<T>(before: seq<T>, after: seq<T>, batch: seq<T>, complete: bool) {
    Extends(before, after, batch) && (complete ==> after == before + batch)
  }

  /** Offering one more element keeps the append best-effort. */
  lemma BestEffortStep<T>(before: seq<T>, cur: seq<T>, batch: seq<T>, x: T, next: seq<T>, complete: bool)
    requires BestEffort(before, cur, batch, complete)
    requires next == cur + [x] || next == cur
    requires complete ==> next == cur + [x]
    ensures BestEffort(before, next, batch + [x], complete)
  {
    ExtendsStep(before, cur, batch, x, next);
  }
}
