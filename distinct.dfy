/**
  Order-preserving duplicate removal: the `unique` helper of the medication
  rules engine, which keeps the first occurrence of every element.
 */
module Distinct {

  /** No element occurs twice. */
  predicate NoDup<T(==)>(xs: seq<T>) {
    forall i, j :: 0 <= i < j < |xs| ==> xs[i] != xs[j]
  }

  /**
    Reference definition: the input with every repeated element dropped after
    its first occurrence. It is stated element by element from the left, the
    way the source's loop consumes its input.
   */
  function Dedup<T(==)>(xs: seq<T>): (r: seq<T>)
    ensures forall i :: 0 <= i < |xs| ==> xs[i] in r
    ensures forall i :: 0 <= i < |r| ==> r[i] in xs
    ensures NoDup(r)
    ensures |r| <= |xs|
  {
    if xs == [] then []
    else
      var init, last := xs[..|xs| - 1], xs[|xs| - 1];
      assert xs == init + [last];
      var d := Dedup(init);
      if last in d then d else d + [last]
  }

  /** Position of the first occurrence of `x` in `xs`. */
  function FirstIndex<T(==)>(xs: seq<T>, x: T): (i: nat)
    requires x in xs
    ensures i < |xs| && xs[i] == x && x !in xs[..i]
  {
    if xs[0] == x then 0 else 1 + FirstIndex(xs[1..], x)
  }

  /** The first occurrence is the only position that holds `x` with no `x` before it. */
  lemma FirstIndexUnique<T>(xs: seq<T>, x: T, i: nat)
    requires i < |xs| && xs[i] == x && x !in xs[..i]
    ensures FirstIndex(xs, x) == i
  {
  }

  /** Appending an element does not move the first occurrence of an element already present. */
  lemma FirstIndexAppend<T>(xs: seq<T>, last: T, x: T)
    requires x in xs
    ensures FirstIndex(xs + [last], x) == FirstIndex(xs, x)
  {
    var i := FirstIndex(xs, x);
    assert (xs + [last])[..i] == xs[..i];
    FirstIndexUnique(xs + [last], x, i);
  }

  /**
    Dedup keeps the order of first occurrences: an element listed earlier in
    the output first occurs earlier in the input.
   */
  lemma {:induction false} DedupKeepsFirstOccurrenceOrder<T>(xs: seq<T>, i: nat, j: nat)
    requires i < j < |Dedup(xs)|
    ensures FirstIndex(xs, Dedup(xs)[i]) < FirstIndex(xs, Dedup(xs)[j])
  {
    var init, last := xs[..|xs| - 1], xs[|xs| - 1];
    assert xs == init + [last];
    var d := Dedup(init);
    if j < |d| {
      DedupKeepsFirstOccurrenceOrder(init, i, j);
      FirstIndexAppend(init, last, d[i]);
      FirstIndexAppend(init, last, d[j]);
    } else {
      assert last !in init && Dedup(xs)[j] == last;
      FirstIndexUnique(xs, last, |init|);
      FirstIndexAppend(init, last, d[i]);
    }
  }

  /** A list that already has no duplicates comes out unchanged. */
  lemma {:induction false} DedupOfDistinct<T>(xs: seq<T>)
    requires NoDup(xs)
    ensures Dedup(xs) == xs
  {
    if xs != [] {
      var init, last := xs[..|xs| - 1], xs[|xs| - 1];
      assert xs == init + [last];
      assert NoDup(init);
      DedupOfDistinct(init);
    }
  }

  /** Removing duplicates twice is the same as removing them once. */
  lemma DedupIdempotent<T>(xs: seq<T>)
    ensures Dedup(Dedup(xs)) == Dedup(xs)
  {
    DedupOfDistinct(Dedup(xs));
  }

  /** An element survives duplicate removal exactly when it occurs in the input. */
  lemma DedupMember<T>(xs: seq<T>, x: T)
    ensures x in Dedup(xs) <==> x in xs
  {
    if x in xs {
      var k :| 0 <= k < |xs| && xs[k] == x;
    }
  }

  /** In a list without duplicates every element that occurs, occurs once. */
  lemma {:induction false} NoDupOccursOnce<T>(xs: seq<T>, x: T)
    requires NoDup(xs)
    ensures multiset(xs)[x] == if x in xs then 1 else 0
  {
    if xs != [] {
      var init, last := xs[..|xs| - 1], xs[|xs| - 1];
      assert xs == init + [last];
      assert NoDup(init);
      NoDupOccursOnce(init, x);
      assert last !in init;
    }
  }

  /** Applies `f` to every element. */
  function MapSeq<A, B>(f: A -> B, xs: seq<A>): seq<B> {
    seq(|xs|, i requires 0 <= i < |xs| => f(xs[i]))
  }

  lemma MapSeqAppend<A, B>(f: A -> B, xs: seq<A>, x: A)
    ensures MapSeq(f, xs + [x]) == MapSeq(f, xs) + [f(x)]
  {
  }

  /** Under an injective `f`, the image of `x` occurs among the images exactly when `x` occurs. */
  lemma MapSeqMember<A, B>(f: A -> B, xs: seq<A>, x: A)
    requires forall a, b :: f(a) == f(b) ==> a == b
    ensures f(x) in MapSeq(f, xs) <==> x in xs
  {
    if f(x) in MapSeq(f, xs) {
      var k :| 0 <= k < |xs| && MapSeq(f, xs)[k] == f(x);
      assert xs[k] == x;
    }
    if x in xs {
      var k :| 0 <= k < |xs| && xs[k] == x;
      assert MapSeq(f, xs)[k] == f(x);
    }
  }

  /**
    Removing duplicates commutes with an injective renaming: deduplicating the
    images is the same as taking the images of the deduplicated list.
   */
  lemma {:induction false} DedupMapInjective<A, B>(f: A -> B, xs: seq<A>)
    requires forall a, b :: f(a) == f(b) ==> a == b
    ensures Dedup(MapSeq(f, xs)) == MapSeq(f, Dedup(xs))
  {
    if xs != [] {
      var init, last := xs[..|xs| - 1], xs[|xs| - 1];
      assert xs == init + [last];
      MapSeqAppend(f, init, last);
      assert MapSeq(f, xs)[..|xs| - 1] == MapSeq(f, init);
      DedupMapInjective(f, init);
      var d := Dedup(init);
      MapSeqMember(f, d, last);
      MapSeqAppend(f, d, last);
    }
  }

  /**
    The source's `unique`: walks the input once, remembering in `seen` what it
    has already emitted, and appends each element the first time it appears.
   */
  method Unique<T(==)>(xs: seq<T>) returns (out: seq<T>)
    ensures out == Dedup(xs)
  {
    var seen: set<T> := {};
    out := [];
    for i := 0 to |xs|
      invariant out == Dedup(xs[..i])
      invariant forall x :: x in seen <==> x in out
    {
      var x := xs[i];
      if x !in seen {
        out := out + [x];
        seen := seen + {x};
      }
      assert xs[..i + 1][..i] == xs[..i];
    }
    assert xs[..|xs|] == xs;
  }
}
