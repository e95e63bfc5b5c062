/** The Kotlin collection operations the core relies on: `find`, `filter { it != x }`
    and `List.minus(element)`. */
module Seqs {
  import opened Wrappers

  /** `xs.find(p)`: the first element satisfying `p`, or null. */
  function FindFirst<T>(xs: seq<T>, p: T -> bool): (r: Option<T>)
    ensures r.None? <==> forall i :: 0 <= i < |xs| ==> !p(xs[i])
    ensures r.Some? ==> exists i :: 0 <= i < |xs| && xs[i] == r.value && p(xs[i]) &&
                                    forall j :: 0 <= j < i ==> !p(xs[j])
  {
    if xs == [] then None
    else if p(xs[0]) then Some(xs[0])
    else
      var r := FindFirst(xs[1..], p);
      assert forall i :: 1 <= i < |xs| ==> xs[i] == xs[1..][i - 1];
      r
  }

  /** `xs.filter { it != x }`: every occurrence of `x` removed, the rest in order. */
  function RemoveAll<T(==)>(xs: seq<T>, x: T): (r: seq<T>)
    ensures x !in r
    ensures multiset(r) == multiset(xs)[x := 0]
  {
    if xs == [] then []
    else
      var rest := RemoveAll(xs[1..], x);
      assert xs == [xs[0]] + xs[1..];
      if xs[0] == x then rest else [xs[0]] + rest
  }

  /** The index of the first occurrence of `x` (`indexOf`). */
  function FirstIndex<T(==)>(xs: seq<T>, x: T): (i: nat)
    requires x in xs
    ensures i < |xs| && xs[i] == x && x !in xs[..i]
  {
    if xs[0] == x then 0
    else
      var i := FirstIndex(xs[1..], x);
      assert xs[..i + 1] == [xs[0]] + xs[1..][..i];
      i + 1
  }

  /** The index of the last occurrence of `x` (`lastIndexOf`). */
  function LastIndex<T(==)>(xs: seq<T>, x: T): (i: nat)
    requires x in xs
    ensures i < |xs| && xs[i] == x && x !in xs[i + 1..]
  {
    if xs[|xs| - 1] == x then |xs| - 1
    else
      assert x in xs[..|xs| - 1] by {
        var j :| 0 <= j < |xs| && xs[j] == x;
        assert xs[..|xs| - 1][j] == x;
      }
      var i := LastIndex(xs[..|xs| - 1], x);
      assert xs[i + 1..] == xs[..|xs| - 1][i + 1..] + [xs[|xs| - 1]];
      i
  }

  /** `xs - x` (`List.minus(element)`): only the FIRST occurrence of `x` is removed, and
      the elements before and after it keep their order. */
  function RemoveFirst<T(==)>(xs: seq<T>, x: T): (r: seq<T>)
    ensures x !in xs ==> r == xs
    ensures x in xs ==> |r| == |xs| - 1
    ensures x in xs ==> r == xs[..FirstIndex(xs, x)] + xs[FirstIndex(xs, x) + 1..]
    ensures multiset(r) == multiset(xs) - multiset{x}
  {
    if x in xs then
      var i := FirstIndex(xs, x);
      assert xs == xs[..i] + [x] + xs[i + 1..];
      xs[..i] + xs[i + 1..]
    else xs
  }

  /** `filter` works element by element: filtering a concatenation filters each part. */
  lemma {:induction false} RemoveAllAppend<T>(a: seq<T>, b: seq<T>, x: T)
    ensures RemoveAll(a + b, x) == RemoveAll(a, x) + RemoveAll(b, x)
  {
    if a != [] {
      assert (a + b)[0] == a[0] && (a + b)[1..] == a[1..] + b;
      RemoveAllAppend(a[1..], b, x);
      if a[0] != x {
        assert [a[0]] + (RemoveAll(a[1..], x) + RemoveAll(b, x)) ==
          ([a[0]] + RemoveAll(a[1..], x)) + RemoveAll(b, x);
      }
    } else {
      assert a + b == b;
    }
  }

  /** One element is kept exactly when it differs from `x`. */
  lemma RemoveAllSingle<T>(y: T, x: T)
    ensures RemoveAll([y], x) == if y == x then [] else [y]
  {
    assert [y][1..] == [];
  }

  /** Together: each element other than `x` stays, in its original order. */
  lemma {:induction false} RemoveAllSnoc<T>(xs: seq<T>, y: T, x: T)
    ensures RemoveAll(xs + [y], x) == RemoveAll(xs, x) + (if y == x then [] else [y])
  {
    RemoveAllAppend(xs, [y], x);
    RemoveAllSingle(y, x);
  }
}
