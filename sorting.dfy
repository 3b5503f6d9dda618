/** Ordering and in-place sorting shared by the Go and TypeScript models:
    the lexicographic string order of Go's `<` on strings, and a sort by a
    strict weak order that stands in for `sort.Sort` and `sort.Strings`. */
module Sorting {

  /** Go's `a < b` on strings: lexicographic by character, a proper prefix
      first. */
  predicate StrLess(a: string, b: string)
    decreases |a|
  {
    if a == [] then b != []
    else if b == [] then false
    else a[0] < b[0] || (a[0] == b[0] && StrLess(a[1..], b[1..]))
  }

  lemma {:induction false} StrLessIrreflexive(a: string)
    ensures !StrLess(a, a)
    decreases |a|
  {
    if a != [] {
      StrLessIrreflexive(a[1..]);
    }
  }

  lemma {:induction false} StrLessTransitive(a: string, b: string, c: string)
    requires StrLess(a, b) && StrLess(b, c)
    ensures StrLess(a, c)
    decreases |a|
  {
    if a != [] && b != [] && c != [] && a[0] == b[0] && b[0] == c[0] {
      StrLessTransitive(a[1..], b[1..], c[1..]);
    }
  }

  /** Any two different strings are ordered one way or the other. */
  lemma {:induction false} StrLessTotal(a: string, b: string)
    requires a != b
    ensures StrLess(a, b) || StrLess(b, a)
    decreases |a|
  {
    if a != [] && b != [] && a[0] == b[0] {
      assert a == [a[0]] + a[1..] && b == [b[0]] + b[1..];
      StrLessTotal(a[1..], b[1..]);
    }
  }

  /** `less` is a strict weak order: what Go's `sort.Sort` asks of `Less`. */
  ghost predicate StrictWeakOrder<T(!new)>(less: (T, T) -> bool)
  {
    && (forall x, y :: less(x, y) ==> !less(y, x))
    && (forall x, y, z :: !less(x, y) && !less(y, z) ==> !less(x, z))
  }

  /** No element is less than one before it. */
  ghost predicate SortedBy<T>(s: seq<T>, less: (T, T) -> bool)
  {
    forall i, j :: 0 <= i < j < |s| ==> !less(s[j], s[i])
  }

  /** The string order is a strict weak order. */
  lemma StrLessIsStrictWeakOrder()
    ensures StrictWeakOrder(StrLess)
  {
    forall x: string, y: string | StrLess(x, y)
      ensures !StrLess(y, x)
    {
      if StrLess(y, x) {
        StrLessTransitive(x, y, x);
        StrLessIrreflexive(x);
      }
    }
    forall x: string, y: string, z: string | !StrLess(x, y) && !StrLess(y, z)
      ensures !StrLess(x, z)
    {
      if StrLess(x, z) {
        if x == y {
        } else if y == z {
        } else {
          StrLessTotal(x, y);
          StrLessTotal(y, z);
          StrLessTransitive(y, x, z);
        }
      }
    }
  }

  /** Sorts `a` in place by `less` with adjacent swaps, leaving a
      permutation of its elements in which no element is less than one
      before it. */
  method SortBy<T(!new)>(a: array<T>, less: (T, T) -> bool)
    requires StrictWeakOrder(less)
    modifies a
    ensures SortedBy(a[..], less)
    ensures multiset(a[..]) == multiset(old(a[..]))
  {
    var i := 0;
    while i < a.Length
      invariant 0 <= i <= a.Length
      invariant SortedBy(a[..i], less)
      invariant multiset(a[..]) == multiset(old(a[..]))
    {
      InsertLast(a, i, less);
      i := i + 1;
    }
    assert a[..i] == a[..];
  }

  /** Moves `a[i]` left past every larger element of the sorted prefix
      `a[..i]`. */
  method InsertLast<T(!new)>(a: array<T>, i: int, less: (T, T) -> bool)
    requires StrictWeakOrder(less)
    requires 0 <= i < a.Length && SortedBy(a[..i], less)
    modifies a
    ensures SortedBy(a[..i + 1], less)
    ensures a[i + 1..] == old(a[i + 1..])
    ensures multiset(a[..]) == multiset(old(a[..]))
  {
    var j := i;
    while j > 0 && less(a[j], a[j - 1])
      invariant 0 <= j <= i
      invariant forall k, l :: 0 <= k < l <= i && k != j && l != j ==> !less(a[l], a[k])
      invariant forall l :: j < l <= i ==> !less(a[l], a[j])
      invariant a[i + 1..] == old(a[i + 1..])
      invariant multiset(a[..]) == multiset(old(a[..]))
    {
      SwapAdjacent(a, j, i);
      j := j - 1;
    }
    forall k | 0 <= k < j
      ensures !less(a[j], a[k])
    {
      assert !less(a[j], a[j - 1]);
      assert !less(a[j - 1], a[k]);
    }
  }

  /** Exchanges `a[j - 1]` and `a[j]`, leaving the rest and the elements
      present as they were. */
  method SwapAdjacent<T>(a: array<T>, j: int, ghost i: int)
    requires 0 < j <= i < a.Length
    modifies a
    ensures a[j - 1] == old(a[j]) && a[j] == old(a[j - 1])
    ensures forall k :: 0 <= k < a.Length && k != j - 1 && k != j ==> a[k] == old(a[k])
    ensures a[i + 1..] == old(a[i + 1..])
    ensures multiset(a[..]) == multiset(old(a[..]))
  {
    a[j - 1], a[j] := a[j], a[j - 1];
  }
}
