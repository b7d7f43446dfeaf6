/** Small data types and counting facts shared by the whole project. */
module Basics {

  datatype Option<+T> = None | Some(value: T)

  /** What Go's `uint32(n)` conversion does to an `int`: reduction modulo 2^32. */
  function Wrap32(n: int): (u: nat)
    ensures u < 0x1_0000_0000
    ensures 0 <= n < 0x1_0000_0000 ==> u == n
  {
    n % 0x1_0000_0000
  }

  /** No value occurs twice in `s`. */
  predicate NoDup<T(==)>(s: seq<T>) {
    forall i, j :: 0 <= i < j < |s| ==> s[i] != s[j]
  }

  // A sequence without repetitions contains each value at most once.
  lemma {:induction false} NoDupCount<T>(s: seq<T>, x: T)
    requires NoDup(s)
    ensures multiset(s)[x] <= 1
  {
    if s == [] {
    } else {
      assert s == s[..|s| - 1] + [s[|s| - 1]];
      NoDupCount(s[..|s| - 1], x);
      assert x in multiset(s[..|s| - 1]) ==> x in s[..|s| - 1];
    }
  }

  // Pigeonhole: as many distinct values as there are places leave no room for anything else.
  lemma SameLengthCover<T>(a: seq<T>, b: seq<T>)
    requires |a| == |b| && NoDup(b)
    requires forall x :: x in b ==> x in a
    ensures multiset(a) == multiset(b)
  {
    forall x ensures multiset(b)[x] <= multiset(a)[x] {
      NoDupCount(b, x);
      if x in multiset(b) {
        assert x in b && x in a;
      }
    }
    assert multiset(b) <= multiset(a);
    assert multiset(a) == multiset(b) + (multiset(a) - multiset(b));
    assert |multiset(a) - multiset(b)| == 0;
  }

  /** All the characters of a list of strings, one after the other. */
  function Flatten(s: seq<string>): string {
    if s == [] then "" else Flatten(s[..|s| - 1]) + s[|s| - 1]
  }

  /** A string that differs from every string of `s`. */
  function Unlike(s: seq<string>): string {
    Flatten(s) + "#"
  }

  lemma {:induction false} FlattenIsLong(s: seq<string>, i: nat)
    requires i < |s|
    ensures |s[i]| <= |Flatten(s)|
  {
    if i < |s| - 1 {
      FlattenIsLong(s[..|s| - 1], i);
    }
  }

  lemma UnlikeIsFresh(s: seq<string>)
    ensures Unlike(s) !in s
  {
    forall i | 0 <= i < |s| ensures s[i] != Unlike(s) {
      FlattenIsLong(s, i);
    }
  }

  // Replacing one place of a sequence trades one occurrence for another.
  lemma MultisetUpdate<T>(s: seq<T>, i: nat, x: T)
    requires i < |s|
    ensures multiset(s[i := x]) == multiset(s) - multiset{s[i]} + multiset{x}
  {
  }
}
