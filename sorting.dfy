/**
 * Python's `sorted(xs, key=..., reverse=...)` as a stable insertion sort,
 * parameterised by the strict "must come before" relation it sorts by.
 */
module Sorting {

  /** `before` is a strict weak order: asymmetric and negatively transitive. */
  ghost predicate StrictWeakOrder<T(!new)>(before: (T, T) -> bool)
  {
    && (forall a, b :: before(a, b) ==> !before(b, a))
    && (forall a, b, c :: before(a, c) ==> before(a, b) || before(b, c))
  }

  /** Neither of `a`, `b` must come before the other: their sort keys are equal. */
  predicate Tied<T>(a: T, b: T, before: (T, T) -> bool)
  {
    !before(a, b) && !before(b, a)
  }

  /** No element is followed by one that must come before it. */
  ghost predicate Sorted<T>(s: seq<T>, before: (T, T) -> bool)
  {
    forall i, j :: 0 <= i < j < |s| ==> !before(s[j], s[i])
  }

  /** The elements of `s` whose key equals that of `y`, in their order in `s`. */
  function Ties<T>(s: seq<T>, y: T, before: (T, T) -> bool): seq<T>
  {
    if s == [] then [] else (if Tied(s[0], y, before) then [s[0]] else []) + Ties(s[1..], y, before)
  }

  /** Places `x` after the elements of `s` that must precede it and before all others. */
  function Insert<T>(x: T, s: seq<T>, before: (T, T) -> bool): seq<T>
  {
    if s != [] && before(s[0], x) then [s[0]] + Insert(x, s[1..], before) else [x] + s
  }

  /** `sorted(s)`: stable sort, the first of two tied elements staying first. */
  function Sort<T>(s: seq<T>, before: (T, T) -> bool): seq<T>
  {
    if s == [] then [] else Insert(s[0], Sort(s[1..], before), before)
  }

  lemma {:induction false} InsertPermutation<T>(x: T, s: seq<T>, before: (T, T) -> bool)
    ensures multiset(Insert(x, s, before)) == multiset(s) + multiset{x}
  {
    if s != [] && before(s[0], x) {
      InsertPermutation(x, s[1..], before);
      assert s == [s[0]] + s[1..];
    }
  }

  /** The sorted sequence holds exactly the input elements. */
  lemma {:induction false} SortPermutation<T>(s: seq<T>, before: (T, T) -> bool)
    ensures multiset(Sort(s, before)) == multiset(s)
  {
    if s != [] {
      SortPermutation(s[1..], before);
      InsertPermutation(s[0], Sort(s[1..], before), before);
      assert s == [s[0]] + s[1..];
    }
  }

  lemma {:induction false} InsertSorted<T(!new)>(x: T, s: seq<T>, before: (T, T) -> bool)
    requires StrictWeakOrder(before)
    requires Sorted(s, before)
    ensures Sorted(Insert(x, s, before), before)
  {
    if s != [] && before(s[0], x) {
      var tail := s[1..];
      InsertSorted(x, tail, before);
      assert forall k :: 0 <= k < |tail| ==> tail[k] == s[k + 1];
      InsertNotBefore(x, tail, s[0], before);
      ConsSorted(s[0], Insert(x, tail, before), before);
    } else if s != [] {
      forall k | 0 <= k < |s| ensures !before(s[k], x) {
        if k > 0 {
          assert !before(s[k], s[0]);
        }
      }
      ConsSorted(x, s, before);
    }
  }

  /** Nothing `Insert` places must come before `h` when neither `x` nor any element of `s` must. */
  lemma {:induction false} InsertNotBefore<T>(x: T, s: seq<T>, h: T, before: (T, T) -> bool)
    requires !before(x, h)
    requires forall k :: 0 <= k < |s| ==> !before(s[k], h)
    ensures forall k :: 0 <= k < |Insert(x, s, before)| ==> !before(Insert(x, s, before)[k], h)
  {
    if s != [] && before(s[0], x) {
      var tail := s[1..];
      assert forall k :: 0 <= k < |tail| ==> tail[k] == s[k + 1];
      InsertNotBefore(x, tail, h, before);
      var r := Insert(x, s, before);
      assert r == [s[0]] + Insert(x, tail, before);
      assert forall k :: 1 <= k < |r| ==> r[k] == Insert(x, tail, before)[k - 1];
    } else {
      var r := [x] + s;
      assert forall k :: 1 <= k < |r| ==> r[k] == s[k - 1];
    }
  }

  /** A sorted sequence stays sorted under a new head that none of its elements must precede. */
  lemma ConsSorted<T>(h: T, t: seq<T>, before: (T, T) -> bool)
    requires Sorted(t, before)
    requires forall k :: 0 <= k < |t| ==> !before(t[k], h)
    ensures Sorted([h] + t, before)
  {
    var r := [h] + t;
    forall i, j | 0 <= i < j < |r| ensures !before(r[j], r[i]) {
      if i > 0 { assert r[i] == t[i - 1] && r[j] == t[j - 1]; }
      else { assert r[j] == t[j - 1]; }
    }
  }

  /** The result of `Sort` is ordered by `before`. */
  lemma {:induction false} SortSorted<T(!new)>(s: seq<T>, before: (T, T) -> bool)
    requires StrictWeakOrder(before)
    ensures Sorted(Sort(s, before), before)
  {
    if s != [] {
      SortSorted(s[1..], before);
      InsertSorted(s[0], Sort(s[1..], before), before);
    }
  }

  lemma {:induction false} InsertTies<T(!new)>(x: T, s: seq<T>, y: T, before: (T, T) -> bool)
    requires StrictWeakOrder(before)
    ensures Ties(Insert(x, s, before), y, before)
         == (if Tied(x, y, before) then [x] else []) + Ties(s, y, before)
  {
    var own := if Tied(x, y, before) then [x] else [];
    if s != [] && before(s[0], x) {
      var head := if Tied(s[0], y, before) then [s[0]] else [];
      var r := Insert(x, s, before);
      assert r == [s[0]] + Insert(x, s[1..], before);
      assert r[1..] == Insert(x, s[1..], before);
      InsertTies(x, s[1..], y, before);
      assert Ties(r, y, before) == head + (own + Ties(s[1..], y, before));
      assert Ties(s, y, before) == head + Ties(s[1..], y, before);
      if Tied(x, y, before) {
        assert before(s[0], y) || before(y, x);
        assert head == [];
      }
    } else {
      var r := [x] + s;
      assert r[1..] == s;
    }
  }

  /** Stability: elements with equal keys keep their relative input order. */
  lemma {:induction false} SortStable<T(!new)>(s: seq<T>, y: T, before: (T, T) -> bool)
    requires StrictWeakOrder(before)
    ensures Ties(Sort(s, before), y, before) == Ties(s, y, before)
  {
    if s != [] {
      SortStable(s[1..], y, before);
      InsertTies(s[0], Sort(s[1..], before), y, before);
    }
  }
}
