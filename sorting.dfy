/**
 * The front end sorts twice with `Array.prototype.sort` and a comparator
 * `(a, b) => score(b) - score(a)`: the runtime table by total count and the
 * runtime viewer's rounds by per-round count.  That sort is stable, so its
 * result is the stable descending insertion sort defined here.
 */
module Sorting {

  /** Non-increasing in score from front to back. */
  ghost predicate SortedDesc<T>(s: seq<T>, score: T -> nat)
  {
    forall i, j :: 0 <= i < j < |s| ==> score(s[i]) >= score(s[j])
  }

  /** Puts x in front of the first element whose score does not exceed its own. */
  function Insert<T>(x: T, s: seq<T>, score: T -> nat): (r: seq<T>)
    ensures multiset(r) == multiset(s) + multiset{x}
    ensures |r| == |s| + 1
  {
    if s == [] || score(s[0]) <= score(x) then [x] + s
    else
      assert s == [s[0]] + s[1..];
      [s[0]] + Insert(x, s[1..], score)
  }

  /** Stable sort by non-increasing score; elements of equal score keep their input order. */
  function SortDesc<T>(s: seq<T>, score: T -> nat): seq<T>
  {
    if s == [] then [] else Insert(s[0], SortDesc(s[1..], score), score)
  }

  lemma {:induction false} InsertKeepsOrder<T>(x: T, s: seq<T>, score: T -> nat)
    requires SortedDesc(s, score)
    ensures SortedDesc(Insert(x, s, score), score)
  {
    if s != [] && score(s[0]) > score(x) {
      InsertKeepsOrder(x, s[1..], score);
      var r := Insert(x, s, score);
      var t := Insert(x, s[1..], score);
      assert r == [s[0]] + t;
      assert multiset(t) == multiset(s[1..]) + multiset{x};
      forall j | 0 < j < |r| ensures score(r[0]) >= score(r[j]) {
        assert r[j] in multiset(t);
        if r[j] == x {
        } else {
          assert r[j] in multiset(s[1..]);
          var k :| 0 <= k < |s[1..]| && s[1..][k] == r[j];
          assert s[k + 1] == r[j];
        }
      }
    }
  }

  /** The sorted sequence is a permutation of the input in non-increasing score order. */
  lemma {:induction false} SortDescCorrect<T>(s: seq<T>, score: T -> nat)
    ensures multiset(SortDesc(s, score)) == multiset(s)
    ensures SortedDesc(SortDesc(s, score), score)
  {
    if s != [] {
      SortDescCorrect(s[1..], score);
      InsertKeepsOrder(s[0], SortDesc(s[1..], score), score);
      assert s == [s[0]] + s[1..];
    }
  }
}
