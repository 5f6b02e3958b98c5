/**
 * The query semantics the handlers rely on: an equality filter (`.eq`), an
 * ascending order (`.order(..., { ascending: true })`) and the first row of a
 * descending order (`.order(..., { ascending: false }).limit(1)`).
 * A table is a sequence of rows in storage order.
 */
module Query {
  import opened Wrappers

  /** The rows of `s` that satisfy `p`, each as often as it occurs in `s`. */
  function Filter<T(==,!new)>(s: seq<T>, p: T -> bool): (r: seq<T>)
    ensures |r| <= |s|
    ensures forall x :: multiset(r)[x] == if p(x) then multiset(s)[x] else 0
    ensures forall x :: x in r <==> x in s && p(x)
  {
    if s == [] then []
    else
      var rest := Filter(s[1..], p);
      assert s == [s[0]] + s[1..];
      if p(s[0]) then [s[0]] + rest else rest
  }

  /** One step of `Filter`, position by position. */
  lemma FilterStep<T(!new)>(s: seq<T>, p: T -> bool)
    requires s != []
    ensures p(s[0]) ==> |Filter(s, p)| == 1 + |Filter(s[1..], p)| && Filter(s, p)[0] == s[0]
    ensures p(s[0]) ==> forall k :: 0 < k < |Filter(s, p)| ==> Filter(s, p)[k] == Filter(s[1..], p)[k - 1]
    ensures !p(s[0]) ==> Filter(s, p) == Filter(s[1..], p)
  {
  }

  /**
   * Filtering two sequences that agree position by position on `p` and on the
   * observation `g` keeps the same number of rows and the same observations.
   */
  lemma {:induction false} FilterAlike<T(!new), U>(s1: seq<T>, s2: seq<T>, p: T -> bool, g: T -> U)
    requires |s1| == |s2|
    requires forall k :: 0 <= k < |s1| ==> p(s1[k]) == p(s2[k]) && g(s1[k]) == g(s2[k])
    ensures |Filter(s1, p)| == |Filter(s2, p)|
    ensures forall k :: 0 <= k < |Filter(s1, p)| ==> g(Filter(s1, p)[k]) == g(Filter(s2, p)[k])
  {
    if s1 != [] {
      FilterAlike(s1[1..], s2[1..], p, g);
      FilterStep(s1, p);
      FilterStep(s2, p);
      assert p(s1[0]) == p(s2[0]) && g(s1[0]) == g(s2[0]);
    }
  }

  ghost predicate SortedBy<T>(s: seq<T>, key: T -> int) {
    forall i, j :: 0 <= i < j < |s| ==> key(s[i]) <= key(s[j])
  }

  /** `x` placed into the sorted `s` before the first row whose key is not smaller. */
  function InsertBy<T(==)>(x: T, s: seq<T>, key: T -> int): (r: seq<T>)
    requires SortedBy(s, key)
    ensures SortedBy(r, key)
    ensures multiset(r) == multiset(s) + multiset{x}
  {
    if s == [] || key(x) <= key(s[0]) then [x] + s
    else
      var rest := InsertBy(x, s[1..], key);
      assert s == [s[0]] + s[1..];
      assert forall k :: 0 <= k < |rest| ==> key(s[0]) <= key(rest[k]) by {
        forall k | 0 <= k < |rest| ensures key(s[0]) <= key(rest[k]) {
          assert rest[k] in multiset(rest);
          assert rest[k] == x || rest[k] in multiset(s[1..]);
        }
      }
      [s[0]] + rest
  }

  /** The rows of `s` in ascending order of `key`: a permutation of `s`. */
  function SortBy<T(==)>(s: seq<T>, key: T -> int): (r: seq<T>)
    ensures SortedBy(r, key)
    ensures multiset(r) == multiset(s)
  {
    if s == [] then []
    else
      assert s == [s[0]] + s[1..];
      InsertBy(s[0], SortBy(s[1..], key), key)
  }

  /** The first row of `s` in descending order of `key`; `None` when `s` is empty. */
  function Newest<T>(s: seq<T>, key: T -> int): (r: Option<T>)
    ensures r.None? <==> s == []
    ensures r.Some? ==> r.value in s && forall x :: x in s ==> key(x) <= key(r.value)
  {
    if s == [] then None
    else
      assert s == [s[0]] + s[1..];
      match Newest(s[1..], key)
      case None => Some(s[0])
      case Some(m) => if key(m) > key(s[0]) then Some(m) else Some(s[0])
  }
}
