/** `Array.prototype.sort` with a descending numeric comparator
    (`(a, b) => key(b) - key(a)`), as the leaderboard and the winners list
    use it. Each element is inserted ahead of the later ones with an equal
    key, which keeps ties in input order as the ECMAScript 2019 sort does;
    the contracts below state order and permutation, not the order of
    ties.
 */
module Sorting {

  /** `s` is in non-increasing order of `key`. */
  predicate SortedDesc<T>(s: seq<T>, key: T -> real) {
    forall i, j | 0 <= i < j < |s| :: key(s[i]) >= key(s[j])
  }

  /** Puts `x` in front of the first element whose key is not larger. */
  function InsertDesc<T>(x: T, s: seq<T>, key: T -> real): (r: seq<T>)
    ensures multiset(r) == multiset(s) + multiset{x}
    ensures |r| == |s| + 1
  {
    if s == [] || key(x) >= key(s[0]) then
      [x] + s
    else
      assert s == [s[0]] + s[1..];
      [s[0]] + InsertDesc(x, s[1..], key)
  }

  /** Inserting into a sorted sequence keeps it sorted. */
  lemma {:induction false} InsertDescSorted<T>(x: T, s: seq<T>, key: T -> real)
    requires SortedDesc(s, key)
    ensures SortedDesc(InsertDesc(x, s, key), key)
  {
    if s != [] && key(x) < key(s[0]) {
      var rest := InsertDesc(x, s[1..], key);
      InsertDescSorted(x, s[1..], key);
      forall i | 0 <= i < |rest|
        ensures key(s[0]) >= key(rest[i])
      {
        assert rest[i] in multiset(rest);
        assert rest[i] == x || rest[i] in multiset(s[1..]);
      }
    }
  }

  /** The sorted copy: every element of `s`, each as often as in `s`, in
      non-increasing key order. */
  function SortDesc<T>(s: seq<T>, key: T -> real): (r: seq<T>)
    ensures SortedDesc(r, key)
    ensures multiset(r) == multiset(s)
    ensures |r| == |s|
  {
    if s == [] then []
    else
      assert s == [s[0]] + s[1..];
      var rest := SortDesc(s[1..], key);
      InsertDescSorted(s[0], rest, key);
      InsertDesc(s[0], rest, key)
  }

  /** Sorting by a key is sorting by any key that differs from it by a
      constant. */
  lemma SortedDescShift<T>(s: seq<T>, key: T -> real, key': T -> real, c: real)
    requires forall x :: key'(x) == key(x) + c
    requires SortedDesc(s, key)
    ensures SortedDesc(s, key')
  {
  }

  /** Every element of the input is somewhere in the sorted copy, and
      nothing else is. */
  lemma SortDescMembers<T>(s: seq<T>, key: T -> real, x: T)
    ensures x in SortDesc(s, key) <==> x in s
  {
    var r := SortDesc(s, key);
    assert x in r <==> x in multiset(r);
    assert x in s <==> x in multiset(s);
  }
}
