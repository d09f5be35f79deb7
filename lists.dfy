/**
 * `Array.prototype.filter`, shared by the list pages' searches and alerts,
 * and `Array.prototype.sort` with a numeric key (a stable sort).
 */
module Lists {
  /** Keeps, in order, the elements that satisfy `keep`. */
  function Filter<T>(s: seq<T>, keep: T -> bool): (r: seq<T>)
    ensures |r| <= |s|
    ensures forall j :: 0 <= j < |r| ==> r[j] in s && keep(r[j])
    ensures forall j :: 0 <= j < |s| && keep(s[j]) ==> s[j] in r
  {
    if s == [] then []
    else
      var init := Filter(s[..|s| - 1], keep);
      var last := s[|s| - 1];
      assert forall j :: 0 <= j < |s| - 1 ==> s[j] == s[..|s| - 1][j];
      if keep(last) then init + [last] else init
  }

  /** Filtering with a test every element passes returns the list itself. */
  lemma {:induction false} FilterKeepsAll<T>(s: seq<T>, keep: T -> bool)
    requires forall j :: 0 <= j < |s| ==> keep(s[j])
    ensures Filter(s, keep) == s
  {
    if s != [] {
      FilterKeepsAll(s[..|s| - 1], keep);
      assert s == s[..|s| - 1] + [s[|s| - 1]];
    }
  }

  /** Filtering twice with the same test changes nothing the second time. */
  lemma FilterIdempotent<T>(s: seq<T>, keep: T -> bool)
    ensures Filter(Filter(s, keep), keep) == Filter(s, keep)
  {
    var r := Filter(s, keep);
    FilterKeepsAll(r, keep);
  }

  /** Filtering a concatenation filters each part. */
  lemma {:induction false} FilterAppend<T>(a: seq<T>, b: seq<T>, keep: T -> bool)
    decreases |b|
    ensures Filter(a + b, keep) == Filter(a, keep) + Filter(b, keep)
  {
    if b == [] {
      assert a + b == a;
    } else {
      var init := b[..|b| - 1];
      var x := b[|b| - 1];
      var tail: seq<T> := if keep(x) then [x] else [];
      FilterAppend(a, init, keep);
      assert b == init + [x];
      assert a + b == (a + init) + [x];
      FilterSnoc(a + init, x, keep);
      FilterSnoc(init, x, keep);
      ConcatAssoc(Filter(a, keep), Filter(init, keep), tail);
    }
  }

  /** Concatenation regroups freely. */
  lemma ConcatAssoc<T>(p: seq<T>, q: seq<T>, r: seq<T>)
    ensures p + q + r == p + (q + r)
  {
  }

  /** Filtering a list with one more element at the end. */
  lemma FilterSnoc<T>(s: seq<T>, x: T, keep: T -> bool)
    ensures Filter(s + [x], keep) == Filter(s, keep) + (if keep(x) then [x] else [])
  {
    assert (s + [x])[..|s|] == s;
  }

  /** Filtering a list with one element picked out. */
  lemma FilterAround<T>(a: seq<T>, x: T, b: seq<T>, keep: T -> bool)
    ensures Filter(a + [x] + b, keep) == Filter(a, keep) + (if keep(x) then [x] else []) + Filter(b, keep)
  {
    FilterAppend(a + [x], b, keep);
    FilterAppend(a, [x], keep);
    assert [x][..0] == [];
  }

  /** A kept element stays in place between the kept elements around it. */
  lemma FilterKept<T>(a: seq<T>, x: T, b: seq<T>, keep: T -> bool)
    requires keep(x)
    ensures Filter(a + [x] + b, keep) == Filter(a, keep) + [x] + Filter(b, keep)
  {
    FilterAround(a, x, b, keep);
  }

  /** A dropped element leaves the kept elements around it joined. */
  lemma FilterDropped<T>(a: seq<T>, x: T, b: seq<T>, keep: T -> bool)
    requires !keep(x)
    ensures Filter(a + [x] + b, keep) == Filter(a, keep) + Filter(b, keep)
  {
    FilterAround(a, x, b, keep);
    assert Filter(a, keep) + [] + Filter(b, keep) == Filter(a, keep) + Filter(b, keep);
  }

  /** Ascending by `key`. */
  predicate SortedBy<T>(s: seq<T>, key: T -> real) {
    forall i, j :: 0 <= i < j < |s| ==> key(s[i]) <= key(s[j])
  }

  /** Every key is at least `b`. */
  predicate KeysAtLeast<T>(s: seq<T>, key: T -> real, b: real) {
    forall j :: 0 <= j < |s| ==> b <= key(s[j])
  }

  /**
   * Insert `x` into a list after the leading elements whose key is not
   * larger, so that among equal keys the later arrival goes last.
   */
  function Insert<T>(s: seq<T>, x: T, key: T -> real): (r: seq<T>)
    ensures |r| == |s| + 1
    ensures multiset(r) == multiset(s) + multiset{x}
  {
    if s == [] then [x]
    else if key(s[0]) <= key(x) then
      assert s == [s[0]] + s[1..];
      [s[0]] + Insert(s[1..], x, key)
    else
      [x] + s
  }

  /** Inserting keeps a lower bound that both the list and the new element respect. */
  lemma {:induction false} InsertKeysAtLeast<T>(s: seq<T>, x: T, key: T -> real, b: real)
    requires KeysAtLeast(s, key, b) && b <= key(x)
    ensures KeysAtLeast(Insert(s, x, key), key, b)
  {
    if s != [] && key(s[0]) <= key(x) {
      InsertKeysAtLeast(s[1..], x, key, b);
    }
  }

  /** Inserting into a sorted list gives a sorted list. */
  lemma {:induction false} InsertSorted<T>(s: seq<T>, x: T, key: T -> real)
    requires SortedBy(s, key)
    ensures SortedBy(Insert(s, x, key), key)
  {
    if s != [] && key(s[0]) <= key(x) {
      InsertSorted(s[1..], x, key);
      InsertKeysAtLeast(s[1..], x, key, key(s[0]));
    } else if s != [] {
      assert KeysAtLeast(s, key, key(s[0]));
    }
  }

  /** The stable sort by `key`, ascending: each element in turn inserted into the sorted prefix. */
  function SortBy<T>(s: seq<T>, key: T -> real): (r: seq<T>)
    ensures |r| == |s|
    ensures multiset(r) == multiset(s)
    ensures SortedBy(r, key)
  {
    if s == [] then []
    else
      var init := s[..|s| - 1];
      assert s == init + [s[|s| - 1]];
      var sorted := SortBy(init, key);
      InsertSorted(sorted, s[|s| - 1], key);
      Insert(sorted, s[|s| - 1], key)
  }
}
