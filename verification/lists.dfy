/**
 * The array operations the list views are built from: `filter` and
 * `sort` over a copy. `Array.prototype.sort` is called with comparators
 * that never answer 0, so the order of equal keys is left to the engine;
 * it is modelled by a stable insertion sort, and only "permutation" and
 * "distinct keys in order" are claimed of it.
 */
module Lists {
  import Text

  /** `a` is `b` with some elements deleted, the rest kept in order. */
  predicate IsSubseq<T(==)>(a: seq<T>, b: seq<T>) {
    if a == [] then true
    else if b == [] then false
    else if a[0] == b[0] then IsSubseq(a[1..], b[1..])
    else IsSubseq(a, b[1..])
  }

  /** `s.filter(keep)`. */
  function Filter<T(==)>(s: seq<T>, keep: T -> bool): (r: seq<T>)
    ensures IsSubseq(r, s) && |r| <= |s|
    ensures forall x :: x in r ==> x in s && keep(x)
    ensures forall x :: x in s ==> multiset(r)[x] == if keep(x) then multiset(s)[x] else 0
  {
    if s == [] then []
    else
      assert s == [s[0]] + s[1..];
      if keep(s[0]) then [s[0]] + Filter(s[1..], keep) else Filter(s[1..], keep)
  }

  lemma {:induction false} FilterKeepsAll<T>(s: seq<T>, keep: T -> bool)
    requires forall x :: x in s ==> keep(x)
    ensures Filter(s, keep) == s
  {
    if s != [] { FilterKeepsAll(s[1..], keep); }
  }

  /** Filtering out at least one element shortens the sequence. */
  lemma {:induction false} FilterShrinks<T>(s: seq<T>, keep: T -> bool, i: int)
    requires 0 <= i < |s| && !keep(s[i])
    ensures |Filter(s, keep)| < |s|
  {
    var rest := Filter(s[1..], keep);
    assert |Filter(s, keep)| <= |rest| + 1;
    if i == 0 {
      assert Filter(s, keep) == rest;
    } else {
      assert s[1..][i - 1] == s[i];
      FilterShrinks(s[1..], keep, i - 1);
    }
  }

  /** A sort key: a number, a string, or a value placed after both. */
  datatype Key = Num(n: real) | Str(s: string) | Last

  /** The strict order on keys: `<` on numbers, `<` on strings. */
  predicate KeyBelow(a: Key, b: Key) {
    if a.Last? then false
    else if b.Last? then true
    else if a.Num? && b.Num? then a.n < b.n
    else if a.Str? && b.Str? then Text.StrBelow(a.s, b.s)
    else a.Num?
  }

  /** `a` goes strictly before `b` in the given direction. */
  predicate Precedes(a: Key, b: Key, descending: bool) {
    if descending then KeyBelow(b, a) else KeyBelow(a, b)
  }

  lemma PrecedesIsStrictTotalOrder(a: Key, b: Key, c: Key, descending: bool)
    ensures !Precedes(a, a, descending)
    ensures Precedes(a, b, descending) && Precedes(b, c, descending) ==> Precedes(a, c, descending)
    ensures a != b ==> Precedes(a, b, descending) || Precedes(b, a, descending)
  {
    if a.Str? { Text.StrBelowIrreflexive(a.s); }
    if a.Str? && b.Str? && c.Str? {
      if Text.StrBelow(a.s, b.s) && Text.StrBelow(b.s, c.s) { Text.StrBelowTransitive(a.s, b.s, c.s); }
      if Text.StrBelow(c.s, b.s) && Text.StrBelow(b.s, a.s) { Text.StrBelowTransitive(c.s, b.s, a.s); }
    }
    if a.Str? && b.Str? && a.s != b.s { Text.StrBelowTotal(a.s, b.s); }
  }

  /** No element is strictly preceded by a later one. */
  ghost predicate SortedByKey<T>(s: seq<T>, key: T -> Key, descending: bool) {
    forall i, j :: 0 <= i < j < |s| ==> !Precedes(key(s[j]), key(s[i]), descending)
  }

  /** No element of `s` strictly precedes the key `k`. */
  ghost predicate NothingBefore<T>(k: Key, s: seq<T>, key: T -> Key, descending: bool) {
    forall i :: 0 <= i < |s| ==> !Precedes(key(s[i]), k, descending)
  }

  lemma ConsKeepsSorted<T>(x: T, s: seq<T>, key: T -> Key, descending: bool)
    requires SortedByKey(s, key, descending) && NothingBefore(key(x), s, key, descending)
    ensures SortedByKey([x] + s, key, descending)
  {
    forall i, j | 0 <= i < j < |s| + 1
      ensures !Precedes(key(([x] + s)[j]), key(([x] + s)[i]), descending)
    {
      if i > 0 { assert ([x] + s)[i] == s[i - 1]; }
      assert ([x] + s)[j] == s[j - 1];
    }
  }

  /** Places `x` before the first element that does not strictly precede it. */
  function Insert<T(==)>(x: T, s: seq<T>, key: T -> Key, descending: bool): (r: seq<T>)
    ensures multiset(r) == multiset(s) + multiset{x}
  {
    if s == [] then [x]
    else if Precedes(key(s[0]), key(x), descending) then
      assert s == [s[0]] + s[1..];
      [s[0]] + Insert(x, s[1..], key, descending)
    else [x] + s
  }

  lemma {:induction false} InsertKeepsSorted<T>(x: T, s: seq<T>, key: T -> Key, descending: bool)
    requires SortedByKey(s, key, descending)
    ensures SortedByKey(Insert(x, s, key, descending), key, descending)
  {
    if s == [] {
    } else if Precedes(key(s[0]), key(x), descending) {
      var rest := Insert(x, s[1..], key, descending);
      InsertKeepsSorted(x, s[1..], key, descending);
      forall i | 0 <= i < |rest| ensures !Precedes(key(rest[i]), key(s[0]), descending) {
        var y := rest[i];
        assert y in multiset(rest);
        if y == x {
          PrecedesIsStrictTotalOrder(key(s[0]), key(x), key(s[0]), descending);
        } else {
          assert y in s[1..];
          var j :| 0 <= j < |s[1..]| && s[1..][j] == y;
          assert s[j + 1] == y;
        }
      }
      ConsKeepsSorted(s[0], rest, key, descending);
    } else {
      forall j | 0 <= j < |s| ensures !Precedes(key(s[j]), key(x), descending) {
        PrecedesIsStrictTotalOrder(key(s[j]), key(x), key(s[0]), descending);
        PrecedesIsStrictTotalOrder(key(s[j]), key(s[0]), key(x), descending);
        PrecedesIsStrictTotalOrder(key(x), key(s[0]), key(s[j]), descending);
      }
      ConsKeepsSorted(x, s, key, descending);
    }
  }

  /** `[...s].sort(cmp)` where `cmp` orders by `key` in the given direction. */
  function SortByKey<T(==)>(s: seq<T>, key: T -> Key, descending: bool): (r: seq<T>)
    ensures multiset(r) == multiset(s)
    ensures SortedByKey(r, key, descending)
  {
    if s == [] then []
    else
      assert s == [s[0]] + s[1..];
      var sortedTail := SortByKey(s[1..], key, descending);
      InsertKeepsSorted(s[0], sortedTail, key, descending);
      Insert(s[0], sortedTail, key, descending)
  }

  /** In a sorted sequence, elements with distinct keys stand in the
      direction's order: increasing when ascending, decreasing otherwise. */
  lemma SortedDistinctKeys<T>(s: seq<T>, key: T -> Key, descending: bool, i: int, j: int)
    requires SortedByKey(s, key, descending)
    requires 0 <= i < j < |s| && key(s[i]) != key(s[j])
    ensures Precedes(key(s[i]), key(s[j]), descending)
  {
    PrecedesIsStrictTotalOrder(key(s[i]), key(s[j]), key(s[i]), descending);
  }

  /** Filtering a sorted sequence leaves it sorted. */
  lemma {:induction false} FilterKeepsSorted<T>(s: seq<T>, keep: T -> bool, key: T -> Key, descending: bool)
    requires SortedByKey(s, key, descending)
    ensures SortedByKey(Filter(s, keep), key, descending)
  {
    if s != [] {
      var rest := Filter(s[1..], keep);
      FilterKeepsSorted(s[1..], keep, key, descending);
      if keep(s[0]) {
        forall i, j | 0 <= i < j < |rest| + 1
          ensures !Precedes(key(([s[0]] + rest)[j]), key(([s[0]] + rest)[i]), descending)
        {
          if i == 0 {
            var y := rest[j - 1];
            assert y in multiset(rest);
            assert y in s[1..];
          }
        }
      }
    }
  }
}
