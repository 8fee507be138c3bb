/** Sorting by a text key, as `sorted` and `sort_keys` do. */
module Sorting {
  import opened Prelude

  function Insert<T>(sorted: seq<T>, x: T, key: T -> string): seq<T> {
    if sorted == [] || TextLess(key(x), key(sorted[0])) then [x] + sorted
    else [sorted[0]] + Insert(sorted[1..], x, key)
  }

  function Sort<T>(xs: seq<T>, key: T -> string): seq<T> {
    if xs == [] then [] else Insert(Sort(xs[1..], key), xs[0], key)
  }

  predicate Strict<T>(xs: seq<T>, key: T -> string) {
    forall i, j :: 0 <= i < j < |xs| ==> TextLess(key(xs[i]), key(xs[j]))
  }

  predicate Distinct<T>(xs: seq<T>, key: T -> string) {
    forall i, j :: 0 <= i < j < |xs| ==> key(xs[i]) != key(xs[j])
  }

  lemma {:induction false} InsertMember<T>(sorted: seq<T>, x: T, key: T -> string, y: T)
    ensures |Insert(sorted, x, key)| == |sorted| + 1
    ensures y in Insert(sorted, x, key) <==> y == x || y in sorted
  {
    if sorted != [] && !TextLess(key(x), key(sorted[0])) {
      InsertMember(sorted[1..], x, key, y);
      assert sorted == [sorted[0]] + sorted[1..];
    }
  }

  lemma {:induction false} InsertIsStrict<T>(sorted: seq<T>, x: T, key: T -> string)
    requires Strict(sorted, key) && forall i :: 0 <= i < |sorted| ==> key(sorted[i]) != key(x)
    ensures Strict(Insert(sorted, x, key), key)
  {
    if sorted == [] {
    } else if TextLess(key(x), key(sorted[0])) {
      forall j | 0 <= j < |sorted|
        ensures TextLess(key(x), key(sorted[j]))
      {
        if j > 0 { TextLessTransitive(key(x), key(sorted[0]), key(sorted[j])); }
      }
    } else {
      var rest := Insert(sorted[1..], x, key);
      InsertIsStrict(sorted[1..], x, key);
      TextLessTrichotomy(key(x), key(sorted[0]));
      forall j | 0 <= j < |rest|
        ensures TextLess(key(sorted[0]), key(rest[j]))
      {
        InsertMember(sorted[1..], x, key, rest[j]);
        if rest[j] != x {
          var i :| 0 <= i < |sorted[1..]| && sorted[1..][i] == rest[j];
          assert rest[j] == sorted[i + 1];
        }
      }
    }
  }

  lemma {:induction false} SortMember<T>(xs: seq<T>, key: T -> string, y: T)
    ensures |Sort(xs, key)| == |xs|
    ensures y in Sort(xs, key) <==> y in xs
  {
    if xs != [] {
      SortMember(xs[1..], key, y);
      InsertMember(Sort(xs[1..], key), xs[0], key, y);
      assert xs == [xs[0]] + xs[1..];
    }
  }

  /** Sorting orders elements strictly when their keys are distinct. */
  lemma {:induction false} SortIsStrict<T>(xs: seq<T>, key: T -> string)
    requires Distinct(xs, key)
    ensures Strict(Sort(xs, key), key)
  {
    if xs != [] {
      var rest := Sort(xs[1..], key);
      SortIsStrict(xs[1..], key);
      forall i | 0 <= i < |rest|
        ensures key(rest[i]) != key(xs[0])
      {
        SortMember(xs[1..], key, rest[i]);
        var j :| 0 <= j < |xs[1..]| && xs[1..][j] == rest[i];
        assert rest[i] == xs[j + 1];
      }
      InsertIsStrict(rest, xs[0], key);
    }
  }

  lemma SameEmptiness<T>(a: seq<T>, b: seq<T>)
    requires forall y :: y in a <==> y in b
    ensures a == [] <==> b == []
  {
    if a != [] { assert a[0] in b; }
    if b != [] { assert b[0] in a; }
  }

  /** A strictly sorted sequence is determined by its elements. */
  lemma {:induction false} StrictIsUnique<T>(a: seq<T>, b: seq<T>, key: T -> string)
    requires Strict(a, key) && Strict(b, key) && forall y :: y in a <==> y in b
    ensures a == b
    decreases |a|
  {
    SameEmptiness(a, b);
    if a != [] {
      HeadsMeet(a, b, key);
      forall y
        ensures y in a[1..] <==> y in b[1..]
      {
        TailMembers(a, key, y);
        TailMembers(b, key, y);
      }
      StrictIsUnique(a[1..], b[1..], key);
      assert a == [a[0]] + a[1..] && b == [b[0]] + b[1..];
    }
  }

  lemma HeadsMeet<T>(a: seq<T>, b: seq<T>, key: T -> string)
    requires Strict(a, key) && Strict(b, key) && a != [] && b != [] && forall y :: y in a <==> y in b
    ensures a[0] == b[0]
  {
    assert a[0] in a && b[0] in b;
    var i :| 0 <= i < |b| && b[i] == a[0];
    var j :| 0 <= j < |a| && a[j] == b[0];
    assert i > 0 ==> TextLess(key(b[0]), key(b[i]));
    assert j > 0 ==> TextLess(key(a[0]), key(a[j]));
    TextLessTrichotomy(key(a[0]), key(b[0]));
  }

  lemma TailMembers<T>(a: seq<T>, key: T -> string, y: T)
    requires Strict(a, key) && a != []
    ensures y in a[1..] <==> y in a && y != a[0]
  {
    assert a == [a[0]] + a[1..];
    if y in a[1..] {
      var i :| 0 <= i < |a[1..]| && a[1..][i] == y;
      TextLessTrichotomy(key(a[0]), key(a[i + 1]));
    }
  }
}
