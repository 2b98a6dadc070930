/**
 * Sorting with a numeric key, keeping the order of equal elements: what Array.prototype.sort does
 * with a comparator `(a, b) => key(a) - key(b)`.
 */
module StableSort {

  function Insert<T>(x: T, s: seq<T>, key: T -> real): (r: seq<T>)
    ensures |r| == |s| + 1
  {
    if |s| == 0 || key(x) <= key(s[0]) then [x] + s else [s[0]] + Insert(x, s[1..], key)
  }

  function SortBy<T>(s: seq<T>, key: T -> real): (r: seq<T>)
    ensures |r| == |s|
  {
    if |s| == 0 then [] else Insert(s[0], SortBy(s[1..], key), key)
  }

  predicate Ascending<T>(s: seq<T>, key: T -> real) {
    forall i, j :: 0 <= i < j < |s| ==> key(s[i]) <= key(s[j])
  }

  lemma {:induction false} InsertMembers<T>(x: T, s: seq<T>, key: T -> real, y: T)
    ensures y in Insert(x, s, key) <==> y == x || y in s
    decreases |s|
  {
    if |s| > 0 {
      assert s == [s[0]] + s[1..];
      if key(x) > key(s[0]) {
        InsertMembers(x, s[1..], key, y);
      }
    }
  }

  lemma {:induction false} InsertAscending<T>(x: T, s: seq<T>, key: T -> real)
    requires Ascending(s, key)
    ensures Ascending(Insert(x, s, key), key)
  {
    if |s| > 0 && key(x) > key(s[0]) {
      var rest := Insert(x, s[1..], key);
      InsertAscending(x, s[1..], key);
      forall i | 0 <= i < |rest| ensures key(s[0]) <= key(rest[i]) {
        InsertMembers(x, s[1..], key, rest[i]);
        if rest[i] != x {
          var j :| 0 <= j < |s[1..]| && s[1..][j] == rest[i];
          assert rest[i] == s[j + 1];
        }
      }
    }
  }

  lemma {:induction false} SortAscending<T>(s: seq<T>, key: T -> real)
    ensures Ascending(SortBy(s, key), key)
  {
    if |s| > 0 {
      SortAscending(s[1..], key);
      InsertAscending(s[0], SortBy(s[1..], key), key);
    }
  }

  lemma {:induction false} InsertKeeps<T>(x: T, s: seq<T>, key: T -> real)
    ensures multiset(Insert(x, s, key)) == multiset{x} + multiset(s)
  {
    if |s| > 0 {
      assert s == [s[0]] + s[1..];
      if key(x) > key(s[0]) {
        InsertKeeps(x, s[1..], key);
      }
    }
  }

  lemma {:induction false} SortKeeps<T>(s: seq<T>, key: T -> real)
    ensures multiset(SortBy(s, key)) == multiset(s)
  {
    if |s| > 0 {
      assert s == [s[0]] + s[1..];
      SortKeeps(s[1..], key);
      InsertKeeps(s[0], SortBy(s[1..], key), key);
    }
  }

  /** The elements with a given key, in order. */
  function WithKey<T>(s: seq<T>, key: T -> real, v: real): seq<T> {
    if |s| == 0 then [] else (if key(s[0]) == v then [s[0]] else []) + WithKey(s[1..], key, v)
  }

  lemma {:induction false} InsertStable<T>(x: T, s: seq<T>, key: T -> real, v: real)
    ensures WithKey(Insert(x, s, key), key, v) == (if key(x) == v then [x] else []) + WithKey(s, key, v)
    decreases |s|
  {
    if |s| == 0 || key(x) <= key(s[0]) {
      assert ([x] + s)[1..] == s;
    } else {
      var rest := Insert(x, s[1..], key);
      InsertStable(x, s[1..], key, v);
      assert ([s[0]] + rest)[1..] == rest;
      BeforeLarger(x, s, key, v);
    }
  }

  lemma BeforeLarger<T>(x: T, s: seq<T>, key: T -> real, v: real)
    requires |s| > 0 && key(x) > key(s[0])
    ensures (if key(s[0]) == v then [s[0]] else []) + ((if key(x) == v then [x] else []) + WithKey(s[1..], key, v))
            == (if key(x) == v then [x] else []) + WithKey(s, key, v)
  {
  }

  /** Equal elements keep their order; with SortAscending this settles the result. */
  lemma {:induction false} SortStable<T>(s: seq<T>, key: T -> real, v: real)
    ensures WithKey(SortBy(s, key), key, v) == WithKey(s, key, v)
  {
    if |s| > 0 {
      SortStable(s[1..], key, v);
      InsertStable(s[0], SortBy(s[1..], key), key, v);
    }
  }

  lemma {:induction false} InsertCongruent<T>(x: T, s: seq<T>, f: T -> real, g: T -> real)
    requires f(x) == g(x) && forall i :: 0 <= i < |s| ==> f(s[i]) == g(s[i])
    ensures Insert(x, s, f) == Insert(x, s, g)
  {
    if |s| > 0 {
      InsertCongruent(x, s[1..], f, g);
    }
  }

  lemma {:induction false} SortCongruent<T>(s: seq<T>, f: T -> real, g: T -> real)
    requires forall x :: x in s ==> f(x) == g(x)
    ensures SortBy(s, f) == SortBy(s, g)
  {
    if |s| > 0 {
      assert s == [s[0]] + s[1..];
      SortCongruent(s[1..], f, g);
      SortKeeps(s[1..], f);
      var rest := SortBy(s[1..], f);
      forall i | 0 <= i < |rest| ensures f(rest[i]) == g(rest[i]) {
        assert rest[i] in multiset(rest);
        assert rest[i] in s[1..];
      }
      InsertCongruent(s[0], rest, f, g);
    }
  }

  // ---------- Sequences without repetition ----------

  ghost predicate NoRepeat<T>(s: seq<T>) {
    forall i, j :: 0 <= i < j < |s| ==> s[i] != s[j]
  }

  lemma {:induction false} NoRepeatCounts<T>(s: seq<T>)
    ensures NoRepeat(s) <==> forall x :: x in s ==> multiset(s)[x] == 1
  {
    if |s| > 0 {
      var first, rest := s[0], s[1..];
      assert s == [first] + rest;
      NoRepeatCounts(rest);
      assert multiset(s)[first] == 1 + multiset(rest)[first];
      if NoRepeat(s) {
        assert first !in rest;
        forall x | x in s ensures multiset(s)[x] == 1 {
          assert x != first ==> x in rest && multiset(s)[x] == multiset(rest)[x];
        }
      } else if forall x :: x in s ==> multiset(s)[x] == 1 {
        assert first in s && first !in rest;
        forall x | x in rest ensures multiset(rest)[x] == 1 {
          assert x in s && multiset(s)[x] == 1;
        }
        assert NoRepeat(rest);
        forall i, j | 0 <= i < j < |s| ensures s[i] != s[j] {
          assert s[j] == rest[j - 1];
          assert i > 0 ==> s[i] == rest[i - 1];
        }
      }
    }
  }

  /** Sorting neither adds nor loses nor repeats elements. */
  lemma SortNoRepeat<T>(s: seq<T>, key: T -> real)
    ensures NoRepeat(SortBy(s, key)) <==> NoRepeat(s)
    ensures forall x :: x in SortBy(s, key) <==> x in s
  {
    SortKeeps(s, key);
    NoRepeatCounts(s);
    NoRepeatCounts(SortBy(s, key));
    forall x ensures x in SortBy(s, key) <==> x in s {
      assert x in SortBy(s, key) <==> x in multiset(SortBy(s, key));
    }
  }
}
