/**
 * Python's `sorted()` over strings (code-point order), the stable
 * `sorted(..., key=count, reverse=True)` used by the summaries, and the
 * first-occurrence de-duplication a Python set or dict performs.
 */
module Sorting {
  import opened Common

  /** Python's `<=` on str: code points left to right, a proper prefix first. */
  predicate LexLe(a: string, b: string)
    decreases |a|
  {
    a == [] || (b != [] && (a[0] < b[0] || (a[0] == b[0] && LexLe(a[1..], b[1..]))))
  }

  lemma {:induction false} LexLeTotal(a: string, b: string)
    ensures LexLe(a, b) || LexLe(b, a)
    decreases |a|
  {
    if a != [] && b != [] && a[0] == b[0] {
      LexLeTotal(a[1..], b[1..]);
    }
  }

  lemma {:induction false} LexLeTrans(a: string, b: string, c: string)
    requires LexLe(a, b) && LexLe(b, c)
    ensures LexLe(a, c)
    decreases |a|
  {
    if a != [] && b != [] && c != [] && a[0] == b[0] && b[0] == c[0] {
      LexLeTrans(a[1..], b[1..], c[1..]);
    }
  }

  lemma {:induction false} LexLeAntisym(a: string, b: string)
    requires LexLe(a, b) && LexLe(b, a)
    ensures a == b
    decreases |a|
  {
    if a != [] {
      LexLeAntisym(a[1..], b[1..]);
      assert a == [a[0]] + a[1..] && b == [b[0]] + b[1..];
    }
  }

  predicate Sorted(s: seq<string>)
  {
    forall i, j :: 0 <= i < j < |s| ==> LexLe(s[i], s[j])
  }

  /** A list ordered by a string key. */
  predicate SortedBy<T>(s: seq<T>, key: T -> string)
  {
    forall i, j :: 0 <= i < j < |s| ==> LexLe(key(s[i]), key(s[j]))
  }

  /** Places x before the first element whose key is not below x's. */
  function InsertBy<T>(x: T, s: seq<T>, key: T -> string): seq<T>
  {
    if s == [] then [x]
    else if LexLe(key(x), key(s[0])) then [x] + s
    else [s[0]] + InsertBy(x, s[1..], key)
  }

  lemma {:induction false} InsertByElems<T>(x: T, s: seq<T>, key: T -> string)
    ensures multiset(InsertBy(x, s, key)) == multiset(s) + multiset{x}
    ensures forall y :: y in InsertBy(x, s, key) <==> y == x || y in s
  {
    if s != [] && !LexLe(key(x), key(s[0])) {
      InsertByElems(x, s[1..], key);
      assert s == [s[0]] + s[1..];
    }
  }

  /** Prepending an element whose key is no greater than any other keeps a list sorted. */
  lemma SortedByCons<T>(a: T, t: seq<T>, key: T -> string)
    requires SortedBy(t, key) && forall y :: y in t ==> LexLe(key(a), key(y))
    ensures SortedBy([a] + t, key)
  {
    var r := [a] + t;
    forall i, j | 0 <= i < j < |r| ensures LexLe(key(r[i]), key(r[j])) {
      if i == 0 {
        assert r[j] == t[j - 1];
      } else {
        assert r[i] == t[i - 1] && r[j] == t[j - 1];
      }
    }
  }

  lemma {:induction false} InsertBySorted<T>(x: T, s: seq<T>, key: T -> string)
    requires SortedBy(s, key)
    ensures SortedBy(InsertBy(x, s, key), key) && multiset(InsertBy(x, s, key)) == multiset(s) + multiset{x}
  {
    InsertByElems(x, s, key);
    if s == [] {
    } else if LexLe(key(x), key(s[0])) {
      forall y | y in s ensures LexLe(key(x), key(y)) {
        var j :| 0 <= j < |s| && s[j] == y;
        if j > 0 { LexLeTrans(key(x), key(s[0]), key(s[j])); }
      }
      SortedByCons(x, s, key);
    } else {
      LexLeTotal(key(x), key(s[0]));
      InsertBySorted(x, s[1..], key);
      InsertByElems(x, s[1..], key);
      var t := InsertBy(x, s[1..], key);
      forall y | y in t ensures LexLe(key(s[0]), key(y)) {
        if y != x {
          assert y in multiset(t);
          assert y in multiset(s[1..]);
          var k :| 0 <= k < |s[1..]| && s[1..][k] == y;
          assert s[k + 1] == y;
        }
      }
      SortedByCons(s[0], t, key);
    }
  }

  /** sorted(s, key=key) */
  function SortBy<T>(s: seq<T>, key: T -> string): seq<T>
  {
    if s == [] then [] else InsertBy(s[0], SortBy(s[1..], key), key)
  }

  lemma {:induction false} SortBySpec<T>(s: seq<T>, key: T -> string)
    ensures SortedBy(SortBy(s, key), key) && multiset(SortBy(s, key)) == multiset(s)
  {
    if s != [] {
      SortBySpec(s[1..], key);
      InsertBySorted(s[0], SortBy(s[1..], key), key);
      assert s == [s[0]] + s[1..];
    }
  }

  function Self(s: string): string { s }

  /** sorted(s) */
  function Sort(s: seq<string>): seq<string>
  {
    SortBy(s, Self)
  }

  lemma SortSpec(s: seq<string>)
    ensures Sorted(Sort(s)) && multiset(Sort(s)) == multiset(s)
  {
    SortBySpec(s, Self);
  }

  /** Elements in order of first occurrence, each once: the order a set or dict built from s keeps. */
  function Dedup<T(==,!new)>(s: seq<T>): (r: seq<T>)
    ensures forall i, j :: 0 <= i < j < |r| ==> r[i] != r[j]
    ensures forall x :: x in r <==> x in s
  {
    if s == [] then []
    else
      var d := Dedup(s[..|s| - 1]);
      assert forall x :: x in s <==> x in s[..|s| - 1] || x == s[|s| - 1];
      if s[|s| - 1] in d then d else d + [s[|s| - 1]]
  }

  lemma DedupAppend<T(!new)>(s: seq<T>, x: T)
    ensures Dedup(s + [x]) == if x in s then Dedup(s) else Dedup(s) + [x]
  {
    assert (s + [x])[..|s|] == s;
  }

  /** Pairs ordered by non-increasing count. */
  predicate CountDesc<T>(s: seq<(T, int)>)
  {
    forall i, j :: 0 <= i < j < |s| ==> s[i].1 >= s[j].1
  }

  /** Places x after every element whose count is at least x's, which keeps ties in arrival order. */
  function InsertDesc<T>(x: (T, int), s: seq<(T, int)>): seq<(T, int)>
  {
    if s == [] then [x]
    else if s[0].1 >= x.1 then [s[0]] + InsertDesc(x, s[1..])
    else [x] + s
  }

  lemma {:induction false} InsertDescElems<T>(x: (T, int), s: seq<(T, int)>)
    ensures multiset(InsertDesc(x, s)) == multiset(s) + multiset{x}
    ensures forall y :: y in InsertDesc(x, s) <==> y == x || y in s
  {
    if s != [] && s[0].1 >= x.1 {
      InsertDescElems(x, s[1..]);
      assert s == [s[0]] + s[1..];
    }
  }

  lemma CountDescCons<T>(a: (T, int), t: seq<(T, int)>)
    requires CountDesc(t) && forall y :: y in t ==> a.1 >= y.1
    ensures CountDesc([a] + t)
  {
    var r := [a] + t;
    forall i, j | 0 <= i < j < |r| ensures r[i].1 >= r[j].1 {
      if i == 0 {
        assert r[j] == t[j - 1];
      } else {
        assert r[i] == t[i - 1] && r[j] == t[j - 1];
      }
    }
  }

  lemma {:induction false} InsertDescSorted<T>(x: (T, int), s: seq<(T, int)>)
    requires CountDesc(s)
    ensures CountDesc(InsertDesc(x, s)) && multiset(InsertDesc(x, s)) == multiset(s) + multiset{x}
  {
    InsertDescElems(x, s);
    if s == [] {
    } else if s[0].1 >= x.1 {
      InsertDescSorted(x, s[1..]);
      InsertDescElems(x, s[1..]);
      var t := InsertDesc(x, s[1..]);
      forall y | y in t ensures s[0].1 >= y.1 {
        if y != x {
          assert y in multiset(t);
          assert y in multiset(s[1..]);
          var k :| 0 <= k < |s[1..]| && s[1..][k] == y;
          assert s[k + 1] == y;
        }
      }
      CountDescCons(s[0], t);
    } else {
      forall y | y in s ensures x.1 >= y.1 {
        var j :| 0 <= j < |s| && s[j] == y;
      }
      CountDescCons(x, s);
    }
  }

  /** sorted(items, key=lambda kv: kv[1], reverse=True): Python's sort is stable under reverse. */
  function SortByCountDesc<T>(s: seq<(T, int)>): seq<(T, int)>
  {
    if s == [] then [] else InsertDesc(s[|s| - 1], SortByCountDesc(s[..|s| - 1]))
  }

  lemma {:induction false} SortByCountDescSpec<T>(s: seq<(T, int)>)
    ensures CountDesc(SortByCountDesc(s)) && multiset(SortByCountDesc(s)) == multiset(s)
  {
    if s != [] {
      SortByCountDescSpec(s[..|s| - 1]);
      InsertDescSorted(s[|s| - 1], SortByCountDesc(s[..|s| - 1]));
      FrontLast(s);
    }
  }
}
