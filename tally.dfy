/**
 * Counting: what a Python Counter or defaultdict(int) built by one pass over
 * a list holds, and the conservation law that its counts add up to the
 * length of the list.
 */
module Tally {
  import opened Common
  import opened Sorting

  predicate Distinct<T(==)>(s: seq<T>)
  {
    forall i, j :: 0 <= i < j < |s| ==> s[i] != s[j]
  }

  /** c[x] += 1 on a Counter. */
  function Tick<T(==)>(m: map<T, nat>, x: T): map<T, nat>
  {
    m[x := (if x in m then m[x] else 0) + 1]
  }

  /** Counter(vs), built by `c[v] += 1` for each v in turn. */
  function Count<T(==)>(vs: seq<T>): (m: map<T, nat>)
  {
    if vs == [] then map[] else Tick(Count(vs[..|vs| - 1]), vs[|vs| - 1])
  }

  lemma CountSnoc<T>(s: seq<T>, x: T)
    ensures Count(s + [x]) == Tick(Count(s), x)
  {
    assert (s + [x])[..|s|] == s;
  }

  /** The counter holds exactly the values of vs, each with its number of occurrences. */
  lemma {:induction false} CountSpec<T>(vs: seq<T>, k: T)
    ensures k in Count(vs) <==> k in vs
    ensures k in Count(vs) ==> Count(vs)[k] == multiset(vs)[k]
  {
    if vs != [] {
      var p := vs[..|vs| - 1];
      CountSpec(p, k);
      FrontLast(vs);
    }
  }

  /** Counter([x]) == {x: 1} */
  lemma CountOne<T>(x: T)
    ensures Count([x]) == map[x := 1]
  {
    assert [x][..0] == [];
  }

  /** The sum, over the given keys, of how often each occurs in vs. */
  function SumOcc<T(==)>(keys: seq<T>, vs: seq<T>): nat
  {
    if keys == [] then 0 else multiset(vs)[keys[0]] + SumOcc(keys[1..], vs)
  }

  /** The sum of m[k] over the keys, counting a key missing from m as 0. */
  function SumAt<T(==)>(keys: seq<T>, m: map<T, nat>): nat
  {
    if keys == [] then 0 else (if keys[0] in m then m[keys[0]] else 0) + SumAt(keys[1..], m)
  }

  lemma {:induction false} SumOccSnoc<T>(keys: seq<T>, vs: seq<T>, x: T)
    requires Distinct(keys)
    ensures SumOcc(keys, vs + [x]) == SumOcc(keys, vs) + (if x in keys then 1 else 0)
  {
    if keys != [] {
      SumOccSnoc(keys[1..], vs, x);
      assert x in keys <==> x == keys[0] || x in keys[1..];
      assert keys[0] !in keys[1..];
    }
  }

  /** Counting every element against a list of distinct keys that covers them gives the length. */
  lemma {:induction false} SumOccCovers<T>(keys: seq<T>, vs: seq<T>)
    requires Distinct(keys)
    requires forall i :: 0 <= i < |vs| ==> vs[i] in keys
    ensures SumOcc(keys, vs) == |vs|
  {
    if vs == [] {
      SumOccEmpty(keys, vs);
    } else {
      var p := vs[..|vs| - 1];
      FrontLast(vs);
      SumOccCovers(keys, p);
      SumOccSnoc(keys, p, vs[|vs| - 1]);
    }
  }

  lemma {:induction false} SumOccEmpty<T>(keys: seq<T>, vs: seq<T>)
    requires vs == []
    ensures SumOcc(keys, vs) == 0
  {
    if keys != [] {
      SumOccEmpty(keys[1..], vs);
    }
  }

  /** A counter whose entries agree with the occurrence counts sums like them. */
  lemma {:induction false} SumAtOcc<T>(keys: seq<T>, m: map<T, nat>, vs: seq<T>)
    requires forall k :: k in keys ==> k in m && m[k] == multiset(vs)[k]
    ensures SumAt(keys, m) == SumOcc(keys, vs)
  {
    if keys != [] {
      SumAtOcc(keys[1..], m, vs);
    }
  }

  /** The counts of Counter(vs), summed over its keys in insertion order, add up to |vs|. */
  lemma CounterTotal<T(!new)>(vs: seq<T>)
    ensures SumAt(Dedup(vs), Count(vs)) == |vs|
  {
    forall k | k in Dedup(vs) ensures k in Count(vs) && Count(vs)[k] == multiset(vs)[k] {
      CountSpec(vs, k);
    }
    SumAtOcc(Dedup(vs), Count(vs), vs);
    SumOccCovers(Dedup(vs), vs);
  }

  /** A rearrangement of a list without repeats has none. */
  lemma PermutedDistinct<T>(a: seq<T>, b: seq<T>)
    requires Distinct(a) && multiset(a) == multiset(b)
    ensures Distinct(b)
  {
    forall i, j | 0 <= i < j < |b| ensures b[i] != b[j] {
      if b[i] == b[j] {
        MultiplicityTwo(b, i, j);
        OnceInDistinct(a, b[i]);
        assert false;
      }
    }
  }

  lemma MultiplicityTwo<T>(b: seq<T>, i: nat, j: nat)
    requires i < j < |b| && b[i] == b[j]
    ensures multiset(b)[b[i]] >= 2
  {
    assert b == b[..i] + [b[i]] + b[i + 1..j] + [b[j]] + b[j + 1..];
  }

  lemma {:induction false} OnceInDistinct<T>(a: seq<T>, x: T)
    requires Distinct(a)
    ensures multiset(a)[x] <= 1
  {
    if a != [] {
      assert a == [a[0]] + a[1..];
      OnceInDistinct(a[1..], x);
      if a[0] == x {
        assert x !in a[1..];
      }
    }
  }
}
