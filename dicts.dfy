/**
 * A Python dict with str keys, kept as its entries in insertion order.
 * Assigning to an existing key overwrites the value in place; a new key
 * is appended at the end.
 */
module Dicts {
  import opened Common

  type Dict<V> = seq<(string, V)>

  function Keys<V>(d: Dict<V>): (ks: seq<string>)
    ensures |ks| == |d| && forall i :: 0 <= i < |d| ==> ks[i] == d[i].0
  {
    if d == [] then [] else [d[0].0] + Keys(d[1..])
  }

  predicate DistinctKeys<V>(d: Dict<V>)
  {
    forall i, j :: 0 <= i < j < |d| ==> d[i].0 != d[j].0
  }

  /** d.get(k) */
  function Get<V>(d: Dict<V>, k: string): (r: Option<V>)
    ensures r.Some? <==> k in Keys(d)
  {
    if d == [] then None else if d[0].0 == k then Some(d[0].1) else Get(d[1..], k)
  }

  /** d[k] = v */
  function Put<V>(d: Dict<V>, k: string, v: V): (r: Dict<V>)
    ensures Keys(r) == if k in Keys(d) then Keys(d) else Keys(d) + [k]
  {
    if d == [] then [(k, v)]
    else if d[0].0 == k then [(k, v)] + d[1..]
    else [d[0]] + Put(d[1..], k, v)
  }

  lemma {:induction false} PutGet<V>(d: Dict<V>, k: string, v: V, q: string)
    ensures Get(Put(d, k, v), q) == if q == k then Some(v) else Get(d, q)
  {
    if d != [] && d[0].0 != k {
      PutGet(d[1..], k, v, q);
    }
  }

  lemma {:induction false} PutDistinct<V>(d: Dict<V>, k: string, v: V)
    requires DistinctKeys(d)
    ensures DistinctKeys(Put(d, k, v))
  {
    var r := Put(d, k, v);
    var ks := Keys(r);
    forall i, j | 0 <= i < j < |r| ensures r[i].0 != r[j].0 {
      assert ks[i] == r[i].0 && ks[j] == r[j].0;
      if k in Keys(d) {
        assert Keys(d)[i] == d[i].0 && Keys(d)[j] == d[j].0;
      } else if j < |d| {
        assert Keys(d)[i] == d[i].0 && Keys(d)[j] == d[j].0;
      } else {
        assert Keys(d)[i] == d[i].0;
      }
    }
  }

  /** dict(pairs) or a loop of d[k] = v: later pairs overwrite earlier ones. */
  function FromPairs<V>(ps: seq<(string, V)>): Dict<V>
  {
    if ps == [] then [] else Put(FromPairs(ps[..|ps| - 1]), ps[|ps| - 1].0, ps[|ps| - 1].1)
  }

  lemma {:induction false} FromPairsDistinct<V>(ps: seq<(string, V)>)
    ensures DistinctKeys(FromPairs(ps))
  {
    if ps != [] {
      FromPairsDistinct(ps[..|ps| - 1]);
      PutDistinct(FromPairs(ps[..|ps| - 1]), ps[|ps| - 1].0, ps[|ps| - 1].1);
    }
  }

  /** The keys of d, as a set. */
  function KeySet<V>(d: Dict<V>): set<string>
  {
    set i | 0 <= i < |d| :: d[i].0
  }

  lemma KeysSnoc<V>(d: Dict<V>, e: (string, V))
    ensures Keys(d + [e]) == Keys(d) + [e.0]
  {
  }

  /** An entry added at the end is found only by a key not already present. */
  lemma {:induction false} GetSnoc<V>(d: Dict<V>, e: (string, V), k: string)
    ensures Get(d + [e], k) == if k in Keys(d) then Get(d, k) else if k == e.0 then Some(e.1) else None
  {
    if d != [] {
      assert (d + [e])[1..] == d[1..] + [e];
      GetSnoc(d[1..], e, k);
    } else {
      assert Get([e], k) == if k == e.0 then Some(e.1) else Get([e][1..], k);
    }
  }

  /** With distinct keys, the last entry's key does not occur before it. */
  lemma LastKeyFresh<V>(d: Dict<V>)
    requires d != [] && DistinctKeys(d)
    ensures DistinctKeys(d[..|d| - 1]) && d[|d| - 1].0 !in Keys(d[..|d| - 1])
  {
    var p := d[..|d| - 1];
    forall j | 0 <= j < |p| ensures Keys(p)[j] != d[|d| - 1].0 {
      assert Keys(p)[j] == d[j].0;
    }
  }

  /** Assigning a new key appends the entry. */
  lemma {:induction false} PutAbsent<V>(d: Dict<V>, k: string, v: V)
    requires k !in Keys(d)
    ensures Put(d, k, v) == d + [(k, v)]
  {
    if d != [] {
      assert Keys(d) == [d[0].0] + Keys(d[1..]);
      PutAbsent(d[1..], k, v);
    }
  }

  /** The keys of two dicts laid end to end. */
  lemma KeysAppend<V>(d: Dict<V>, e: Dict<V>)
    ensures Keys(d + e) == Keys(d) + Keys(e)
  {
    assert forall i | 0 <= i < |d + e| :: Keys(d + e)[i] == (d + e)[i].0;
  }

  /** Assigning a key twice keeps only the second value. */
  lemma {:induction false} PutTwice<V>(d: Dict<V>, k: string, x: V, y: V)
    ensures Put(Put(d, k, x), k, y) == Put(d, k, y)
  {
    if d != [] && d[0].0 != k {
      PutTwice(d[1..], k, x, y);
      assert Put(d, k, x)[1..] == Put(d[1..], k, x);
    }
  }

  /** Appending an entry with a fresh key keeps the keys distinct. */
  lemma DistinctSnoc<V>(d: Dict<V>, e: (string, V))
    requires DistinctKeys(d) && e.0 !in Keys(d)
    ensures DistinctKeys(d + [e])
  {
    var w := d + [e];
    forall i, j | 0 <= i < j < |w| ensures w[i].0 != w[j].0 {
      if j == |d| {
        assert Keys(d)[i] == d[i].0;
      }
    }
  }

  /** dict(pairs) has no key the pairs do not have. */
  lemma {:induction false} FromPairsKeys<V>(ps: seq<(string, V)>)
    ensures forall k :: k in Keys(FromPairs(ps)) ==> k in Keys(ps)
  {
    if ps != [] {
      var p := ps[..|ps| - 1];
      FromPairsKeys(p);
      FrontLast(ps);
      KeysSnoc(p, ps[|ps| - 1]);
    }
  }

  /** dict(pairs) over pairs whose keys are already distinct is those pairs, in order. */
  lemma {:induction false} FromPairsOfDistinct<V>(ps: seq<(string, V)>)
    requires DistinctKeys(ps)
    ensures FromPairs(ps) == ps
  {
    if ps != [] {
      var p := ps[..|ps| - 1];
      LastKeyFresh(ps);
      FromPairsOfDistinct(p);
      PutAbsent(p, ps[|ps| - 1].0, ps[|ps| - 1].1);
      FrontLast(ps);
    }
  }

  /** With distinct keys, looking up the key of an entry gives that entry's value. */
  lemma {:induction false} GetAt<V>(d: Dict<V>, i: nat)
    requires DistinctKeys(d) && i < |d|
    ensures Get(d, d[i].0) == Some(d[i].1)
  {
    if i > 0 {
      assert d[1..][i - 1] == d[i];
      GetAt(d[1..], i - 1);
    }
  }

  /** for e in es: d[key(e)] = f(e, d.get(key(e))) */
  function PutAll<E, V>(d: Dict<V>, es: seq<E>, key: E -> string, f: (E, Option<V>) -> V): Dict<V>
  {
    if es == [] then d
    else
      var p := PutAll(d, es[..|es| - 1], key, f);
      var e := es[|es| - 1];
      Put(p, key(e), f(e, Get(p, key(e))))
  }

  /** Applying one more entry is one more Put over what the earlier entries gave. */
  lemma PutAllSnoc<E, V>(d: Dict<V>, es: seq<E>, key: E -> string, f: (E, Option<V>) -> V, k: nat)
    requires k < |es|
    ensures var p := PutAll(d, es[..k], key, f);
            PutAll(d, es[..k + 1], key, f) == Put(p, key(es[k]), f(es[k], Get(p, key(es[k]))))
  {
    PrefixOfPrefix(es, k);
  }

  /** A key none of the entries names keeps its value. */
  lemma {:induction false} PutAllOther<E, V>(d: Dict<V>, es: seq<E>, key: E -> string, f: (E, Option<V>) -> V, k: string)
    requires forall j :: 0 <= j < |es| ==> key(es[j]) != k
    ensures Get(PutAll(d, es, key, f), k) == Get(d, k)
  {
    if es != [] {
      var p := PutAll(d, es[..|es| - 1], key, f);
      var e := es[|es| - 1];
      PutAllOther(d, es[..|es| - 1], key, f, k);
      PutGet(p, key(e), f(e, Get(p, key(e))), k);
    }
  }

  /** When the entries name distinct keys, each key ends up holding f applied to its original value. */
  lemma {:induction false} PutAllAt<E, V>(d: Dict<V>, es: seq<E>, key: E -> string, f: (E, Option<V>) -> V, i: nat)
    requires i < |es|
    requires forall a, b :: 0 <= a < b < |es| ==> key(es[a]) != key(es[b])
    ensures Get(PutAll(d, es, key, f), key(es[i])) == Some(f(es[i], Get(d, key(es[i]))))
  {
    var q := es[..|es| - 1];
    var p := PutAll(d, q, key, f);
    var e := es[|es| - 1];
    PutGet(p, key(e), f(e, Get(p, key(e))), key(es[i]));
    if i == |es| - 1 {
      PutAllOther(d, q, key, f, key(e));
    } else {
      assert q[i] == es[i];
      PutAllAt(d, q, key, f, i);
    }
  }
}
