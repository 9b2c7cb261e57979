/**
 * The nested generation loops the two test-data generators share: for
 * every vendor in turn, range(count) rows appended to one list, and (in
 * generator_test.py) the rows counted per vendor with
 * vendor_counts.get(vendor, 0) + 1. A row is built by a function of the
 * vendor's position, the row's number within the vendor and its position
 * in the whole list, which stands for the random draws behind it.
 */
module TestRows {
  import opened Common
  import opened Dicts
  import Tally

  /** sum(xs) */
  function Sum(xs: seq<int>): int
  {
    if xs == [] then 0 else Sum(xs[..|xs| - 1]) + xs[|xs| - 1]
  }

  /** A sum of counts is never negative, and it is 0 exactly when every count is 0. */
  lemma {:induction false} SumOfCounts(xs: seq<nat>)
    ensures Sum(xs) >= 0
    ensures Sum(xs) == 0 <==> forall i | 0 <= i < |xs| :: xs[i] == 0
  {
    if xs != [] {
      var f := xs[..|xs| - 1];
      SumOfCounts(f);
      assert forall i | 0 <= i < |f| :: f[i] == xs[i];
    }
  }

  /** The number of elements of range(c): none when c <= 0. */
  function Rows(c: int): nat
  {
    if c < 0 then 0 else c
  }

  /** A vendor's first n rows: the i-th is row(v, i, start + i), at position start + i. */
  function VendorRows(v: nat, n: nat, start: nat, row: (nat, nat, nat) -> string): (r: seq<string>)
    ensures |r| == n
  {
    if n == 0 then [] else VendorRows(v, n - 1, start, row) + [row(v, n - 1, start + n - 1)]
  }

  /**
   * The rows the nested loops append, vendor after vendor: the vendor at
   * position v contributes range(counts[v]) rows, and row(v, i, k) builds
   * its i-th row, which lands at position k.
   */
  function Generated(counts: seq<int>, row: (nat, nat, nat) -> string): seq<string>
  {
    if counts == [] then []
    else
      var front := Generated(counts[..|counts| - 1], row);
      front + VendorRows(|counts| - 1, Rows(counts[|counts| - 1]), |front|, row)
  }

  /** vendor_counts after the loops: every vendor with at least one row, with its number of rows, in order. */
  function Tallied(counts: seq<int>, names: seq<string>): Dict<int>
    requires |counts| <= |names|
  {
    if counts == [] then []
    else
      var v := |counts| - 1;
      Tallied(counts[..v], names) + if counts[v] > 0 then [(names[v], counts[v])] else []
  }

  /**
   * The nested loops of generate_mac_address_table, generate_arp_table and
   * generate_mac_list: append every vendor's rows in turn and count them
   * in vendor_counts.
   */
  method GenerateRows(counts: seq<int>, names: seq<string>, row: (nat, nat, nat) -> string)
    returns (entries: seq<string>, tally: Dict<int>)
    requires |counts| <= |names| && Tally.Distinct(names)
    ensures entries == Generated(counts, row)
    ensures tally == Tallied(counts, names)
  {
    entries, tally := [], [];
    var v := 0;
    while v < |counts|
      invariant v <= |counts|
      invariant entries == Generated(counts[..v], row)
      invariant tally == Tallied(counts[..v], names)
    {
      TalliedFresh(counts[..v], names);
      entries, tally := AppendVendorRows(entries, tally, v, counts[v], names[v], row);
      GeneratedStep(counts, v, row);
      TalliedStep(counts, names, v);
      v := v + 1;
    }
    assert counts[..v] == counts;
  }

  /**
   * The inner loop for the vendor at position v: its range(count) rows
   * appended, each counted in vendor_counts.
   */
  method AppendVendorRows(entries: seq<string>, tally: Dict<int>, v: nat, count: int, name: string,
                          row: (nat, nat, nat) -> string)
    returns (entries': seq<string>, tally': Dict<int>)
    requires name !in Keys(tally)
    ensures entries' == entries + VendorRows(v, Rows(count), |entries|, row)
    ensures tally' == tally + if count > 0 then [(name, count)] else []
  {
    entries', tally' := entries, tally;
    var i := 0;
    while i < count
      invariant 0 <= i <= Rows(count)
      invariant entries' == entries + VendorRows(v, i, |entries|, row)
      invariant tally' == CountedSoFar(tally, name, i)
    {
      var n := Get(tally', name).GetOr(0) + 1;
      AddRowStep(entries, tally, entries', tally', v, i, name, row, n);
      entries' := entries' + [row(v, i, |entries'|)];
      tally' := Put(tally', name, n);
      i := i + 1;
    }
    assert i == Rows(count);
    CountDone(tally, tally', name, i);
  }

  /** The tally after i rows of a vendor that had none: the vendor holds i once i > 0. */
  function CountedSoFar(tally: Dict<int>, name: string, i: nat): Dict<int>
  {
    if i == 0 then tally else Put(tally, name, i)
  }

  lemma {:induction false} AddRowStep(entries: seq<string>, tally: Dict<int>, e: seq<string>, t: Dict<int>, v: nat, i: nat,
                                      name: string, row: (nat, nat, nat) -> string, n: int)
    requires name !in Keys(tally)
    requires e == entries + VendorRows(v, i, |entries|, row) && t == CountedSoFar(tally, name, i)
    requires n == Get(t, name).GetOr(0) + 1
    ensures e + [row(v, i, |e|)] == entries + VendorRows(v, i + 1, |entries|, row)
    ensures Put(t, name, n) == CountedSoFar(tally, name, i + 1)
  {
    CountStep(tally, t, name, i, n);
    RowStep(entries, v, i, row);
  }

  /** After the vendor's rows, the tally holds its count as a new last entry, when it has any. */
  lemma {:induction false} CountDone(d: Dict<int>, t: Dict<int>, k: string, i: nat)
    requires k !in Keys(d) && t == CountedSoFar(d, k, i)
    ensures t == d + if i > 0 then [(k, i)] else []
  {
    if i == 0 {
      assert d + [] == d;
    } else {
      PutAbsent(d, k, i);
    }
  }

  /** Appending the vendor's next row extends its rows by one. */
  lemma RowStep(entries: seq<string>, v: nat, i: nat, row: (nat, nat, nat) -> string)
    ensures |entries + VendorRows(v, i, |entries|, row)| == |entries| + i
    ensures (entries + VendorRows(v, i, |entries|, row)) + [row(v, i, |entries| + i)]
            == entries + VendorRows(v, i + 1, |entries|, row)
  {
  }

  /** One more vendor appends its rows. */
  lemma GeneratedStep(counts: seq<int>, v: nat, row: (nat, nat, nat) -> string)
    requires v < |counts|
    ensures Generated(counts[..v + 1], row)
            == Generated(counts[..v], row) + VendorRows(v, Rows(counts[v]), |Generated(counts[..v], row)|, row)
  {
    assert counts[..v + 1][..v] == counts[..v];
  }

  /** One more vendor adds its tally entry when it has any rows. */
  lemma TalliedStep(counts: seq<int>, names: seq<string>, v: nat)
    requires v < |counts| <= |names|
    ensures Tallied(counts[..v + 1], names) == Tallied(counts[..v], names) + if counts[v] > 0 then [(names[v], counts[v])] else []
  {
    assert counts[..v + 1][..v] == counts[..v];
  }

  /** get(vendor, 0) + 1 on the tally after i rows of the vendor: the vendor now holds i + 1. */
  lemma {:induction false} CountStep(d: Dict<int>, t: Dict<int>, k: string, i: nat, n: int)
    requires k !in Keys(d) && t == CountedSoFar(d, k, i)
    requires n == Get(t, k).GetOr(0) + 1
    ensures Put(t, k, n) == Put(d, k, i + 1)
  {
    if i == 0 {
      CountFirst(d, k, n);
    } else {
      CountAgain(d, k, i, n);
    }
  }

  /** get(vendor, 0) + 1 for a vendor not counted yet gives 1. */
  lemma {:induction false} CountFirst(d: Dict<int>, k: string, n: int)
    requires k !in Keys(d) && n == Get(d, k).GetOr(0) + 1
    ensures Put(d, k, n) == Put(d, k, 1)
  {
    assert n == 1;
  }

  /** get(vendor, 0) + 1 for a vendor holding i: it now holds i + 1. */
  lemma {:induction false} CountAgain(d: Dict<int>, k: string, i: int, n: int)
    requires n == Get(Put(d, k, i), k).GetOr(0) + 1
    ensures Put(Put(d, k, i), k, n) == Put(d, k, i + 1)
  {
    GetAfterPut(d, k, i, n);
    OverwriteCount(d, k, i, n);
  }

  lemma {:induction false} GetAfterPut(d: Dict<int>, k: string, i: int, n: int)
    requires n == Get(Put(d, k, i), k).GetOr(0) + 1
    ensures n == i + 1
  {
    PutGet(d, k, i, k);
  }

  lemma {:induction false} OverwriteCount(d: Dict<int>, k: string, i: int, n: int)
    requires n == i + 1
    ensures Put(Put(d, k, i), k, n) == Put(d, k, i + 1)
  {
    PutTwice(d, k, i, i + 1);
  }

  /** The tally only holds vendors already passed, so no later vendor is in it. */
  lemma {:induction false} TalliedFresh(counts: seq<int>, names: seq<string>)
    requires |counts| <= |names| && Tally.Distinct(names)
    ensures forall w | |counts| <= w < |names| :: names[w] !in Keys(Tallied(counts, names))
  {
    if counts != [] {
      var v := |counts| - 1;
      TalliedFresh(counts[..v], names);
      var tail: Dict<int> := if counts[v] > 0 then [(names[v], counts[v])] else [];
      KeysAppend(Tallied(counts[..v], names), tail);
    }
  }

  // ---------------------------------------------------------------------
  // What the loops produce
  // ---------------------------------------------------------------------

  /** A vendor's i-th row is row(v, i, start + i). */
  lemma {:induction false} VendorRowsAt(v: nat, n: nat, start: nat, row: (nat, nat, nat) -> string, i: nat)
    requires i < n
    ensures VendorRows(v, n, start, row)[i] == row(v, i, start + i)
  {
    if i < n - 1 {
      VendorRowsAt(v, n - 1, start, row, i);
    }
  }

  /** With no negative count, there are as many rows as the counts add up to. */
  lemma {:induction false} GeneratedLength(counts: seq<int>, row: (nat, nat, nat) -> string)
    requires forall v | 0 <= v < |counts| :: counts[v] >= 0
    ensures |Generated(counts, row)| == Sum(counts)
  {
    if counts != [] {
      GeneratedLength(counts[..|counts| - 1], row);
    }
  }

  /**
   * The i-th row of the vendor at position v sits right after the rows of
   * the vendors before it, and is built from (v, i) and that position.
   */
  lemma {:induction false} GeneratedIndex(counts: seq<int>, row: (nat, nat, nat) -> string, v: nat, i: nat)
    requires v < |counts| && i < counts[v]
    ensures var k := |Generated(counts[..v], row)| + i;
      k < |Generated(counts, row)| && Generated(counts, row)[k] == row(v, i, k)
  {
    var n := |counts| - 1;
    var front := Generated(counts[..n], row);
    if v == n {
      VendorRowsAt(v, Rows(counts[v]), |front|, row, i);
    } else {
      assert counts[..n][..v] == counts[..v];
      GeneratedIndex(counts[..n], row, v, i);
    }
  }

  /** Conversely, every row is the i-th row of some vendor v, built from (v, i) and its own position. */
  lemma {:induction false} GeneratedAt(counts: seq<int>, row: (nat, nat, nat) -> string, k: nat)
    returns (v: nat, i: nat)
    requires k < |Generated(counts, row)|
    ensures v < |counts| && i < counts[v] && k == |Generated(counts[..v], row)| + i
    ensures Generated(counts, row)[k] == row(v, i, k)
  {
    var n := |counts| - 1;
    var front := Generated(counts[..n], row);
    if k < |front| {
      v, i := GeneratedAt(counts[..n], row, k);
      assert counts[..n][..v] == counts[..v];
    } else {
      v, i := n, k - |front|;
      assert counts[..v] == counts[..n];
      VendorRowsAt(v, Rows(counts[v]), |front|, row, i);
    }
  }

  /** vendor_counts[vendor] is the vendor's count when it has rows; otherwise the vendor is missing. */
  lemma {:induction false} TalliedGet(counts: seq<int>, names: seq<string>, v: nat)
    requires |counts| <= |names| && Tally.Distinct(names) && v < |counts|
    ensures Get(Tallied(counts, names), names[v]) == if counts[v] > 0 then Some(counts[v]) else None
  {
    var n := |counts| - 1;
    var front := Tallied(counts[..n], names);
    TalliedFresh(counts[..n], names);
    assert names[n] !in Keys(front);
    if v < n {
      assert counts[..n][v] == counts[v];
      TalliedGet(counts[..n], names, v);
      assert names[v] != names[n];
    }
    if counts[n] > 0 {
      GetSnoc(front, (names[n], counts[n]), names[v]);
    } else {
      assert Tallied(counts, names) == front;
    }
  }

  /** The sum of a tally's values. */
  function TallySum(d: Dict<int>): int
  {
    if d == [] then 0 else TallySum(d[..|d| - 1]) + d[|d| - 1].1
  }

  /** vendor_counts adds up to the number of rows: every row is counted once. */
  lemma {:induction false} TalliedSum(counts: seq<int>, names: seq<string>, row: (nat, nat, nat) -> string)
    requires |counts| <= |names|
    ensures TallySum(Tallied(counts, names)) == |Generated(counts, row)|
  {
    if counts != [] {
      var n := |counts| - 1;
      var front := Tallied(counts[..n], names);
      TalliedSum(counts[..n], names, row);
      if counts[n] > 0 {
        var e := (names[n], counts[n]);
        assert (front + [e])[..|front|] == front;
      } else {
        assert front + [] == front;
      }
    }
  }
}
