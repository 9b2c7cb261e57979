/**
 * The counters create_vendor_distribution fills in one pass over the
 * devices (the same in all three output-handler copies), and the vendor
 * counts and their descending order behind save_vendor_summary. The
 * vendor type is a parameter: a string where the copy replaces a missing
 * vendor by "Unknown", an optional string where it keeps the raw lookup.
 */
module VendorCounts {
  import opened Common
  import opened Sorting
  import opened Tally

  /** A device as the distribution sees it: its VLAN and its vendor. */
  datatype Seen<V> = Seen(vlan: string, vendor: V)

  function VlansOf<V>(ss: seq<Seen<V>>): (r: seq<string>)
    ensures |r| == |ss| && forall i :: 0 <= i < |ss| ==> r[i] == ss[i].vlan
  {
    seq(|ss|, i requires 0 <= i < |ss| => ss[i].vlan)
  }

  function VendorsOf<V>(ss: seq<Seen<V>>): (r: seq<V>)
    ensures |r| == |ss| && forall i :: 0 <= i < |ss| ==> r[i] == ss[i].vendor
  {
    seq(|ss|, i requires 0 <= i < |ss| => ss[i].vendor)
  }

  /** The vendors of the devices in VLAN v, in order. */
  function VendorsIn<V>(ss: seq<Seen<V>>, v: string): seq<V>
  {
    if ss == [] then []
    else VendorsIn(ss[..|ss| - 1], v) + (if ss[|ss| - 1].vlan == v then [ss[|ss| - 1].vendor] else [])
  }

  /** The VLANs of the devices with vendor x, in order. */
  function VlansWith<V(==)>(ss: seq<Seen<V>>, x: V): seq<string>
  {
    if ss == [] then []
    else VlansWith(ss[..|ss| - 1], x) + (if ss[|ss| - 1].vendor == x then [ss[|ss| - 1].vlan] else [])
  }

  /** vendor_counts, vlan_vendor_data, vendor_vlan_data, vlan_total_devices and vlan_unique_vendors. */
  datatype Distribution<V> = Distribution(
    vendorCounts: map<V, nat>,
    vlanVendors: map<string, map<V, nat>>,
    vendorVlans: map<V, map<string, nat>>,
    vlanTotals: map<string, nat>,
    vlanUnique: map<string, nat>)

  /** The loop body for one device. */
  function Record<V(==)>(d: Distribution<V>, s: Seen<V>): Distribution<V>
  {
    var inVlan := Tick(if s.vlan in d.vlanVendors then d.vlanVendors[s.vlan] else map[], s.vendor);
    var ofVendor := Tick(if s.vendor in d.vendorVlans then d.vendorVlans[s.vendor] else map[], s.vlan);
    Distribution(
      Tick(d.vendorCounts, s.vendor),
      d.vlanVendors[s.vlan := inVlan],
      d.vendorVlans[s.vendor := ofVendor],
      Tick(d.vlanTotals, s.vlan),
      d.vlanUnique[s.vlan := |inVlan.Keys|])
  }

  /** The counters after the loop. */
  function Distribute<V(==)>(ss: seq<Seen<V>>): Distribution<V>
  {
    if ss == [] then Distribution(map[], map[], map[], map[], map[])
    else Record(Distribute(ss[..|ss| - 1]), ss[|ss| - 1])
  }

  /** A counter has as many keys as its list has distinct values. */
  lemma {:induction false} CountKeys<T(!new)>(s: seq<T>)
    ensures |Count(s).Keys| == |Dedup(s)|
  {
    if s != [] {
      var p := s[..|s| - 1];
      var x := s[|s| - 1];
      FrontLast(s);
      CountKeys(p);
      CountSnoc(p, x);
      DedupAppend(p, x);
      CountSpec(p, x);
      if x !in p {
        assert Count(s).Keys == Count(p).Keys + {x};
      } else {
        assert Count(s).Keys == Count(p).Keys;
      }
    }
  }

  /** vendor_counts is Counter of the vendors and vlan_total_devices Counter of the VLANs. */
  lemma {:induction false} DistributeTotals<V>(ss: seq<Seen<V>>)
    ensures Distribute(ss).vendorCounts == Count(VendorsOf(ss)) && Distribute(ss).vlanTotals == Count(VlansOf(ss))
  {
    if ss != [] {
      var p := ss[..|ss| - 1];
      var s := ss[|ss| - 1];
      DistributeTotals(p);
      assert VendorsOf(ss) == VendorsOf(p) + [s.vendor];
      assert VlansOf(ss) == VlansOf(p) + [s.vlan];
      CountSnoc(VendorsOf(p), s.vendor);
      CountSnoc(VlansOf(p), s.vlan);
    }
  }

  /** vlan_vendor_data[v] is Counter of the vendors in VLAN v, and vlan_unique_vendors[v] the number of distinct ones. */
  lemma {:induction false} DistributeVlans<V(!new)>(ss: seq<Seen<V>>, v: string)
    ensures var d := Distribute(ss);
            (v in d.vlanVendors <==> v in VlansOf(ss)) && (v in d.vlanUnique <==> v in VlansOf(ss))
            && (v in d.vlanVendors ==> d.vlanVendors[v] == Count(VendorsIn(ss, v)))
            && (v in d.vlanUnique ==> d.vlanUnique[v] == |Dedup(VendorsIn(ss, v))|)
  {
    if ss != [] {
      var p := ss[..|ss| - 1];
      var s := ss[|ss| - 1];
      DistributeVlans(p, v);
      assert VlansOf(ss) == VlansOf(p) + [s.vlan];
      if s.vlan == v {
        assert VendorsIn(ss, v) == VendorsIn(p, v) + [s.vendor];
        if v !in VlansOf(p) {
          VendorsInEmpty(p, v);
          CountOne(s.vendor);
        }
        CountSnoc(VendorsIn(p, v), s.vendor);
        CountKeys(VendorsIn(ss, v));
      } else {
        assert VendorsIn(ss, v) == VendorsIn(p, v);
      }
    }
  }

  /** vendor_vlan_data[x] is Counter of the VLANs of the devices with vendor x. */
  lemma {:induction false} DistributeVendors<V(!new)>(ss: seq<Seen<V>>, x: V)
    ensures var d := Distribute(ss);
            (x in d.vendorVlans <==> x in VendorsOf(ss))
            && (x in d.vendorVlans ==> d.vendorVlans[x] == Count(VlansWith(ss, x)))
  {
    if ss != [] {
      var p := ss[..|ss| - 1];
      var s := ss[|ss| - 1];
      DistributeVendors(p, x);
      assert VendorsOf(ss) == VendorsOf(p) + [s.vendor];
      if s.vendor == x {
        assert VlansWith(ss, x) == VlansWith(p, x) + [s.vlan];
        if x !in VendorsOf(p) {
          VlansWithEmpty(p, x);
          CountOne(s.vlan);
        }
        CountSnoc(VlansWith(p, x), s.vlan);
      } else {
        assert VlansWith(ss, x) == VlansWith(p, x);
      }
    }
  }

  /** Each counter is the count of its own list: vendors overall, devices per VLAN, vendors per VLAN, VLANs per vendor; and a VLAN's unique-vendor figure is the number of distinct vendors in it. */
  lemma DistributeSpec<V(!new)>(ss: seq<Seen<V>>, v: string, x: V)
    ensures var d := Distribute(ss);
            d.vendorCounts == Count(VendorsOf(ss)) && d.vlanTotals == Count(VlansOf(ss))
            && (v in d.vlanVendors <==> v in VlansOf(ss)) && (v in d.vlanUnique <==> v in VlansOf(ss))
            && (v in d.vlanVendors ==> d.vlanVendors[v] == Count(VendorsIn(ss, v)))
            && (v in d.vlanUnique ==> d.vlanUnique[v] == |Dedup(VendorsIn(ss, v))|)
            && (x in d.vendorVlans <==> x in VendorsOf(ss))
            && (x in d.vendorVlans ==> d.vendorVlans[x] == Count(VlansWith(ss, x)))
  {
    DistributeTotals(ss);
    DistributeVlans(ss, v);
    DistributeVendors(ss, x);
  }

  /** A VLAN no device has collects no vendors. */
  lemma {:induction false} VendorsInEmpty<V>(ss: seq<Seen<V>>, v: string)
    requires v !in VlansOf(ss)
    ensures VendorsIn(ss, v) == []
  {
    if ss != [] {
      var p := ss[..|ss| - 1];
      assert VlansOf(p) == VlansOf(ss)[..|ss| - 1];
      VendorsInEmpty(p, v);
      assert VlansOf(ss)[|ss| - 1] == ss[|ss| - 1].vlan;
    }
  }

  lemma {:induction false} VlansWithEmpty<V>(ss: seq<Seen<V>>, x: V)
    requires x !in VendorsOf(ss)
    ensures VlansWith(ss, x) == []
  {
    if ss != [] {
      var p := ss[..|ss| - 1];
      assert VendorsOf(p) == VendorsOf(ss)[..|ss| - 1];
      VlansWithEmpty(p, x);
      assert VendorsOf(ss)[|ss| - 1] == ss[|ss| - 1].vendor;
    }
  }

  /** vendor_counts and vlan_total_devices each add up to the number of devices. */
  lemma DistributionConserved<V(!new)>(ss: seq<Seen<V>>)
    ensures var d := Distribute(ss);
            SumAt(Dedup(VendorsOf(ss)), d.vendorCounts) == |ss| && SumAt(Dedup(VlansOf(ss)), d.vlanTotals) == |ss|
  {
    var some: V;
    if ss != [] {
      some := ss[0].vendor;
      DistributeSpec(ss, "", some);
      CounterTotal(VendorsOf(ss));
      CounterTotal(VlansOf(ss));
    }
  }

  /** The counting loop of create_vendor_distribution. */
  method DistributeDevices<V(==)>(ss: seq<Seen<V>>) returns (d: Distribution<V>)
    ensures d == Distribute(ss)
  {
    d := Distribution(map[], map[], map[], map[], map[]);
    var i := 0;
    while i < |ss|
      invariant i <= |ss| && d == Distribute(ss[..i])
    {
      assert ss[..i + 1][..i] == ss[..i];
      var s := ss[i];
      var inVlan := Tick(if s.vlan in d.vlanVendors then d.vlanVendors[s.vlan] else map[], s.vendor);
      var ofVendor := Tick(if s.vendor in d.vendorVlans then d.vendorVlans[s.vendor] else map[], s.vlan);
      d := Distribution(Tick(d.vendorCounts, s.vendor), d.vlanVendors[s.vlan := inVlan],
                        d.vendorVlans[s.vendor := ofVendor], Tick(d.vlanTotals, s.vlan),
                        d.vlanUnique[s.vlan := |inVlan.Keys|]);
      i := i + 1;
    }
    assert ss[..i] == ss;
  }

  // ---------------------------------------------------------------------
  // The summary table
  // ---------------------------------------------------------------------

  /** Counter(vendors).items() in insertion order. */
  function Items<V(==,!new)>(vendors: seq<V>): (r: seq<(V, int)>)
    ensures |r| == |Dedup(vendors)|
  {
    var keys := Dedup(vendors);
    seq(|keys|, i requires 0 <= i < |keys| => (keys[i], multiset(vendors)[keys[i]]))
  }

  /** The summary rows: the items sorted by count, largest first, ties in first-seen order. */
  function SummaryRows<V(==,!new)>(vendors: seq<V>): seq<(V, int)>
  {
    SortByCountDesc(Items(vendors))
  }

  /** Each vendor seen appears in exactly one row, with its number of devices; rows go by non-increasing count; the counts add up to the number of devices. */
  lemma SummaryRowsSpec<V(!new)>(vendors: seq<V>)
    ensures var rows := SummaryRows(vendors);
            CountDesc(rows) && multiset(rows) == multiset(Items(vendors))
            && (forall i :: 0 <= i < |rows| ==> rows[i].0 in vendors && rows[i].1 == multiset(vendors)[rows[i].0])
            && (forall x :: x in vendors ==> exists i :: 0 <= i < |rows| && rows[i].0 == x)
            && (forall i, j :: 0 <= i < j < |rows| ==> rows[i].0 != rows[j].0)
            && RowTotal(rows) == |vendors|
  {
    SortByCountDescSpec(Items(vendors));
    SummaryRowsEntries(vendors);
    SummaryRowsCover(vendors);
    SummaryRowsDistinct(vendors);
    SummaryRowsTotal(vendors);
  }

  lemma SummaryRowsEntries<V(!new)>(vendors: seq<V>)
    ensures var rows := SummaryRows(vendors);
            forall i :: 0 <= i < |rows| ==> rows[i].0 in vendors && rows[i].1 == multiset(vendors)[rows[i].0]
  {
    var items := Items(vendors);
    var rows := SummaryRows(vendors);
    SortByCountDescSpec(items);
    forall i | 0 <= i < |rows| ensures rows[i] in items {
      assert rows[i] in multiset(rows);
    }
  }

  lemma SummaryRowsCover<V(!new)>(vendors: seq<V>)
    ensures var rows := SummaryRows(vendors);
            forall x :: x in vendors ==> exists i :: 0 <= i < |rows| && rows[i].0 == x
  {
    var items := Items(vendors);
    var keys := Dedup(vendors);
    var rows := SummaryRows(vendors);
    SortByCountDescSpec(items);
    forall x | x in vendors ensures exists i :: 0 <= i < |rows| && rows[i].0 == x {
      var k :| 0 <= k < |keys| && keys[k] == x;
      assert items[k] in multiset(items);
      var i :| 0 <= i < |rows| && rows[i] == items[k];
    }
  }

  lemma SummaryRowsDistinct<V(!new)>(vendors: seq<V>)
    ensures var rows := SummaryRows(vendors);
            forall i, j :: 0 <= i < j < |rows| ==> rows[i].0 != rows[j].0
  {
    var items := Items(vendors);
    var rows := SummaryRows(vendors);
    SortByCountDescSpec(items);
    forall i, j | 0 <= i < j < |rows| ensures rows[i].0 != rows[j].0 {
      RowKeysDistinct(items, rows, i, j);
    }
  }

  lemma SummaryRowsTotal<V(!new)>(vendors: seq<V>)
    ensures RowTotal(SummaryRows(vendors)) == |vendors|
  {
    var items := Items(vendors);
    SortByCountDescSpec(items);
    RowTotalPerm(SummaryRows(vendors), items);
    ItemsTotal(vendors);
  }

  /** Distinct keys stay distinct under a permutation. */
  lemma RowKeysDistinct<V(!new)>(items: seq<(V, int)>, rows: seq<(V, int)>, i: nat, j: nat)
    requires forall a, b :: 0 <= a < b < |items| ==> items[a].0 != items[b].0
    requires multiset(rows) == multiset(items) && i < j < |rows|
    ensures rows[i].0 != rows[j].0
  {
    if rows[i].0 == rows[j].0 {
      assert rows[i] in multiset(items) && rows[j] in multiset(items);
      var a :| 0 <= a < |items| && items[a] == rows[i];
      var b :| 0 <= b < |items| && items[b] == rows[j];
      if a == b {
        TwiceCounted(rows, i, j);
        DistinctOnce(items, a);
      }
    }
  }

  lemma TwiceCounted<V>(rows: seq<(V, int)>, i: nat, j: nat)
    requires i < j < |rows| && rows[i] == rows[j]
    ensures multiset(rows)[rows[i]] >= 2
  {
    assert rows == rows[..i] + [rows[i]] + rows[i + 1..j] + [rows[j]] + rows[j + 1..];
  }

  lemma DistinctOnce<V(!new)>(items: seq<(V, int)>, a: nat)
    requires forall x, y :: 0 <= x < y < |items| ==> items[x].0 != items[y].0
    requires a < |items|
    ensures multiset(items)[items[a]] == 1
  {
    assert items == items[..a] + [items[a]] + items[a + 1..];
    assert items[a] !in items[..a] by {
      forall k | 0 <= k < a ensures items[k] != items[a] {
      }
    }
    assert items[a] !in items[a + 1..] by {
      forall k | a < k < |items| ensures items[k] != items[a] {
      }
    }
  }

  /** The sum of the counts of a list of rows. */
  function RowTotal<V>(rows: seq<(V, int)>): int
  {
    if rows == [] then 0 else rows[|rows| - 1].1 + RowTotal(rows[..|rows| - 1])
  }

  /** A rearrangement of the rows keeps their total. */
  lemma {:induction false} RowTotalPerm<V>(a: seq<(V, int)>, b: seq<(V, int)>)
    requires multiset(a) == multiset(b)
    ensures RowTotal(a) == RowTotal(b)
    decreases |a|
  {
    if a != [] {
      var x := a[|a| - 1];
      var a' := a[..|a| - 1];
      assert a == a' + [x];
      assert x in multiset(b);
      var k :| 0 <= k < |b| && b[k] == x;
      var b' := b[..k] + b[k + 1..];
      assert b == b[..k] + [x] + b[k + 1..];
      assert multiset(b) == multiset(b[..k]) + multiset{x} + multiset(b[k + 1..]);
      assert multiset(b') == multiset(b[..k]) + multiset(b[k + 1..]);
      assert multiset(a) == multiset(a') + multiset{x};
      assert multiset(a') == multiset(a) - multiset{x};
      assert multiset(b') == multiset(b) - multiset{x};
      RowTotalPerm(a', b');
      RowTotalRemove(b, k);
    }
  }

  lemma {:induction false} RowTotalRemove<V>(b: seq<(V, int)>, k: nat)
    requires k < |b|
    ensures RowTotal(b) == RowTotal(b[..k] + b[k + 1..]) + b[k].1
  {
    if k < |b| - 1 {
      var p := b[..|b| - 1];
      assert p[..k] + p[k + 1..] == (b[..k] + b[k + 1..])[..|b| - 2];
      RowTotalRemove(p, k);
    } else {
      assert b[..k] + b[k + 1..] == b[..|b| - 1];
    }
  }

  /** The counts of Counter(vendors).items() add up to the number of vendors looked up. */
  lemma ItemsTotal<V(!new)>(vendors: seq<V>)
    ensures RowTotal(Items(vendors)) == |vendors|
  {
    var keys := Dedup(vendors);
    RowTotalOcc(keys, vendors, Items(vendors));
    SumOccCovers(keys, vendors);
  }

  lemma {:induction false} RowTotalOcc<V(!new)>(keys: seq<V>, vendors: seq<V>, rows: seq<(V, int)>)
    requires |rows| == |keys| && forall i :: 0 <= i < |keys| ==> rows[i] == (keys[i], multiset(vendors)[keys[i]])
    ensures RowTotal(rows) == SumOcc(keys, vendors)
    decreases |keys|
  {
    if keys != [] {
      var n := |keys| - 1;
      RowTotalOcc(keys[..n], vendors, rows[..n]);
      SumOccSnocKey(keys[..n], keys[n], vendors);
      assert keys[..n] + [keys[n]] == keys;
    }
  }

  lemma {:induction false} SumOccSnocKey<V>(keys: seq<V>, k: V, vs: seq<V>)
    ensures SumOcc(keys + [k], vs) == SumOcc(keys, vs) + multiset(vs)[k]
  {
    if keys != [] {
      assert (keys + [k])[1..] == keys[1..] + [k];
      SumOccSnocKey(keys[1..], k, vs);
    }
  }
}
