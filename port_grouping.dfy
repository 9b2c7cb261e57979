/**
 * The port grouping of the port reports: one pass over the devices that
 * keeps, per port, a device count, the sets of VLANs and vendors seen and
 * the list of MACs (the shadowvendor and netvendor copies), or the list of
 * devices with a VLAN counter and a vendor counter (the top-level copy).
 * Each group is shown to be what the devices on that port alone give, and
 * the group sizes to add up to the number of devices.
 */
module PortGrouping {
  import opened Common
  import opened Dicts
  import opened Sorting
  import opened Tally

  /** One device as a port report sees it: MAC, port, VLAN and vendor. */
  datatype Rec<V> = Rec(mac: string, port: string, vlan: string, vendor: V)

  /** The devices on port p, in order. */
  function OnPort<V>(rs: seq<Rec<V>>, p: string): (r: seq<Rec<V>>)
    ensures |r| <= |rs| && forall i :: 0 <= i < |r| ==> r[i].port == p && r[i] in rs
  {
    if rs == [] then []
    else
      var q := OnPort(rs[..|rs| - 1], p);
      if rs[|rs| - 1].port == p then q + [rs[|rs| - 1]] else q
  }

  function Ports<V>(rs: seq<Rec<V>>): (r: seq<string>)
    ensures |r| == |rs| && forall i :: 0 <= i < |rs| ==> r[i] == rs[i].port
  {
    seq(|rs|, i requires 0 <= i < |rs| => rs[i].port)
  }

  function Vlans<V>(rs: seq<Rec<V>>): (r: seq<string>)
    ensures |r| == |rs| && forall i :: 0 <= i < |rs| ==> r[i] == rs[i].vlan
  {
    seq(|rs|, i requires 0 <= i < |rs| => rs[i].vlan)
  }

  function Vendors<V>(rs: seq<Rec<V>>): (r: seq<V>)
    ensures |r| == |rs| && forall i :: 0 <= i < |rs| ==> r[i] == rs[i].vendor
  {
    seq(|rs|, i requires 0 <= i < |rs| => rs[i].vendor)
  }

  function Macs<V>(rs: seq<Rec<V>>): (r: seq<string>)
    ensures |r| == |rs| && forall i :: 0 <= i < |rs| ==> r[i] == rs[i].mac
  {
    seq(|rs|, i requires 0 <= i < |rs| => rs[i].mac)
  }

  /** s.add(x) on a set kept as its elements in arrival order. */
  function AddTo<T(==)>(s: seq<T>, x: T): seq<T>
  {
    if x in s then s else s + [x]
  }

  lemma AddToDedup<T(!new)>(s: seq<T>, x: T)
    ensures AddTo(Dedup(s), x) == Dedup(s + [x])
  {
    DedupAppend(s, x);
  }

  // ---------------------------------------------------------------------
  // Count, VLAN set, vendor set and MAC list per port
  // ---------------------------------------------------------------------

  /** port_data[port]: total_devices, the vlans and vendors sets, and the devices list. */
  datatype PortInfo<V> = PortInfo(total: nat, vlans: seq<string>, vendors: seq<V>, macs: seq<string>)

  /** The loop body for one device: a new entry if the port is new, then every field updated. */
  function Add<V(==)>(info: Option<PortInfo<V>>, r: Rec<V>): PortInfo<V>
  {
    var i := info.GetOr(PortInfo(0, [], [], []));
    PortInfo(i.total + 1, AddTo(i.vlans, r.vlan), AddTo(i.vendors, r.vendor), i.macs + [r.mac])
  }

  /** port_data after the loop over the devices. */
  function Group<V(==)>(rs: seq<Rec<V>>): Dict<PortInfo<V>>
  {
    if rs == [] then []
    else
      var g := Group(rs[..|rs| - 1]);
      var r := rs[|rs| - 1];
      Put(g, r.port, Add(Get(g, r.port), r))
  }

  /** What the devices of one port give on their own: their number, their distinct VLANs and vendors, their MACs in order. */
  function Summary<V(==,!new)>(rs: seq<Rec<V>>): PortInfo<V>
  {
    PortInfo(|rs|, Dedup(Vlans(rs)), Dedup(Vendors(rs)), Macs(rs))
  }

  /** Adding a device to a port's entry gives the entry of the longer list. */
  lemma SummarySnoc<V(!new)>(o: seq<Rec<V>>, r: Rec<V>)
    ensures Add(if o == [] then None else Some(Summary(o)), r) == Summary(o + [r])
  {
    assert Vlans(o + [r]) == Vlans(o) + [r.vlan];
    assert Vendors(o + [r]) == Vendors(o) + [r.vendor];
    assert Macs(o + [r]) == Macs(o) + [r.mac];
    AddToDedup(Vlans(o), r.vlan);
    AddToDedup(Vendors(o), r.vendor);
    if o == [] {
      assert Vlans(o) == [] && Vendors(o) == [] && Macs(o) == [];
    }
  }

  /** Each port's entry is the summary of exactly the devices on that port; a port no device has has no entry. */
  lemma {:induction false} GroupAt<V(!new)>(rs: seq<Rec<V>>, p: string)
    ensures Get(Group(rs), p) == if OnPort(rs, p) == [] then None else Some(Summary(OnPort(rs, p)))
  {
    if rs == [] {
      assert Group(rs) == [];
    } else {
      var q := rs[..|rs| - 1];
      var r := rs[|rs| - 1];
      var g := Group(q);
      assert Group(rs) == Put(g, r.port, Add(Get(g, r.port), r));
      PutGet(g, r.port, Add(Get(g, r.port), r), p);
      GroupAt(q, p);
      if r.port == p {
        SummarySnoc(OnPort(q, p), r);
      }
    }
  }

  /** A vendor in some port's vendor set is the vendor of some device. */
  lemma PortVendorFrom<V(!new)>(rs: seq<Rec<V>>, n: nat, x: V) returns (j: nat)
    requires n < |Group(rs)| && x in Group(rs)[n].1.vendors
    ensures j < |rs| && rs[j].vendor == x
  {
    var g := Group(rs);
    GroupDistinct(rs);
    var p := g[n].0;
    GetAt(g, n);
    GroupAt(rs, p);
    var on := OnPort(rs, p);
    var k :| 0 <= k < |on| && Vendors(on)[k] == x;
    j :| 0 <= j < |rs| && rs[j] == on[k];
  }

  /** Every device is among those of its own port. */
  lemma {:induction false} OnOwnPort<V>(rs: seq<Rec<V>>, i: nat)
    requires i < |rs|
    ensures rs[i] in OnPort(rs, rs[i].port)
  {
    var q := rs[..|rs| - 1];
    if i < |rs| - 1 {
      assert q[i] == rs[i];
      OnOwnPort(q, i);
    }
  }

  /** The ports of the grouping are distinct. */
  lemma GroupDistinct<V(!new)>(rs: seq<Rec<V>>)
    ensures DistinctKeys(Group(rs))
  {
    var g := Group(rs);
    GroupKeys(rs);
    forall a, b | 0 <= a < b < |g| ensures g[a].0 != g[b].0 {
      assert Keys(g)[a] == g[a].0 && Keys(g)[b] == g[b].0;
    }
  }

  /** The ports appear once each, in the order they are first seen. */
  lemma {:induction false} GroupKeys<V(!new)>(rs: seq<Rec<V>>)
    ensures Keys(Group(rs)) == Dedup(Ports(rs))
  {
    if rs == [] {
      assert Group(rs) == [];
    } else {
      var q := rs[..|rs| - 1];
      var r := rs[|rs| - 1];
      GroupKeys(q);
      assert Ports(rs) == Ports(q) + [r.port];
      GroupKeysStep(Group(q), Ports(q), r);
    }
  }

  /** Adding a device keeps the keys the deduplicated ports. */
  lemma GroupKeysStep<V>(g: Dict<PortInfo<V>>, ps: seq<string>, r: Rec<V>)
    requires Keys(g) == Dedup(ps)
    ensures Keys(Put(g, r.port, Add(Get(g, r.port), r))) == Dedup(ps + [r.port])
  {
    DedupAppend(ps, r.port);
  }

  /** The sum of the entries' totals. */
  function SumTotals<V>(g: Dict<PortInfo<V>>): nat
  {
    if g == [] then 0 else g[0].1.total + SumTotals(g[1..])
  }

  lemma {:induction false} SumTotalsPut<V>(g: Dict<PortInfo<V>>, k: string, v: PortInfo<V>)
    ensures SumTotals(Put(g, k, v)) + (if Get(g, k).Some? then Get(g, k).value.total else 0) == SumTotals(g) + v.total
  {
    if g != [] && g[0].0 != k {
      SumTotalsPut(g[1..], k, v);
    }
  }

  /** Every device is counted at exactly one port: the totals add up to the number of devices. */
  lemma {:induction false} GroupTotals<V>(rs: seq<Rec<V>>)
    ensures SumTotals(Group(rs)) == |rs|
  {
    if rs != [] {
      var q := rs[..|rs| - 1];
      var r := rs[|rs| - 1];
      var g := Group(q);
      GroupTotals(q);
      SumTotalsPut(g, r.port, Add(Get(g, r.port), r));
    }
  }

  /** The grouping loop of generate_port_report. */
  method GroupByPort<V(==)>(rs: seq<Rec<V>>) returns (g: Dict<PortInfo<V>>)
    ensures g == Group(rs)
  {
    g := [];
    var i := 0;
    while i < |rs|
      invariant i <= |rs| && g == Group(rs[..i])
    {
      assert rs[..i + 1][..i] == rs[..i];
      var r := rs[i];
      var info := Add(Get(g, r.port), r);
      g := Put(g, r.port, info);
      i := i + 1;
    }
    assert rs[..i] == rs;
  }

  // ---------------------------------------------------------------------
  // Device list and counters per port (the top-level copy)
  // ---------------------------------------------------------------------

  /** ports[port]: the devices list and the vlan_count and vendor_count counters. */
  datatype PortTally<V> = PortTally(devices: seq<Rec<V>>, vlanCount: map<string, nat>, vendorCount: map<V, nat>)

  function AddTally<V(==)>(t: Option<PortTally<V>>, r: Rec<V>): PortTally<V>
  {
    var e := t.GetOr(PortTally([], map[], map[]));
    PortTally(e.devices + [r], Tick(e.vlanCount, r.vlan), Tick(e.vendorCount, r.vendor))
  }

  function GroupTally<V(==)>(rs: seq<Rec<V>>): Dict<PortTally<V>>
  {
    if rs == [] then []
    else
      var g := GroupTally(rs[..|rs| - 1]);
      var r := rs[|rs| - 1];
      Put(g, r.port, AddTally(Get(g, r.port), r))
  }

  /** The entry the devices of one port give on their own. */
  function TallyOf<V(==)>(rs: seq<Rec<V>>): PortTally<V>
  {
    PortTally(rs, Count(Vlans(rs)), Count(Vendors(rs)))
  }

  lemma TallySnoc<V>(o: seq<Rec<V>>, r: Rec<V>)
    ensures AddTally(if o == [] then None else Some(TallyOf(o)), r) == TallyOf(o + [r])
  {
    var w := o + [r];
    assert Vlans(w)[..|w| - 1] == Vlans(o) && Vendors(w)[..|w| - 1] == Vendors(o);
    if o == [] {
      assert Vlans(w) == [r.vlan] && Vendors(w) == [r.vendor];
      CountOne(r.vlan);
      CountOne(r.vendor);
    }
  }

  /** Each port's entry holds exactly the devices on that port, in order, with their VLANs and vendors counted. */
  lemma {:induction false} GroupTallyAt<V>(rs: seq<Rec<V>>, p: string)
    ensures Get(GroupTally(rs), p) == if OnPort(rs, p) == [] then None else Some(TallyOf(OnPort(rs, p)))
  {
    if rs == [] {
      assert GroupTally(rs) == [];
    } else {
      var q := rs[..|rs| - 1];
      var r := rs[|rs| - 1];
      var g := GroupTally(q);
      assert GroupTally(rs) == Put(g, r.port, AddTally(Get(g, r.port), r));
      PutGet(g, r.port, AddTally(Get(g, r.port), r), p);
      GroupTallyAt(q, p);
      if r.port == p {
        TallySnoc(OnPort(q, p), r);
      }
    }
  }

  lemma {:induction false} GroupTallyKeys<V(!new)>(rs: seq<Rec<V>>)
    ensures Keys(GroupTally(rs)) == Dedup(Ports(rs))
  {
    if rs == [] {
      assert GroupTally(rs) == [];
    } else {
      var q := rs[..|rs| - 1];
      var r := rs[|rs| - 1];
      var g := GroupTally(q);
      assert GroupTally(rs) == Put(g, r.port, AddTally(Get(g, r.port), r));
      GroupTallyKeys(q);
      PortsSnoc(rs);
      DedupAppend(Ports(q), r.port);
    }
  }

  /** The ports of the records are those of all but the last, then the last one's. */
  lemma PortsSnoc<V>(rs: seq<Rec<V>>)
    requires rs != []
    ensures Ports(rs) == Ports(rs[..|rs| - 1]) + [rs[|rs| - 1].port]
  {
  }

  /** Per port, the number of devices equals the sum of its VLAN counts and the sum of its vendor counts. */
  lemma TallyConserved<V(!new)>(rs: seq<Rec<V>>)
    ensures var t := TallyOf(rs);
            |t.devices| == SumAt(Dedup(Vlans(rs)), t.vlanCount) == SumAt(Dedup(Vendors(rs)), t.vendorCount)
  {
    CounterTotal(Vlans(rs));
    CounterTotal(Vendors(rs));
  }

  /** The grouping loop of the top-level generate_port_report. */
  method TallyByPort<V(==)>(rs: seq<Rec<V>>) returns (g: Dict<PortTally<V>>)
    ensures g == GroupTally(rs)
  {
    g := [];
    var i := 0;
    while i < |rs|
      invariant i <= |rs| && g == GroupTally(rs[..i])
    {
      assert rs[..i + 1][..i] == rs[..i];
      var r := rs[i];
      var e := AddTally(Get(g, r.port), r);
      g := Put(g, r.port, e);
      i := i + 1;
    }
    assert rs[..i] == rs;
  }
}
