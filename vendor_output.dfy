/**
 * The writers of the top-level vendor_output_handler.py: the device CSV, the
 * port report (ports, VLANs, vendors and device details in sorted order,
 * per-port Counters), the distribution counters and the boxed text summary.
 * The vendor lookup is a parameter returning a vendor name.
 */
module VendorOutput {
  import opened Common
  import opened Text
  import opened Dicts
  import opened Sorting
  import opened Tally
  import opened HandlerInput
  import opened PortGrouping
  import opened VendorCounts
  import ShadowVendorOutput

  // ---------------------------------------------------------------------
  // make_csv
  // ---------------------------------------------------------------------

  const DevicesHeader: seq<string> := ["MAC", "Vendor", "VLAN", "Port"]

  function DeviceRow(mac: string, info: Info, vendorOf: string -> string): seq<string>
  {
    [mac, vendorOf(mac), info.vlan.GetOr("N/A"), info.port.GetOr("N/A")]
  }

  /** make_csv: output/<stem>-Devices.csv with the header and one row per device in dict order. */
  method MakeCsv(inputFile: string, devices: Dict<Info>, vendorOf: string -> string)
    returns (path: string, rows: seq<seq<string>>)
    ensures path == ShadowVendorOutput.DevicesCsvPath(inputFile)
    ensures |rows| == |devices| + 1 && rows[0] == DevicesHeader
    ensures forall i :: 0 <= i < |devices| ==> rows[i + 1] == DeviceRow(devices[i].0, devices[i].1, vendorOf)
  {
    path := ShadowVendorOutput.DevicesCsvPath(inputFile);
    rows := [DevicesHeader];
    var i := 0;
    while i < |devices|
      invariant i <= |devices| && |rows| == i + 1 && rows[0] == DevicesHeader
      invariant forall k :: 0 <= k < i ==> rows[k + 1] == DeviceRow(devices[k].0, devices[k].1, vendorOf)
    {
      var mac := devices[i].0;
      var info := devices[i].1;
      rows := rows + [[mac, vendorOf(mac), info.vlan.GetOr("N/A"), info.port.GetOr("N/A")]];
      i := i + 1;
    }
  }

  // ---------------------------------------------------------------------
  // generate_port_report
  // ---------------------------------------------------------------------

  const PortsHeader: seq<string> := ["Port", "Total Devices", "VLANs", "Vendors", "Device Details"]

  /** `if not port: continue` -- a missing or empty port is skipped. */
  predicate HasPort(info: Info)
  {
    info.port.Some? && info.port.value != ""
  }

  function RecOf(mac: string, info: Info, vendorOf: string -> string): Rec<string>
    requires HasPort(info)
  {
    Rec(mac, info.port.value, info.vlan.GetOr("Unknown"), vendorOf(mac))
  }

  /** The devices the grouping loop keeps, in dict order; a missing VLAN becomes 'Unknown'. */
  function PortRecs(devices: Dict<Info>, vendorOf: string -> string): (rs: seq<Rec<string>>)
    ensures |rs| <= |devices| && forall i :: 0 <= i < |rs| ==> rs[i].port != ""
  {
    if devices == [] then []
    else
      var last := devices[|devices| - 1];
      PortRecs(devices[..|devices| - 1], vendorOf) + (if HasPort(last.1) then [RecOf(last.0, last.1, vendorOf)] else [])
  }

  /** A record is kept exactly for a device that has a port. */
  lemma {:induction false} PortRecsSpec(devices: Dict<Info>, vendorOf: string -> string, r: Rec<string>)
    ensures r in PortRecs(devices, vendorOf)
            <==> exists i :: 0 <= i < |devices| && HasPort(devices[i].1) && r == RecOf(devices[i].0, devices[i].1, vendorOf)
  {
    if devices != [] {
      var p := devices[..|devices| - 1];
      PortRecsSpec(p, vendorOf, r);
      if r in PortRecs(p, vendorOf) {
        var i :| 0 <= i < |p| && HasPort(p[i].1) && r == RecOf(p[i].0, p[i].1, vendorOf);
        assert devices[i] == p[i];
      }
      if i :| 0 <= i < |devices| && HasPort(devices[i].1) && r == RecOf(devices[i].0, devices[i].1, vendorOf) {
        if i < |p| {
          assert devices[i] == p[i];
        }
      }
    }
  }

  function MacOf(r: Rec<string>): string
  {
    r.mac
  }

  /** f"{mac} ({vendor}, VLAN {vlan})" */
  function Detail(r: Rec<string>): string
  {
    r.mac + " (" + r.vendor + ", VLAN " + r.vlan + ")"
  }

  function Details(rs: seq<Rec<string>>): (r: seq<string>)
    ensures |r| == |rs| && forall i :: 0 <= i < |rs| ==> r[i] == Detail(rs[i])
  {
    seq(|rs|, i requires 0 <= i < |rs| => Detail(rs[i]))
  }

  /**
   * The row of one port from the devices on it alone: their number, the
   * sorted distinct VLANs and vendors (the keys of the port's Counters) and
   * the device details in MAC order.
   */
  function PortRow(port: string, on: seq<Rec<string>>): seq<string>
  {
    [port, NatToString(|on|), Join(",", Sort(Dedup(Vlans(on)))), Join(",", Sort(Dedup(Vendors(on)))),
     Join(" / ", Details(SortBy(on, MacOf)))]
  }

  /** The rows, one per port in sorted order. */
  function PortRows(rs: seq<Rec<string>>): seq<seq<string>>
  {
    var ports := Sort(Dedup(Ports(rs)));
    seq(|ports|, i requires 0 <= i < |ports| => PortRow(ports[i], OnPort(rs, ports[i])))
  }

  /** The writer loop over sorted(ports.keys()), reading each port's device list and Counters. */
  method WritePortRows(rs: seq<Rec<string>>, g: Dict<PortTally<string>>) returns (rows: seq<seq<string>>)
    requires g == GroupTally(rs)
    ensures rows == PortRows(rs)
  {
    GroupTallyKeys(rs);
    var ports := Sort(Keys(g));
    SortedKeysIn(Keys(g));
    rows := WriteRowsFor(g, ports);
    forall k | 0 <= k < |ports| ensures RowsOf(g, ports)[k] == PortRows(rs)[k] {
      TallyEntry(rs, ports[k]);
      RowsOfAt(g, ports, k);
    }
  }

  /** The rows of the listed ports, each from the devices the grouping holds for it. */
  ghost function RowsOf(g: Dict<PortTally<string>>, ports: seq<string>): (r: seq<seq<string>>)
    requires forall k :: 0 <= k < |ports| ==> Get(g, ports[k]).Some?
    ensures |r| == |ports|
  {
    if ports == [] then []
    else RowsOf(g, ports[..|ports| - 1]) + [PortRow(ports[|ports| - 1], Get(g, ports[|ports| - 1]).value.devices)]
  }

  lemma {:induction false} RowsOfAt(g: Dict<PortTally<string>>, ports: seq<string>, k: int)
    requires forall k :: 0 <= k < |ports| ==> Get(g, ports[k]).Some?
    requires 0 <= k < |ports|
    ensures RowsOf(g, ports)[k] == PortRow(ports[k], Get(g, ports[k]).value.devices)
    decreases |ports|
  {
    if k < |ports| - 1 {
      var init := ports[..|ports| - 1];
      assert init[k] == ports[k];
      RowsOfAt(g, init, k);
    }
  }

  /** The loop over the sorted ports, one row each from the port's entry in the grouping. */
  method WriteRowsFor(g: Dict<PortTally<string>>, ports: seq<string>) returns (rows: seq<seq<string>>)
    requires forall k :: 0 <= k < |ports| ==> Get(g, ports[k]).Some?
    ensures rows == RowsOf(g, ports)
  {
    rows := [];
    var i := 0;
    while i < |ports|
      invariant i <= |ports| && rows == RowsOf(g, ports[..i])
    {
      var t := Get(g, ports[i]).value;
      var row := WritePortRow(ports[i], t.devices);
      assert ports[..i + 1][..i] == ports[..i];
      rows := rows + [row];
      i := i + 1;
    }
    assert ports[..i] == ports;
  }

  /** One row of the writer loop, from the devices and Counters held for the port. */
  method WritePortRow(p: string, devices: seq<Rec<string>>) returns (row: seq<string>)
    ensures row == PortRow(p, devices)
  {
    var vlans := Sort(Dedup(Vlans(devices)));
    var vendors := Sort(Dedup(Vendors(devices)));
    var details := Details(SortBy(devices, MacOf));
    row := [p, NatToString(|devices|), Join(",", vlans), Join(",", vendors), Join(" / ", details)];
  }

  /** Every element of the sorted list is one of the keys. */
  lemma SortedKeysIn(keys: seq<string>)
    ensures forall k :: 0 <= k < |Sort(keys)| ==> Sort(keys)[k] in keys
  {
    SortSpec(keys);
    forall k | 0 <= k < |Sort(keys)| ensures Sort(keys)[k] in keys {
      assert Sort(keys)[k] in multiset(Sort(keys));
    }
  }

  /** The entry of a port the records name holds exactly that port's records. */
  lemma TallyEntry(rs: seq<Rec<string>>, p: string)
    requires p in Keys(GroupTally(rs))
    ensures Get(GroupTally(rs), p).Some? && Get(GroupTally(rs), p).value.devices == OnPort(rs, p)
  {
    GroupTallyAt(rs, p);
  }

  /** generate_port_report: no file unless the input is a MAC address table, else output/<stem>-Ports.csv. */
  method GeneratePortReport(inputFile: string, devices: Dict<Info>, vendorOf: string -> string, isMacTable: bool)
    returns (report: Option<(string, seq<seq<string>>)>)
    ensures !isMacTable ==> report == None
    ensures isMacTable ==> report == Some((ShadowVendorOutput.PortsCsvPathFixed(inputFile), [PortsHeader] + PortRows(PortRecs(devices, vendorOf))))
  {
    if !isMacTable {
      return None;
    }
    var rs := PortRecs(devices, vendorOf);
    var g := TallyByPort(rs);
    var rows := WritePortRows(rs, g);
    report := Some((ShadowVendorOutput.PortsCsvPathFixed(inputFile), [PortsHeader] + rows));
  }

  /** The ports listed, in sorted order, are each non-empty port of some device, once. */
  lemma PortsListed(devices: Dict<Info>, vendorOf: string -> string)
    ensures var rs := PortRecs(devices, vendorOf); var ports := Sort(Dedup(Ports(rs)));
            |PortRows(rs)| == |ports| && Sorted(ports)
            && (forall i, j :: 0 <= i < j < |ports| ==> ports[i] != ports[j])
            && (forall p :: p in ports <==> exists i :: 0 <= i < |devices| && HasPort(devices[i].1) && devices[i].1.port.value == p)
  {
    var rs := PortRecs(devices, vendorOf);
    var ds := Dedup(Ports(rs));
    var ports := Sort(ds);
    SortSpec(ds);
    PermutedDistinct(ds, ports);
    forall p ensures p in ports <==> exists i :: 0 <= i < |devices| && HasPort(devices[i].1) && devices[i].1.port.value == p {
      assert p in ports <==> p in multiset(ds);
      PortNamed(devices, vendorOf, p);
    }
  }

  /** A port occurs among the records exactly when some device has it. */
  lemma PortNamed(devices: Dict<Info>, vendorOf: string -> string, p: string)
    ensures p in Ports(PortRecs(devices, vendorOf))
            <==> exists i :: 0 <= i < |devices| && HasPort(devices[i].1) && devices[i].1.port.value == p
  {
    var rs := PortRecs(devices, vendorOf);
    if p in Ports(rs) {
      var k :| 0 <= k < |rs| && rs[k].port == p;
      PortRecsSpec(devices, vendorOf, rs[k]);
    }
    if i :| 0 <= i < |devices| && HasPort(devices[i].1) && devices[i].1.port.value == p {
      var r := RecOf(devices[i].0, devices[i].1, vendorOf);
      PortRecsSpec(devices, vendorOf, r);
      var k :| 0 <= k < |rs| && rs[k] == r;
      assert Ports(rs)[k] == p;
    }
  }

  /**
   * A listed port's row counts the devices on it, which the port's VLAN
   * Counter and vendor Counter both sum to; the VLANs and vendors shown are
   * exactly those Counters' keys; the details are its devices ordered by MAC.
   */
  lemma PortRowSpec(rs: seq<Rec<string>>, p: string)
    requires p in Ports(rs)
    ensures var on := OnPort(rs, p); var t := TallyOf(on);
            on != []
            && |on| == SumAt(Dedup(Vlans(on)), t.vlanCount) == SumAt(Dedup(Vendors(on)), t.vendorCount)
            && (forall x :: x in Sort(Dedup(Vlans(on))) <==> x in t.vlanCount)
            && (forall x :: x in Sort(Dedup(Vendors(on))) <==> x in t.vendorCount)
            && SortedBy(SortBy(on, MacOf), MacOf) && multiset(SortBy(on, MacOf)) == multiset(on)
  {
    var on := OnPort(rs, p);
    var k :| 0 <= k < |rs| && rs[k].port == p;
    OnOwnPort(rs, k);
    TallyConserved(on);
    CounterKeysSorted(Vlans(on));
    CounterKeysSorted(Vendors(on));
    SortBySpec(on, MacOf);
  }

  /** The sorted distinct values of a list are exactly the keys of its Counter. */
  lemma CounterKeysSorted(vs: seq<string>)
    ensures forall x :: x in Sort(Dedup(vs)) <==> x in Count(vs)
  {
    SortSpec(Dedup(vs));
    forall x ensures x in Sort(Dedup(vs)) <==> x in Count(vs) {
      assert x in Sort(Dedup(vs)) <==> x in multiset(Dedup(vs));
      CountSpec(vs, x);
    }
  }

  // ---------------------------------------------------------------------
  // create_vendor_distribution
  // ---------------------------------------------------------------------

  function SeenOf(devices: Dict<Info>, vendorOf: string -> string): (r: seq<Seen<string>>)
    ensures |r| == |devices|
    ensures forall i :: 0 <= i < |devices| ==> r[i] == Seen(devices[i].1.vlan.GetOr("N/A"), vendorOf(devices[i].0))
  {
    seq(|devices|, i requires 0 <= i < |devices| => Seen(devices[i].1.vlan.GetOr("N/A"), vendorOf(devices[i].0)))
  }

  /** The vendor and VLAN totals each add up to the number of devices; vlan_unique_vendors[v] is the number of distinct vendors in VLAN v. */
  lemma DistributionCounts(devices: Dict<Info>, vendorOf: string -> string)
    ensures var ss := SeenOf(devices, vendorOf); var d := Distribute(ss);
            SumAt(Dedup(VendorsOf(ss)), d.vendorCounts) == |devices| && SumAt(Dedup(VlansOf(ss)), d.vlanTotals) == |devices|
            && (forall v :: v in d.vlanUnique ==> d.vlanUnique[v] == |Dedup(VendorsIn(ss, v))|)
  {
    var ss := SeenOf(devices, vendorOf);
    var d := Distribute(ss);
    DistributionConserved(ss);
    forall v | v in d.vlanUnique ensures d.vlanUnique[v] == |Dedup(VendorsIn(ss, v))| {
      DistributeVlans(ss, v);
    }
  }

  // ---------------------------------------------------------------------
  // save_vendor_summary
  // ---------------------------------------------------------------------

  /** max() over the Counter's keys raises on a run without devices. */
  datatype SummaryError = ValueError

  function Lookups(devices: Dict<Info>, vendorOf: string -> string): (r: seq<string>)
    ensures |r| == |devices| && forall i :: 0 <= i < |devices| ==> r[i] == vendorOf(devices[i].0)
  {
    seq(|devices|, i requires 0 <= i < |devices| => vendorOf(devices[i].0))
  }

  /** The length of the longest name. */
  function MaxLen(vs: seq<string>): (m: nat)
    ensures forall v :: v in vs ==> |v| <= m
    ensures vs != [] ==> exists v :: v in vs && |v| == m
  {
    if vs == [] then 0
    else
      var m := MaxLen(vs[1..]);
      assert forall v :: v in vs ==> v == vs[0] || v in vs[1..];
      if |vs[0]| >= m then |vs[0]| else m
  }

  /** The vendor column's width: the longest vendor name, at least 6 for the "Vendor" heading. */
  function Width(vendors: seq<string>): nat
  {
    if MaxLen(vendors) < 6 then 6 else MaxLen(vendors)
  }

  /** "+{:-<w}+-------+------------+" */
  function Separator(w: nat): string
  {
    "+" + RepeatChar('-', w) + "+-------+------------+"
  }

  /** str.replace(a, b) for single characters. */
  function SwapChar(s: string, a: char, b: char): (r: string)
    ensures |r| == |s| && forall i :: 0 <= i < |s| ==> r[i] == if s[i] == a then b else s[i]
  {
    seq(|s|, i requires 0 <= i < |s| => if s[i] == a then b else s[i])
  }

  /** The double rule under the headings is the separator drawn with '='. */
  lemma DoubleSeparator(w: nat)
    ensures SwapChar(Separator(w), '-', '=') == "+" + RepeatChar('=', w) + "+=======+============+"
  {
  }

  function ColumnHeader(w: nat): string
  {
    "| " + LeftAlign("Vendor", w) + " | Count | Percentage |"
  }

  /** "| {:<w} | {:<5} | {:<10.1f}% |", the formatted percentage given as pct. */
  function SummaryRow(vendor: string, count: int, pct: string, w: nat): string
  {
    "| " + LeftAlign(vendor, w) + " | " + LeftAlign(IntToString(count), 5) + " | " + LeftAlign(pct, 10) + "% |"
  }

  /** vendor_summary.txt line by line, or the ValueError of a run without devices. */
  function SummaryText(devices: Dict<Info>, vendorOf: string -> string, pct: (int, int) -> string): Result<seq<string>, SummaryError>
  {
    var vs := Lookups(devices, vendorOf);
    if vs == [] then Err(ValueError)
    else
      Ok(SummaryLines(SummaryRows(vs), SumAt(Dedup(vs), Count(vs)), Width(Dedup(vs)), pct))
  }

  /** The heading, the rule, the column headings, the double rule, one line per row and the closing rule. */
  function SummaryLines(rows: seq<(string, int)>, total: int, w: nat, pct: (int, int) -> string): seq<string>
  {
    TableHead(w) + RowLines(rows, total, w, pct) + [Separator(w)]
  }

  /** The title, the rule, the column headings and the double rule under them. */
  function TableHead(w: nat): seq<string>
  {
    var sep := Separator(w);
    ["Network Device Vendor Summary", sep, ColumnHeader(w), SwapChar(sep, '-', '=')]
  }

  /** One table row per (vendor, count) pair, its percentage of total formatted by pct. */
  function RowLines(rows: seq<(string, int)>, total: int, w: nat, pct: (int, int) -> string): (r: seq<string>)
    ensures |r| == |rows| && forall i :: 0 <= i < |rows| ==> r[i] == SummaryRow(rows[i].0, rows[i].1, pct(rows[i].1, total), w)
  {
    seq(|rows|, i requires 0 <= i < |rows| => SummaryRow(rows[i].0, rows[i].1, pct(rows[i].1, total), w))
  }

  /** Line 4 + i is row i, between the rules that open and close the table. */
  lemma SummaryLinesShape(rows: seq<(string, int)>, total: int, w: nat, pct: (int, int) -> string)
    ensures var lines := SummaryLines(rows, total, w, pct);
            |lines| == |rows| + 5 && lines[1] == lines[|lines| - 1] == Separator(w)
            && lines[3] == SwapChar(Separator(w), '-', '=')
            && (forall i :: 0 <= i < |rows| ==> lines[4 + i] == SummaryRow(rows[i].0, rows[i].1, pct(rows[i].1, total), w))
  {
    var sep := Separator(w);
    var head := TableHead(w);
    assert |head| == 4 && head[1] == sep && head[3] == SwapChar(sep, '-', '=');
    FourLineHead(head, RowLines(rows, total, w, pct), sep);
  }

  /** Indexing into head + body + [rule] with a four-line head. */
  lemma FourLineHead(head: seq<string>, body: seq<string>, rule: string)
    requires |head| == 4
    ensures var lines := head + body + [rule];
            |lines| == |body| + 5 && lines[1] == head[1] && lines[3] == head[3] && lines[|lines| - 1] == rule
            && forall i :: 0 <= i < |body| ==> lines[4 + i] == body[i]
  {
  }

  /** The counting loop: the Counter's keys in insertion order and its counts. */
  method CountVendors(devices: Dict<Info>, vendorOf: string -> string)
    returns (order: seq<string>, counts: map<string, nat>)
    ensures order == Dedup(Lookups(devices, vendorOf)) && counts == Count(Lookups(devices, vendorOf))
  {
    ghost var vendors := Lookups(devices, vendorOf);
    counts := map[];
    order := [];
    var i := 0;
    while i < |devices|
      invariant i <= |devices| && counts == Count(vendors[..i]) && order == Dedup(vendors[..i])
    {
      var vendor := vendorOf(devices[i].0);
      SliceSnoc(vendors, i);
      CountSnoc(vendors[..i], vendor);
      DedupAppend(vendors[..i], vendor);
      counts := Tick(counts, vendor);
      order := if vendor in order then order else order + [vendor];
      i := i + 1;
    }
    assert vendors[..i] == vendors;
  }

  /** The writer: heading, rules, one row per vendor and the closing rule. */
  method WriteSummary(rows: seq<(string, int)>, total: int, w: nat, pct: (int, int) -> string) returns (lines: seq<string>)
    ensures lines == SummaryLines(rows, total, w, pct)
  {
    ghost var body := RowLines(rows, total, w, pct);
    var sep := Separator(w);
    var written: seq<string> := [];
    var j := 0;
    while j < |rows|
      invariant j <= |rows| && written == body[..j]
    {
      written := written + [SummaryRow(rows[j].0, rows[j].1, pct(rows[j].1, total), w)];
      j := j + 1;
    }
    assert body[..j] == body;
    lines := TableHead(w) + written + [sep];
  }

  /** save_vendor_summary */
  method SaveVendorSummary(devices: Dict<Info>, vendorOf: string -> string, pct: (int, int) -> string)
    returns (r: Result<seq<string>, SummaryError>)
    ensures r == SummaryText(devices, vendorOf, pct)
  {
    ghost var vendors := Lookups(devices, vendorOf);
    var order, counts := CountVendors(devices, vendorOf);
    var total := SumAt(order, counts);
    if order == [] {
      assert vendors == [];
      return Err(ValueError);
    }
    var w := Width(order);
    ShadowVendorOutput.CounterItems(vendors, order, counts);
    var items := seq(|order|, k requires 0 <= k < |order| && order[k] in counts => (order[k], counts[order[k]] as int));
    var lines := WriteSummary(SortByCountDesc(items), total, w, pct);
    r := Ok(lines);
  }

  /** A run raises ValueError exactly when there are no devices. */
  lemma SummaryRaises(devices: Dict<Info>, vendorOf: string -> string, pct: (int, int) -> string)
    ensures SummaryText(devices, vendorOf, pct).Err? <==> devices == []
  {
  }

  /** The vendor column is as wide as the longest vendor name, and at least 6. */
  lemma WidthSpec(vs: seq<string>)
    requires vs != []
    ensures var w := Width(Dedup(vs));
            w >= 6 && (forall v :: v in vs ==> |v| <= w) && (w == 6 || exists v :: v in vs && |v| == w)
  {
  }

  /**
   * A run with devices gives the heading, the rules and one row per vendor,
   * most devices first, each vendor once; the total the percentages divide
   * by is the number of devices.
   */
  lemma SummarySpec(devices: Dict<Info>, vendorOf: string -> string, pct: (int, int) -> string)
    requires devices != []
    ensures var vs := Lookups(devices, vendorOf); var t := SummaryText(devices, vendorOf, pct);
            var rows := SummaryRows(vs); var w := Width(Dedup(vs));
            t.Ok? && |t.value| == |rows| + 5 && t.value[1] == t.value[|t.value| - 1] == Separator(w)
            && (forall i :: 0 <= i < |rows| ==> t.value[4 + i] == SummaryRow(rows[i].0, rows[i].1, pct(rows[i].1, |devices|), w))
  {
    var vs := Lookups(devices, vendorOf);
    assert vs != [] by {
      assert |vs| == |devices|;
    }
    CounterTotal(vs);
    SummaryLinesShape(SummaryRows(vs), |devices|, Width(Dedup(vs)), pct);
  }

  /**
   * As written, the separator's vendor segment is w dashes where the vendor
   * cells are w + 2 wide ("| " and " "): the rules are two characters
   * shorter than the heading row and their corners stand two places left of
   * its bars.
   */
  lemma SeparatorMisaligned(w: nat)
    requires w >= 6
    ensures |Separator(w)| + 2 == |ColumnHeader(w)|
    ensures Separator(w)[w + 1] == '+' && ColumnHeader(w)[w + 1] != '|' && ColumnHeader(w)[w + 3] == '|'
  {
    var h := ColumnHeader(w);
    VendorCellNoBar(w);
    assert h[w + 1] == LeftAlign("Vendor", w)[w - 1];
    assert h[w + 3] == " | Count | Percentage |"[1];
    assert Separator(w)[w + 1] == "+-------+------------+"[0];
  }

  /** The separator with w + 2 dashes over the vendor column. */
  function SeparatorFixed(w: nat): string
  {
    "+" + RepeatChar('-', w + 2) + "+-------+------------+"
  }

  /** Corrected, the rule is as long as the heading row and has a corner exactly under each of its bars. */
  lemma SeparatorFixedAligned(w: nat)
    requires w >= 6
    ensures |SeparatorFixed(w)| == |ColumnHeader(w)|
    ensures forall i :: 0 <= i < |ColumnHeader(w)| ==> (SeparatorFixed(w)[i] == '+' <==> ColumnHeader(w)[i] == '|')
  {
    var h := ColumnHeader(w);
    var s := SeparatorFixed(w);
    var cell := LeftAlign("Vendor", w);
    VendorCellNoBar(w);
    forall i | 0 <= i < |h| ensures s[i] == '+' <==> h[i] == '|' {
      if i < 2 {
      } else if i < w + 2 {
        assert h[i] == cell[i - 2];
      } else {
        assert h[i] == " | Count | Percentage |"[i - w - 2];
        assert s[i] == ("-" + "-" + "+-------+------------+")[i - w - 1];
      }
    }
  }

  /** The "Vendor" heading padded to the column width holds no bar. */
  lemma VendorCellNoBar(w: nat)
    requires w >= 6
    ensures |LeftAlign("Vendor", w)| == w && forall k :: 0 <= k < w ==> LeftAlign("Vendor", w)[k] != '|'
  {
    var cell := LeftAlign("Vendor", w);
    forall k | 0 <= k < w ensures cell[k] != '|' {
      if k >= 6 {
        assert cell[k] == Spaces(w - 6)[k - 6];
      }
    }
  }
}
