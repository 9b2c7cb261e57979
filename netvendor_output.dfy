/**
 * The four writers of netvendor/utils/vendor_output_handler.py. Unlike the
 * shadowvendor copy this one keeps the raw vendor lookup, None included,
 * defaults a missing VLAN or port to '', names both CSV files by replacing
 * ".txt" in the input's base name, and totals the summary by len(devices).
 */
module NetVendorOutput {
  import opened Common
  import opened Text
  import opened Dicts
  import opened Sorting
  import opened Tally
  import opened HandlerInput
  import opened PortGrouping
  import opened VendorCounts
  import ShadowVendorApi
  import ShadowVendorOutput

  /** What the csv module writes for a cell holding the lookup result: None becomes the empty field. */
  function CsvCell(found: Option<string>): string
  {
    found.GetOr("")
  }

  /** f"{vendor}": None is printed as "None". */
  function Printed(found: Option<string>): string
  {
    if found.Some? then found.value else "None"
  }

  /** os.path.join('output', os.path.basename(input_file).replace('.txt', suffix)) */
  function RenamedPath(inputFile: string, suffix: string): string
  {
    ShadowVendorApi.JoinPath("output", ReplaceAll(ShadowVendorApi.FileName(inputFile), ".txt", suffix))
  }

  function DevicesCsvPath(inputFile: string): string
  {
    RenamedPath(inputFile, "-Devices.csv")
  }

  function PortsCsvPath(inputFile: string): string
  {
    RenamedPath(inputFile, "-Ports.csv")
  }

  /** For "<dir>/<base>.txt" the two CSV files are output/<base>-Devices.csv and output/<base>-Ports.csv. */
  lemma PathsOfTxt(dir: string, base: string)
    requires '/' !in base && '.' !in base
    ensures DevicesCsvPath(dir + "/" + base + ".txt") == "output/" + base + "-Devices.csv"
    ensures PortsCsvPath(dir + "/" + base + ".txt") == "output/" + base + "-Ports.csv"
  {
    var p := dir + "/" + base + ".txt";
    assert p == dir + ['/'] + (base + ".txt");
    ShadowVendorApi.RFindBefore(dir, '/', base + ".txt");
    assert ShadowVendorApi.FileName(p) == base + ".txt";
    ReplaceSkip(base, ".txt", ".txt", "-Devices.csv");
    ReplaceWhole(".txt", "-Devices.csv");
    ReplaceSkip(base, ".txt", ".txt", "-Ports.csv");
    ReplaceWhole(".txt", "-Ports.csv");
    ShadowVendorOutput.OutputJoin(base + "-Devices.csv");
    ShadowVendorOutput.OutputJoin(base + "-Ports.csv");
  }

  /**
   * For an input whose base name does not contain ".txt" neither name is
   * changed, so both writers use the same file and the port report
   * overwrites the device CSV.
   */
  lemma PathsCollide(inputFile: string)
    requires !Contains(ShadowVendorApi.FileName(inputFile), ".txt")
    ensures DevicesCsvPath(inputFile) == PortsCsvPath(inputFile)
  {
    var name := ShadowVendorApi.FileName(inputFile);
    ReplaceAbsent(name, ".txt", "-Devices.csv");
    ReplaceAbsent(name, ".txt", "-Ports.csv");
  }

  /**
   * The evidently intended names are the stem-based ones of the shadowvendor
   * copy, which never coincide (ShadowVendorOutput.FixedPortsPathDistinct);
   * for a ".txt" input they are the names written above.
   */
  lemma FixedPathsOfTxt(dir: string, base: string)
    requires base != [] && '/' !in base && '.' !in base
    ensures ShadowVendorOutput.DevicesCsvPath(dir + "/" + base + ".txt") == DevicesCsvPath(dir + "/" + base + ".txt")
    ensures ShadowVendorOutput.PortsCsvPathFixed(dir + "/" + base + ".txt") == PortsCsvPath(dir + "/" + base + ".txt")
  {
    assert dir + "/" + base + "." + "txt" == dir + "/" + base + ".txt";
    PathsOfTxt(dir, base);
    ShadowVendorOutput.DevicesCsvPathOf(dir, base, "txt");
    ShadowVendorOutput.PortsPathIntended(dir, base, "txt");
  }

  // ---------------------------------------------------------------------
  // make_csv
  // ---------------------------------------------------------------------

  const DevicesHeader: seq<string> := ["MAC", "Vendor", "VLAN", "Port"]

  function DeviceRow(mac: string, info: Info, vendorOf: string -> Option<string>): seq<string>
  {
    [mac, CsvCell(vendorOf(mac)), info.vlan.GetOr(""), info.port.GetOr("")]
  }

  /** make_csv: the header, then one row per device in dict order. */
  method MakeCsv(inputFile: string, devices: Dict<Info>, vendorOf: string -> Option<string>)
    returns (path: string, rows: seq<seq<string>>)
    ensures path == DevicesCsvPath(inputFile)
    ensures |rows| == |devices| + 1 && rows[0] == DevicesHeader
    ensures forall i :: 0 <= i < |devices| ==> rows[i + 1] == DeviceRow(devices[i].0, devices[i].1, vendorOf)
  {
    path := DevicesCsvPath(inputFile);
    rows := [DevicesHeader];
    var i := 0;
    while i < |devices|
      invariant i <= |devices| && |rows| == i + 1 && rows[0] == DevicesHeader
      invariant forall k :: 0 <= k < i ==> rows[k + 1] == DeviceRow(devices[k].0, devices[k].1, vendorOf)
    {
      var mac := devices[i].0;
      var info := devices[i].1;
      rows := rows + [[mac, CsvCell(vendorOf(mac)), info.vlan.GetOr(""), info.port.GetOr("")]];
      i := i + 1;
    }
  }

  // ---------------------------------------------------------------------
  // generate_port_report
  // ---------------------------------------------------------------------

  const PortsHeader: seq<string> := ["Port", "Total Devices", "VLANs", "Vendors", "Devices"]

  /** The device as the grouping sees it: port and VLAN default to '', the vendor is the raw lookup. */
  function PortRecs(devices: Dict<Info>, vendorOf: string -> Option<string>): (r: seq<Rec<Option<string>>>)
    ensures |r| == |devices|
    ensures forall i :: 0 <= i < |devices| ==>
              r[i] == Rec(devices[i].0, devices[i].1.port.GetOr(""), devices[i].1.vlan.GetOr(""), vendorOf(devices[i].0))
  {
    seq(|devices|, i requires 0 <= i < |devices| =>
      Rec(devices[i].0, devices[i].1.port.GetOr(""), devices[i].1.vlan.GetOr(""), vendorOf(devices[i].0)))
  }

  /** sorted() over the vendor set fails when it mixes None with names, and ','.join() fails on a lone None. */
  datatype Raised = TypeError

  /** The names of a vendor set holding no None. */
  function Names(vs: seq<Option<string>>): (r: seq<string>)
    requires None !in vs
    ensures |r| == |vs| && forall i :: 0 <= i < |vs| ==> Some(r[i]) == vs[i]
  {
    if vs == [] then [] else [vs[0].value] + Names(vs[1..])
  }

  /** One port's row, or the TypeError raised while building it. */
  function PortRow(port: string, info: PortInfo<Option<string>>): Result<seq<string>, Raised>
  {
    if None in info.vendors then Err(TypeError)
    else Ok([port, NatToString(info.total), Join(",", Sort(info.vlans)), Join(",", Sort(Names(info.vendors))), Join(",", info.macs)])
  }

  /** The index of the first port whose row raises, or |g| when none does. */
  function FirstRaising(g: Dict<PortInfo<Option<string>>>): (n: nat)
    ensures n <= |g|
    ensures n < |g| ==> None in g[n].1.vendors
    ensures forall i :: 0 <= i < n ==> None !in g[i].1.vendors
  {
    if g == [] then 0 else if None in g[0].1.vendors then 0 else 1 + FirstRaising(g[1..])
  }

  /** What the writer loop leaves in the file and whether it ends in a TypeError. */
  datatype Written = Written(rows: seq<seq<string>>, raised: Option<Raised>)

  /** The writer loop over the ports in first-seen order. */
  method WritePortRows(g: Dict<PortInfo<Option<string>>>) returns (w: Written)
    ensures var n := FirstRaising(g);
            |w.rows| == n + 1 && w.rows[0] == PortsHeader
            && (forall i :: 0 <= i < n ==> PortRow(g[i].0, g[i].1) == Ok(w.rows[i + 1]))
            && (w.raised.Some? <==> n < |g|)
  {
    var rows := [PortsHeader];
    var i := 0;
    while i < |g| && None !in g[i].1.vendors
      invariant i <= FirstRaising(g) && |rows| == i + 1 && rows[0] == PortsHeader
      invariant forall k :: 0 <= k < i ==> PortRow(g[k].0, g[k].1) == Ok(rows[k + 1])
    {
      var row := PortRow(g[i].0, g[i].1);
      rows := rows + [row.value];
      i := i + 1;
    }
    w := Written(rows, if i < |g| then Some(TypeError) else None);
  }

  /** generate_port_report: the grouping loop, then the rows up to the first port whose vendors include None. */
  method GeneratePortReport(inputFile: string, devices: Dict<Info>, vendorOf: string -> Option<string>, isMacTable: bool)
    returns (path: string, w: Written)
    ensures path == PortsCsvPath(inputFile)
    ensures var g := Group(PortRecs(devices, vendorOf)); var n := FirstRaising(g);
            |w.rows| == n + 1 && w.rows[0] == PortsHeader
            && (forall i :: 0 <= i < n ==> PortRow(g[i].0, g[i].1) == Ok(w.rows[i + 1]))
            && (w.raised.Some? <==> n < |g|)
  {
    path := PortsCsvPath(inputFile);
    var rs := PortRecs(devices, vendorOf);
    var g := GroupByPort(rs);
    w := WritePortRows(g);
  }

  /** A port whose vendor set holds None has a device whose lookup returned None. */
  lemma RaisingPortHasUnknown(devices: Dict<Info>, vendorOf: string -> Option<string>, n: nat)
    requires var g := Group(PortRecs(devices, vendorOf)); n < |g| && None in g[n].1.vendors
    ensures exists i :: 0 <= i < |devices| && vendorOf(devices[i].0) == None
  {
    var j := PortVendorFrom(PortRecs(devices, vendorOf), n, None);
  }

  /** The port of a device whose lookup returned None has None in its vendor set. */
  lemma UnknownMakesPortRaise(devices: Dict<Info>, vendorOf: string -> Option<string>, i: nat)
    requires i < |devices| && vendorOf(devices[i].0) == None
    ensures var g := Group(PortRecs(devices, vendorOf)); FirstRaising(g) < |g|
  {
    var rs := PortRecs(devices, vendorOf);
    var g := Group(rs);
    GroupDistinct(rs);
    var p := rs[i].port;
    OnOwnPort(rs, i);
    GroupAt(rs, p);
    var on := OnPort(rs, p);
    var k :| 0 <= k < |on| && on[k] == rs[i];
    assert Vendors(on)[k] == None;
    assert Get(g, p).Some?;
    var n :| 0 <= n < |g| && g[n].0 == p by {
      assert p in Keys(g);
    }
    GetAt(g, n);
    assert None in g[n].1.vendors;
  }

  /** The report raises exactly when some device's vendor lookup returns None. */
  lemma RaisesIffUnknown(devices: Dict<Info>, vendorOf: string -> Option<string>)
    ensures var g := Group(PortRecs(devices, vendorOf));
            FirstRaising(g) < |g| <==> exists i :: 0 <= i < |devices| && vendorOf(devices[i].0) == None
  {
    var g := Group(PortRecs(devices, vendorOf));
    if FirstRaising(g) < |g| {
      RaisingPortHasUnknown(devices, vendorOf, FirstRaising(g));
    }
    if i :| 0 <= i < |devices| && vendorOf(devices[i].0) == None {
      UnknownMakesPortRaise(devices, vendorOf, i);
    }
  }

  /** Each port's count is its number of devices, and the counts add up to the number of devices. */
  lemma PortCounts(devices: Dict<Info>, vendorOf: string -> Option<string>)
    ensures var rs := PortRecs(devices, vendorOf); var g := Group(rs);
            (forall i :: 0 <= i < |g| ==> g[i].1.total == |OnPort(rs, g[i].0)|)
            && SumTotals(g) == |devices|
  {
    var rs := PortRecs(devices, vendorOf);
    var g := Group(rs);
    GroupTotals(rs);
    GroupDistinct(rs);
    forall i | 0 <= i < |g| ensures g[i].1.total == |OnPort(rs, g[i].0)| {
      GetAt(g, i);
      GroupAt(rs, g[i].0);
    }
  }

  // ---------------------------------------------------------------------
  // create_vendor_distribution
  // ---------------------------------------------------------------------

  /** What the counting loop reads per device: the VLAN ("N/A" when missing) and the raw vendor lookup. */
  function SeenOf(devices: Dict<Info>, vendorOf: string -> Option<string>): (r: seq<Seen<Option<string>>>)
    ensures |r| == |devices|
    ensures forall i :: 0 <= i < |devices| ==> r[i] == Seen(devices[i].1.vlan.GetOr("N/A"), vendorOf(devices[i].0))
  {
    seq(|devices|, i requires 0 <= i < |devices| => Seen(devices[i].1.vlan.GetOr("N/A"), vendorOf(devices[i].0)))
  }

  /**
   * vendor_counts (with None counted as a vendor of its own) and
   * vlan_total_devices add up to the number of devices, and
   * vlan_unique_vendors[v] is the number of distinct lookups in VLAN v.
   */
  lemma DistributionCounts(devices: Dict<Info>, vendorOf: string -> Option<string>)
    ensures var ss := SeenOf(devices, vendorOf); var d := Distribute(ss);
            SumAt(Dedup(VendorsOf(ss)), d.vendorCounts) == |devices| && SumAt(Dedup(VlansOf(ss)), d.vlanTotals) == |devices|
            && (forall v :: v in d.vlanUnique ==> d.vlanUnique[v] == |Dedup(VendorsIn(ss, v))|)
  {
    var ss := SeenOf(devices, vendorOf);
    var d := Distribute(ss);
    DistributionConserved(ss);
    forall v | v in d.vlanUnique ensures d.vlanUnique[v] == |Dedup(VendorsIn(ss, v))| {
      DistributeVlans(ss, v);
    }
  }

  // ---------------------------------------------------------------------
  // save_vendor_summary
  // ---------------------------------------------------------------------

  /** The raw lookup of each device in dict order. */
  function Lookups(devices: Dict<Info>, vendorOf: string -> Option<string>): (r: seq<Option<string>>)
    ensures |r| == |devices| && forall i :: 0 <= i < |devices| ==> r[i] == vendorOf(devices[i].0)
  {
    seq(|devices|, i requires 0 <= i < |devices| => vendorOf(devices[i].0))
  }

  /** f"{vendor}: {count} devices ({percentage:.1f}%)", the formatted percentage given as pct. */
  function SummaryLine(vendor: Option<string>, count: int, pct: string): string
  {
    Printed(vendor) + ": " + IntToString(count) + " devices (" + pct + "%)"
  }

  function SummaryHead(total: int): seq<string>
  {
    ["Vendor Distribution Summary", RepeatChar('=', 25), "", "Total Devices: " + IntToString(total), "", "Vendor Breakdown:"]
  }

  /** vendor_summary.txt, line by line: the total is len(devices) and pct(count, total) the formatted percentage. */
  function SummaryText(devices: Dict<Info>, vendorOf: string -> Option<string>, pct: (int, int) -> string): seq<string>
  {
    var rows := SummaryRows(Lookups(devices, vendorOf));
    SummaryHead(|devices|)
    + seq(|rows|, i requires 0 <= i < |rows| => SummaryLine(rows[i].0, rows[i].1, pct(rows[i].1, |devices|)))
  }

  /** save_vendor_summary: Counter over the lookups, then one line per vendor, most devices first. */
  method SaveVendorSummary(devices: Dict<Info>, vendorOf: string -> Option<string>, pct: (int, int) -> string)
    returns (lines: seq<string>)
    ensures lines == SummaryText(devices, vendorOf, pct)
  {
    var rows := SummaryRows(Lookups(devices, vendorOf));
    var total := |devices|;
    var body := seq(|rows|, i requires 0 <= i < |rows| => SummaryLine(rows[i].0, rows[i].1, pct(rows[i].1, total)));
    var written: seq<string> := [];
    var j := 0;
    while j < |rows|
      invariant j <= |rows| && written == body[..j]
    {
      written := written + [SummaryLine(rows[j].0, rows[j].1, pct(rows[j].1, total))];
      j := j + 1;
    }
    assert body[..j] == body;
    lines := SummaryHead(total) + written;
  }

  /**
   * The total line states len(devices); the rows list each distinct lookup,
   * None included, once with its number of devices, largest first, and these
   * numbers add up to the stated total.
   */
  lemma SummarySpec(devices: Dict<Info>, vendorOf: string -> Option<string>, pct: (int, int) -> string)
    ensures var lookups := Lookups(devices, vendorOf); var rows := SummaryRows(lookups);
            var lines := SummaryText(devices, vendorOf, pct);
            |lines| == |rows| + 6 && lines[3] == "Total Devices: " + IntToString(|devices|)
            && CountDesc(rows) && RowTotal(rows) == |devices|
            && (forall i :: 0 <= i < |rows| ==> rows[i].1 == multiset(lookups)[rows[i].0]
                                                 && lines[6 + i] == SummaryLine(rows[i].0, rows[i].1, pct(rows[i].1, |devices|)))
            && (forall x :: x in lookups ==> exists i :: 0 <= i < |rows| && rows[i].0 == x)
            && (forall i, j :: 0 <= i < j < |rows| ==> rows[i].0 != rows[j].0)
  {
    SummaryLines(devices, vendorOf, pct);
    SummaryRowsSpec(Lookups(devices, vendorOf));
  }

  /** The six head lines, the total among them, then one line per summary row. */
  lemma SummaryLines(devices: Dict<Info>, vendorOf: string -> Option<string>, pct: (int, int) -> string)
    ensures var rows := SummaryRows(Lookups(devices, vendorOf)); var lines := SummaryText(devices, vendorOf, pct);
            |lines| == |rows| + 6 && lines[3] == "Total Devices: " + IntToString(|devices|)
            && forall i :: 0 <= i < |rows| ==> lines[6 + i] == SummaryLine(rows[i].0, rows[i].1, pct(rows[i].1, |devices|))
  {
    var rows := SummaryRows(Lookups(devices, vendorOf));
    var body := seq(|rows|, i requires 0 <= i < |rows| => SummaryLine(rows[i].0, rows[i].1, pct(rows[i].1, |devices|)));
    HeadBody(SummaryHead(|devices|), body);
  }

  /** Indexing into head + body with a six-line head. */
  lemma HeadBody(head: seq<string>, body: seq<string>)
    requires |head| == 6
    ensures var lines := head + body;
            |lines| == |body| + 6 && lines[3] == head[3] && forall i :: 0 <= i < |body| ==> lines[6 + i] == body[i]
  {
  }
}
