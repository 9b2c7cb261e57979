/**
 * The four writers of shadowvendor/utils/vendor_output_handler.py: the
 * device CSV, the port report, the counters behind the HTML dashboard and
 * the text summary. In this copy a vendor lookup that finds nothing is
 * written as "Unknown" everywhere. What a writer puts in its file is
 * modelled as the list of rows or lines it writes.
 */
module ShadowVendorOutput {
  import opened Common
  import opened Text
  import opened Dicts
  import opened Sorting
  import opened Tally
  import opened HandlerInput
  import opened PortGrouping
  import opened VendorCounts
  import ShadowVendorApi

  // ---------------------------------------------------------------------
  // make_csv
  // ---------------------------------------------------------------------

  const DevicesHeader: seq<string> := ["MAC", "Vendor", "VLAN", "Port"]

  /** output/<stem>-Devices.csv */
  function DevicesCsvPath(inputFile: string): string
  {
    ShadowVendorApi.JoinPath("output", ShadowVendorApi.Stem(inputFile) + "-Devices.csv")
  }

  /** The device CSV of "<dir>/<base>.<ext>" is output/<base>-Devices.csv. */
  lemma DevicesCsvPathOf(dir: string, base: string, ext: string)
    requires base != [] && '/' !in base && '.' !in base && ext != [] && '/' !in ext && '.' !in ext
    ensures DevicesCsvPath(dir + "/" + base + "." + ext) == "output/" + base + "-Devices.csv"
  {
    ShadowVendorApi.StemOf(dir, base, ext);
  }

  /** One data row: the MAC, its vendor or "Unknown", its VLAN and port or "N/A". */
  function DeviceRow(mac: string, info: Info, vendorOf: string -> Option<string>): seq<string>
  {
    [mac, ShadowVendorApi.VendorName(vendorOf(mac)), info.vlan.GetOr("N/A"), info.port.GetOr("N/A")]
  }

  /** make_csv: the header, then one row per device in dict order. */
  method MakeCsv(inputFile: string, devices: Dict<Info>, vendorOf: string -> Option<string>)
    returns (path: string, rows: seq<seq<string>>)
    ensures path == DevicesCsvPath(inputFile)
    ensures |rows| == |devices| + 1 && rows[0] == DevicesHeader
    ensures forall i :: 0 <= i < |devices| ==> rows[i + 1] == DeviceRow(devices[i].0, devices[i].1, vendorOf)
  {
    path := DevicesCsvPath(inputFile);
    rows := [DevicesHeader];
    var i := 0;
    while i < |devices|
      invariant i <= |devices| && |rows| == i + 1 && rows[0] == DevicesHeader
      invariant forall k :: 0 <= k < i ==> rows[k + 1] == DeviceRow(devices[k].0, devices[k].1, vendorOf)
    {
      var mac := devices[i].0;
      var info := devices[i].1;
      var vendor := vendorOf(mac);
      var name := if vendor.Some? then vendor.value else "Unknown";
      rows := rows + [[mac, name, info.vlan.GetOr("N/A"), info.port.GetOr("N/A")]];
      i := i + 1;
    }
  }

  // ---------------------------------------------------------------------
  // generate_port_report
  // ---------------------------------------------------------------------

  const PortsHeader: seq<string> := ["Port", "Total Devices", "VLANs", "Vendors", "Devices"]

  /** os.path.join('output', os.path.basename(input_file).replace('.txt', '-Ports.csv')) */
  function PortsCsvPath(inputFile: string): string
  {
    ShadowVendorApi.JoinPath("output", ReplaceAll(ShadowVendorApi.FileName(inputFile), ".txt", "-Ports.csv"))
  }

  /** The report of "<dir>/<base>.txt" is output/<base>-Ports.csv. */
  lemma PortsCsvPathOfTxt(dir: string, base: string)
    requires '/' !in base && '.' !in base
    ensures PortsCsvPath(dir + "/" + base + ".txt") == "output/" + base + "-Ports.csv"
  {
    var p := dir + "/" + base + ".txt";
    assert p == dir + ['/'] + (base + ".txt");
    ShadowVendorApi.RFindBefore(dir, '/', base + ".txt");
    assert ShadowVendorApi.FileName(p) == base + ".txt";
    ReplaceSkip(base, ".txt", ".txt", "-Ports.csv");
    ReplaceWhole(".txt", "-Ports.csv");
  }

  /** A base name without ".txt" is not renamed: the report goes to output/<name> itself. */
  lemma PortsCsvPathNoTxt(name: string)
    requires '/' !in name && !Contains(name, ".txt")
    ensures PortsCsvPath(name) == "output/" + name
  {
    assert ShadowVendorApi.FileName(name) == name;
    ReplaceAbsent(name, ".txt", "-Ports.csv");
    OutputJoin(name);
  }

  /** os.path.join('output', x) for a file name x. */
  lemma OutputJoin(x: string)
    ensures ShadowVendorApi.JoinPath("output", x) == "output/" + x
  {
    var o := "output";
    assert o[|o| - 1] == 't';
    assert o + "/" + x == "output/" + x;
  }

  /** The evidently intended report path, output/<stem>-Ports.csv, which is the name analyze_file lists. */
  function PortsCsvPathFixed(inputFile: string): string
  {
    ShadowVendorApi.JoinPath("output", ShadowVendorApi.Stem(inputFile) + "-Ports.csv")
  }

  /** "output/<x>" taken from the output directory is the path under <output_dir>/output. */
  lemma UnderOutputDir(dir: string, x: string)
    ensures ShadowVendorApi.JoinPath(ShadowVendorApi.JoinPath(dir, "output"), x)
            == ShadowVendorApi.JoinPath(dir, ShadowVendorApi.JoinPath("output", x))
  {
    if dir == [] {
    } else if dir[|dir| - 1] == '/' {
      assert dir + "output" + "/" + x == dir + ("output" + "/" + x);
    } else {
      assert dir + "/" + "output" + "/" + x == dir + "/" + ("output" + "/" + x);
    }
  }

  /** The device CSV, and the port report at its corrected path, are the files analyze_file lists. */
  lemma ListedPaths(inputFile: string, opts: ShadowVendorApi.Options)
    ensures var stem := ShadowVendorApi.Stem(inputFile);
            ShadowVendorApi.OutputPath(ShadowVendorApi.DevicesCsv, opts, stem) == ShadowVendorApi.JoinPath(opts.outputDir, DevicesCsvPath(inputFile))
            && ShadowVendorApi.OutputPath(ShadowVendorApi.PortsCsv, opts, stem) == ShadowVendorApi.JoinPath(opts.outputDir, PortsCsvPathFixed(inputFile))
  {
    var stem := ShadowVendorApi.Stem(inputFile);
    UnderOutputDir(opts.outputDir, stem + "-Devices.csv");
    UnderOutputDir(opts.outputDir, stem + "-Ports.csv");
  }

  /** The corrected report never takes the device CSV's place. */
  lemma FixedPortsPathDistinct(inputFile: string)
    ensures PortsCsvPathFixed(inputFile) != DevicesCsvPath(inputFile)
  {
    var stem := ShadowVendorApi.Stem(inputFile);
    assert |PortsCsvPathFixed(inputFile)| == 7 + |stem| + 10;
    assert |DevicesCsvPath(inputFile)| == 7 + |stem| + 12;
  }

  /**
   * For an input "<dir>/<base>.<ext>" whose name has no 't' (such as
   * "logs/scan.log") the report is written to output/<base>.<ext>, not to
   * the listed output/<base>-Ports.csv.
   */
  lemma PortsPathUnlisted(dir: string, base: string, ext: string)
    requires base != [] && '/' !in base && '.' !in base && 't' !in base
    requires ext != [] && '/' !in ext && '.' !in ext && 't' !in ext
    ensures PortsCsvPath(dir + "/" + base + "." + ext) == "output/" + base + "." + ext
    ensures PortsCsvPathFixed(dir + "/" + base + "." + ext) == "output/" + base + "-Ports.csv"
    ensures PortsCsvPath(dir + "/" + base + "." + ext) != PortsCsvPathFixed(dir + "/" + base + "." + ext)
  {
    PortsPathAsWritten(dir, base, ext);
    PortsPathIntended(dir, base, ext);
    DotNotDash(base, ext);
  }

  lemma PortsPathAsWritten(dir: string, base: string, ext: string)
    requires '/' !in base && '.' !in base && 't' !in base && '/' !in ext && '.' !in ext && 't' !in ext
    ensures PortsCsvPath(dir + "/" + base + "." + ext) == "output/" + base + "." + ext
  {
    var name := base + "." + ext;
    SlashDotAssoc(dir, base, ext);
    ShadowVendorApi.FileNameAfterSlash(dir, name);
    LacksChar(name, ".txt", 1);
    PortsCsvPathUnrenamed(dir + "/" + name, name);
  }

  lemma PortsPathIntended(dir: string, base: string, ext: string)
    requires base != [] && '/' !in base && '.' !in base && ext != [] && '/' !in ext && '.' !in ext
    ensures PortsCsvPathFixed(dir + "/" + base + "." + ext) == "output/" + base + "-Ports.csv"
  {
    ShadowVendorApi.StemOf(dir, base, ext);
    OutputJoin(base + "-Ports.csv");
  }

  lemma SlashDotAssoc(dir: string, base: string, ext: string)
    ensures dir + "/" + base + "." + ext == dir + "/" + (base + "." + ext)
    ensures "output/" + base + "." + ext == "output/" + (base + "." + ext)
  {
  }

  /** A file name without ".txt" keeps its name in the port report path. */
  lemma PortsCsvPathUnrenamed(path: string, name: string)
    requires ShadowVendorApi.FileName(path) == name && !Contains(name, ".txt")
    ensures PortsCsvPath(path) == "output/" + name
  {
    ReplaceAbsent(name, ".txt", "-Ports.csv");
    OutputJoin(name);
  }

  /** The two paths differ right after the base name: '.' against '-'. */
  lemma DotNotDash(base: string, ext: string)
    ensures "output/" + base + "." + ext != "output/" + base + "-Ports.csv"
  {
    var w := "output/" + base + "." + ext;
    var f := "output/" + base + "-Ports.csv";
    assert w[7 + |base|] == '.' && f[7 + |base|] == '-';
  }

  /** The device as the grouping sees it: port and VLAN default to '', the vendor to "Unknown". */
  function PortRecs(devices: Dict<Info>, vendorOf: string -> Option<string>): (r: seq<Rec<string>>)
    ensures |r| == |devices|
    ensures forall i :: 0 <= i < |devices| ==>
              r[i] == Rec(devices[i].0, devices[i].1.port.GetOr(""), devices[i].1.vlan.GetOr(""), ShadowVendorApi.VendorName(vendorOf(devices[i].0)))
  {
    seq(|devices|, i requires 0 <= i < |devices| =>
      Rec(devices[i].0, devices[i].1.port.GetOr(""), devices[i].1.vlan.GetOr(""), ShadowVendorApi.VendorName(vendorOf(devices[i].0))))
  }

  /** One port's row: the count, the VLANs and vendors sorted and comma-joined, the MACs comma-joined. */
  function PortRow(port: string, info: PortInfo<string>): seq<string>
  {
    [port, NatToString(info.total), Join(",", Sort(info.vlans)), Join(",", Sort(info.vendors)), Join(",", info.macs)]
  }

  function PortRows(g: Dict<PortInfo<string>>): (r: seq<seq<string>>)
    ensures |r| == |g| && forall i :: 0 <= i < |g| ==> r[i] == PortRow(g[i].0, g[i].1)
  {
    seq(|g|, i requires 0 <= i < |g| => PortRow(g[i].0, g[i].1))
  }

  /** generate_port_report: the grouping loop, then the header and one row per port; is_mac_table plays no part. */
  method GeneratePortReport(inputFile: string, devices: Dict<Info>, vendorOf: string -> Option<string>, isMacTable: bool)
    returns (path: string, rows: seq<seq<string>>)
    ensures path == PortsCsvPath(inputFile)
    ensures rows == [PortsHeader] + PortRows(Group(PortRecs(devices, vendorOf)))
  {
    path := PortsCsvPath(inputFile);
    var rs := PortRecs(devices, vendorOf);
    var g := GroupByPort(rs);
    rows := WritePortRows(g);
  }

  /** The writer loop of generate_port_report. */
  method WritePortRows(g: Dict<PortInfo<string>>) returns (rows: seq<seq<string>>)
    ensures rows == [PortsHeader] + PortRows(g)
  {
    rows := [PortsHeader];
    var i := 0;
    while i < |g|
      invariant i <= |g| && |rows| == i + 1 && rows[0] == PortsHeader
      invariant forall k :: 0 <= k < i ==> rows[k + 1] == PortRow(g[k].0, g[k].1)
    {
      rows := rows + [PortRow(g[i].0, g[i].1)];
      i := i + 1;
    }
    assert rows == [PortsHeader] + PortRows(g) by {
      assert |rows| == |[PortsHeader] + PortRows(g)|;
      forall k | 0 <= k < |rows| ensures rows[k] == ([PortsHeader] + PortRows(g))[k] {
        if k > 0 {
          assert ([PortsHeader] + PortRows(g))[k] == PortRows(g)[k - 1];
        }
      }
    }
  }

  /**
   * One row per port in first-seen order; each row counts exactly the devices
   * on that port and lists their distinct VLANs and vendors, sorted, and their
   * MACs in input order; the counts add up to the number of devices.
   */
  lemma PortReportRows(devices: Dict<Info>, vendorOf: string -> Option<string>)
    ensures var rs := PortRecs(devices, vendorOf); var ports := Dedup(Ports(rs)); var rows := PortRows(Group(rs));
            |rows| == |ports|
            && (forall i :: 0 <= i < |ports| ==>
                  var on := OnPort(rs, ports[i]);
                  on != [] && rows[i] == [ports[i], NatToString(|on|), Join(",", Sort(Dedup(Vlans(on)))),
                                          Join(",", Sort(Dedup(Vendors(on)))), Join(",", Macs(on))])
            && SumTotals(Group(rs)) == |devices|
  {
    var rs := PortRecs(devices, vendorOf);
    var g := Group(rs);
    var ports := Dedup(Ports(rs));
    GroupKeys(rs);
    GroupTotals(rs);
    assert DistinctKeys(g) by {
      forall i, j | 0 <= i < j < |g| ensures g[i].0 != g[j].0 {
        assert Keys(g)[i] == g[i].0 && Keys(g)[j] == g[j].0;
      }
    }
    forall i | 0 <= i < |ports|
      ensures var on := OnPort(rs, ports[i]);
              on != [] && PortRows(g)[i] == [ports[i], NatToString(|on|), Join(",", Sort(Dedup(Vlans(on)))),
                                              Join(",", Sort(Dedup(Vendors(on)))), Join(",", Macs(on))]
    {
      assert Keys(g)[i] == g[i].0;
      GetAt(g, i);
      GroupAt(rs, ports[i]);
    }
  }

  // ---------------------------------------------------------------------
  // create_vendor_distribution
  // ---------------------------------------------------------------------

  /** What the counting loop reads per device: the VLAN ("N/A" when missing) and the vendor or "Unknown". */
  function SeenOf(devices: Dict<Info>, vendorOf: string -> Option<string>): (r: seq<Seen<string>>)
    ensures |r| == |devices|
    ensures forall i :: 0 <= i < |devices| ==> r[i] == Seen(devices[i].1.vlan.GetOr("N/A"), ShadowVendorApi.VendorName(vendorOf(devices[i].0)))
  {
    seq(|devices|, i requires 0 <= i < |devices| => Seen(devices[i].1.vlan.GetOr("N/A"), ShadowVendorApi.VendorName(vendorOf(devices[i].0))))
  }

  /**
   * vendor_counts and vlan_total_devices each add up to the number of devices;
   * vlan_total_devices[v] is the number of devices in VLAN v and
   * vlan_unique_vendors[v] the number of distinct vendors among them.
   */
  lemma DistributionCounts(devices: Dict<Info>, vendorOf: string -> Option<string>)
    ensures var ss := SeenOf(devices, vendorOf); var d := Distribute(ss);
            SumAt(Dedup(VendorsOf(ss)), d.vendorCounts) == |devices| && SumAt(Dedup(VlansOf(ss)), d.vlanTotals) == |devices|
            && (forall v :: v in d.vlanTotals ==> d.vlanTotals[v] == multiset(VlansOf(ss))[v])
            && (forall v :: v in d.vlanUnique ==> d.vlanUnique[v] == |Dedup(VendorsIn(ss, v))|)
  {
    var ss := SeenOf(devices, vendorOf);
    var d := Distribute(ss);
    DistributionConserved(ss);
    DistributeTotals(ss);
    forall v | v in d.vlanTotals ensures d.vlanTotals[v] == multiset(VlansOf(ss))[v] {
      CountSpec(VlansOf(ss), v);
    }
    forall v | v in d.vlanUnique ensures d.vlanUnique[v] == |Dedup(VendorsIn(ss, v))| {
      DistributeVlans(ss, v);
    }
  }

  // ---------------------------------------------------------------------
  // save_vendor_summary
  // ---------------------------------------------------------------------

  /** The vendor of each device in dict order, "Unknown" when the lookup fails. */
  function VendorList(devices: Dict<Info>, vendorOf: string -> Option<string>): (r: seq<string>)
    ensures |r| == |devices| && forall i :: 0 <= i < |devices| ==> r[i] == ShadowVendorApi.VendorName(vendorOf(devices[i].0))
  {
    seq(|devices|, i requires 0 <= i < |devices| => ShadowVendorApi.VendorName(vendorOf(devices[i].0)))
  }

  /** "-" * 50 */
  const Dashes: string := RepeatChar('-', 50)

  /** "=" * 50 */
  const Equals: string := RepeatChar('=', 50)

  /** f"{vendor:<30} {count:<10} {percentage:>6.1f}%", the formatted percentage given as pct. */
  function SummaryLine(vendor: string, count: int, pct: string): string
  {
    LeftAlign(vendor, 30) + " " + LeftAlign(IntToString(count), 10) + " " + RightAlign(pct, 6) + "%"
  }

  /** The column header f"{'Vendor':<30} {'Count':<10} {'Percentage':<10}". */
  function SummaryHeader(): string
  {
    LeftAlign("Vendor", 30) + " " + LeftAlign("Count", 10) + " " + LeftAlign("Percentage", 10)
  }

  /** The seven lines above the column header. */
  function SummaryTop(total: int): seq<string>
  {
    ["Network Device Vendor Summary", Equals, "", "Total Devices: " + IntToString(total), "", "Vendor Distribution:", Dashes]
  }

  /** The nine lines above the table rows: the seven above, the column header and a rule. */
  function SummaryHead(total: int): seq<string>
  {
    SummaryTop(total) + [SummaryHeader(), Dashes]
  }

  /**
   * vendor_summary.txt, line by line: the total is sum(vendor_counts.values())
   * and pct(count, total) is the text of (count / total) * 100 to one decimal.
   */
  function SummaryText(vendors: seq<string>, pct: (int, int) -> string): seq<string>
  {
    var rows := SummaryRows(vendors);
    var total := SumAt(Dedup(vendors), Count(vendors));
    SummaryHead(total) + RowLines(rows, total, pct) + [Dashes]
  }

  /** One line per (vendor, count) row, its percentage of total formatted by pct. */
  function RowLines(rows: seq<(string, int)>, total: int, pct: (int, int) -> string): (r: seq<string>)
    ensures |r| == |rows| && forall i :: 0 <= i < |rows| ==> r[i] == SummaryLine(rows[i].0, rows[i].1, pct(rows[i].1, total))
  {
    seq(|rows|, i requires 0 <= i < |rows| => SummaryLine(rows[i].0, rows[i].1, pct(rows[i].1, total)))
  }

  /** The lines of one more row are the lines so far and that row's line. */
  lemma RowLinesSnoc(rows: seq<(string, int)>, j: int, total: int, pct: (int, int) -> string)
    requires 0 <= j < |rows|
    ensures RowLines(rows[..j + 1], total, pct) == RowLines(rows[..j], total, pct) + [SummaryLine(rows[j].0, rows[j].1, pct(rows[j].1, total))]
  {
  }

  /** The Counter built by the counting loop, read back as items() in insertion order. */
  lemma CounterItems(vendors: seq<string>, order: seq<string>, counts: map<string, nat>)
    requires order == Dedup(vendors) && counts == Count(vendors)
    ensures forall k :: 0 <= k < |order| ==> order[k] in counts
    ensures seq(|order|, k requires 0 <= k < |order| && order[k] in counts => (order[k], counts[order[k]] as int)) == Items(vendors)
  {
    forall k | 0 <= k < |order| ensures order[k] in counts && counts[order[k]] == multiset(vendors)[order[k]] {
      CountSpec(vendors, order[k]);
    }
  }

  /** The counting loop of save_vendor_summary: the Counter's keys in insertion order, and its counts. */
  method CountVendors(devices: Dict<Info>, vendorOf: string -> Option<string>)
    returns (order: seq<string>, counts: map<string, nat>)
    ensures order == Dedup(VendorList(devices, vendorOf)) && counts == Count(VendorList(devices, vendorOf))
  {
    ghost var vendors := VendorList(devices, vendorOf);
    counts := map[];
    order := [];
    var i := 0;
    while i < |devices|
      invariant i <= |devices| && counts == Count(vendors[..i]) && order == Dedup(vendors[..i])
    {
      var found := vendorOf(devices[i].0);
      var vendor := if found.Some? then found.value else "Unknown";
      SliceSnoc(vendors, i);
      CountSnoc(vendors[..i], vendor);
      DedupAppend(vendors[..i], vendor);
      counts := Tick(counts, vendor);
      order := if vendor in order then order else order + [vendor];
      i := i + 1;
    }
    assert vendors[..i] == vendors;
  }

  /** The writer loop of save_vendor_summary: one line per row, between the head and the closing rule. */
  method WriteSummary(rows: seq<(string, int)>, total: int, pct: (int, int) -> string) returns (lines: seq<string>)
    ensures lines == SummaryHead(total) + RowLines(rows, total, pct) + [Dashes]
  {
    var written: seq<string> := [];
    var j := 0;
    while j < |rows|
      invariant j <= |rows| && written == RowLines(rows[..j], total, pct)
    {
      RowLinesSnoc(rows, j, total, pct);
      written := written + [SummaryLine(rows[j].0, rows[j].1, pct(rows[j].1, total))];
      j := j + 1;
    }
    assert rows[..j] == rows;
    lines := SummaryHead(total) + written + [Dashes];
  }

  /** save_vendor_summary: the counting loop, the total, the sort by count and the lines. */
  method SaveVendorSummary(devices: Dict<Info>, vendorOf: string -> Option<string>, pct: (int, int) -> string)
    returns (lines: seq<string>)
    ensures lines == SummaryText(VendorList(devices, vendorOf), pct)
  {
    ghost var vendors := VendorList(devices, vendorOf);
    var order, counts := CountVendors(devices, vendorOf);
    var total := SumAt(order, counts);
    CounterItems(vendors, order, counts);
    var items := seq(|order|, k requires 0 <= k < |order| && order[k] in counts => (order[k], counts[order[k]] as int));
    lines := WriteSummary(SortByCountDesc(items), total, pct);
  }

  /**
   * The total is the number of devices; the rows list each vendor seen exactly
   * once with its number of devices, largest first, between the nine head
   * lines and the closing rule.
   */
  lemma SummarySpec(devices: Dict<Info>, vendorOf: string -> Option<string>, pct: (int, int) -> string)
    ensures var vendors := VendorList(devices, vendorOf); var lines := SummaryText(vendors, pct);
            var rows := SummaryRows(vendors);
            |lines| == |rows| + 10 && lines[..9] == SummaryHead(|devices|) && lines[|lines| - 1] == Dashes
            && (forall i :: 0 <= i < |rows| ==> lines[9 + i] == SummaryLine(rows[i].0, rows[i].1, pct(rows[i].1, |devices|)))
            && CountDesc(rows)
            && (forall i :: 0 <= i < |rows| ==> rows[i].0 in vendors && rows[i].1 == multiset(vendors)[rows[i].0])
            && (forall x :: x in vendors ==> exists i :: 0 <= i < |rows| && rows[i].0 == x)
            && (forall i, j :: 0 <= i < j < |rows| ==> rows[i].0 != rows[j].0)
  {
    var vendors := VendorList(devices, vendorOf);
    CounterTotal(vendors);
    SummaryLayout(vendors, pct, |devices|);
    SummaryRowsSpec(vendors);
  }

  /** The nine head lines with the given total, one line per row, and the closing rule. */
  lemma SummaryLayout(vendors: seq<string>, pct: (int, int) -> string, total: int)
    requires SumAt(Dedup(vendors), Count(vendors)) == total
    ensures var lines := SummaryText(vendors, pct); var rows := SummaryRows(vendors);
            |lines| == |rows| + 10 && lines[..9] == SummaryHead(total) && lines[|lines| - 1] == Dashes
            && (forall i :: 0 <= i < |rows| ==> lines[9 + i] == SummaryLine(rows[i].0, rows[i].1, pct(rows[i].1, total)))
  {
    var rows := SummaryRows(vendors);
    HeadBodyRule(SummaryHead(total), RowLines(rows, total, pct), Dashes);
  }

  /** Indexing into head + body + [rule] with a nine-line head. */
  lemma HeadBodyRule(head: seq<string>, body: seq<string>, rule: string)
    requires |head| == 9
    ensures var lines := head + body + [rule];
            |lines| == |body| + 10 && lines[..9] == head && lines[|lines| - 1] == rule
            && forall i :: 0 <= i < |body| ==> lines[9 + i] == body[i]
  {
    var lines := head + body + [rule];
    assert lines[..9] == head;
  }
}
