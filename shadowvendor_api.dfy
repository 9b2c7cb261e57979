/**
 * analyze_file of the packaged ShadowVendor API (shadowvendor/api.py): the
 * input type is decided from the first two lines, the header lines of an
 * ARP or MAC table are skipped, every further line is read into the device
 * table, each device is given its vendor, and the list of report files the
 * run writes is returned with the counts. The vendor lookup of the OUI
 * manager is a parameter.
 */
module ShadowVendorApi {
  import opened Common
  import opened Text
  import opened Dicts
  import opened DeviceTable
  import MacText
  import ShadowCore

  // ---------------------------------------------------------------------
  // The input-type decision
  // ---------------------------------------------------------------------

  /** f.readline().strip(), or "" for an empty file. */
  function FirstLine(lines: seq<string>): string
  {
    if lines == [] then "" else Strip(lines[0])
  }

  /** The second line, stripped, read only when the first is not blank. */
  function SecondLine(lines: seq<string>): string
  {
    if FirstLine(lines) != [] && |lines| >= 2 then Strip(lines[1]) else ""
  }

  predicate IsMacList(lines: seq<string>)
  {
    ShadowCore.IsMacAddress(FirstLine(lines))
  }

  /** Besides the keywords of the script, a second line that is itself an ARP header or data row marks an ARP table. */
  predicate IsArpTableFile(lines: seq<string>)
  {
    var first, second := FirstLine(lines), SecondLine(lines);
    !IsMacList(lines)
    && (StartsWith(first, "Protocol") || Contains(first, "Internet") || Contains(second, "Internet")
        || (second != [] && ShadowCore.IsArpTable(second)))
  }

  function Kind(lines: seq<string>): InputKind
  {
    if IsMacList(lines) then MacList else if IsArpTableFile(lines) then ArpTable else MacTable
  }

  /** The header lines passed over before the loop: header and separator of a MAC table, the header of an ARP table. */
  function HeaderLines(kind: InputKind): (n: nat)
    ensures n <= 2
  {
    match kind
    case MacTable => 2
    case ArpTable => 1
    case MacList => 0
  }

  /** The lines the loop sees once next(f, None) has run n times. */
  function Body(lines: seq<string>, n: nat): (r: seq<string>)
    ensures |r| == if |lines| <= n then 0 else |lines| - n
    ensures forall i :: 0 <= i < |r| ==> r[i] == lines[n + i]
  {
    if |lines| <= n then [] else lines[n..]
  }

  /** The kind reported is the one flag that holds, and its input_type string names it. */
  lemma KindSpec(lines: seq<string>)
    ensures Kind(lines) == MacList <==> ShadowCore.IsMacAddress(FirstLine(lines))
    ensures Kind(lines) == ArpTable <==> IsArpTableFile(lines)
    ensures Kind(lines) == MacTable <==> !IsMacList(lines) && !IsArpTableFile(lines)
    ensures Kind(lines).Name() == (if IsMacList(lines) then "mac_list" else if IsArpTableFile(lines) then "arp_table" else "mac_table")
  {
  }

  // ---------------------------------------------------------------------
  // What one stripped line yields
  // ---------------------------------------------------------------------

  /** A MAC-list line: lower-cased, checked and formatted; no VLAN and no port. */
  function MacListRow(line: string): Option<Row>
  {
    var mac := Lower(line);
    if ShadowCore.IsMacAddress(mac) && ShadowCore.FormatMacAddress(mac).Some? then
      Some(Row(ShadowCore.FormatMacAddress(mac).value, Device("N/A", "N/A"), false))
    else None
  }

  /** An ARP line: header lines are passed over; a data row gives the fourth field's MAC and the VLAN of the sixth field's interface. */
  function ArpRow(line: string): Option<Row>
  {
    if Contains(line, "Protocol") then None
    else
      var parts := SplitN(line, 5);
      if |parts| >= 6 && parts[0] == "Internet" then
        var mac := ShadowCore.FormatMacAddress(Strip(parts[3]));
        if mac.Some? then Some(Row(mac.value, Device(ShadowCore.InterfaceVlan(Strip(parts[5])), "N/A"), false))
        else None
      else None
  }

  /** A MAC-table line: at least four fields, an integer first field written back as str(int(...)), the port from the fourth field. */
  function TableRow(line: string): Option<Row>
  {
    var parts := SplitN(line, 4);
    if |parts| >= 4 && ParseInt(parts[0]).Some? then
      var mac := ShadowCore.FormatMacAddress(parts[1]);
      if mac.Some? then Some(Row(mac.value, Device(IntToString(ParseInt(parts[0]).value), parts[3]), true))
      else None
    else None
  }

  function RowFor(kind: InputKind): string -> Option<Row>
  {
    match kind
    case MacList => MacListRow
    case ArpTable => ArpRow
    case MacTable => TableRow
  }

  /** Every MAC a line can yield is a formatted one: seventeen characters with a colon after every pair. */
  lemma RowsFormatted(kind: InputKind, raw: string)
    requires ReadWith(RowFor(kind))(raw).Found?
    ensures var k := ReadWith(RowFor(kind))(raw).row.mac;
            |k| == 17 && forall i :: 0 <= i < 17 && i % 3 == 2 ==> k[i] == ':'
  {
    var line := Strip(raw);
    var r := RowFor(kind)(line);
    assert r.Some? && ReadWith(RowFor(kind))(raw).row == r.value;
    var mac := match kind
      case MacList => Lower(line)
      case ArpTable => Strip(SplitN(line, 5)[3])
      case MacTable => SplitN(line, 4)[1];
    assert r.value.mac == ShadowCore.FormatMacAddress(mac).value;
  }

  /** The row "<w> <mac> <type> <port>" of a MAC table is stored under the formatted MAC, in VLAN str(int(w)) on that port: a zero-padded "010" is reported as VLAN "10". */
  lemma TableRowFields(w: string, mac: string, typ: string, port: string)
    requires w != [] && NoSpace(w) && mac != [] && NoSpace(mac) && typ != [] && NoSpace(typ)
    requires port != [] && NoSpace(port)
    requires ParseInt(w).Some? && ShadowCore.FormatMacAddress(mac).Some?
    ensures TableRow(w + " " + (mac + " " + (typ + " " + port)))
            == Some(Row(ShadowCore.FormatMacAddress(mac).value, Device(IntToString(ParseInt(w).value), port), true))
  {
    var line := w + " " + (mac + " " + (typ + " " + port));
    TableSplit(w, mac, typ, port);
    TableRowOf(line, [w, mac, typ, port]);
  }

  /** The four fields of "<w> <mac> <type> <port>" come back from line.split(None, 4). */
  lemma TableSplit(w: string, mac: string, typ: string, port: string)
    requires w != [] && NoSpace(w) && mac != [] && NoSpace(mac) && typ != [] && NoSpace(typ)
    requires port != [] && NoSpace(port)
    ensures SplitN(w + " " + (mac + " " + (typ + " " + port)), 4) == [w, mac, typ, port]
  {
    SplitNWordAlone(port, 1);
    SplitNWord(typ, port, 1);
    SplitNWord(mac, typ + " " + port, 2);
    SplitNWord(w, mac + " " + (typ + " " + port), 3);
  }

  /** A line splitting into exactly four fields is read from those fields. */
  lemma TableRowOf(line: string, parts: seq<string>)
    requires SplitN(line, 4) == parts && |parts| == 4
    requires ParseInt(parts[0]).Some? && ShadowCore.FormatMacAddress(parts[1]).Some?
    ensures TableRow(line)
            == Some(Row(ShadowCore.FormatMacAddress(parts[1]).value, Device(IntToString(ParseInt(parts[0]).value), parts[3]), true))
  {
  }

  /** A zero-padded VLAN field is written back without its leading zero. */
  lemma ZeroPaddedVlanNormalised(n: nat, mac: string, typ: string, port: string)
    requires mac != [] && NoSpace(mac) && typ != [] && NoSpace(typ) && port != [] && NoSpace(port)
    requires ShadowCore.FormatMacAddress(mac).Some?
    ensures var w := "0" + NatToString(n);
            TableRow(w + " " + (mac + " " + (typ + " " + port)))
            == Some(Row(ShadowCore.FormatMacAddress(mac).value, Device(NatToString(n), port), true))
  {
    var w := "0" + NatToString(n);
    ParseIntZeroPadded(n);
    TableRowFields(w, mac, typ, port);
  }

  // ---------------------------------------------------------------------
  // Vendor enrichment
  // ---------------------------------------------------------------------

  /** {'vlan': ..., 'port': ..., 'vendor': ...} */
  datatype Entry = Entry(vlan: string, port: string, vendor: string)

  /** The vendor stored for a lookup: the vendor found, or "Unknown". */
  function VendorName(found: Option<string>): string
  {
    found.GetOr("Unknown")
  }

  /** Every device given the vendor looked up for its MAC, in the table's order. */
  function Enrich(devices: Dict<Device>, vendorOf: string -> Option<string>): (r: Dict<Entry>)
    ensures |r| == |devices|
    ensures forall i :: 0 <= i < |r| ==>
              r[i].0 == devices[i].0
              && r[i].1 == Entry(devices[i].1.vlan, devices[i].1.port, VendorName(vendorOf(devices[i].0)))
  {
    if devices == [] then []
    else
      var n := |devices| - 1;
      var e := devices[n];
      Enrich(devices[..n], vendorOf) + [(e.0, Entry(e.1.vlan, e.1.port, VendorName(vendorOf(e.0))))]
  }

  /** The set of vendors the entries carry. */
  function VendorsOf(entries: Dict<Entry>): (r: set<string>)
    ensures |r| <= |entries|
    ensures entries != [] ==> |r| >= 1
  {
    if entries == [] then {}
    else VendorsOf(entries[..|entries| - 1]) + {entries[|entries| - 1].1.vendor}
  }

  /** A vendor is counted exactly when some entry carries it. */
  lemma {:induction false} VendorsOfMembers(entries: Dict<Entry>, v: string)
    ensures v in VendorsOf(entries) <==> exists i :: 0 <= i < |entries| && entries[i].1.vendor == v
  {
    if entries != [] {
      var n := |entries| - 1;
      var p := entries[..n];
      VendorsOfMembers(p, v);
      if exists i :: 0 <= i < |entries| && entries[i].1.vendor == v {
        var i :| 0 <= i < |entries| && entries[i].1.vendor == v;
        if i < n {
          assert p[i] == entries[i];
        }
      }
      if exists i :: 0 <= i < n && p[i].1.vendor == v {
        var i :| 0 <= i < n && p[i].1.vendor == v;
        assert entries[i] == p[i];
      }
    }
  }

  /** Enrichment keeps the MACs and each device's VLAN and port, and adds the looked-up vendor. */
  lemma EnrichGet(devices: Dict<Device>, vendorOf: string -> Option<string>, k: string)
    requires DistinctKeys(devices)
    ensures Keys(Enrich(devices, vendorOf)) == Keys(devices) && DistinctKeys(Enrich(devices, vendorOf))
    ensures Get(Enrich(devices, vendorOf), k)
            == match Get(devices, k)
               case None => None
               case Some(d) => Some(Entry(d.vlan, d.port, VendorName(vendorOf(k))))
  {
    var r := Enrich(devices, vendorOf);
    assert Keys(r) == Keys(devices);
    if k in Keys(devices) {
      var i :| 0 <= i < |devices| && Keys(devices)[i] == k;
      GetAt(devices, i);
      GetAt(r, i);
    }
  }

  /** The enrichment loop: each device's vendor looked up, stored, and added to the vendor set. */
  method EnrichDevices(devices: Dict<Device>, vendorOf: string -> Option<string>)
    returns (entries: Dict<Entry>, vendors: set<string>)
    ensures entries == Enrich(devices, vendorOf) && vendors == VendorsOf(entries)
  {
    entries, vendors := [], {};
    var i := 0;
    while i < |devices|
      invariant i <= |devices|
      invariant entries == Enrich(devices[..i], vendorOf) && vendors == VendorsOf(entries)
    {
      assert devices[..i + 1][..i] == devices[..i];
      var mac := devices[i].0;
      var vendor := VendorName(vendorOf(mac));
      entries := entries + [(mac, Entry(devices[i].1.vlan, devices[i].1.port, vendor))];
      assert entries[..|entries| - 1] == Enrich(devices[..i], vendorOf);
      vendors := vendors + {vendor};
      i := i + 1;
    }
    assert devices[..i] == devices;
  }

  // ---------------------------------------------------------------------
  // Report files
  // ---------------------------------------------------------------------

  /** The files a run writes. */
  datatype Output = DevicesCsv | PortsCsv | DistributionHtml | SummaryTxt | SiemCsv | SiemJson | DriftCsv

  /** The run's options that decide which files are written and where. */
  datatype Options = Options(outputDir: string, historyDir: Option<string>, analyzeDrift: bool, siemExport: bool)

  /** `if history_dir:`: a history directory was given and is not empty. */
  predicate HistoryGiven(opts: Options)
  {
    opts.historyDir.Some? && opts.historyDir.value != []
  }

  /** The files in the order they are appended. */
  function Outputs(kind: InputKind, opts: Options): seq<Output>
  {
    OutputList(kind == MacTable, opts.siemExport, opts.analyzeDrift && HistoryGiven(opts))
  }

  /** The list built from the three decisions: a port report, SIEM files, a drift CSV. */
  function OutputList(ports: bool, siem: bool, drift: bool): seq<Output>
  {
    [DevicesCsv] + (if ports then [PortsCsv] else []) + [DistributionHtml, SummaryTxt]
    + (if siem then [SiemCsv, SiemJson] else [])
    + (if drift then [DriftCsv] else [])
  }

  /** The three reports are always written; the port report exactly for MAC tables, both SIEM files exactly when asked for, and the drift CSV exactly when drift analysis is asked for with a history directory; nothing twice. */
  lemma OutputsSpec(kind: InputKind, opts: Options)
    ensures var outs := Outputs(kind, opts);
            DevicesCsv in outs && DistributionHtml in outs && SummaryTxt in outs
            && (PortsCsv in outs <==> kind == MacTable)
            && (SiemCsv in outs <==> opts.siemExport) && (SiemJson in outs <==> opts.siemExport)
            && (DriftCsv in outs <==> opts.analyzeDrift && HistoryGiven(opts))
            && |outs| == 3 + (if kind == MacTable then 1 else 0) + (if opts.siemExport then 2 else 0)
                         + (if opts.analyzeDrift && HistoryGiven(opts) then 1 else 0)
            && forall i, j :: 0 <= i < j < |outs| ==> outs[i] != outs[j]
  {
    OutputListSpec(kind == MacTable, opts.siemExport, opts.analyzeDrift && HistoryGiven(opts));
  }

  lemma OutputListSpec(p: bool, x: bool, d: bool)
    ensures var outs := OutputList(p, x, d);
            DevicesCsv in outs && DistributionHtml in outs && SummaryTxt in outs
            && (PortsCsv in outs <==> p) && (SiemCsv in outs <==> x) && (SiemJson in outs <==> x)
            && (DriftCsv in outs <==> d)
            && |outs| == 3 + (if p then 1 else 0) + (if x then 2 else 0) + (if d then 1 else 0)
            && forall i, j :: 0 <= i < j < |outs| ==> outs[i] != outs[j]
  {
    OutputListMembers(p, x, d);
    OutputListRanked(p, x, d);
    RankedDistinct(OutputList(p, x, d));
  }

  lemma OutputListMembers(p: bool, x: bool, d: bool)
    ensures var outs := OutputList(p, x, d);
            DevicesCsv in outs && DistributionHtml in outs && SummaryTxt in outs
            && (PortsCsv in outs <==> p) && (SiemCsv in outs <==> x) && (SiemJson in outs <==> x)
            && (DriftCsv in outs <==> d)
            && |outs| == 3 + (if p then 1 else 0) + (if x then 2 else 0) + (if d then 1 else 0)
  {
    var a := [DevicesCsv] + (if p then [PortsCsv] else []);
    var b := a + [DistributionHtml, SummaryTxt];
    var c := b + (if x then [SiemCsv, SiemJson] else []);
    assert OutputList(p, x, d) == c + (if d then [DriftCsv] else []);
    assert DevicesCsv in a && DistributionHtml in b && SummaryTxt in b;
    assert PortsCsv in b <==> p;
    assert SiemCsv !in b && SiemJson !in b && DriftCsv !in c;
  }

  lemma OutputListRanked(p: bool, x: bool, d: bool)
    ensures var outs := OutputList(p, x, d);
            forall i :: 0 <= i < |outs| - 1 ==> Rank(outs[i]) < Rank(outs[i + 1])
  {
    var outs := OutputList(p, x, d);
    if p && x && d {
      assert outs == [DevicesCsv, PortsCsv, DistributionHtml, SummaryTxt, SiemCsv, SiemJson, DriftCsv];
    } else if p && x {
      assert outs == [DevicesCsv, PortsCsv, DistributionHtml, SummaryTxt, SiemCsv, SiemJson];
    } else if p && d {
      assert outs == [DevicesCsv, PortsCsv, DistributionHtml, SummaryTxt, DriftCsv];
    } else if p {
      assert outs == [DevicesCsv, PortsCsv, DistributionHtml, SummaryTxt];
    } else if x && d {
      assert outs == [DevicesCsv, DistributionHtml, SummaryTxt, SiemCsv, SiemJson, DriftCsv];
    } else if x {
      assert outs == [DevicesCsv, DistributionHtml, SummaryTxt, SiemCsv, SiemJson];
    } else if d {
      assert outs == [DevicesCsv, DistributionHtml, SummaryTxt, DriftCsv];
    } else {
      assert outs == [DevicesCsv, DistributionHtml, SummaryTxt];
    }
  }

  /** The place of each file in the order Outputs appends them. */
  function Rank(o: Output): nat
  {
    match o
    case DevicesCsv => 0
    case PortsCsv => 1
    case DistributionHtml => 2
    case SummaryTxt => 3
    case SiemCsv => 4
    case SiemJson => 5
    case DriftCsv => 6
  }

  /** Files listed in strictly increasing rank are listed once each. */
  lemma RankedDistinct(outs: seq<Output>)
    requires forall i :: 0 <= i < |outs| - 1 ==> Rank(outs[i]) < Rank(outs[i + 1])
    ensures forall i, j :: 0 <= i < j < |outs| ==> outs[i] != outs[j]
  {
    RankedIncreasing(outs);
  }

  lemma {:induction false} RankedIncreasing(outs: seq<Output>)
    requires forall i :: 0 <= i < |outs| - 1 ==> Rank(outs[i]) < Rank(outs[i + 1])
    ensures forall i, j :: 0 <= i < j < |outs| ==> Rank(outs[i]) < Rank(outs[j])
  {
    if |outs| > 1 {
      RankedIncreasing(outs[1..]);
      forall i, j | 0 <= i < j < |outs| ensures Rank(outs[i]) < Rank(outs[j]) {
        if i > 0 {
          assert outs[i] == outs[1..][i - 1] && outs[j] == outs[1..][j - 1];
        } else if j > 1 {
          assert outs[1] == outs[1..][0] && outs[j] == outs[1..][j - 1];
        }
      }
    }
  }

  /** Path(a) / b written out: no separator is added after an empty or '/'-ended directory. */
  function JoinPath(dir: string, name: string): string
  {
    if dir == [] then name else if dir[|dir| - 1] == '/' then dir + name else dir + "/" + name
  }

  /** The index of the last c in s, or -1: str.rfind. */
  function RFind(s: string, c: char): (r: int)
    ensures -1 <= r < |s|
    ensures r >= 0 ==> s[r] == c
    ensures forall j :: r < j < |s| ==> s[j] != c
  {
    if s == [] then -1 else if s[|s| - 1] == c then |s| - 1 else RFind(s[..|s| - 1], c)
  }

  /** The final path component. */
  function FileName(path: string): string
  {
    path[RFind(path, '/') + 1..]
  }

  /** PurePath.stem: the name without its last suffix; a leading or trailing dot is not a suffix. */
  function Stem(path: string): (r: string)
    ensures '/' !in r
  {
    var name := FileName(path);
    var i := RFind(name, '.');
    if 0 < i < |name| - 1 then name[..i] else name
  }

  /** After text lacking c, the last c is the one before it. */
  lemma {:induction false} RFindBefore(s: string, c: char, t: string)
    requires c !in t
    ensures RFind(s + [c] + t, c) == |s|
  {
    if t != [] {
      var u := s + [c] + t;
      assert u[..|u| - 1] == s + [c] + t[..|t| - 1];
      RFindBefore(s, c, t[..|t| - 1]);
    }
  }

  /** The final component of "<dir>/<name>" is name when name has no '/'. */
  lemma FileNameAfterSlash(dir: string, name: string)
    requires '/' !in name
    ensures FileName(dir + "/" + name) == name
  {
    var p := dir + "/" + name;
    assert p == dir + ['/'] + name;
    RFindBefore(dir, '/', name);
    assert p[|dir| + 1..] == name;
  }

  /** The stem of "<dir>/<base>.<ext>" is base. */
  lemma StemOf(dir: string, base: string, ext: string)
    requires base != [] && '/' !in base && '.' !in base && ext != [] && '/' !in ext && '.' !in ext
    ensures Stem(dir + "/" + base + "." + ext) == base
  {
    var p := dir + "/" + base + "." + ext;
    assert p == dir + ['/'] + (base + "." + ext);
    RFindBefore(dir, '/', base + "." + ext);
    assert FileName(p) == base + "." + ext;
    assert base + "." + ext == base + ['.'] + ext;
    RFindBefore(base, '.', ext);
  }

  /** Where each file is written: the reports under <output_dir>/output, the drift CSV in the history directory. */
  function OutputPath(o: Output, opts: Options, stem: string): string
  {
    var out := JoinPath(opts.outputDir, "output");
    match o
    case DevicesCsv => JoinPath(out, stem + "-Devices.csv")
    case PortsCsv => JoinPath(out, stem + "-Ports.csv")
    case DistributionHtml => JoinPath(out, "vendor_distribution.html")
    case SummaryTxt => JoinPath(out, "vendor_summary.txt")
    case SiemCsv => JoinPath(JoinPath(out, "siem"), "shadowvendor_siem.csv")
    case SiemJson => JoinPath(JoinPath(out, "siem"), "shadowvendor_siem.json")
    case DriftCsv => JoinPath(opts.historyDir.GetOr(""), "vendor_drift.csv")
  }

  function OutputPaths(outs: seq<Output>, opts: Options, stem: string): (r: seq<string>)
    ensures |r| == |outs| && forall i :: 0 <= i < |r| ==> r[i] == OutputPath(outs[i], opts, stem)
  {
    if outs == [] then [] else OutputPaths(outs[..|outs| - 1], opts, stem) + [OutputPath(outs[|outs| - 1], opts, stem)]
  }

  /** Every file name ends the path it is written to, and the device and port reports carry the input's stem. */
  lemma OutputPathNamed(o: Output, opts: Options, stem: string)
    ensures var name := match o
              case DevicesCsv => stem + "-Devices.csv"
              case PortsCsv => stem + "-Ports.csv"
              case DistributionHtml => "vendor_distribution.html"
              case SummaryTxt => "vendor_summary.txt"
              case SiemCsv => "shadowvendor_siem.csv"
              case SiemJson => "shadowvendor_siem.json"
              case DriftCsv => "vendor_drift.csv";
            var p := OutputPath(o, opts, stem);
            |name| <= |p| && p[|p| - |name|..] == name
  {
  }

  // ---------------------------------------------------------------------
  // The call
  // ---------------------------------------------------------------------

  /** FileNotFoundError, and the two ValueErrors. */
  datatype Failure = FileNotFound | EmptyInput | NoMacAddresses

  /** The returned dictionary. */
  datatype Analysis = Analysis(deviceCount: nat, vendorCount: nat, outputFiles: seq<string>, inputType: string,
                               devices: Dict<Entry>)

  /** The table the line loop builds: the lines after the headers, each read as the kind says. */
  function Collected(lines: seq<string>): Tally
  {
    var kind := Kind(lines);
    Scan(Body(lines, HeaderLines(kind)), ReadWith(RowFor(kind)))
  }

  /** analyze_file on a file given as its lines (None when it does not exist), its path, and the lookup. */
  function Analyze(file: Option<seq<string>>, path: string, opts: Options, vendorOf: string -> Option<string>)
    : Result<Analysis, Failure>
  {
    if file.None? then Err(FileNotFound)
    else if file.value == [] then Err(EmptyInput)
    else
      var lines := file.value;
      var kind := Kind(lines);
      var t := Collected(lines);
      if t.devices == [] then Err(NoMacAddresses)
      else
        var entries := Enrich(t.devices, vendorOf);
        Ok(Analysis(|entries|, |VendorsOf(entries)|, OutputPaths(Outputs(kind, opts), opts, Stem(path)),
                    kind.Name(), entries))
  }

  /** The three errors are raised exactly in their cases. */
  lemma AnalyzeErrors(file: Option<seq<string>>, path: string, opts: Options, vendorOf: string -> Option<string>)
    ensures var r := Analyze(file, path, opts, vendorOf);
            (r == Err(FileNotFound) <==> file.None?)
            && (r == Err(EmptyInput) <==> file == Some([]))
            && (r == Err(NoMacAddresses) <==> file.Some? && file.value != [] && Collected(file.value).devices == [])
  {
  }

  /** No device is found exactly when no line after the headers yields one. */
  lemma NoMacAddressesSpec(lines: seq<string>)
    ensures var kind := Kind(lines); var body := Body(lines, HeaderLines(kind));
            Collected(lines).devices == [] <==> forall i :: 0 <= i < |body| ==> !ReadWith(RowFor(kind))(body[i]).Found?
  {
    var kind := Kind(lines);
    NoDevices(Body(lines, HeaderLines(kind)), ReadWith(RowFor(kind)));
  }

  /** Enriching a table with distinct keys: the same keys, each entry's VLAN and port kept, the vendor looked up, and between one vendor and one per device. */
  lemma EnrichedFacts(d: Dict<Device>, vendorOf: string -> Option<string>, k: string)
    requires DistinctKeys(d) && d != []
    ensures var e := Enrich(d, vendorOf);
            DistinctKeys(e) && 1 <= |VendorsOf(e)| <= |e| == |d|
            && (k in Keys(e) <==> k in Keys(d))
            && (k in Keys(e) ==> var x := Get(e, k).value;
                                  x.vendor == VendorName(vendorOf(k)) && Get(d, k) == Some(Device(x.vlan, x.port)))
  {
    EnrichGet(d, vendorOf, k);
  }

  /** The enriched table of a run of lines: each formatted MAC found once, with the entry of the last line yielding it and the vendor looked up. */
  lemma EnrichedScan(kind: InputKind, body: seq<string>, vendorOf: string -> Option<string>, k: string)
    requires Scan(body, ReadWith(RowFor(kind))).devices != []
    ensures var read := ReadWith(RowFor(kind));
            var t := Scan(body, read);
            var e := Enrich(t.devices, vendorOf);
            DistinctKeys(e) && 1 <= |VendorsOf(e)| <= |e| <= |body|
            && (k in Keys(e) <==> exists i :: 0 <= i < |body| && YieldsAt(body, read, i, k))
            && (k in Keys(e) ==> |k| == 17 && k[2] == ':' && k[14] == ':')
            && (k in Keys(e) ==> var x := Get(e, k).value;
                                  x.vendor == VendorName(vendorOf(k)) && Get(t.devices, k) == Some(Device(x.vlan, x.port)))
  {
    var read := ReadWith(RowFor(kind));
    var d := Scan(body, read).devices;
    ScanCounts(body, read);
    ScannedKeys(kind, body, k);
    EnrichedFacts(d, vendorOf, k);
  }

  /** A key stored by the loop is a formatted MAC some line yielded. */
  lemma ScannedKeys(kind: InputKind, body: seq<string>, k: string)
    ensures var read := ReadWith(RowFor(kind));
            var d := Scan(body, read).devices;
            (k in Keys(d) <==> exists i :: 0 <= i < |body| && YieldsAt(body, read, i, k))
            && (k in Keys(d) ==> |k| == 17 && k[2] == ':' && k[14] == ':')
  {
    var read := ReadWith(RowFor(kind));
    ScanKeys(body, read, k);
    if k in Keys(Scan(body, read).devices) {
      var i :| 0 <= i < |body| && YieldsAt(body, read, i, k);
      RowsFormatted(kind, body[i]);
      ColonsAt(k);
    }
  }

  lemma ColonsAt(k: string)
    requires |k| == 17 && forall i :: 0 <= i < 17 && i % 3 == 2 ==> k[i] == ':'
    ensures k[2] == ':' && k[14] == ':'
  {
    assert 2 % 3 == 2 && 14 % 3 == 2;
  }

  /** On success the input type is the detected kind's name, the devices are the formatted MACs yielded by the lines after the headers, each once, with the VLAN and port stored for it and the vendor looked up, and at least one vendor and no more vendors than devices are counted. */
  lemma AnalyzeDevices(lines: seq<string>, path: string, opts: Options, vendorOf: string -> Option<string>, k: string)
    requires Analyze(Some(lines), path, opts, vendorOf).Ok?
    ensures var kind := Kind(lines);
            var body := Body(lines, HeaderLines(kind));
            var read := ReadWith(RowFor(kind));
            var a := Analyze(Some(lines), path, opts, vendorOf).value;
            a.inputType == kind.Name() && DistinctKeys(a.devices)
            && 1 <= a.vendorCount <= a.deviceCount == |a.devices| <= |body|
            && (k in Keys(a.devices) <==> exists i :: 0 <= i < |body| && YieldsAt(body, read, i, k))
            && (k in Keys(a.devices) ==> |k| == 17 && k[2] == ':' && k[14] == ':')
            && (k in Keys(a.devices) ==> var x := Get(a.devices, k).value;
                                          x.vendor == VendorName(vendorOf(k))
                                          && Get(Collected(lines).devices, k) == Some(Device(x.vlan, x.port)))
  {
    var kind := Kind(lines);
    AnalyzeValue(lines, path, opts, vendorOf);
    EnrichedScan(kind, Body(lines, HeaderLines(kind)), vendorOf, k);
  }

  /** The dictionary returned on success, field by field. */
  lemma AnalyzeValue(lines: seq<string>, path: string, opts: Options, vendorOf: string -> Option<string>)
    requires Analyze(Some(lines), path, opts, vendorOf).Ok?
    ensures var e := Enrich(Collected(lines).devices, vendorOf);
            Analyze(Some(lines), path, opts, vendorOf).value
            == Analysis(|e|, |VendorsOf(e)|, OutputPaths(Outputs(Kind(lines), opts), opts, Stem(path)), Kind(lines).Name(), e)
  {
  }

  /** The files listed are the ones Outputs names for the detected kind and the options, in order, at their paths. */
  lemma AnalyzeOutputs(lines: seq<string>, path: string, opts: Options, vendorOf: string -> Option<string>)
    requires Analyze(Some(lines), path, opts, vendorOf).Ok?
    ensures var files := Analyze(Some(lines), path, opts, vendorOf).value.outputFiles;
            var outs := Outputs(Kind(lines), opts);
            |files| == |outs| && forall i :: 0 <= i < |files| ==> files[i] == OutputPath(outs[i], opts, Stem(path))
  {
    AnalyzeValue(lines, path, opts, vendorOf);
  }

  /** A vendor is counted exactly when some device was given it. */
  lemma VendorCountSpec(file: Option<seq<string>>, path: string, opts: Options, vendorOf: string -> Option<string>, v: string)
    requires Analyze(file, path, opts, vendorOf).Ok?
    ensures var a := Analyze(file, path, opts, vendorOf).value;
            a.vendorCount == |VendorsOf(a.devices)|
            && (v in VendorsOf(a.devices) <==> exists i :: 0 <= i < |a.devices| && a.devices[i].1.vendor == v)
  {
    VendorsOfMembers(Analyze(file, path, opts, vendorOf).value.devices, v);
  }

  /** The files chosen, appended one by one as the run writes them. */
  method ChooseOutputs(kind: InputKind, opts: Options) returns (outs: seq<Output>)
    ensures outs == Outputs(kind, opts)
  {
    outs := [DevicesCsv];
    if kind == MacTable {
      outs := outs + [PortsCsv];
    }
    outs := outs + [DistributionHtml, SummaryTxt];
    if opts.siemExport {
      outs := outs + [SiemCsv, SiemJson];
    }
    if opts.analyzeDrift && opts.historyDir.Some? && opts.historyDir.value != [] {
      outs := outs + [DriftCsv];
    }
  }

  /** [str(f) for f in output_files] */
  method ListPaths(outs: seq<Output>, opts: Options, stem: string) returns (files: seq<string>)
    ensures files == OutputPaths(outs, opts, stem)
  {
    files := [];
    var i := 0;
    while i < |outs|
      invariant i <= |outs| && files == OutputPaths(outs[..i], opts, stem)
    {
      assert outs[..i + 1][..i] == outs[..i];
      files := files + [OutputPath(outs[i], opts, stem)];
      i := i + 1;
    }
    assert outs[..i] == outs;
  }

  /** The type detection at the top of analyze_file, on the first two lines. */
  method DetectKind(lines: seq<string>) returns (kind: InputKind)
    requires lines != []
    ensures kind == Kind(lines)
  {
    var first := Strip(lines[0]);
    var second := if first != [] && |lines| >= 2 then Strip(lines[1]) else "";
    assert first == FirstLine(lines) && second == SecondLine(lines);
    var isMacList := ShadowCore.IsMacAddress(first);
    var isArpTable := !isMacList
      && (StartsWith(first, "Protocol") || Contains(first, "Internet") || Contains(second, "Internet")
          || (second != [] && ShadowCore.IsArpTable(second)));
    kind := if isMacList then MacList else if isArpTable then ArpTable else MacTable;
  }

  /** The next(f, None) calls that pass over the header lines of the detected kind. */
  method SkipHeaders(lines: seq<string>, kind: InputKind) returns (body: seq<string>)
    ensures body == Body(lines, HeaderLines(kind))
  {
    var skip := if kind == MacTable then 2 else if kind == ArpTable then 1 else 0;
    body := if |lines| <= skip then [] else lines[skip..];
  }

  /** The body of analyze_file: type detection, header skipping, the line loop, the empty check, enrichment and the output list. */
  method AnalyzeFile(file: Option<seq<string>>, path: string, opts: Options, vendorOf: string -> Option<string>)
    returns (r: Result<Analysis, Failure>)
    ensures r == Analyze(file, path, opts, vendorOf)
  {
    if file.None? {
      return Err(FileNotFound);
    }
    var lines := file.value;
    if |lines| == 0 {
      return Err(EmptyInput);
    }
    var kind := DetectKind(lines);
    var body := SkipHeaders(lines, kind);
    var t := CollectDevices(body, ReadWith(RowFor(kind)));
    assert t == Collected(lines);
    if |t.devices| == 0 {
      return Err(NoMacAddresses);
    }
    var entries, vendors := EnrichDevices(t.devices, vendorOf);
    var outs := ChooseOutputs(kind, opts);
    var files := ListPaths(outs, opts, Stem(path));
    r := Ok(Analysis(|entries|, |vendors|, files, kind.Name(), entries));
  }
}
