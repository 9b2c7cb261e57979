/**
 * SIEM export: one flat record per device, written once as a CSV row
 * under a fixed header and once as a JSON object on its own line.
 *
 * The vendor lookup runs separately for the CSV pass and for the JSONL
 * pass; the two lookups are the parameters csvVendor and jsonVendor. The
 * UTC timestamp, read once per export, is a field of Run.
 */
module SiemExport {
  import opened Common
  import opened Text
  import opened Dicts
  import ShadowVendorApi

  /** One item of the devices dict: the MAC and the value dict's optional 'vlan', 'port' and 'device_name'. */
  datatype Device = Device(mac: string, vlan: Option<string>, port: Option<string>, deviceName: Option<string>)

  /** What every record of one export shares: the timestamp, the optional labels and the input path. */
  datatype Run = Run(timestamp: string, site: Option<string>, environment: Option<string>,
                     inputType: Option<string>, inputFile: string)

  datatype Record = Record(timestamp: string, site: string, environment: string, mac: string, vendor: string,
                           deviceName: string, vlan: string, iface: string, inputType: string, sourceFile: string)

  /** The CSV header, and the key order of every JSON object. */
  const FieldNames: seq<string> := ["timestamp", "site", "environment", "mac", "vendor",
                                    "device_name", "vlan", "interface", "input_type", "source_file"]

  /** Python's `x or fallback` on an optional string: None and "" are falsy. */
  function OrElse(x: Option<string>, fallback: string): string
  {
    if x.Some? && x.value != [] then x.value else fallback
  }

  /** dict.get(key, default) on an entry that is present or absent. */
  function GetOr(x: Option<string>, default: string): string
  {
    if x.Some? then x.value else default
  }

  /** The device name derived from the MAC: "device-" and the MAC with each ':' turned into '-'. */
  function DerivedName(mac: string): string
  {
    "device-" + ReplaceAll(mac, ":", "-")
  }

  /** The record of one device, given the vendor the lookup returned for it. */
  function RecordOf(run: Run, d: Device, vendor: Option<string>): Record
  {
    Record(run.timestamp, OrElse(run.site, ""), OrElse(run.environment, ""), d.mac, OrElse(vendor, "Unknown"),
           if d.deviceName.Some? && d.deviceName.value != [] then d.deviceName.value else DerivedName(d.mac),
           GetOr(d.vlan, "N/A"), GetOr(d.port, "N/A"), OrElse(run.inputType, "unknown"),
           ShadowVendorApi.FileName(run.inputFile))
  }

  /** The record's values in header order: one CSV row. */
  function Cells(r: Record): (cells: seq<string>)
    ensures |cells| == |FieldNames|
  {
    [r.timestamp, r.site, r.environment, r.mac, r.vendor, r.deviceName, r.vlan, r.iface, r.inputType, r.sourceFile]
  }

  /** The record as a JSON object: header names paired with the values, in header order. */
  function Event(r: Record): (e: Dict<string>)
    ensures |e| == |FieldNames|
  {
    var cells := Cells(r);
    seq(|FieldNames|, k requires 0 <= k < |FieldNames| => (FieldNames[k], cells[k]))
  }

  /** The CSV rows after the header, one per device in dict order. */
  function CsvRows(devices: seq<Device>, run: Run, vendorOf: string -> Option<string>): (rows: seq<seq<string>>)
    ensures |rows| == |devices| && forall i :: 0 <= i < |rows| ==> |rows[i]| == |FieldNames|
  {
    if devices == [] then []
    else
      var d := devices[|devices| - 1];
      CsvRows(devices[..|devices| - 1], run, vendorOf) + [Cells(RecordOf(run, d, vendorOf(d.mac)))]
  }

  /** The JSONL lines, one object per device in dict order. */
  function JsonEvents(devices: seq<Device>, run: Run, vendorOf: string -> Option<string>): (events: seq<Dict<string>>)
    ensures |events| == |devices|
  {
    if devices == [] then []
    else
      var d := devices[|devices| - 1];
      JsonEvents(devices[..|devices| - 1], run, vendorOf) + [Event(RecordOf(run, d, vendorOf(d.mac)))]
  }

  /** export_siem_events: the header, the CSV pass and the JSONL pass. */
  method ExportSiemEvents(devices: seq<Device>, run: Run, csvVendor: string -> Option<string>,
                          jsonVendor: string -> Option<string>)
    returns (csv: seq<seq<string>>, jsonl: seq<Dict<string>>)
    ensures csv == [FieldNames] + CsvRows(devices, run, csvVendor)
    ensures jsonl == JsonEvents(devices, run, jsonVendor)
  {
    var rows := WriteCsvRows(devices, run, csvVendor);
    csv := [FieldNames] + rows;
    jsonl := WriteJsonLines(devices, run, jsonVendor);
  }

  /** The CSV pass: writer.writerow once per device. */
  method WriteCsvRows(devices: seq<Device>, run: Run, vendorOf: string -> Option<string>)
    returns (rows: seq<seq<string>>)
    ensures rows == CsvRows(devices, run, vendorOf)
  {
    rows := [];
    var i := 0;
    while i < |devices|
      invariant i <= |devices| && rows == CsvRows(devices[..i], run, vendorOf)
    {
      PrefixOfPrefix(devices, i);
      var d := devices[i];
      var vendor := vendorOf(d.mac);
      rows := rows + [Cells(RecordOf(run, d, vendor))];
      i := i + 1;
    }
    assert devices[..i] == devices;
  }

  /** The JSONL pass: one json.dumps line per device. */
  method WriteJsonLines(devices: seq<Device>, run: Run, vendorOf: string -> Option<string>)
    returns (lines: seq<Dict<string>>)
    ensures lines == JsonEvents(devices, run, vendorOf)
  {
    lines := [];
    var i := 0;
    while i < |devices|
      invariant i <= |devices| && lines == JsonEvents(devices[..i], run, vendorOf)
    {
      PrefixOfPrefix(devices, i);
      var d := devices[i];
      var vendor := vendorOf(d.mac);
      lines := lines + [Event(RecordOf(run, d, vendor))];
      i := i + 1;
    }
    assert devices[..i] == devices;
  }

  // ---------------------------------------------------------------------
  // Properties
  // ---------------------------------------------------------------------

  /** Row i of the CSV body is the record of device i. */
  lemma {:induction false} CsvRowAt(devices: seq<Device>, run: Run, vendorOf: string -> Option<string>, i: nat)
    requires i < |devices|
    ensures CsvRows(devices, run, vendorOf)[i] == Cells(RecordOf(run, devices[i], vendorOf(devices[i].mac)))
  {
    if i < |devices| - 1 {
      CsvRowAt(devices[..|devices| - 1], run, vendorOf, i);
    }
  }

  /** Line i of the JSONL file is the record of device i. */
  lemma {:induction false} JsonEventAt(devices: seq<Device>, run: Run, vendorOf: string -> Option<string>, i: nat)
    requires i < |devices|
    ensures JsonEvents(devices, run, vendorOf)[i] == Event(RecordOf(run, devices[i], vendorOf(devices[i].mac)))
  {
    if i < |devices| - 1 {
      JsonEventAt(devices[..|devices| - 1], run, vendorOf, i);
    }
  }

  /**
   * One CSV row per device, in dict order: row i carries device i's MAC,
   * the one timestamp of the run and the input's file name.
   */
  lemma CsvRowAligned(devices: seq<Device>, run: Run, vendorOf: string -> Option<string>, i: nat)
    requires i < |devices|
    ensures var row := CsvRows(devices, run, vendorOf)[i];
            row[3] == devices[i].mac && row[0] == run.timestamp && row[9] == ShadowVendorApi.FileName(run.inputFile)
  {
    CsvRowAt(devices, run, vendorOf, i);
  }

  /** One JSON line per device, in the same order as the CSV rows, with the same MAC, timestamp and file name. */
  lemma JsonLineAligned(devices: seq<Device>, run: Run, vendorOf: string -> Option<string>, i: nat)
    requires i < |devices|
    ensures var event := JsonEvents(devices, run, vendorOf)[i];
            Get(event, "mac") == Some(devices[i].mac) && Get(event, "timestamp") == Some(run.timestamp)
            && Get(event, "source_file") == Some(ShadowVendorApi.FileName(run.inputFile))
  {
    JsonEventAt(devices, run, vendorOf, i);
    var r := RecordOf(run, devices[i], vendorOf(devices[i].mac));
    EventMac(r);
    EventTimestamp(r);
    EventSourceFile(r);
  }

  lemma EventMac(r: Record)
    ensures Get(Event(r), "mac") == Some(r.mac)
  {
    EventGet(r, 3);
  }

  lemma EventTimestamp(r: Record)
    ensures Get(Event(r), "timestamp") == Some(r.timestamp)
  {
    EventGet(r, 0);
  }

  lemma EventSourceFile(r: Record)
    ensures Get(Event(r), "source_file") == Some(r.sourceFile)
  {
    EventGet(r, 9);
  }

  /** Looking up the k-th header name in a JSON object gives the k-th CSV cell. */
  lemma EventGet(r: Record, k: nat)
    requires k < |FieldNames|
    ensures Get(Event(r), FieldNames[k]) == Some(Cells(r)[k])
  {
    var e := Event(r);
    assert DistinctKeys(e) by {
      forall a, b | 0 <= a < b < |e| ensures e[a].0 != e[b].0 {
        assert e[a].0 == FieldNames[a] && e[b].0 == FieldNames[b];
      }
    }
    assert e[k] == (FieldNames[k], Cells(r)[k]);
    GetAt(e, k);
  }

  /** The JSON object's keys are the CSV header, in the same order. */
  lemma EventKeys(r: Record)
    ensures Keys(Event(r)) == FieldNames
  {
  }

  /**
   * When both lookups give a device the same vendor, its CSV row and its
   * JSON object agree field by field.
   */
  lemma SameVendorSameRecord(devices: seq<Device>, run: Run, csvVendor: string -> Option<string>,
                             jsonVendor: string -> Option<string>, i: nat, k: nat)
    requires i < |devices| && k < |FieldNames|
    requires csvVendor(devices[i].mac) == jsonVendor(devices[i].mac)
    ensures Get(JsonEvents(devices, run, jsonVendor)[i], FieldNames[k]) == Some(CsvRows(devices, run, csvVendor)[i][k])
  {
    CsvRowAt(devices, run, csvVendor, i);
    JsonEventAt(devices, run, jsonVendor, i);
    EventGet(RecordOf(run, devices[i], jsonVendor(devices[i].mac)), k);
  }

  /**
   * The fallbacks: a missing or empty vendor is "Unknown", missing or
   * empty site and environment are "", a missing or empty input type is
   * "unknown", a missing vlan or port is "N/A", and any other value is
   * kept as it is.
   */
  lemma RecordFallbacks(run: Run, d: Device, vendor: Option<string>)
    ensures var r := RecordOf(run, d, vendor);
            (r.vendor == "Unknown" <== (vendor == None || vendor == Some("")))
            && (vendor.Some? && vendor.value != [] ==> r.vendor == vendor.value)
            && (run.site == None ==> r.site == "") && (run.site.Some? ==> r.site == run.site.value)
            && (run.environment == None ==> r.environment == "")
            && (run.environment.Some? ==> r.environment == run.environment.value)
            && (run.inputType == None || run.inputType == Some("") ==> r.inputType == "unknown")
            && (run.inputType.Some? && run.inputType.value != [] ==> r.inputType == run.inputType.value)
            && r.vlan == (if d.vlan.Some? then d.vlan.value else "N/A")
            && r.iface == (if d.port.Some? then d.port.value else "N/A")
  {
  }

  /** A device without a non-empty device_name is named from its MAC; one with it keeps it. */
  lemma DeviceNameChoice(run: Run, d: Device, vendor: Option<string>)
    ensures var r := RecordOf(run, d, vendor);
            (d.deviceName.Some? && d.deviceName.value != [] ==> r.deviceName == d.deviceName.value)
            && (d.deviceName == None || d.deviceName == Some("") ==> r.deviceName == DerivedName(d.mac))
  {
  }

  /** The derived name is "device-" then the MAC character by character, with every ':' as '-'. */
  lemma DerivedNameChars(mac: string)
    ensures var n := DerivedName(mac);
            |n| == 7 + |mac| && n[..7] == "device-"
            && forall i :: 0 <= i < |mac| ==> n[7 + i] == (if mac[i] == ':' then '-' else mac[i])
  {
    ReplaceColons(mac);
  }

  /** str.replace(':', '-') maps the text character by character. */
  lemma {:induction false} ReplaceColons(s: string)
    ensures var r := ReplaceAll(s, ":", "-");
            |r| == |s| && forall i :: 0 <= i < |s| ==> r[i] == (if s[i] == ':' then '-' else s[i])
    decreases |s|
  {
    if s != [] {
      ReplaceColons(s[1..]);
      assert s[..1] == [s[0]];
    }
  }
}
