/**
 * The input handling in main() of the stand-alone ShadowVendor.py: the
 * input type is decided from the first two lines, then every line is read
 * as a MAC-list entry, an ARP row or a MAC-table row, building the device
 * table. An empty file, or a file in which no line yields a device, ends
 * the run with exit status 1 before any report is written.
 */
module ShadowVendorScriptMain {
  import opened Common
  import opened Text
  import opened Dicts
  import opened DeviceTable
  import MacText
  import NetvendorCore
  import ShadowCore
  import ShadowVendorScriptMac

  // ---------------------------------------------------------------------
  // The input-type decision
  // ---------------------------------------------------------------------

  /** f.readline().strip(), or "" for an empty file. */
  function FirstLine(lines: seq<string>): string
  {
    if lines == [] then "" else Strip(lines[0])
  }

  /** The second line, stripped, read only when the first is not blank. */
  function SecondLine(lines: seq<string>): string
  {
    if FirstLine(lines) != [] && |lines| >= 2 then Strip(lines[1]) else ""
  }

  predicate IsMacList(lines: seq<string>)
  {
    ShadowVendorScriptMac.IsMacAddress(FirstLine(lines))
  }

  predicate IsArpTableFile(lines: seq<string>)
  {
    !IsMacList(lines)
    && (StartsWith(FirstLine(lines), "Protocol") || Contains(FirstLine(lines), "Internet") || Contains(SecondLine(lines), "Internet"))
  }

  predicate IsMacTableFile(lines: seq<string>)
  {
    !IsMacList(lines) && !IsArpTableFile(lines)
  }

  function Kind(lines: seq<string>): InputKind
  {
    if IsMacList(lines) then MacList else if IsArpTableFile(lines) then ArpTable else MacTable
  }

  /** Exactly one of the three flags holds, the MAC-list flag exactly when the first line is a MAC, and the kind reported is the flag that holds. */
  lemma ExactlyOneKind(lines: seq<string>)
    ensures (if IsMacList(lines) then 1 else 0) + (if IsArpTableFile(lines) then 1 else 0)
            + (if IsMacTableFile(lines) then 1 else 0) == 1
    ensures IsMacList(lines) <==> ShadowVendorScriptMac.IsMacAddress(FirstLine(lines))
    ensures (Kind(lines) == MacList <==> IsMacList(lines)) && (Kind(lines) == ArpTable <==> IsArpTableFile(lines))
            && (Kind(lines) == MacTable <==> IsMacTableFile(lines))
  {
  }

  /** Text that starts with 'P' or 'p' is not a MAC: int(..., 16) rejects the letter. */
  lemma LetterLedNotMac(s: string)
    requires s != [] && !IsSpace(s[0]) && !IsSpace(s[|s| - 1]) && LowerChar(s[0]) == 'p'
    ensures !ShadowVendorScriptMac.IsMacAddress(s)
  {
    StripNoop(s);
    var l := Lower(s);
    assert l[0] == 'p';
    var c := Remove(l, MacSeparators);
    assert c == ['p'] + Remove(l[1..], MacSeparators);
    if |c| >= 12 && HexParses(c[..12]) {
      HexParsesText(c[..12]);
    }
  }

  /** A file opening with the "Protocol ..." header of an ARP table is read as an ARP table. */
  lemma ProtocolHeaderIsArp(lines: seq<string>)
    requires lines != [] && StartsWith(Strip(lines[0]), "Protocol")
    ensures Kind(lines) == ArpTable
  {
    var first := FirstLine(lines);
    assert first[0] == 'P';
    LetterLedNotMac(first);
  }

  /** A file opening with a colon-separated MAC is a MAC list. */
  lemma MacFirstLineIsList(h: string, lines: seq<string>)
    requires |h| == 12 && AllHex(h) && lines != [] && lines[0] == MacText.ColonForm(h)
    ensures Kind(lines) == MacList
  {
    var m := MacText.ColonForm(h);
    MacText.ColonFormHex(h);
    assert !IsSpace(m[0]) && !IsSpace(m[16]);
    StripNoop(m);
    ShadowVendorScriptMac.LongerAccepted(h, "");
    assert m + "" == m;
  }

  // ---------------------------------------------------------------------
  // What one stripped line yields
  // ---------------------------------------------------------------------

  /** A MAC-list line: lower-cased, checked and formatted; no VLAN and no port. */
  function MacListRow(line: string): Option<Row>
  {
    var mac := Lower(line);
    if ShadowVendorScriptMac.IsMacAddress(mac) && ShadowVendorScriptMac.FormatMacAddress(mac).Some? then
      Some(Row(ShadowVendorScriptMac.FormatMacAddress(mac).value, Device("N/A", "N/A"), false))
    else None
  }

  /** An ARP line: header lines are passed over; a data row gives the fourth field's MAC and the VLAN of the sixth field's interface. */
  function ArpRow(line: string): Option<Row>
  {
    if Contains(line, "Protocol") then None
    else
      var parts := SplitN(line, 5);
      if |parts| >= 6 && parts[0] == "Internet" then
        var mac := ShadowVendorScriptMac.FormatMacAddress(Strip(parts[3]));
        if mac.Some? then Some(Row(mac.value, Device(ShadowCore.InterfaceVlan(Strip(parts[5])), "N/A"), false))
        else None
      else None
  }

  /** A MAC-table line: the second word's MAC, the first word as VLAN when the line is a table row, and the port when one is found. */
  function TableRow(line: string): Option<Row>
  {
    var words := Words(line);
    if |words| >= 2 then
      var mac := ShadowVendorScriptMac.FormatMacAddress(words[1]);
      if mac.Some? then
        var port := NetvendorCore.ParsePortInfo(line);
        var found := port.Some? && port.value != [];
        var vlan := if ShadowVendorScriptMac.IsMacAddressTable(line) then words[0] else "N/A";
        Some(Row(mac.value, Device(vlan, if found then port.value else "N/A"), found))
      else None
    else None
  }

  function RowFor(kind: InputKind): string -> Option<Row>
  {
    match kind
    case MacList => MacListRow
    case ArpTable => ArpRow
    case MacTable => TableRow
  }

  /** Every MAC a line can yield is a formatted one: seventeen lower-case characters. */
  lemma RowsFormatted(kind: InputKind, raw: string)
    requires ReadWith(RowFor(kind))(raw).Found?
    ensures var k := ReadWith(RowFor(kind))(raw).row.mac; |k| == 17 && MacText.IsLowered(k)
  {
    var line := Strip(raw);
    var r := RowFor(kind)(line);
    assert r.Some? && ReadWith(RowFor(kind))(raw).row == r.value;
    var mac := match kind
      case MacList => Lower(line)
      case ArpTable => Strip(SplitN(line, 5)[3])
      case MacTable => Words(line)[1];
    assert r.value.mac == ShadowVendorScriptMac.FormatMacAddress(mac).value;
  }

  /** The row "Internet <ip> <age> <mac> <type> Vlan<n>" gives the formatted MAC in VLAN str(n). */
  lemma ArpRowVlan(ip: string, age: string, mac: string, typ: string, n: nat)
    requires ip != [] && NoSpace(ip) && age != [] && NoSpace(age) && mac != [] && NoSpace(mac)
    requires typ != [] && NoSpace(typ)
    requires ShadowVendorScriptMac.FormatMacAddress(mac).Some?
    requires !Contains(Join(" ", ["Internet", ip, age, mac, typ, "Vlan" + NatToString(n)]), "Protocol")
    ensures ArpRow(Join(" ", ["Internet", ip, age, mac, typ, "Vlan" + NatToString(n)]))
            == Some(Row(ShadowVendorScriptMac.FormatMacAddress(mac).value, Device(NatToString(n), "N/A"), false))
  {
    var iface := "Vlan" + NatToString(n);
    ShadowCore.ArpRowFields(ip, age, mac, typ, iface);
    assert !IsSpace(mac[0]) && !IsSpace(mac[|mac| - 1]);
    StripNoop(mac);
    assert !IsSpace(iface[0]) && !IsSpace(iface[|iface| - 1]);
    StripNoop(iface);
    ShadowCore.VlanInterface(n);
  }

  // ---------------------------------------------------------------------
  // The run
  // ---------------------------------------------------------------------

  /** The two ways reading the input ends the run with exit status 1. */
  datatype Failure = EmptyFile | NoMacAddresses

  datatype Report = Report(kind: InputKind, tally: Tally)

  /** The input handling of main: the file's lines to the detected kind and the device table, or the exit. */
  function ReadInput(lines: seq<string>): Result<Report, Failure>
  {
    if lines == [] then Err(EmptyFile)
    else
      var kind := Kind(lines);
      var t := Scan(lines, ReadWith(RowFor(kind)));
      if t.devices == [] then Err(NoMacAddresses) else Ok(Report(kind, t))
  }

  /** The run goes on exactly when the file has lines and one of them yields a device; the table then holds each formatted MAC once, and mac_count is at least the number of devices. */
  lemma ReadInputSpec(lines: seq<string>)
    ensures var r := ReadInput(lines); var read := ReadWith(RowFor(Kind(lines)));
            (r == Err(EmptyFile) <==> lines == [])
            && (r == Err(NoMacAddresses) <==> lines != [] && forall i :: 0 <= i < |lines| ==> !read(lines[i]).Found?)
            && (r.Ok? ==>
                  var t := r.value.tally;
                  r.value.kind == Kind(lines) && t == Scan(lines, read)
                  && DistinctKeys(t.devices) && 1 <= |t.devices| <= t.macCount <= t.lineCount <= |lines|
                  && t.portCount <= t.macCount
                  && forall k :: k in Keys(t.devices) ==> |k| == 17 && MacText.IsLowered(k))
  {
    if lines != [] {
      var read := ReadWith(RowFor(Kind(lines)));
      NoDevices(lines, read);
      ScanCounts(lines, read);
      forall raw | read(raw).Found? ensures |read(raw).row.mac| == 17 && MacText.IsLowered(read(raw).row.mac) {
        RowsFormatted(Kind(lines), raw);
      }
      KeysFromRows(lines, read, k => |k| == 17 && MacText.IsLowered(k));
    }
  }

  /** The type detection and the line loop of main, followed by the empty-table check. */
  method ReadFile(lines: seq<string>) returns (r: Result<Report, Failure>)
    ensures r == ReadInput(lines)
  {
    if |lines| == 0 {
      return Err(EmptyFile);
    }
    var first := Strip(lines[0]);
    var second := if first != [] && |lines| >= 2 then Strip(lines[1]) else "";
    var isMacList := ShadowVendorScriptMac.IsMacAddress(first);
    var isArpTable := !isMacList && (StartsWith(first, "Protocol") || Contains(first, "Internet") || Contains(second, "Internet"));
    var kind := if isMacList then MacList else if isArpTable then ArpTable else MacTable;
    var t := CollectDevices(lines, ReadWith(RowFor(kind)));
    if |t.devices| == 0 {
      return Err(NoMacAddresses);
    }
    r := Ok(Report(kind, t));
  }
}
