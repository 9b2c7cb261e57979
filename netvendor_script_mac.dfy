/**
 * The line recognisers of the stand-alone script NetVendor.py. Its
 * `is_mac_address` is the same text as the packaged tool's and is
 * NetvendorCore.IsMacAddress; the table test has no header case, the port
 * extractor wants four words and a port prefix, and the format classifier
 * folds case.
 */
module NetVendorScriptMac {
  import opened Common
  import opened Text
  import opened MacText
  import NetvendorCore

  /** is_mac_address_table: a VLAN in 1..4094 followed by a MAC address, with no header case. */
  predicate IsMacAddressTable(line: string)
  {
    NetvendorCore.VlanFirstRow(line) && NetvendorCore.IsMacAddress(Words(Strip(line))[1])
  }

  /** Off header lines the script and the packaged tool agree; on header lines the script says no unless the header is also a data row. */
  lemma TableAgreesOffHeaders(line: string)
    ensures !NetvendorCore.IsHeader(line) ==> (IsMacAddressTable(line) <==> NetvendorCore.IsMacAddressTable(line))
    ensures IsMacAddressTable(line) ==> NetvendorCore.IsMacAddressTable(line)
  {
  }

  /** A header line that starts with the word "Vlan" is no table line for the script. */
  lemma HeaderLineRejected(rest: string)
    ensures !IsMacAddressTable("Vlan " + rest)
  {
    NetvendorCore.WordsOfRow("Vlan", rest);
    NetvendorCore.LetterWordNoInt("Vlan");
  }

  /** parse_port_info: at least four words and a last word starting with Gi, Fa, Te or Eth. */
  function ParsePortInfo(line: string): (r: Option<string>)
    ensures r.Some? ==> NetvendorCore.PortPrefixed(r.value) && r == NetvendorCore.ParsePortInfo(line)
    ensures r.Some? <==> !NetvendorCore.IsArpLine(line) && |Words(line)| >= 4
                         && NetvendorCore.PortPrefixed(Words(line)[|Words(line)| - 1])
  {
    WordsStrip(line);
    if NetvendorCore.IsArpLine(line) then None
    else
      var words := Words(Strip(line));
      if |words| < 4 then None
      else
        var port := words[|words| - 1];
        if NetvendorCore.PortPrefixed(port) then Some(port) else None
  }

  /** get_format_type: on the lower-cased line, "vlan", "mac address" and "ports" give "cisco", "mac address" alone "hp". */
  function GetFormatType(firstLine: string): (r: string)
    ensures r in {"cisco", "hp", "generic"}
    ensures r != "generic" <==> Contains(Lower(firstLine), "mac address")
  {
    var line := Lower(firstLine);
    if Contains(line, "vlan") && Contains(line, "mac address") && Contains(line, "ports") then "cisco"
    else if Contains(line, "mac address") then "hp"
    else "generic"
  }

  /** The classification ignores case. */
  lemma FormatTypeIgnoresCase(firstLine: string)
    ensures GetFormatType(Lower(firstLine)) == GetFormatType(firstLine)
  {
    LowerIdempotent(firstLine);
  }

  lemma LowerMacAddress()
    ensures Lower("Mac Address") == "mac address"
  {
    var s, t := "Mac Address", "mac address";
    assert forall i :: 0 <= i < |s| ==> LowerChar(s[i]) == t[i];
    LowerByChars(s, t);
  }

  lemma LowerMACAddress()
    ensures Lower("MAC Address") == "mac address"
  {
    var s, t := "MAC Address", "mac address";
    assert forall i :: 0 <= i < |s| ==> LowerChar(s[i]) == t[i];
    LowerByChars(s, t);
  }

  /** Every line the packaged classifier calls "cisco" or "hp" has a MAC column here too. */
  lemma TableFormatsAgree(line: string)
    requires Contains(line, "Mac Address") || Contains(line, "MAC Address")
    ensures GetFormatType(line) != "generic"
  {
    if Contains(line, "Mac Address") {
      ContainsLower(line, "Mac Address");
      LowerMacAddress();
    } else {
      ContainsLower(line, "MAC Address");
      LowerMACAddress();
    }
  }
}
