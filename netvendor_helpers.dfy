/**
 * The input-format classifier of the packaged tool (netvendor/utils/helpers.py):
 * a chain of case-sensitive substring tests on the first line of a file.
 */
module NetvendorHelpers {
  import opened Text
  import opened MacText
  import NetvendorCore

  /** get_format_type: "arp", "cisco", "hp" or "generic", tested in that order. */
  function GetFormatType(firstLine: string): (r: string)
    ensures r in {"arp", "cisco", "hp", "generic"}
    ensures r == "arp" <==> Contains(firstLine, "Internet")
    ensures NetvendorCore.IsHeader(firstLine) && !Contains(firstLine, "Internet") && r == "generic" ==>
              Contains(firstLine, "VLAN") && Contains(firstLine, "MAC Address")
  {
    if Contains(firstLine, "Internet") then "arp"
    else if Contains(firstLine, "Vlan") && Contains(firstLine, "Mac Address") then "cisco"
    else if Contains(firstLine, "VLAN ID") && Contains(firstLine, "MAC Address") then "hp"
    else "generic"
  }

  /** A first line classified "cisco" or "hp" is a header line for is_mac_address_table. */
  lemma TableFormatsAreHeaders(line: string)
    requires GetFormatType(line) in {"cisco", "hp"}
    ensures NetvendorCore.IsMacAddressTable(line)
  {
  }

  /** A sub-string with an upper-case letter never occurs in text without one. */
  lemma UpperNotInLowered(s: string, sub: string, k: nat)
    requires IsLowered(s) && k < |sub| && 'A' <= sub[k] <= 'Z'
    ensures !Contains(s, sub)
  {
    if Contains(s, sub) {
      ContainsChars(s, sub);
      assert false;
    }
  }

  /** Matching is case-sensitive: a header written in lower case is "generic". */
  lemma LowerCaseLineIsGeneric(line: string)
    requires IsLowered(line)
    ensures GetFormatType(line) == "generic"
  {
    UpperNotInLowered(line, "Internet", 0);
    UpperNotInLowered(line, "Vlan", 0);
    UpperNotInLowered(line, "VLAN", 0);
    UpperNotInLowered(line, "VLAN ID", 0);
  }
}
