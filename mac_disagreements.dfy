/**
 * The four copies of the MAC recogniser and the two format classifiers do
 * not agree. Each lemma here names one input on which two copies give
 * different answers, stated for every input of that shape.
 */
module MacDisagreements {
  import opened Common
  import opened Text
  import opened MacText
  import NetvendorCore
  import ShadowCore
  import ShadowVendorScriptMac
  import NetVendorScriptMac
  import NetvendorHelpers

  /** A seventh pair ("00:11:22:33:44:55:66") passes ShadowVendor.py and fails the packaged NetVendor test. */
  lemma SevenPairsSplit(h: string, x: string)
    requires |h| == 12 && AllHex(h) && |x| == 2 && AllHex(x)
    ensures ShadowVendorScriptMac.IsMacAddress(ColonForm(h) + ":" + x)
    ensures !NetvendorCore.IsMacAddress(ColonForm(h) + ":" + x)
  {
    SevenPairsAccepted(h, x);
    NetvendorCore.SevenPairsRejected(h, x);
  }

  /** ShadowVendor.py's half of SevenPairsSplit: the longer text still has twelve hex digits in a row to match. */
  lemma SevenPairsAccepted(h: string, x: string)
    requires |h| == 12 && AllHex(h) && |x| == 2 && AllHex(x)
    ensures ShadowVendorScriptMac.IsMacAddress(ColonForm(h) + ":" + x)
  {
    var y := ":" + x;
    assert forall i :: 0 <= i < |y| ==> IsHexDigit(y[i]) || y[i] in MacSeparators by {
      forall i | 0 < i < |y| ensures IsHexDigit(y[i]) {
        assert y[i] == x[i - 1];
      }
    }
    ShadowVendorScriptMac.LongerAccepted(h, y);
    assert ColonForm(h) + y == ColonForm(h) + ":" + x;
  }

  /** Separators deleted from "<colon pairs>/<mask>" leave the '/' in place, so more than twelve characters. */
  lemma MaskedCleanedLong(h: string, m: string)
    requires |h| == 12 && AllHex(h)
    ensures |NetvendorCore.Cleaned(ColonForm(h) + "/" + m)| > 12
  {
    var s := ColonForm(h) + "/" + m;
    HexAvoidsSeparators(h);
    RemovePairForm(h, ':', MacSeparators);
    assert s == ColonForm(h) + (['/'] + m);
    RemoveAppend(ColonForm(h), ['/'] + m, MacSeparators);
    assert (['/'] + m)[1..] == m;
    assert Remove(['/'] + m, MacSeparators) == ['/'] + Remove(m, MacSeparators);
    LowerRemoveCommute(s, MacSeparators);
  }

  /** A masked address ("00:11:22:33:44:55/24") passes the packaged ShadowVendor test and fails the packaged NetVendor test. */
  lemma MaskSplit(h: string, n: nat)
    requires |h| == 12 && AllHex(h) && n <= 48
    ensures ShadowCore.IsMacAddress(ColonForm(h) + "/" + NatToString(n))
    ensures !NetvendorCore.IsMacAddress(ColonForm(h) + "/" + NatToString(n))
  {
    ShadowCore.PrefixMask(h, n);
    MaskedCleanedLong(h, NatToString(n));
  }

  /** The Cisco spelling "0011.2233.4455" is a MAC to the packaged NetVendor test and not an ARP MAC to the packaged ShadowVendor tool. */
  lemma CiscoDotsSplit(h: string)
    requires |h| == 12 && AllHex(h)
    ensures NetvendorCore.IsMacAddress(DotForm(h))
    ensures !ShadowCore.IsArpTableMac(DotForm(h))
  {
    NetvendorCore.SeparatorStylesAccepted(h);
    ShadowCore.CiscoDotsRejected(h);
  }

  /** A two-word row ending in a port yields the port in the packaged tool and nothing in NetVendor.py, which wants four words. */
  lemma ShortRowPortSplit(line: string)
    requires !NetvendorCore.IsArpLine(line) && 2 <= |Words(line)| < 4
    requires NetvendorCore.PortPrefixed(Words(line)[|Words(line)| - 1])
    ensures NetvendorCore.ParsePortInfo(line) == Some(Words(line)[|Words(line)| - 1])
    ensures NetVendorScriptMac.ParsePortInfo(line) == None
  {
  }

  /** A lower-case "vlan ... mac address" header is a table format to NetVendor.py and "generic" to the packaged helper. */
  lemma LowerHeaderSplit(line: string)
    requires IsLowered(line) && Contains(line, "mac address")
    ensures NetvendorHelpers.GetFormatType(line) == "generic"
    ensures NetVendorScriptMac.GetFormatType(line) != "generic"
  {
    NetvendorHelpers.LowerCaseLineIsGeneric(line);
    LoweredFixed(line);
  }

  /** An ARP line is "arp" to the packaged helper, a format NetVendor.py never reports. */
  lemma ArpFormatSplit(line: string)
    requires Contains(line, "Internet")
    ensures NetvendorHelpers.GetFormatType(line) == "arp"
    ensures NetVendorScriptMac.GetFormatType(line) != "arp"
  {
  }
}
