/**
 * The recognisers of the stand-alone script ShadowVendor.py. Its
 * `is_mac_address` only looks at the first twelve cleaned characters, so
 * longer text passes; its `is_mac_address_table` is the packaged tool's with
 * this MAC test; its `parse_port_info` is the same text as the packaged
 * tool's and is NetvendorCore.ParsePortInfo.
 */
module ShadowVendorScriptMac {
  import opened Common
  import opened Text
  import opened MacText
  import NetvendorCore

  /** The MAC text stripped, lower-cased, with ':', '.' and '-' deleted. */
  function Cleaned(mac: string): string
  {
    Remove(Lower(Strip(mac)), MacSeparators)
  }

  /** is_mac_address: non-empty, at least twelve cleaned characters, the first twelve parse as hex. */
  predicate IsMacAddress(mac: string)
  {
    mac != [] && |Cleaned(mac)| >= 12 && HexParses(Cleaned(mac)[..12])
  }

  predicate IsMacAddressTable(line: string)
  {
    NetvendorCore.IsHeader(line)
    || (NetvendorCore.VlanFirstRow(line) && IsMacAddress(Words(Strip(line))[1]))
  }

  /** format_mac_address: the first twelve cleaned characters, lower case, in colon pairs. */
  function FormatMacAddress(mac: string): (r: Option<string>)
    ensures r.Some? <==> mac != [] && |Cleaned(mac)| >= 12
    ensures r.Some? ==> |r.value| == 17 && IsLowered(r.value)
                        && Remove(r.value, MacSeparators) == Cleaned(mac)[..12]
  {
    if mac == [] then None
    else
      var c := Cleaned(mac);
      if |c| >= 12 then
        CleanedLowered(mac);
        FormattedCleaned(c[..12]);
        Some(ColonForm(c[..12]))
      else None
  }

  /** The colon form of twelve cleaned characters is 17 lower-case characters that lose only the colons. */
  lemma FormattedCleaned(g: string)
    requires |g| == 12 && Avoids(g, MacSeparators) && IsLowered(g)
    ensures var r := ColonForm(g);
            |r| == 17 && IsLowered(r) && Remove(r, MacSeparators) == g
  {
    ColonFormShape(g);
    RemovePairForm(g, ':', MacSeparators);
    var r := ColonForm(g);
    forall i | 0 <= i < 17 ensures !('A' <= r[i] <= 'Z') {
      if i % 3 != 2 {
        assert r[i] == g[i - i / 3];
      }
    }
  }

  /** Cleaned text is lower case and free of separators. */
  lemma CleanedLowered(mac: string)
    ensures IsLowered(Cleaned(mac)) && Avoids(Cleaned(mac), MacSeparators)
  {
    LowerRemoveCommute(Strip(mac), MacSeparators);
    LowerIsLowered(Remove(Strip(mac), MacSeparators));
  }

  /** Text with no whitespace at either end is left alone by the strip. */
  lemma CleanedUnstripped(s: string)
    requires s != [] && !IsSpace(s[0]) && !IsSpace(s[|s| - 1])
    ensures Cleaned(s) == NetvendorCore.Cleaned(s)
  {
    StripNoop(s);
  }

  /** Text over hex digits and separators cleans to lower-case hex digits. */
  lemma CleanedHex(s: string)
    requires s != [] && forall i :: 0 <= i < |s| ==> IsHexDigit(s[i]) || s[i] in MacSeparators
    ensures Cleaned(s) == Lower(Remove(s, MacSeparators))
    ensures AllHex(Cleaned(s)) && IsLowered(Cleaned(s))
  {
    CleanedUnstripped(s);
    NetvendorCore.CleanedHex(s);
    LowerIsLowered(Remove(s, MacSeparators));
  }

  /** Twelve hex digits followed by anything of hex digits and separators are accepted. */
  lemma LongerAccepted(h: string, x: string)
    requires |h| == 12 && AllHex(h)
    requires forall i :: 0 <= i < |x| ==> IsHexDigit(x[i]) || x[i] in MacSeparators
    ensures IsMacAddress(ColonForm(h) + x)
  {
    var s := ColonForm(h) + x;
    ColonFormShape(h);
    CleanedHex(s);
    HexAvoidsSeparators(h);
    RemovePairForm(h, ':', MacSeparators);
    RemoveAppend(ColonForm(h), x, MacSeparators);
    LowerAppend(h, Remove(x, MacSeparators));
    assert Cleaned(s)[..12] == Lower(h);
    LowerHex(h);
    HexDigitsParse(Lower(h));
  }

  /** Every accepted MAC can be formatted. */
  lemma AcceptedFormats(mac: string)
    requires IsMacAddress(mac)
    ensures FormatMacAddress(mac).Some?
  {
  }

  /** Formatting its own output for hex-and-separator input changes nothing. */
  lemma FormatIdempotent(s: string)
    requires s != [] && forall i :: 0 <= i < |s| ==> IsHexDigit(s[i]) || s[i] in MacSeparators
    requires FormatMacAddress(s).Some?
    ensures FormatMacAddress(FormatMacAddress(s).value) == FormatMacAddress(s)
  {
    CleanedHex(s);
    var g := Cleaned(s)[..12];
    assert FormatMacAddress(s) == Some(ColonForm(g));
    CleanedColonForm(g);
    assert g[..12] == g;
  }

  /** Cleaning the colon form of twelve lower-case hex digits gives the digits back. */
  lemma CleanedColonForm(g: string)
    requires |g| == 12 && AllHex(g) && IsLowered(g)
    ensures ColonForm(g) != [] && Cleaned(ColonForm(g)) == g
  {
    var r := ColonForm(g);
    ColonFormChars(g);
    ColonFormShape(g);
    StripNoop(r);
    HexAvoidsSeparators(g);
    FormattedCleaned(g);
    LoweredFixed(r);
  }
}
