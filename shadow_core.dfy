/**
 * The recognisers of the packaged ShadowVendor tool
 * (shadowvendor/core/netvendor.py). They understand masks after a '/', the
 * four-part dotted ARP spelling of a MAC, ARP data lines and ten
 * case-insensitive MAC-table header patterns.
 */
module ShadowCore {
  import opened Common
  import opened Text
  import opened MacText
  import NetvendorCore

  /** The regex class [/\s]. */
  const MaskCuts: set<char> :=
    {'/', ' ', '\t', '\n', '\r', '\U{000B}', '\U{000C}', '\U{001C}', '\U{001D}', '\U{001E}', '\U{001F}'}

  /** re.split(r'[/\s]', mac.strip()): the MAC part first, then a mask part if any. */
  function MaskParts(mac: string): (r: seq<string>)
    ensures |r| >= 1
  {
    SplitOn(Strip(mac), MaskCuts)
  }

  /** A lower-cased mask: a prefix length 0..48, or twelve hex digits in any separator style. */
  predicate MaskOk(mask: string)
  {
    (IsDigits(mask) && DecimalValue(mask) <= 48)
    || (var m := Remove(mask, MacSeparators); |m| == 12 && HexParses(m))
  }

  /** is_mac_address: twelve hex digits before the cut, and a valid mask after it if there is one. */
  predicate IsMacAddress(mac: string)
  {
    mac != [] &&
    var parts := MaskParts(mac);
    var c := Remove(Lower(parts[0]), MacSeparators);
    |c| == 12 && HexParses(c) && (|parts| > 1 ==> MaskOk(Lower(parts[1])))
  }

  /** Text of hex digits and separators has no cut character. */
  lemma HexSepAvoidsCuts(s: string)
    requires forall i :: 0 <= i < |s| ==> IsHexDigit(s[i]) || s[i] in MacSeparators
    ensures Avoids(s, MaskCuts) && NoSpace(s)
  {
  }

  /** Without a mask, the packaged ShadowVendor test and the packaged NetVendor test agree. */
  lemma AgreesWithoutMask(s: string)
    requires s != [] && forall i :: 0 <= i < |s| ==> IsHexDigit(s[i]) || s[i] in MacSeparators
    ensures IsMacAddress(s) <==> NetvendorCore.IsMacAddress(s)
  {
    HexSepAvoidsCuts(s);
    StripNoop(s);
    SplitOnWhole(s, MaskCuts);
  }

  /** The parts of "<mac>/<mask>" when neither holds a cut character. */
  lemma MaskPartsOf(mac: string, mask: string)
    requires mac != [] && Avoids(mac, MaskCuts) && mask != [] && Avoids(mask, MaskCuts)
    ensures MaskParts(mac + "/" + mask) == [mac, mask]
  {
    var s := mac + "/" + mask;
    assert s == mac + ['/'] + mask;
    assert !IsSpace(s[0]) && !IsSpace(s[|s| - 1]);
    StripNoop(s);
    SplitOnCut(mac, '/', mask, MaskCuts);
    SplitOnWhole(mask, MaskCuts);
  }

  /** Colon-grouped hex digits have no cut character. */
  lemma ColonFormAvoidsCuts(h: string)
    requires |h| == 12 && AllHex(h)
    ensures ColonForm(h) != [] && Avoids(ColonForm(h), MaskCuts)
  {
    ColonFormHex(h);
  }

  /** Colon-grouped hex digits clean to the lower-cased digits, which parse. */
  lemma ColonFormClean(h: string)
    requires |h| == 12 && AllHex(h)
    ensures ColonForm(h) != [] && Avoids(ColonForm(h), MaskCuts)
    ensures Remove(Lower(ColonForm(h)), MacSeparators) == Lower(h)
    ensures HexParses(Lower(h))
  {
    ColonFormAvoidsCuts(h);
    HexAvoidsSeparators(h);
    RemovePairForm(h, ':', MacSeparators);
    NetvendorCore.CleanedSpelling(h, ColonForm(h));
    LowerHex(h);
    HexDigitsParse(Lower(h));
  }

  /** A decimal mask of at most four digits is valid exactly when it is at most 48. */
  lemma DecimalMaskOk(n: nat)
    requires n < 10000
    ensures Lower(NatToString(n)) == NatToString(n)
    ensures MaskOk(NatToString(n)) <==> n <= 48
  {
    var d := NatToString(n);
    assert IsLowered(d);
    LoweredFixed(d);
    DecimalValueOfNat(n);
    RemoveNone(d, MacSeparators);
    NatToStringShort(n);
  }

  /** After a colon-grouped address, the mask alone decides. */
  lemma MaskDecides(h: string, mask: string)
    requires |h| == 12 && AllHex(h) && mask != [] && Avoids(mask, MaskCuts)
    ensures IsMacAddress(ColonForm(h) + "/" + mask) <==> MaskOk(Lower(mask))
  {
    ColonFormClean(h);
    MaskPartsOf(ColonForm(h), mask);
  }

  /** An address with a prefix-length mask (the Aruba style) is accepted exactly when the length is at most 48. */
  lemma PrefixMask(h: string, n: nat)
    requires |h| == 12 && AllHex(h) && n < 10000
    ensures IsMacAddress(ColonForm(h) + "/" + NatToString(n)) <==> n <= 48
  {
    var d := NatToString(n);
    DigitsAvoidCuts(d);
    MaskDecides(h, d);
    DecimalMaskOk(n);
  }

  lemma DigitsAvoidCuts(d: string)
    requires forall i :: 0 <= i < |d| ==> IsDigit(d[i])
    ensures Avoids(d, MaskCuts)
  {
  }

  lemma {:induction false} NatToStringShort(n: nat)
    ensures n < 10 ==> |NatToString(n)| == 1
    ensures n < 100 ==> |NatToString(n)| <= 2
    ensures n < 1000 ==> |NatToString(n)| <= 3
    ensures n < 10000 ==> |NatToString(n)| <= 4
  {
    if n >= 10 {
      NatToStringShort(n / 10);
    }
  }

  /** An address with a colon-grouped hex mask (the Juniper style) is accepted. */
  lemma HexMask(h: string, m: string)
    requires |h| == 12 && AllHex(h) && |m| == 12 && AllHex(m)
    ensures IsMacAddress(ColonForm(h) + "/" + ColonForm(m))
  {
    ColonFormClean(m);
    MaskDecides(h, ColonForm(m));
    ColonFormHex(m);
    LowerColonForm(m);
  }

  /** Lower-casing colon pairs of hex digits keeps them colon pairs of hex digits. */
  lemma LowerColonForm(m: string)
    requires |m| == 12 && AllHex(m)
    ensures var lm := Lower(ColonForm(m)); Remove(lm, MacSeparators) == Lower(m) && |Lower(m)| == 12
  {
    ColonFormClean(m);
  }

  // ---------------------------------------------------------------------
  // is_arp_table_mac and format_mac_address
  // ---------------------------------------------------------------------

  /** is_arp_table_mac: four dot-separated parts whose first twelve joined characters parse as hex. */
  predicate IsArpTableMac(mac: string)
  {
    mac != [] &&
    var parts := SplitOn(Strip(mac), {'.'});
    |parts| == 4 && HexParses(Take(Concat(parts), 12))
  }

  /** Four dot-free groups joined by dots split back into the four groups. */
  lemma DottedParts(a: string, b: string, c: string, d: string)
    requires Avoids(a, {'.'}) && Avoids(b, {'.'}) && Avoids(c, {'.'}) && Avoids(d, {'.'})
    ensures SplitOn(a + "." + b + "." + c + "." + d, {'.'}) == [a, b, c, d]
  {
    SplitOnWhole(d, {'.'});
    DotCons(c, d, [d]);
    DotCons(b, c + "." + d, [c] + [d]);
    DotCons(a, b + "." + (c + "." + d), [b] + ([c] + [d]));
    DotJoinAssoc(a, b, c, d);
    ConsFour(a, b, c, d);
  }

  lemma ConsFour(a: string, b: string, c: string, d: string)
    ensures [a] + ([b] + ([c] + [d])) == [a, b, c, d]
  {
  }

  lemma DotJoinAssoc(a: string, b: string, c: string, d: string)
    ensures a + "." + b + "." + c + "." + d == a + "." + (b + "." + (c + "." + d))
  {
  }

  /** A dot-free group, a dot and more text split into the group and the pieces of the rest. */
  lemma DotCons(x: string, t: string, pieces: seq<string>)
    requires Avoids(x, {'.'}) && SplitOn(t, {'.'}) == pieces
    ensures SplitOn(x + "." + t, {'.'}) == [x] + pieces
  {
    SplitOnCut(x, '.', t, {'.'});
  }

  /** The first twelve characters of hex groups, joined, parse as hex. */
  lemma JoinedHexParses(a: string, b: string, c: string, d: string)
    requires a != [] && AllHex(a) && AllHex(b) && AllHex(c) && AllHex(d)
    ensures HexParses(Take(Concat([a, b, c, d]), 12))
  {
    var parts := [a, b, c, d];
    assert [d][1..] == [] && Concat([d]) == d + Concat([]);
    assert [c, d][1..] == [d] && Concat([c, d]) == c + d;
    assert [b, c, d][1..] == [c, d] && Concat([b, c, d]) == b + (c + d);
    assert parts[1..] == [b, c, d] && Concat(parts) == a + (b + (c + d));
    var t := Take(Concat(parts), 12);
    assert AllHex(t) by {
      forall i | 0 <= i < |t| ensures IsHexDigit(t[i]) {
        assert t[i] == Concat(parts)[i];
      }
    }
    HexDigitsParse(t);
  }

  /** Any four non-empty groups of hex digits joined by dots are accepted, "D8.C7.C8.14" and "D8.C7.C8.14C17B" among them. */
  lemma FourGroupsAccepted(a: string, b: string, c: string, d: string)
    requires a != [] && AllHex(a) && AllHex(b) && AllHex(c) && AllHex(d) && d != []
    ensures IsArpTableMac(a + "." + b + "." + c + "." + d)
  {
    var s := a + "." + b + "." + c + "." + d;
    HexAvoidsSeparators(a);
    HexAvoidsSeparators(b);
    HexAvoidsSeparators(c);
    HexAvoidsSeparators(d);
    assert s[0] == a[0] && s[|s| - 1] == d[|d| - 1];
    StripNoop(s);
    DottedParts(a, b, c, d);
    JoinedHexParses(a, b, c, d);
  }

  /** The Cisco spelling xxxx.xxxx.xxxx has three parts and is rejected. */
  lemma CiscoDotsRejected(h: string)
    requires |h| == 12 && AllHex(h)
    ensures !IsArpTableMac(DotForm(h))
  {
    var s := DotForm(h);
    HexAvoidsSeparators(h);
    assert s == h[0..4] + ['.'] + (h[4..8] + ['.'] + h[8..12]);
    assert !IsSpace(s[0]) && !IsSpace(s[|s| - 1]);
    StripNoop(s);
    SplitOnCut(h[0..4], '.', h[4..8] + ['.'] + h[8..12], {'.'});
    SplitOnCut(h[4..8], '.', h[8..12], {'.'});
    SplitOnWhole(h[8..12], {'.'});
  }

  /** The text format_mac_address groups: dotted input is only de-dotted, other input is lower-cased with ':' and '-' deleted. */
  function FormatClean(mac: string): string
  {
    var macPart := MaskParts(mac)[0];
    if '.' in macPart then DottedClean(macPart) else PlainClean(macPart)
  }

  /** ''.join(part.split('.'))[:12] */
  function DottedClean(part: string): string
  {
    Take(Concat(SplitOn(Strip(part), {'.'})), 12)
  }

  /** part.lower() with ':' and '-' deleted */
  function PlainClean(part: string): string
  {
    Remove(Lower(Strip(part)), {':', '-'})
  }

  /** format_mac_address: the first twelve cleaned characters in colon pairs; no hex check. */
  function FormatMacAddress(mac: string): (r: Option<string>)
    ensures r.Some? <==> mac != [] && |FormatClean(mac)| >= 12
    ensures r.Some? ==> |r.value| == 17
                        && (forall i :: 0 <= i < 17 && i % 3 == 2 ==> r.value[i] == ':')
                        && (forall i :: 0 <= i < 17 && i % 3 != 2 ==> r.value[i] == FormatClean(mac)[i - i / 3])
  {
    if mac == [] then None
    else
      var c := FormatClean(mac);
      if |c| >= 12 then
        ColonFormShape(c[..12]);
        Some(ColonForm(c[..12]))
      else None
  }

  /** Dotted input keeps its case and any '-': the Cisco spelling of any twelve characters comes back grouped as they are. */
  lemma DottedKeepsCase(h: string)
    requires |h| == 12 && Avoids(h, MaskCuts) && Avoids(h, {'.'})
    ensures FormatMacAddress(DotForm(h)) == Some(ColonForm(h))
  {
    DotFormClean(h);
    FormatOfClean(DotForm(h), h);
  }

  /** Input that cleans to exactly twelve characters comes back as their colon pairs. */
  lemma FormatOfClean(mac: string, h: string)
    requires mac != [] && FormatClean(mac) == h && |h| == 12
    ensures FormatMacAddress(mac) == Some(ColonForm(h))
  {
    assert h[..12] == h;
  }

  lemma DotFormClean(h: string)
    requires |h| == 12 && Avoids(h, MaskCuts) && Avoids(h, {'.'})
    ensures FormatClean(DotForm(h)) == h
  {
    DotFormTakesDottedBranch(h);
    DotFormDottedClean(h);
  }

  lemma DotFormTakesDottedBranch(h: string)
    requires |h| == 12 && Avoids(h, MaskCuts)
    ensures FormatClean(DotForm(h)) == DottedClean(DotForm(h))
  {
    DotFormWhole(h);
  }

  lemma DotFormDottedClean(h: string)
    requires |h| == 12 && Avoids(h, MaskCuts) && Avoids(h, {'.'})
    ensures DottedClean(DotForm(h)) == h
  {
    DotFormPieces(h);
    assert Take(h, 12) == h;
  }

  /** The Cisco spelling of cut-free text is one part of itself, with no surrounding space. */
  lemma DotFormWhole(h: string)
    requires |h| == 12 && Avoids(h, MaskCuts)
    ensures Strip(DotForm(h)) == DotForm(h)
    ensures MaskParts(DotForm(h)) == [DotForm(h)] && '.' in DotForm(h)
  {
    var s := DotForm(h);
    assert Avoids(s, MaskCuts) by {
      forall i | 0 <= i < |s| ensures s[i] !in MaskCuts {
        if i < 4 { assert s[i] == h[i]; }
        else if 4 < i < 9 { assert s[i] == h[i - 1]; }
        else if i > 9 { assert s[i] == h[i - 2]; }
      }
    }
    assert s[4] == '.';
    assert !IsSpace(s[0]) && !IsSpace(s[|s| - 1]);
    StripNoop(s);
    SplitOnWhole(s, MaskCuts);
  }

  /** Splitting the Cisco spelling of dot-free text at the dots and gluing the pieces gives the text back. */
  lemma DotFormPieces(h: string)
    requires |h| == 12 && Avoids(h, MaskCuts) && Avoids(h, {'.'})
    ensures Concat(SplitOn(Strip(DotForm(h)), {'.'})) == h
  {
    DotFormWhole(h);
    DotFormSplit(h);
    Concat3(h[0..4], h[4..8], h[8..12]);
    DotPiecesJoin(h);
  }

  lemma DotPiecesJoin(h: string)
    requires |h| == 12
    ensures h[0..4] + h[4..8] + h[8..12] == h
  {
  }

  lemma DotFormSplit(h: string)
    requires |h| == 12 && Avoids(h, {'.'})
    ensures SplitOn(DotForm(h), {'.'}) == [h[0..4], h[4..8], h[8..12]]
  {
    var a, b, c := h[0..4], h[4..8], h[8..12];
    var t := b + ['.'] + c;
    SplitOnCut(b, '.', c, {'.'});
    SplitOnWhole(c, {'.'});
    assert SplitOn(t, {'.'}) == [b, c];
    assert DotForm(h) == a + ['.'] + t;
    SplitOnCut(a, '.', t, {'.'});
  }

  /** Colon input is lower-cased: hex digits in colon pairs come back in lower case. */
  lemma ColonInputLowered(h: string)
    requires |h| == 12 && AllHex(h)
    ensures FormatMacAddress(ColonForm(h)) == Some(ColonForm(Lower(h)))
  {
    ColonFormTakesPlainBranch(h);
    ColonFormPlainClean(h);
    FormatOfClean(ColonForm(h), Lower(h));
  }

  /** Colon pairs of hex digits are one part of themselves, without surrounding space or a dot. */
  lemma ColonFormWhole(h: string)
    requires |h| == 12 && AllHex(h)
    ensures Strip(ColonForm(h)) == ColonForm(h)
    ensures MaskParts(ColonForm(h)) == [ColonForm(h)] && '.' !in ColonForm(h)
  {
    var s := ColonForm(h);
    ColonFormHex(h);
    HexSepAvoidsCuts(s);
    assert !IsSpace(s[0]) && !IsSpace(s[|s| - 1]);
    StripNoop(s);
    SplitOnWhole(s, MaskCuts);
  }

  lemma ColonFormTakesPlainBranch(h: string)
    requires |h| == 12 && AllHex(h)
    ensures FormatClean(ColonForm(h)) == PlainClean(ColonForm(h))
  {
    ColonFormWhole(h);
  }

  lemma ColonFormPlainClean(h: string)
    requires |h| == 12 && AllHex(h)
    ensures PlainClean(ColonForm(h)) == Lower(h)
  {
    ColonFormWhole(h);
    ColonFormClean(h);
    ColonFormHex(h);
    LowerHexColonsNoDot(ColonForm(h));
    PlainCleanWithoutDot(ColonForm(h), Lower(h));
  }

  /** Hex digits and colons stay dot-free when lower-cased. */
  lemma LowerHexColonsNoDot(s: string)
    requires forall i :: 0 <= i < |s| ==> IsHexDigit(s[i]) || s[i] == ':'
    ensures '.' !in Lower(s)
  {
    assert forall i :: 0 <= i < |s| ==> Lower(s)[i] == LowerChar(s[i]);
  }

  /** A stripped part with no dot once lower-cased is cleaned as if all three separators were deleted. */
  lemma PlainCleanWithoutDot(s: string, t: string)
    requires Strip(s) == s && '.' !in Lower(s) && Remove(Lower(s), MacSeparators) == t
    ensures PlainClean(s) == t
  {
    RemoveSubset(Lower(s));
  }

  /** Lower-cased colon pairs lose only colons whether ':' and '-' or all three separators are deleted. */
  lemma RemoveSubset(s: string)
    requires '.' !in s
    ensures Remove(s, {':', '-'}) == Remove(s, MacSeparators)
  {
    RemoveWithoutDot(s);
  }

  lemma {:induction false} RemoveWithoutDot(s: string)
    requires '.' !in s
    ensures Remove(s, {':', '-'}) == Remove(s, MacSeparators)
  {
    if s != [] {
      assert s[0] != '.';
      assert '.' !in s[1..];
      RemoveWithoutDot(s[1..]);
    }
  }

  // ---------------------------------------------------------------------
  // is_arp_table and process_arp_line
  // ---------------------------------------------------------------------

  predicate IsArpHeader(line: string)
  {
    Contains(line, "Protocol") && Contains(line, "Address") && Contains(line, "Hardware Addr")
  }

  /** A data line: line.split(None, 5) gives six fields, "Internet" first and an ARP-style MAC fourth. */
  predicate IsArpDataLine(line: string)
  {
    var parts := SplitN(line, 5);
    |parts| >= 6 && parts[0] == "Internet" && IsArpTableMac(Strip(parts[3]))
  }

  predicate IsArpTable(line: string)
  {
    IsArpHeader(line) || IsArpDataLine(line)
  }

  /** The VLAN of an ARP interface: "Vlan" deleted from it, or "N/A" when it has none. */
  function InterfaceVlan(iface: string): string
  {
    if Contains(iface, "Vlan") then ReplaceAll(iface, "Vlan", "") else "N/A"
  }

  datatype ArpEntry = ArpEntry(mac: Option<string>, vlan: Option<string>)

  /** process_arp_line: (format_mac_address(mac), vlan) for a data line, (None, None) otherwise. */
  function ProcessArpLine(line: string): (r: ArpEntry)
    ensures r.vlan.Some? <==> IsArpDataLine(line)
    ensures r.mac.Some? ==> r.vlan.Some?
  {
    var parts := SplitN(line, 5);
    if |parts| >= 6 && parts[0] == "Internet" then
      var mac := Strip(parts[3]);
      if IsArpTableMac(mac) then
        ArpEntry(FormatMacAddress(mac), Some(InterfaceVlan(Strip(parts[5]))))
      else ArpEntry(None, None)
    else ArpEntry(None, None)
  }

  /** The fields of an ARP row "Internet <ip> <age> <mac> <type> <interface>". */
  lemma ArpRowFields(ip: string, age: string, mac: string, typ: string, iface: string)
    requires ip != [] && NoSpace(ip) && age != [] && NoSpace(age) && mac != [] && NoSpace(mac)
    requires typ != [] && NoSpace(typ) && iface != [] && !IsSpace(iface[0])
    ensures SplitN(Join(" ", ["Internet", ip, age, mac, typ, iface]), 5) == ["Internet", ip, age, mac, typ, iface]
  {
    var ws := ["Internet", ip, age, mac, typ, iface];
    assert ws[0] == "Internet" && NoSpace("Internet");
    SplitNJoin(ws);
  }

  /** The interface "Vlan<n>" names VLAN str(n). */
  lemma VlanInterface(n: nat)
    ensures InterfaceVlan("Vlan" + NatToString(n)) == NatToString(n)
  {
    var d := NatToString(n);
    var iface := "Vlan" + d;
    assert iface[..4] == "Vlan" && iface[4..] == d;
    assert StartsWith(iface, "Vlan");
    assert !IsDigit('V') && "Vlan"[0] !in d;
    LacksChar(d, "Vlan", 0);
    ReplaceAbsent(d, "Vlan", "");
  }

  /** A row for VLAN interface "Vlan<n>" is an ARP table line reporting the MAC formatted and the VLAN as str(n). */
  lemma ArpRowProcessed(ip: string, age: string, mac: string, typ: string, n: nat)
    requires ip != [] && NoSpace(ip) && age != [] && NoSpace(age) && mac != [] && NoSpace(mac)
    requires typ != [] && NoSpace(typ) && IsArpTableMac(mac)
    ensures IsArpTable(Join(" ", ["Internet", ip, age, mac, typ, "Vlan" + NatToString(n)]))
    ensures ProcessArpLine(Join(" ", ["Internet", ip, age, mac, typ, "Vlan" + NatToString(n)]))
            == ArpEntry(FormatMacAddress(mac), Some(NatToString(n)))
  {
    var iface := "Vlan" + NatToString(n);
    VlanInterfaceWord(n);
    ArpRowParts(ip, age, mac, typ, iface);
    assert !IsSpace(mac[0]) && !IsSpace(mac[|mac| - 1]);
    StripNoop(mac);
    ArpLineRead(Join(" ", ["Internet", ip, age, mac, typ, iface]), mac, iface);
    VlanInterface(n);
  }

  /** "Vlan<n>" is a non-empty word with nothing to strip. */
  lemma VlanInterfaceWord(n: nat)
    ensures var iface := "Vlan" + NatToString(n);
      iface != [] && !IsSpace(iface[0]) && Strip(iface) == iface
  {
    var iface := "Vlan" + NatToString(n);
    assert !IsSpace(iface[0]) && !IsSpace(iface[|iface| - 1]);
    StripNoop(iface);
  }

  /** The first, fourth and sixth fields of an ARP row. */
  lemma ArpRowParts(ip: string, age: string, mac: string, typ: string, iface: string)
    requires ip != [] && NoSpace(ip) && age != [] && NoSpace(age) && mac != [] && NoSpace(mac)
    requires typ != [] && NoSpace(typ) && iface != [] && !IsSpace(iface[0])
    ensures var parts := SplitN(Join(" ", ["Internet", ip, age, mac, typ, iface]), 5);
      |parts| >= 6 && parts[0] == "Internet" && parts[3] == mac && parts[5] == iface
  {
    ArpRowFields(ip, age, mac, typ, iface);
  }

  /** A line whose six fields have "Internet" first, an ARP-style MAC fourth and a stripped interface last. */
  lemma ArpLineRead(line: string, mac: string, iface: string)
    requires |SplitN(line, 5)| >= 6 && SplitN(line, 5)[0] == "Internet"
    requires SplitN(line, 5)[3] == mac && Strip(mac) == mac && IsArpTableMac(mac)
    requires SplitN(line, 5)[5] == iface && Strip(iface) == iface
    ensures IsArpTable(line)
    ensures ProcessArpLine(line) == ArpEntry(FormatMacAddress(mac), Some(InterfaceVlan(iface)))
  {
  }

  // ---------------------------------------------------------------------
  // is_mac_address_table
  // ---------------------------------------------------------------------

  /** The ten header patterns, each word already lower-cased as the comparison does. */
  const HeaderPatterns: seq<seq<string>> := [
    ["vlan", "mac address"],
    ["vlan", "mac address"],
    ["vlan id", "mac address"],
    ["vlan", "mac", "type", "ports"],
    ["vlan", "mac", "type", "interface"],
    ["vlan", "mac", "type", "port"],
    ["vlan", "mac", "type", "aging"],
    ["vlan", "mac", "type", "ports", "aging"],
    ["vlan", "mac", "type", "ports", "state"],
    ["vlan", "mac", "type", "ports", "last", "time"]
  ]

  /** Some pattern has every word in the lower-cased line. */
  predicate MatchesHeader(line: string)
  {
    SomePatternIn(HeaderPatterns, Lower(line))
  }

  /** Some pattern of `patterns`, tried in order, has each of its words in `lower`. */
  predicate SomePatternIn(patterns: seq<seq<string>>, lower: string)
    decreases |patterns|
  {
    patterns != [] && (AllWordsIn(patterns[0], lower) || SomePatternIn(patterns[1..], lower))
  }

  /** Every word of one pattern occurs in `lower`. */
  predicate AllWordsIn(pattern: seq<string>, lower: string)
  {
    forall j :: 0 <= j < |pattern| ==> Contains(lower, pattern[j])
  }

  /** Trying the patterns in order finds one exactly when some pattern has all its words present. */
  lemma {:induction false} SomePatternInSpec(patterns: seq<seq<string>>, lower: string)
    ensures SomePatternIn(patterns, lower) <==> exists i :: 0 <= i < |patterns| && AllWordsIn(patterns[i], lower)
    decreases |patterns|
  {
    if patterns != [] {
      SomePatternInSpec(patterns[1..], lower);
      if SomePatternIn(patterns[1..], lower) {
        var i :| 0 <= i < |patterns[1..]| && AllWordsIn(patterns[1..][i], lower);
        assert patterns[i + 1] == patterns[1..][i];
      }
      if exists i :: 0 <= i < |patterns| && AllWordsIn(patterns[i], lower) {
        var i :| 0 <= i < |patterns| && AllWordsIn(patterns[i], lower);
        if i > 0 {
          assert patterns[1..][i - 1] == patterns[i];
        }
      }
    }
  }

  /** The first of the first two words that is a VLAN in 1..4094, as its value. */
  function FirstVlan(words: seq<string>): (r: Option<int>)
    requires |words| >= 2
    ensures r.Some? ==> 1 <= r.value <= 4094
  {
    if NetvendorCore.IsVlan(words[0]) then ParseInt(words[0])
    else if NetvendorCore.IsVlan(words[1]) then ParseInt(words[1])
    else None
  }

  /** Python's ValueError from list.index, the one exception the recogniser lets escape. */
  datatype Raised = ValueError

  /**
   * is_mac_address_table as written: after a VLAN is found, the MAC is looked
   * for after the first word equal to str(vlan), which raises ValueError when
   * the VLAN was spelled differently (a leading zero, a sign, an underscore).
   */
  function IsMacAddressTable(line: string): (r: Result<bool, Raised>)
    ensures MatchesHeader(line) ==> r == Ok(true)
    ensures r.Err? ==> (|Words(Strip(line))| >= 2 && FirstVlan(Words(Strip(line))).Some?
                        && IntToString(FirstVlan(Words(Strip(line))).value) !in Words(Strip(line)))
  {
    if MatchesHeader(line) then Ok(true)
    else VlanRowTest(Words(Strip(line)))
  }

  /** The written test on the words of a line that matched no header pattern. */
  function VlanRowTest(words: seq<string>): (r: Result<bool, Raised>)
    ensures r.Err? ==> |words| >= 2 && FirstVlan(words).Some? && IntToString(FirstVlan(words).value) !in words
  {
    if |words| < 2 then Ok(false)
    else match FirstVlan(words)
      case None => Ok(false)
      case Some(vlan) =>
        var idx := IndexOf(words, IntToString(vlan));
        if idx == |words| then Err(ValueError)
        else Ok(MacAfter(words, idx))
  }

  /** Whether the word after position `k` is a MAC address (false when there is none). */
  predicate MacAfter(words: seq<string>, k: nat)
  {
    k + 1 < |words| && IsMacAddress(words[k + 1])
  }

  /** The position among the first two words of the one that gave the VLAN. */
  function VlanIndex(words: seq<string>): (k: nat)
    requires |words| >= 2 && FirstVlan(words).Some?
    ensures k < 2 && NetvendorCore.IsVlan(words[k]) && ParseInt(words[k]) == FirstVlan(words)
  {
    if NetvendorCore.IsVlan(words[0]) then 0 else 1
  }

  /** The evidently intended test: the MAC is the word after the one that gave the VLAN. */
  function IsMacAddressTableFixed(line: string): bool
  {
    MatchesHeader(line) || VlanRowTestFixed(Words(Strip(line)))
  }

  /** The intended test on the words of a line that matched no header pattern. */
  predicate VlanRowTestFixed(words: seq<string>)
  {
    |words| >= 2 && FirstVlan(words).Some? &&
    MacAfter(words, VlanIndex(words))
  }

  /** Where the VLAN word is spelled as str(vlan), the written test and the intended one agree. */
  lemma FixedAgrees(line: string)
    requires var words := Words(Strip(line));
      |words| >= 2 && FirstVlan(words).Some? ==> words[VlanIndex(words)] == IntToString(FirstVlan(words).value)
    ensures IsMacAddressTable(line) == Ok(IsMacAddressTableFixed(line))
  {
    VlanRowAgrees(Words(Strip(line)));
  }

  lemma VlanRowAgrees(words: seq<string>)
    requires |words| >= 2 && FirstVlan(words).Some? ==> words[VlanIndex(words)] == IntToString(FirstVlan(words).value)
    ensures VlanRowTest(words) == Ok(VlanRowTestFixed(words))
  {
    if |words| >= 2 && FirstVlan(words).Some? {
      var v := FirstVlan(words).value;
      var k := VlanIndex(words);
      var w := IntToString(v);
      if k == 1 {
        FirstWordUnspelled(words);
      }
      IndexOfEarly(words, w, k);
      assert IndexOf(words, w) == k;
    }
  }

  /** When the VLAN came from the second word, the first word is not str(vlan). */
  lemma FirstWordUnspelled(words: seq<string>)
    requires |words| >= 2 && FirstVlan(words).Some? && VlanIndex(words) == 1
    ensures words[0] != IntToString(FirstVlan(words).value)
  {
    var v := FirstVlan(words).value;
    ParseIntToString(v);
  }

  /** The index of a word found at position 0, or at 1 after a different first word. */
  lemma IndexOfEarly(ws: seq<string>, w: string, k: nat)
    requires k < 2 && k < |ws| && ws[k] == w && (k == 1 ==> ws[0] != w)
    ensures IndexOf(ws, w) == k
  {
  }

  /** "0" + str(vlan) is a word that int() reads as the VLAN but that is not spelled str(vlan). */
  lemma ZeroPaddedUnspelled(vlan: int)
    requires 1 <= vlan <= 4094
    ensures var w := "0" + IntToString(vlan);
      w != [] && NoSpace(w) && ParseInt(w) == Some(vlan) && w != IntToString(vlan)
  {
    var d := IntToString(vlan);
    ZeroPaddedVlan(vlan);
    ZeroPaddedNoSpace(vlan);
    assert |"0" + d| == |d| + 1;
  }

  /** A first word that parses to the VLAN but is not spelled str(vlan), with no later word so spelled, raises. */
  lemma UnspelledVlanRaises(w: string, rest: string, vlan: int)
    requires w != [] && NoSpace(w) && ParseInt(w) == Some(vlan) && 1 <= vlan <= 4094
    requires w != IntToString(vlan)
    requires !MatchesHeader(w + " " + rest)
    requires forall i :: 0 <= i < |Words(rest)| ==> Words(rest)[i] != IntToString(vlan)
    requires |Words(rest)| >= 1
    ensures IsMacAddressTable(w + " " + rest) == Err(ValueError)
  {
    NetvendorCore.WordsOfRow(w, rest);
    UnspelledRowRaises(w, Words(rest), vlan);
  }

  /** The word-level step: "<w> <ws...>" with w read as the VLAN and no word spelled str(vlan). */
  lemma UnspelledRowRaises(w: string, ws: seq<string>, vlan: int)
    requires ParseInt(w) == Some(vlan) && 1 <= vlan <= 4094 && w != IntToString(vlan)
    requires forall i :: 0 <= i < |ws| ==> ws[i] != IntToString(vlan)
    requires |ws| >= 1
    ensures VlanRowTest([w] + ws) == Err(ValueError)
  {
    var words := [w] + ws;
    assert words[0] == w && NetvendorCore.IsVlan(w);
    assert forall i :: 0 < i < |words| ==> words[i] == ws[i - 1];
    VlanRowRaises(words);
  }

  /** The written test raises exactly when no word spells the VLAN found as str(vlan). */
  lemma RaisesWhenAbsent(line: string)
    requires !MatchesHeader(line)
    requires |Words(Strip(line))| >= 2 && FirstVlan(Words(Strip(line))).Some?
    requires var words := Words(Strip(line));
      forall i :: 0 <= i < |words| ==> words[i] != IntToString(FirstVlan(words).value)
    ensures IsMacAddressTable(line) == Err(ValueError)
  {
    VlanRowRaises(Words(Strip(line)));
  }

  lemma VlanRowRaises(words: seq<string>)
    requires |words| >= 2 && FirstVlan(words).Some?
    requires forall i :: 0 <= i < |words| ==> words[i] != IntToString(FirstVlan(words).value)
    ensures VlanRowTest(words) == Err(ValueError)
  {
    IndexOfAbsent(words, IntToString(FirstVlan(words).value));
  }

  /** int("0" + str(vlan)) == vlan for a VLAN number. */
  lemma ZeroPaddedVlan(vlan: int)
    requires 1 <= vlan <= 4094
    ensures ParseInt("0" + IntToString(vlan)) == Some(vlan)
  {
    assert IntToString(vlan) == NatToString(vlan);
    ParseIntZeroPadded(vlan);
  }

  lemma IndexOfAbsent(ws: seq<string>, w: string)
    requires forall i :: 0 <= i < |ws| ==> ws[i] != w
    ensures IndexOf(ws, w) == |ws|
  {
  }

  /** The intended test accepts the zero-padded row when the next word is a MAC. */
  lemma FixedAcceptsLeadingZero(vlan: int, mac: string, rest: string)
    requires 1 <= vlan <= 4094 && mac != [] && NoSpace(mac) && IsMacAddress(mac)
    ensures IsMacAddressTableFixed("0" + IntToString(vlan) + " " + mac + " " + rest)
  {
    ZeroPaddedVlan(vlan);
    ZeroRowWords(vlan, mac, rest);
    VlanThenMac("0" + IntToString(vlan), mac, Words(rest), vlan);
  }

  /** The intended test accepts "<w> <mac> ..." when int(w) is a VLAN and mac is a MAC. */
  lemma VlanThenMac(w: string, mac: string, ws: seq<string>, vlan: int)
    requires ParseInt(w) == Some(vlan) && 1 <= vlan <= 4094 && IsMacAddress(mac)
    ensures VlanRowTestFixed([w, mac] + ws)
  {
    var words := [w, mac] + ws;
    assert words[0] == w && words[1] == mac && NetvendorCore.IsVlan(w);
    assert VlanIndex(words) == 0;
  }

  /** The words of "0<vlan> <mac> <rest>". */
  lemma ZeroRowWords(vlan: int, mac: string, rest: string)
    requires 1 <= vlan <= 4094 && mac != [] && NoSpace(mac)
    ensures Words(Strip("0" + IntToString(vlan) + " " + mac + " " + rest)) == ["0" + IntToString(vlan), mac] + Words(rest)
  {
    ZeroPaddedNoSpace(vlan);
    NetvendorCore.TwoWordRow("0" + IntToString(vlan), mac, rest);
  }


  lemma ZeroPaddedNoSpace(vlan: int)
    requires 1 <= vlan <= 4094
    ensures NoSpace("0" + IntToString(vlan))
  {
    assert IntToString(vlan) == NatToString(vlan);
    ParseIntZeroPadded(vlan);
  }

  // ---------------------------------------------------------------------
  // parse_port_info
  // ---------------------------------------------------------------------

  /** The status words the port search skips. */
  const SkipWords: set<string> := {"dynamic", "static", "secure", "sticky"}

  /** A lower-cased word containing one of gi, te, fa, ge, xe, '/' or ':'. */
  predicate HasPortPattern(lw: string)
  {
    Contains(lw, "gi") || Contains(lw, "te") || Contains(lw, "fa") || Contains(lw, "ge")
    || Contains(lw, "xe") || Contains(lw, "/") || Contains(lw, ":")
  }

  /** A word the search returns: not a status word, and port-patterned or all digits. */
  predicate PortLike(w: string)
  {
    Lower(w) !in SkipWords && (HasPortPattern(Lower(w)) || IsDigits(w))
  }

  /** The first port-like word. */
  function FindPort(ws: seq<string>): (r: Option<string>)
    ensures r.Some? ==> exists i :: 0 <= i < |ws| && ws[i] == r.value && PortLike(ws[i])
                                    && forall j :: 0 <= j < i ==> !PortLike(ws[j])
    ensures r.None? ==> forall i :: 0 <= i < |ws| ==> !PortLike(ws[i])
  {
    if ws == [] then None
    else
      var lw := Lower(ws[0]);
      if lw in SkipWords then
        var r := FindPort(ws[1..]);
        assert forall i :: 1 <= i < |ws| ==> ws[i] == ws[1..][i - 1];
        r
      else if HasPortPattern(lw) then Some(ws[0])
      else if IsDigits(ws[0]) then Some(ws[0])
      else
        var r := FindPort(ws[1..]);
        assert forall i :: 1 <= i < |ws| ==> ws[i] == ws[1..][i - 1];
        r
  }

  /** parse_port_info: at least three words, then the first port-like word from the third on. */
  function ParsePortInfo(line: string): (r: Option<string>)
    ensures r.Some? ==> |Words(line)| >= 3 && PortLike(r.value) && r.value in Words(line)[2..]
    ensures r.None? <==> |Words(line)| < 3 || forall i :: 2 <= i < |Words(line)| ==> !PortLike(Words(line)[i])
  {
    WordsStrip(line);
    if line == [] then None
    else
      var words := Words(Strip(line));
      if |words| < 3 then None
      else
        var r := FindPort(words[2..]);
        assert forall i :: 2 <= i < |words| ==> words[i] == words[2..][i - 2];
        r
  }
}
