/**
 * The two test-data generators (generator_test.py and
 * generate_test_data.py): IP numbering, the hex MAC suffix, the entry
 * formats of a MAC address table, an ARP table, a plain MAC list and the
 * 2500-line ARP file, the count rebalancing and the generation loops.
 * Every random draw is a parameter; a draw's range (randint's bounds) is
 * its type.
 */
module TestData {
  import opened Common
  import opened Text
  import opened MacText
  import opened Dicts
  import opened TestRows
  import Tally
  import NetvendorCore
  import ShadowCore

  // ---------------------------------------------------------------------
  // generate_ip
  // ---------------------------------------------------------------------

  /**
   * (index - 1) // 254 + 1. Python's // floors; with the positive divisor
   * 254 that is Dafny's Euclidean division, for negative indexes too.
   */
  function Subnet(index: int): int
  {
    (index - 1) / 254 + 1
  }

  /** ((index - 1) % 254) + 1, Python's % being non-negative for a positive divisor. */
  function Host(index: int): int
  {
    (index - 1) % 254 + 1
  }

  /** generate_ip(index): "192.168.{subnet}.{host}" */
  function Ip(index: int): string
  {
    "192.168." + IntToString(Subnet(index)) + "." + IntToString(Host(index))
  }

  /** The host is always 1..254, and the subnet is at least 1 from index 1 on. */
  lemma HostSubnetRange(index: int)
    ensures 1 <= Host(index) <= 254
    ensures index >= 1 ==> Subnet(index) >= 1
  {
  }

  /** The index is recovered from the subnet and the host: the numbering is one-to-one. */
  lemma IndexFromAddress(index: int)
    ensures index == (Subnet(index) - 1) * 254 + Host(index)
  {
  }

  /** The address text splits at its dots into "192", "168" and the two numbers, which read back. */
  lemma IpFields(index: int)
    ensures var parts := SplitOn(Ip(index), {'.'});
      |parts| == 4 && parts[0] == "192" && parts[1] == "168"
      && ParseInt(parts[2]) == Some(Subnet(index)) && ParseInt(parts[3]) == Some(Host(index))
  {
    IpSplit(index);
    ParseIntToString(Subnet(index));
    ParseIntToString(Host(index));
  }

  lemma IpSplit(index: int)
    ensures SplitOn(Ip(index), {'.'}) == ["192", "168", IntToString(Subnet(index)), IntToString(Host(index))]
  {
    var a, b := IntToString(Subnet(index)), IntToString(Host(index));
    assert Ip(index) == "192" + "." + "168" + "." + a + "." + b;
    NumberAvoidsDot(Subnet(index));
    NumberAvoidsDot(Host(index));
    ShadowCore.DottedParts("192", "168", a, b);
  }

  /** Different indexes give different addresses. */
  lemma IpInjective(i: int, j: int)
    requires Ip(i) == Ip(j)
    ensures i == j
  {
    IpFields(i);
    IpFields(j);
    IndexFromAddress(i);
    IndexFromAddress(j);
  }

  lemma NumberAvoidsDot(n: int)
    ensures forall i :: 0 <= i < |IntToString(n)| ==> IntToString(n)[i] !in {'.'}
    ensures NoSpace(IntToString(n))
  {
    IntToStringNoSpace(n);
    var s := IntToString(n);
    var d := NatToString(if n < 0 then -n else n);
    forall i | 0 <= i < |s| ensures s[i] !in {'.'} {
      if n < 0 && i > 0 {
        assert s[i] == d[i - 1];
      }
    }
  }

  /** An address is one word: digits and dots. */
  lemma IpWord(index: int)
    ensures Ip(index) != [] && NoSpace(Ip(index))
  {
    var a, b := IntToString(Subnet(index)), IntToString(Host(index));
    NumberAvoidsDot(Subnet(index));
    NumberAvoidsDot(Host(index));
    NoSpaceJoin("192.168." + a, "." + b);
    NoSpaceJoin("192.168.", a);
    NoSpaceJoin(".", b);
  }

  lemma NoSpaceJoin(a: string, b: string)
    requires NoSpace(a) && NoSpace(b)
    ensures NoSpace(a + b)
  {
    assert forall i :: |a| <= i < |a + b| ==> (a + b)[i] == b[i - |a|];
  }

  // ---------------------------------------------------------------------
  // generate_mac_suffix
  // ---------------------------------------------------------------------

  /** A draw of randint(0, 255). */
  type Octet = n: int | 0 <= n < 256

  /** The digit of value d (0..15) as the format code X writes it: upper case. */
  function HexChar(d: nat): (c: char)
    requires d < 16
    ensures IsUpperHexDigit(c) && DigitValue(c) == d
  {
    if d < 10 then ('0' as int + d) as char else ('A' as int + d - 10) as char
  }

  /** f"{n:02X}": two upper-case hex digits, zero-padded. */
  function Hex2(n: Octet): (r: string)
    ensures |r| == 2 && IsUpperHexDigit(r[0]) && IsUpperHexDigit(r[1])
    ensures DigitValue(r[0]) * 16 + DigitValue(r[1]) == n
  {
    [HexChar(n / 16), HexChar(n % 16)]
  }

  /** Two upper-case hex digits. */
  predicate IsHexPair(p: string)
  {
    |p| == 2 && IsUpperHexDigit(p[0]) && IsUpperHexDigit(p[1])
  }

  /** Three pairs of upper-case hex digits joined by ':', the shape of an OUI "00:1A:A0" and of a suffix. */
  predicate IsHexTriple(s: string)
  {
    |s| == 8 && s[2] == ':' && s[5] == ':' && IsHexPair(s[0..2]) && IsHexPair(s[3..5]) && IsHexPair(s[6..8])
  }

  /** generate_mac_suffix with the three draws as parameters. */
  function MacSuffix(a: Octet, b: Octet, c: Octet): (r: string)
    ensures IsHexTriple(r)
    ensures r == Hex2(a) + ":" + Hex2(b) + ":" + Hex2(c)
  {
    var r := Hex2(a) + ":" + Hex2(b) + ":" + Hex2(c);
    assert r[0..2] == Hex2(a) && r[3..5] == Hex2(b) && r[6..8] == Hex2(c);
    r
  }

  /** The value of the hex pair at position k. */
  function PairValue(s: string, k: nat): nat
    requires k + 2 <= |s|
  {
    DigitValue(s[k]) * 16 + DigitValue(s[k + 1])
  }

  /** The suffix text gives back the three draws. */
  lemma MacSuffixOctets(a: Octet, b: Octet, c: Octet)
    ensures var r := MacSuffix(a, b, c); PairValue(r, 0) == a && PairValue(r, 3) == b && PairValue(r, 6) == c
  {
    var r := MacSuffix(a, b, c);
    assert r[0..2] == Hex2(a) && r[3..5] == Hex2(b) && r[6..8] == Hex2(c);
  }

  /** A triple is its three pairs joined by colons. */
  lemma TriplePieces(t: string)
    requires IsHexTriple(t)
    ensures t == t[0..2] + ":" + t[3..5] + ":" + t[6..8]
  {
  }

  /** A pair is hex text with no separator and no space. */
  lemma PairHex(p: string)
    requires IsHexPair(p)
    ensures AllHex(p) && Avoids(p, MacSeparators) && NoSpace(p) && Avoids(p, {'.'}) && ':' !in p
  {
    HexAvoidsSeparators(p);
  }

  /** The six hex digits of a triple, the colons left out. */
  function Digits(t: string): string
    requires IsHexTriple(t)
  {
    t[0..2] + t[3..5] + t[6..8]
  }

  lemma DigitsHex(t: string)
    requires IsHexTriple(t)
    ensures |Digits(t)| == 6 && AllHex(Digits(t)) && NoSpace(Digits(t)) && Avoids(Digits(t), {'.'})
  {
    PairHex(t[0..2]);
    PairHex(t[3..5]);
    PairHex(t[6..8]);
    HexAvoidsSeparators(Digits(t));
  }

  // ---------------------------------------------------------------------
  // The two MAC spellings the generators write
  // ---------------------------------------------------------------------

  /** generate_mac_list's f"{oui}:{mac_suffix}". */
  function ColonMac(oui: string, suffix: string): string
  {
    oui + ":" + suffix
  }

  /** A colon MAC of an OUI and a suffix is accepted by both packages' MAC tests. */
  lemma ColonMacAccepted(oui: string, suffix: string)
    requires IsHexTriple(oui) && IsHexTriple(suffix)
    ensures NetvendorCore.IsMacAddress(ColonMac(oui, suffix)) && ShadowCore.IsMacAddress(ColonMac(oui, suffix))
  {
    var h := Digits(oui) + Digits(suffix);
    ColonMacShape(oui, suffix);
    DigitsHex(oui);
    DigitsHex(suffix);
    TwelveAccepted(h);
  }

  lemma TwelveAccepted(h: string)
    requires |h| == 12 && AllHex(h)
    ensures NetvendorCore.IsMacAddress(ColonForm(h)) && ShadowCore.IsMacAddress(ColonForm(h))
  {
    NetvendorCore.SeparatorStylesAccepted(h);
    ColonFormHex(h);
    ShadowCore.AgreesWithoutMask(ColonForm(h));
  }

  /** A colon MAC is the colon form of the OUI's and the suffix's twelve digits: 17 characters. */
  lemma ColonMacShape(oui: string, suffix: string)
    requires IsHexTriple(oui) && IsHexTriple(suffix)
    ensures |Digits(oui) + Digits(suffix)| == 12 && ColonMac(oui, suffix) == ColonForm(Digits(oui) + Digits(suffix))
    ensures |ColonMac(oui, suffix)| == 17
  {
    TriplePieces(oui);
    TriplePieces(suffix);
    SixPairs(Digits(oui) + Digits(suffix), oui[0..2], oui[3..5], oui[6..8], suffix[0..2], suffix[3..5], suffix[6..8]);
  }

  /** Twelve characters made of six given pairs, colon-grouped, are the pairs joined by colons. */
  lemma SixPairs(h: string, a: string, b: string, c: string, d: string, e: string, f: string)
    requires |a| == 2 && |b| == 2 && |c| == 2 && |d| == 2 && |e| == 2 && |f| == 2
    requires h == a + b + c + (d + e + f)
    ensures |h| == 12
    ensures ColonForm(h) == (a + ":" + b + ":" + c) + ":" + (d + ":" + e + ":" + f)
  {
    assert h[0..2] == a && h[2..4] == b && h[4..6] == c;
    assert h[6..8] == d && h[8..10] == e && h[10..12] == f;
  }

  /** The MAC column of the generated tables: f"{oui.replace(':', '.')}.{mac_suffix.replace(':', '')}". */
  function DottedMac(oui: string, suffix: string): string
  {
    ReplaceAll(oui, ":", ".") + "." + ReplaceAll(suffix, ":", "")
  }

  /** A match at the front is replaced, and the rest is processed. */
  lemma ReplaceFront(x: string, pat: string, rep: string)
    requires pat != []
    ensures ReplaceAll(pat + x, pat, rep) == rep + ReplaceAll(x, pat, rep)
  {
    assert (pat + x)[..|pat|] == pat && (pat + x)[|pat|..] == x;
  }

  /** Replacing the two colons between three colon-free pieces. */
  lemma ReplaceColons(p: string, q: string, r: string, rep: string)
    requires ':' !in p && ':' !in q && ':' !in r
    ensures ReplaceAll(p + ":" + q + ":" + r, ":", rep) == p + rep + q + rep + r
  {
    var pat := ":";
    var x := pat + (q + (pat + r));
    assert p + ":" + q + ":" + r == p + x;
    ReplaceTail(q, r, pat, rep);
    ReplaceSkip(p, x, pat, rep);
  }

  /** ":q:r" with no colon in q and r: both colons replaced. */
  lemma ReplaceTail(q: string, r: string, pat: string, rep: string)
    requires pat == ":" && ':' !in q && ':' !in r
    ensures ReplaceAll(pat + (q + (pat + r)), pat, rep) == rep + (q + (rep + r))
  {
    ReplaceSkip(r, [], pat, rep);
    assert r + [] == r;
    assert ReplaceAll([], pat, rep) == [];
    ReplaceFront(r, pat, rep);
    ReplaceSkip(q, pat + r, pat, rep);
    ReplaceFront(q + (pat + r), pat, rep);
  }

  /** The MAC column: the OUI's three pairs and the six suffix digits, joined by dots. */
  lemma DottedMacShape(oui: string, suffix: string)
    requires IsHexTriple(oui) && IsHexTriple(suffix)
    ensures DottedMac(oui, suffix) == oui[0..2] + "." + oui[3..5] + "." + oui[6..8] + "." + Digits(suffix)
  {
    var a, b, c := oui[0..2], oui[3..5], oui[6..8];
    var x, y, z := suffix[0..2], suffix[3..5], suffix[6..8];
    PairHex(a);
    PairHex(b);
    PairHex(c);
    PairHex(x);
    PairHex(y);
    PairHex(z);
    TriplePieces(oui);
    TriplePieces(suffix);
    ReplaceColons(a, b, c, ".");
    ReplaceColons(x, y, z, "");
    assert x + "" + y + "" + z == Digits(suffix);
  }

  /**
   * The MAC column has four dot-separated groups, "00.1A.A0.3F9C21", and
   * ShadowVendor's ARP MAC test accepts it.
   */
  lemma DottedMacGroups(oui: string, suffix: string)
    requires IsHexTriple(oui) && IsHexTriple(suffix)
    ensures SplitOn(DottedMac(oui, suffix), {'.'}) == [oui[0..2], oui[3..5], oui[6..8], Digits(suffix)]
    ensures ShadowCore.IsArpTableMac(DottedMac(oui, suffix))
  {
    var a, b, c, d := oui[0..2], oui[3..5], oui[6..8], Digits(suffix);
    PairHex(a);
    PairHex(b);
    PairHex(c);
    DigitsHex(suffix);
    DottedMacShape(oui, suffix);
    ShadowCore.DottedParts(a, b, c, d);
    ShadowCore.FourGroupsAccepted(a, b, c, d);
  }

  /** The MAC column is one word. */
  lemma DottedMacWord(oui: string, suffix: string)
    requires IsHexTriple(oui) && IsHexTriple(suffix)
    ensures DottedMac(oui, suffix) != [] && NoSpace(DottedMac(oui, suffix))
  {
    var a, b, c, d := oui[0..2], oui[3..5], oui[6..8], Digits(suffix);
    DottedMacShape(oui, suffix);
    PairHex(a);
    PairHex(b);
    PairHex(c);
    DigitsHex(suffix);
    NoSpaceJoin(a, ".");
    NoSpaceJoin(a + ".", b);
    NoSpaceJoin(a + "." + b, ".");
    NoSpaceJoin(a + "." + b + ".", c);
    NoSpaceJoin(a + "." + b + "." + c, ".");
    NoSpaceJoin(a + "." + b + "." + c + ".", d);
  }

  // ---------------------------------------------------------------------
  // Entry formats
  // ---------------------------------------------------------------------

  /** A draw of randint(1, 100): the VLAN of a generated table row. */
  type Vlan100 = n: int | 1 <= n <= 100 witness 1

  /** A draw of randint(1, 48): the port number of a MAC table row. */
  type PortNumber = n: int | 1 <= n <= 48 witness 1

  /** A draw of randint(0, 240): the age column of an ARP row. */
  type Age = n: int | 0 <= n <= 240

  /** A draw of randint(1, 50): the VLAN of the 2500-line file, before it is multiplied by 10. */
  type Vlan50 = n: int | 1 <= n <= 50 witness 1

  /** The draws behind one generated row: the OUI chosen, the suffix octets, the VLAN, the port and the age. */
  datatype RowDraw = RowDraw(oui: string, a: Octet, b: Octet, c: Octet, vlan: Vlan100, port: PortNumber, age: Age)

  /** The draws behind one row of the 2500-line file. */
  datatype DataDraw = DataDraw(oui: string, a: Octet, b: Octet, c: Octet, vlan: Vlan50)

  /** generate_mac_address_table's row: f"{vlan:<8}{mac}   DYNAMIC     {port}". */
  function MacTableEntry(d: RowDraw): string
  {
    LeftAlign(NatToString(d.vlan), 8) + DottedMac(d.oui, MacSuffix(d.a, d.b, d.c)) + "   DYNAMIC     "
    + "Gi1/0/" + NatToString(d.port)
  }

  /** generate_arp_table's row for the i-th entry of a vendor: the address is generate_ip(i + 1). */
  function ArpTableEntry(d: RowDraw, i: nat): string
  {
    "Internet  " + LeftAlign(Ip(i + 1), 15) + " " + LeftAlign(NatToString(d.age), 10) + " "
    + DottedMac(d.oui, MacSuffix(d.a, d.b, d.c)) + "  ARPA   Vlan" + NatToString(d.vlan)
  }

  /** generate_mac_list's row: f"{oui}:{mac_suffix}". */
  function MacListEntry(d: RowDraw): string
  {
    ColonMac(d.oui, MacSuffix(d.a, d.b, d.c))
  }

  /** generate_entry(index, vendor, oui): f"Internet  {ip:<15} 1   {oui}:{mac_suffix}  ARPA   Vlan{vlan}". */
  function DataEntry(index: int, d: DataDraw): string
  {
    "Internet  " + LeftAlign(Ip(index), 15) + " 1   " + ColonMac(d.oui, MacSuffix(d.a, d.b, d.c))
    + "  ARPA   Vlan" + NatToString(d.vlan * 10)
  }

  /** A word, whitespace and more text: the word, then the rest's words. */
  lemma WordsCons(w: string, sp: string, rest: string)
    requires w != [] && NoSpace(w)
    requires sp != [] && forall i :: 0 <= i < |sp| ==> IsSpace(sp[i])
    ensures Words(w + sp + rest) == [w] + Words(rest)
  {
    WordsConcatSpace(w, sp, rest);
    WordsOfWord(w);
  }

  /** A left-aligned word followed by whitespace, or padded to a larger width. */
  lemma WordsPadded(w: string, width: nat, sp: string, rest: string)
    requires w != [] && NoSpace(w)
    requires forall i :: 0 <= i < |sp| ==> IsSpace(sp[i])
    requires |w| < width || sp != []
    ensures Words(LeftAlign(w, width) + sp + rest) == [w] + Words(rest)
  {
    if |w| < width {
      var pad := Spaces(width - |w|) + sp;
      assert LeftAlign(w, width) + sp + rest == w + pad + rest;
      WordsCons(w, pad, rest);
    } else {
      WordsCons(w, sp, rest);
    }
  }

  lemma NumberWord(n: nat)
    ensures NatToString(n) != [] && NoSpace(NatToString(n))
  {
  }

  /** A MAC table row splits into the VLAN, the dotted MAC, "DYNAMIC" and the port "Gi1/0/<n>". */
  lemma MacTableEntryWords(d: RowDraw)
    requires IsHexTriple(d.oui)
    ensures Words(MacTableEntry(d)) ==
            [NatToString(d.vlan), DottedMac(d.oui, MacSuffix(d.a, d.b, d.c)), "DYNAMIC", "Gi1/0/" + NatToString(d.port)]
    ensures ShadowCore.IsArpTableMac(DottedMac(d.oui, MacSuffix(d.a, d.b, d.c)))
  {
    DottedMacGroups(d.oui, MacSuffix(d.a, d.b, d.c));
    ShadowCore.NatToStringShort(d.vlan);
    NumberWord(d.vlan);
    NumberWord(d.port);
    DottedMacWord(d.oui, MacSuffix(d.a, d.b, d.c));
    MacRowWords(NatToString(d.vlan), DottedMac(d.oui, MacSuffix(d.a, d.b, d.c)), NatToString(d.port));
  }

  lemma MacRowWords(v: string, m: string, n: string)
    requires v != [] && NoSpace(v) && |v| < 8 && m != [] && NoSpace(m) && n != [] && NoSpace(n)
    ensures Words(LeftAlign(v, 8) + m + "   DYNAMIC     " + "Gi1/0/" + n) == [v, m, "DYNAMIC", "Gi1/0/" + n]
  {
    var p := "Gi1/0/" + n;
    NoSpaceJoin("Gi1/0/", n);
    WordsOfWord(p);
    WordsCons("DYNAMIC", "     ", p);
    WordsCons(m, "   ", "DYNAMIC" + "     " + p);
    WordsPadded(v, 8, "", m + "   " + ("DYNAMIC" + "     " + p));
    MacRowShape(LeftAlign(v, 8), m, n);
  }

  lemma MacRowShape(l: string, m: string, n: string)
    ensures l + m + "   DYNAMIC     " + "Gi1/0/" + n == l + "" + (m + "   " + ("DYNAMIC" + "     " + ("Gi1/0/" + n)))
  {
    assert "   DYNAMIC     " == "   " + "DYNAMIC" + "     ";
  }

  /** An ARP table row splits into "Internet", the address, the age, the dotted MAC, "ARPA" and "Vlan<n>". */
  lemma ArpTableEntryWords(d: RowDraw, i: nat)
    requires IsHexTriple(d.oui)
    ensures Words(ArpTableEntry(d, i)) ==
            ["Internet", Ip(i + 1), NatToString(d.age), DottedMac(d.oui, MacSuffix(d.a, d.b, d.c)), "ARPA",
             "Vlan" + NatToString(d.vlan)]
  {
    IpWord(i + 1);
    NumberWord(d.age);
    DottedMacWord(d.oui, MacSuffix(d.a, d.b, d.c));
    ArpRowWords(Ip(i + 1), NatToString(d.age), DottedMac(d.oui, MacSuffix(d.a, d.b, d.c)), d.vlan);
  }

  lemma ArpRowWords(ip: string, age: string, m: string, vlan: nat)
    requires ip != [] && NoSpace(ip) && age != [] && NoSpace(age) && m != [] && NoSpace(m)
    ensures Words("Internet  " + LeftAlign(ip, 15) + " " + LeftAlign(age, 10) + " " + m + "  ARPA   Vlan" + NatToString(vlan))
            == ["Internet", ip, age, m, "ARPA", "Vlan" + NatToString(vlan)]
  {
    ArpRowShape(LeftAlign(ip, 15), LeftAlign(age, 10), m, NatToString(vlan));
    ArpNestedWords(ip, age, m, vlan);
  }

  lemma ArpNestedWords(ip: string, age: string, m: string, vlan: nat)
    requires ip != [] && NoSpace(ip) && age != [] && NoSpace(age) && m != [] && NoSpace(m)
    ensures var tail := m + "  " + ("ARPA" + "   " + ("Vlan" + NatToString(vlan)));
      Words("Internet" + "  " + (LeftAlign(ip, 15) + " " + (LeftAlign(age, 10) + " " + tail)))
      == ["Internet", ip, age, m, "ARPA", "Vlan" + NatToString(vlan)]
  {
    ShadowCore.VlanInterfaceWord(vlan);
    StripNoop("Vlan" + NatToString(vlan));
    SixWords("Internet", ip, age, m, "ARPA", "Vlan" + NatToString(vlan), 15, 10, "  ", " ", " ", "  ", "   ");
  }

  /** Six words, the second and third left-aligned, separated by non-empty runs of whitespace. */
  lemma SixWords(w0: string, w1: string, w2: string, w3: string, w4: string, w5: string,
                 n1: nat, n2: nat, a: string, b: string, c: string, d: string, e: string)
    requires w0 != [] && NoSpace(w0) && w1 != [] && NoSpace(w1) && w2 != [] && NoSpace(w2)
    requires w3 != [] && NoSpace(w3) && w4 != [] && NoSpace(w4) && w5 != [] && NoSpace(w5)
    requires a != [] && (forall i :: 0 <= i < |a| ==> IsSpace(a[i]))
    requires b != [] && (forall i :: 0 <= i < |b| ==> IsSpace(b[i]))
    requires c != [] && (forall i :: 0 <= i < |c| ==> IsSpace(c[i]))
    requires d != [] && (forall i :: 0 <= i < |d| ==> IsSpace(d[i]))
    requires e != [] && (forall i :: 0 <= i < |e| ==> IsSpace(e[i]))
    ensures Words(w0 + a + (LeftAlign(w1, n1) + b + (LeftAlign(w2, n2) + c + (w3 + d + (w4 + e + w5)))))
            == [w0, w1, w2, w3, w4, w5]
  {
    var t4 := w4 + e + w5;
    var t3 := w3 + d + t4;
    var t2 := LeftAlign(w2, n2) + c + t3;
    var t1 := LeftAlign(w1, n1) + b + t2;
    TailWords(w3, w4, w5, d, e);
    FrontWords(w0, w1, w2, n1, n2, a, b, c, t3, [w3] + ([w4] + [w5]));
    SixCons(w0, w1, w2, w3, w4, w5);
  }

  lemma FrontWords(w0: string, w1: string, w2: string, n1: nat, n2: nat, a: string, b: string, c: string,
                   rest: string, ws: seq<string>)
    requires w0 != [] && NoSpace(w0) && w1 != [] && NoSpace(w1) && w2 != [] && NoSpace(w2)
    requires a != [] && (forall i :: 0 <= i < |a| ==> IsSpace(a[i]))
    requires b != [] && (forall i :: 0 <= i < |b| ==> IsSpace(b[i]))
    requires c != [] && (forall i :: 0 <= i < |c| ==> IsSpace(c[i]))
    requires Words(rest) == ws
    ensures Words(w0 + a + (LeftAlign(w1, n1) + b + (LeftAlign(w2, n2) + c + rest))) == [w0] + ([w1] + ([w2] + ws))
  {
    PaddedStep(w2, n2, c, rest, ws);
    PaddedStep(w1, n1, b, LeftAlign(w2, n2) + c + rest, [w2] + ws);
    WordsStep(w0, a, LeftAlign(w1, n1) + b + (LeftAlign(w2, n2) + c + rest), [w1] + ([w2] + ws));
  }

  lemma TailWords(w3: string, w4: string, w5: string, d: string, e: string)
    requires w3 != [] && NoSpace(w3) && w4 != [] && NoSpace(w4) && w5 != [] && NoSpace(w5)
    requires d != [] && (forall i :: 0 <= i < |d| ==> IsSpace(d[i]))
    requires e != [] && (forall i :: 0 <= i < |e| ==> IsSpace(e[i]))
    ensures Words(w3 + d + (w4 + e + w5)) == [w3] + ([w4] + [w5])
  {
    WordsOfWord(w5);
    WordsStep(w4, e, w5, [w5]);
    WordsStep(w3, d, w4 + e + w5, [w4] + [w5]);
  }

  lemma SixCons<T>(a: T, b: T, c: T, d: T, e: T, f: T)
    ensures [a] + ([b] + ([c] + ([d] + ([e] + [f])))) == [a, b, c, d, e, f]
  {
  }

  lemma WordsStep(w: string, sp: string, rest: string, ws: seq<string>)
    requires w != [] && NoSpace(w) && Words(rest) == ws
    requires sp != [] && forall i :: 0 <= i < |sp| ==> IsSpace(sp[i])
    ensures Words(w + sp + rest) == [w] + ws
  {
    WordsCons(w, sp, rest);
  }

  lemma PaddedStep(w: string, width: nat, sp: string, rest: string, ws: seq<string>)
    requires w != [] && NoSpace(w) && Words(rest) == ws
    requires sp != [] && forall i :: 0 <= i < |sp| ==> IsSpace(sp[i])
    ensures Words(LeftAlign(w, width) + sp + rest) == [w] + ws
  {
    WordsPadded(w, width, sp, rest);
  }

  lemma ArpRowShape(l: string, g: string, m: string, v: string)
    ensures "Internet  " + l + " " + g + " " + m + "  ARPA   Vlan" + v
            == "Internet" + "  " + (l + " " + (g + " " + (m + "  " + ("ARPA" + "   " + ("Vlan" + v)))))
  {
    assert "Internet  " == "Internet" + "  ";
    assert "  ARPA   Vlan" == "  " + "ARPA" + "   " + "Vlan";
  }

  /**
   * A row of the 2500-line file splits into "Internet", the address, "1",
   * the colon MAC, "ARPA" and "Vlan<n>", and the VLAN read back from the
   * interface is ten times the draw (1..50): a multiple of 10 from 10 to 500.
   */
  lemma DataEntryWords(index: int, d: DataDraw)
    requires IsHexTriple(d.oui)
    ensures Words(DataEntry(index, d)) ==
            ["Internet", Ip(index), "1", ColonMac(d.oui, MacSuffix(d.a, d.b, d.c)), "ARPA", "Vlan" + NatToString(d.vlan * 10)]
    ensures ShadowCore.InterfaceVlan("Vlan" + NatToString(d.vlan * 10)) == NatToString(d.vlan * 10)
  {
    IpWord(index);
    ColonMacWord(d.oui, MacSuffix(d.a, d.b, d.c));
    DataRowWords(Ip(index), ColonMac(d.oui, MacSuffix(d.a, d.b, d.c)), d.vlan * 10);
    ShadowCore.VlanInterface(d.vlan * 10);
  }

  lemma DataRowWords(ip: string, m: string, vlan: nat)
    requires ip != [] && NoSpace(ip) && m != [] && NoSpace(m)
    ensures Words("Internet  " + LeftAlign(ip, 15) + " 1   " + m + "  ARPA   Vlan" + NatToString(vlan))
            == ["Internet", ip, "1", m, "ARPA", "Vlan" + NatToString(vlan)]
  {
    DataRowShape(LeftAlign(ip, 15), m, NatToString(vlan));
    DataNestedWords(ip, m, vlan);
  }

  lemma DataNestedWords(ip: string, m: string, vlan: nat)
    requires ip != [] && NoSpace(ip) && m != [] && NoSpace(m)
    ensures var tail := m + "  " + ("ARPA" + "   " + ("Vlan" + NatToString(vlan)));
      Words("Internet" + "  " + (LeftAlign(ip, 15) + " " + ("1" + "   " + tail)))
      == ["Internet", ip, "1", m, "ARPA", "Vlan" + NatToString(vlan)]
  {
    ShadowCore.VlanInterfaceWord(vlan);
    StripNoop("Vlan" + NatToString(vlan));
    SixWords("Internet", ip, "1", m, "ARPA", "Vlan" + NatToString(vlan), 15, 0, "  ", " ", "   ", "  ", "   ");
    assert LeftAlign("1", 0) == "1";
  }

  lemma DataRowShape(l: string, m: string, v: string)
    ensures "Internet  " + l + " 1   " + m + "  ARPA   Vlan" + v
            == "Internet" + "  " + (l + " " + ("1" + "   " + (m + "  " + ("ARPA" + "   " + ("Vlan" + v)))))
  {
    assert "Internet  " == "Internet" + "  ";
    assert " 1   " == " " + "1" + "   ";
    assert "  ARPA   Vlan" == "  " + "ARPA" + "   " + "Vlan";
  }

  /** The colon MAC is one word. */
  lemma ColonMacWord(oui: string, suffix: string)
    requires IsHexTriple(oui) && IsHexTriple(suffix)
    ensures ColonMac(oui, suffix) != [] && NoSpace(ColonMac(oui, suffix))
  {
    var h := Digits(oui) + Digits(suffix);
    DigitsHex(oui);
    DigitsHex(suffix);
    var c := ColonForm(h);
    ColonFormHex(h);
    ShadowCore.HexSepAvoidsCuts(c);
    ColonMacShape(oui, suffix);
  }

  // ---------------------------------------------------------------------
  // get_vendor_distribution, and the same rebalancing in main
  // ---------------------------------------------------------------------

  /** The error the rebalancing raises when every draw is 0. */
  datatype Raised = ZeroDivisionError

  /** The vendors in the order the count dict lists them: Cisco first, Mitel last. */
  const CountOrder: seq<string> := ["Cisco", "HP", "Dell", "Apple", "Juniper", "Aruba", "Extreme", "Mitel"]

  /**
   * int(c * scale_factor) for every count, scale_factor being
   * target / total, in exact arithmetic: the floor of c * target / total
   * (the counts are non-negative, so int's truncation is the floor).
   */
  function Scaled(cs: seq<nat>, target: nat, total: int): (r: seq<nat>)
    requires total > 0
    ensures |r| == |cs|
  {
    if cs == [] then [] else Scaled(cs[..|cs| - 1], target, total) + [cs[|cs| - 1] * target / total]
  }

  /** The rounding fix: the first count (Cisco's) absorbs the difference between the target and the sum. */
  function Adjusted(cs: seq<int>, target: int): seq<int>
    requires cs != []
  {
    var total := Sum(cs);
    if total < target then cs[0 := cs[0] + (target - total)]
    else if total > target then cs[0 := cs[0] - (total - target)]
    else cs
  }

  /** The counts the rebalancing gives for these draws (in CountOrder), or the division by a zero sum. */
  function Rebalanced(target: nat, draws: seq<nat>): Result<seq<int>, Raised>
    requires |draws| == |CountOrder|
  {
    SumOfCounts(draws);
    var total := Sum(draws);
    if total == 0 then Err(ZeroDivisionError) else Ok(Adjusted(Scaled(draws, target, total), target))
  }

  /**
   * The rebalancing of get_vendor_distribution(total_entries) and of main:
   * scale every count in place, then let Cisco absorb the rounding.
   */
  method VendorDistribution(target: nat, draws: seq<nat>) returns (r: Result<seq<int>, Raised>)
    requires |draws| == |CountOrder|
    ensures r == Rebalanced(target, draws)
  {
    var total := Sum(draws);
    if total == 0 {
      return Err(ZeroDivisionError);
    }
    SumOfCounts(draws);
    var counts: seq<int> := draws;
    var i := 0;
    while i < |counts|
      invariant i <= |counts| == |draws|
      invariant counts == Scaled(draws[..i], target, total) + draws[i..]
    {
      ScaledUpdate(draws, i, target, total, counts);
      counts := counts[i := counts[i] * target / total];
      i := i + 1;
    }
    assert draws[..i] == draws && draws[i..] == [];
    assert counts == Scaled(draws, target, total);
    var sum := Sum(counts);
    if sum < target {
      counts := counts[0 := counts[0] + (target - sum)];
    } else if sum > target {
      counts := counts[0 := counts[0] - (sum - target)];
    }
    r := Ok(counts);
  }

  /** Scaling the count at position i in place extends the scaled prefix by one. */
  lemma ScaledUpdate(cs: seq<nat>, i: nat, target: nat, total: int, counts: seq<int>)
    requires i < |cs| && total > 0 && counts == Scaled(cs[..i], target, total) + cs[i..]
    ensures counts[i := counts[i] * target / total] == Scaled(cs[..i + 1], target, total) + cs[i + 1..]
  {
    ScaledStep(cs, i, target, total);
    var scaled := Scaled(cs[..i], target, total);
    assert counts == scaled + [cs[i]] + cs[i + 1..];
    assert counts[i := counts[i] * target / total] == scaled + [cs[i] * target / total] + cs[i + 1..];
  }

  /** Scaling one more count appends its scaled value. */
  lemma ScaledStep(cs: seq<nat>, i: nat, target: nat, total: int)
    requires i < |cs| && total > 0
    ensures Scaled(cs[..i + 1], target, total) == Scaled(cs[..i], target, total) + [cs[i] * target / total]
    ensures Scaled(cs[..i], target, total) + cs[i..] == Scaled(cs[..i], target, total) + [cs[i]] + cs[i + 1..]
  {
    assert cs[..i + 1][..i] == cs[..i];
    assert cs[i..] == [cs[i]] + cs[i + 1..];
  }

  /** Replacing the first element changes the sum by the difference. */
  lemma {:induction false} SumUpdateFirst(xs: seq<int>, x: int)
    requires xs != []
    ensures Sum(xs[0 := x]) == Sum(xs) - xs[0] + x
  {
    var ys := xs[0 := x];
    if |xs| > 1 {
      var f := xs[..|xs| - 1];
      assert ys[..|ys| - 1] == f[0 := x];
      SumUpdateFirst(f, x);
    } else {
      assert ys[..0] == [] && xs[..0] == [];
    }
  }

  /** After the rounding fix the counts add up to the target, whatever they added up to before. */
  lemma AdjustedSum(cs: seq<int>, target: int)
    requires cs != []
    ensures Sum(Adjusted(cs, target)) == target
    ensures Adjusted(cs, target)[1..] == cs[1..]
  {
    var total := Sum(cs);
    if total < target {
      SumUpdateFirst(cs, cs[0] + (target - total));
    } else if total > target {
      SumUpdateFirst(cs, cs[0] - (total - target));
    }
  }

  /** The i-th scaled count is the floor of the i-th count times target / total. */
  lemma {:induction false} ScaledAt(cs: seq<nat>, target: nat, total: int, i: nat)
    requires total > 0 && i < |cs|
    ensures Scaled(cs, target, total)[i] == cs[i] * target / total
  {
    if i < |cs| - 1 {
      var f := cs[..|cs| - 1];
      ScaledAt(f, target, total, i);
    }
  }

  /** Flooring loses less than one unit per count: sum(scaled) * total is at most |cs| * total - |cs| below sum(cs) * target. */
  lemma {:induction false} ScaledBounds(cs: seq<nat>, target: nat, total: int)
    requires total > 0
    ensures Sum(Scaled(cs, target, total)) * total <= Sum(cs) * target
    ensures Sum(cs) * target <= (Sum(Scaled(cs, target, total)) + |cs|) * total - |cs|
  {
    if cs != [] {
      var f, c := cs[..|cs| - 1], cs[|cs| - 1];
      ScaledBounds(f, target, total);
      var x := c * target / total;
      assert Scaled(cs, target, total) == Scaled(f, target, total) + [x];
      FloorBounds(c * target, total);
      BoundsStep(Sum(Scaled(f, target, total)), x, Sum(f), c, target, total, |f|);
    }
  }

  /** One more count keeps the bounds, by distributing the products. */
  lemma BoundsStep(sf: int, x: int, sum: int, c: int, target: int, total: int, n: int)
    requires sf * total <= sum * target <= (sf + n) * total - n
    requires x * total <= c * target <= (x + 1) * total - 1
    ensures (sf + x) * total <= (sum + c) * target <= (sf + x + n + 1) * total - (n + 1)
  {
    assert (sf + x) * total == sf * total + x * total;
    assert (sum + c) * target == sum * target + c * target;
    assert (sf + x + n + 1) * total == (sf + n) * total + (x + 1) * total;
  }

  /** Euclidean division brackets its dividend. */
  lemma FloorBounds(a: int, d: int)
    requires d > 0
    ensures (a / d) * d <= a <= (a / d + 1) * d - 1
  {
  }

  /** Dividing both sides of an inequality by a positive factor. */
  lemma CancelFactor(a: int, b: int, d: int)
    requires d > 0 && a * d <= b * d
    ensures a <= b
  {
  }

  /** The bounds of ScaledBounds, read as a shortfall, once the sum itself is the divisor. */
  lemma ShortfallArith(s: int, target: int, total: int, n: int)
    requires total > 0 && n >= 1
    requires s * total <= total * target <= (s + n) * total - n
    ensures 0 <= target - s < n
  {
    assert total * target == target * total;
    CancelFactor(s, target, total);
    CancelFactor(target + 1, s + n, total);
  }

  /** With total the sum of the counts, the scaled counts fall short of the target by less than their number. */
  lemma ScaledShortfall(cs: seq<nat>, target: nat)
    requires Sum(cs) > 0
    ensures 0 <= target - Sum(Scaled(cs, target, Sum(cs))) < |cs|
  {
    var total, s := Sum(cs), Sum(Scaled(cs, target, Sum(cs)));
    ScaledBounds(cs, target, total);
    ShortfallArith(s, target, total, |cs|);
  }

  /**
   * get_vendor_distribution's counts: every vendor but Cisco gets the
   * floor of its draw times target / sum(draws); Cisco gets its floor plus
   * the shortfall, which is less than the number of vendors, so the
   * "total > total_entries" branch is never taken. No count is negative
   * and the counts add up to the target.
   */
  lemma RebalancedCounts(target: nat, draws: seq<nat>)
    requires |draws| == |CountOrder| && Sum(draws) > 0
    ensures var r := Rebalanced(target, draws);
      r.Ok? && |r.value| == |draws| && Sum(r.value) == target
      && (forall i | 1 <= i < |draws| :: r.value[i] == draws[i] * target / Sum(draws))
      && draws[0] * target / Sum(draws) <= r.value[0] < draws[0] * target / Sum(draws) + |draws|
      && (forall i | 0 <= i < |draws| :: r.value[i] >= 0)
  {
    var total := Sum(draws);
    var sc := Scaled(draws, target, total);
    ScaledShortfall(draws, target);
    AdjustedSum(sc, target);
    ScaledAt(draws, target, total, 0);
    forall i | 1 <= i < |draws| ensures Rebalanced(target, draws).value[i] == draws[i] * target / total {
      ScaledAt(draws, target, total, i);
      assert Adjusted(sc, target)[i] == Adjusted(sc, target)[1..][i - 1];
    }
  }

  /** The rebalancing raises exactly when every draw is 0. */
  lemma RebalancedError(target: nat, draws: seq<nat>)
    requires |draws| == |CountOrder|
    ensures Rebalanced(target, draws).Err? <==> forall i | 0 <= i < |draws| :: draws[i] == 0
  {
    SumOfCounts(draws);
  }

  /** Every draw lies within its randint bounds. */
  predicate InRanges(draws: seq<nat>, low: seq<int>, high: seq<int>)
  {
    |draws| == |low| == |high| && forall i | 0 <= i < |draws| :: low[i] <= draws[i] <= high[i]
  }

  /** randint's bounds for main's draws in generate_test_data.py, in CountOrder. */
  const DataLow: seq<int> := [400, 300, 250, 200, 150, 150, 100, 100]
  const DataHigh: seq<int> := [600, 500, 450, 400, 350, 350, 300, 300]

  /** main's 2500 rows are always split without error, with no negative count. */
  lemma DataDistribution(draws: seq<nat>)
    requires InRanges(draws, DataLow, DataHigh)
    ensures Rebalanced(2500, draws).Ok? && Sum(Rebalanced(2500, draws).value) == 2500
    ensures forall i | 0 <= i < |draws| :: Rebalanced(2500, draws).value[i] >= 0
  {
    SumOfCounts(draws);
    assert draws[0] >= 400;
    RebalancedCounts(2500, draws);
  }

  /** The percentages get_vendor_distribution draws between, in CountOrder. */
  const LowPercent: seq<nat> := [18, 14, 12, 10, 8, 8, 6, 6]
  const HighPercent: seq<nat> := [22, 18, 16, 14, 12, 12, 10, 10]

  /** int(total_entries * p / 100) for every percentage, in exact arithmetic. */
  function PercentOf(target: nat, pcts: seq<nat>): (r: seq<int>)
    ensures |r| == |pcts|
    ensures forall i | 0 <= i < |pcts| :: r[i] >= 0
  {
    seq(|pcts|, i requires 0 <= i < |pcts| => target * pcts[i] / 100)
  }

  /** From 6 entries on, Cisco's draw is at least 1, so get_vendor_distribution never raises. */
  lemma DistributionSucceeds(target: nat, draws: seq<nat>)
    requires InRanges(draws, PercentOf(target, LowPercent), PercentOf(target, HighPercent))
    requires target >= 6
    ensures Rebalanced(target, draws).Ok? && Sum(Rebalanced(target, draws).value) == target
  {
    assert PercentOf(target, LowPercent)[0] == target * 18 / 100 >= 1;
    SumOfCounts(draws);
    RebalancedCounts(target, draws);
  }

  /** Up to 5 entries, every lower bound rounds to 0: the draws may all be 0, and then the distribution raises. */
  lemma SmallDistributionRaises(target: nat)
    requires target <= 5
    ensures var zeros := [0, 0, 0, 0, 0, 0, 0, 0];
      InRanges(zeros, PercentOf(target, LowPercent), PercentOf(target, HighPercent))
      && Rebalanced(target, zeros) == Err(ZeroDivisionError)
  {
    var zeros: seq<nat> := [0, 0, 0, 0, 0, 0, 0, 0];
    forall i | 0 <= i < 8 ensures PercentOf(target, LowPercent)[i] == 0 {
      assert LowPercent[i] <= 18;
    }
    SumOfCounts(zeros);
  }

  // ---------------------------------------------------------------------
  // VENDORS: the OUIs each vendor's rows are drawn from
  // ---------------------------------------------------------------------

  const CiscoOuis: seq<string> := [
    "00:00:0C", "00:01:42", "00:01:43", "00:01:63", "00:01:64",
    "00:0E:83", "00:0E:84", "00:1A:A0", "00:23:EB", "00:25:45",
    "58:AC:78", "68:99:CD", "70:DB:98", "B4:A4:E3", "FC:FB:FB"
  ]

  const HPOuis: seq<string> := [
    "00:0B:CD", "00:0F:20", "00:11:0A", "00:1C:C4", "00:24:81",
    "00:25:B3", "00:30:C1", "00:60:B0", "08:00:09", "10:60:4B",
    "1C:C1:DE", "28:92:4A", "38:63:BB", "3C:D9:2B", "94:57:A5"
  ]

  const DellOuis: seq<string> := [
    "00:06:5B", "00:08:74", "00:0B:DB", "00:12:3F", "00:14:22",
    "00:15:C5", "00:1E:4F", "14:18:77", "18:A9:9B", "18:DB:F2",
    "24:B6:FD", "28:F1:0E", "B8:AC:6F", "F0:1F:AF", "F8:DB:88"
  ]

  const AppleOuis: seq<string> := [
    "00:03:93", "00:0A:27", "00:0A:95", "00:0D:93", "00:1B:63",
    "00:1E:52", "00:1F:5B", "00:1F:F3", "00:21:E9", "00:22:41",
    "00:23:12", "00:23:32", "00:23:6C", "00:23:DF", "00:24:36"
  ]

  const MitelOuis: seq<string> := [
    "00:90:7F", "08:00:0F", "00:00:8A", "00:10:96", "00:10:97",
    "00:10:98", "00:10:99", "00:10:9A", "00:10:9B", "00:10:9C"
  ]

  const JuniperOuis: seq<string> := [
    "00:05:85", "00:12:1E", "00:19:E2", "00:23:9C", "00:26:88",
    "28:8A:1C", "28:C0:DA", "2C:21:72", "2C:6B:F5", "3C:61:04"
  ]

  const ArubaOuis: seq<string> := [
    "00:0B:86", "00:1A:1E", "04:BD:88", "24:DE:C6", "40:E3:D6",
    "6C:F3:7F", "84:D4:7E", "94:B4:0F", "AC:A3:1E", "D8:C7:C8"
  ]

  const ExtremeOuis: seq<string> := [
    "00:01:30", "00:04:96", "00:0F:DB", "00:11:88", "00:12:CF",
    "00:13:65", "00:14:4F", "00:19:30", "00:1F:45", "00:21:58"
  ]

  /** VENDORS, in its own order. */
  const Vendors: Dict<seq<string>> := [
    ("Cisco", CiscoOuis),
    ("HP", HPOuis),
    ("Dell", DellOuis),
    ("Apple", AppleOuis),
    ("Mitel", MitelOuis),
    ("Juniper", JuniperOuis),
    ("Aruba", ArubaOuis),
    ("Extreme", ExtremeOuis)
  ]

  /** Every OUI of a list is written as three upper-case hex pairs joined by colons. */
  /** The shape of a triple, character by character. */
  predicate CharsOfTriple(s: string)
  {
    |s| == 8 && s[2] == ':' && s[5] == ':' && IsUpperHexDigit(s[0]) && IsUpperHexDigit(s[1])
    && IsUpperHexDigit(s[3]) && IsUpperHexDigit(s[4]) && IsUpperHexDigit(s[6]) && IsUpperHexDigit(s[7])
  }

  lemma CharTriple(s: string)
    requires CharsOfTriple(s)
    ensures IsHexTriple(s)
  {
  }

  predicate AllTriples(ouis: seq<string>)
  {
    forall j | 0 <= j < |ouis| :: IsHexTriple(ouis[j])
  }

  lemma CiscoTriples()
    ensures AllTriples(CiscoOuis)
  {
    forall j | 0 <= j < |CiscoOuis| ensures IsHexTriple(CiscoOuis[j]) {
      CharTriple(CiscoOuis[j]);
    }
  }

  lemma HPTriples()
    ensures AllTriples(HPOuis)
  {
    forall j | 0 <= j < |HPOuis| ensures IsHexTriple(HPOuis[j]) {
      CharTriple(HPOuis[j]);
    }
  }

  lemma DellTriples()
    ensures AllTriples(DellOuis)
  {
    forall j | 0 <= j < |DellOuis| ensures IsHexTriple(DellOuis[j]) {
      CharTriple(DellOuis[j]);
    }
  }

  lemma AppleTriples()
    ensures AllTriples(AppleOuis)
  {
    forall j | 0 <= j < |AppleOuis| ensures IsHexTriple(AppleOuis[j]) {
      CharTriple(AppleOuis[j]);
    }
  }

  lemma MitelTriples()
    ensures AllTriples(MitelOuis)
  {
    forall j | 0 <= j < |MitelOuis| ensures IsHexTriple(MitelOuis[j]) {
      CharTriple(MitelOuis[j]);
    }
  }

  lemma JuniperTriples()
    ensures AllTriples(JuniperOuis)
  {
    forall j | 0 <= j < |JuniperOuis| ensures IsHexTriple(JuniperOuis[j]) {
      CharTriple(JuniperOuis[j]);
    }
  }

  lemma ArubaTriples()
    ensures AllTriples(ArubaOuis)
  {
    forall j | 0 <= j < |ArubaOuis| ensures IsHexTriple(ArubaOuis[j]) {
      CharTriple(ArubaOuis[j]);
    }
  }

  lemma ExtremeTriples()
    ensures AllTriples(ExtremeOuis)
  {
    forall j | 0 <= j < |ExtremeOuis| ensures IsHexTriple(ExtremeOuis[j]) {
      CharTriple(ExtremeOuis[j]);
    }
  }

  /** VENDORS[vendor] for the vendor at position v of CountOrder: a non-empty list of well-formed OUIs. */
  function OuisOf(v: nat): (ouis: seq<string>)
    requires v < |CountOrder|
    ensures ouis != [] && AllTriples(ouis)
  {
    if v == 0 then CiscoTriples(); CiscoOuis
    else if v == 1 then HPTriples(); HPOuis
    else if v == 2 then DellTriples(); DellOuis
    else if v == 3 then AppleTriples(); AppleOuis
    else if v == 4 then JuniperTriples(); JuniperOuis
    else if v == 5 then ArubaTriples(); ArubaOuis
    else if v == 6 then ExtremeTriples(); ExtremeOuis
    else MitelTriples(); MitelOuis
  }

  /** VENDORS lists every vendor once. */
  lemma VendorNamesDistinct()
    ensures DistinctKeys(Vendors)
  {
  }

  /** Where each vendor of CountOrder sits in VENDORS (Mitel comes fifth there, last here). */
  const TableRow: seq<nat> := [0, 1, 2, 3, 5, 6, 7, 4]

  /** Looking a vendor of CountOrder up in VENDORS finds its OUI list: VENDORS[vendor] never raises KeyError. */
  lemma VendorLookup(v: nat)
    requires v < |CountOrder|
    ensures Get(Vendors, CountOrder[v]) == Some(OuisOf(v))
  {
    VendorNamesDistinct();
    GetAt(Vendors, TableRow[v]);
  }

  /** The vendors of CountOrder are distinct. */
  lemma CountOrderDistinct()
    ensures Tally.Distinct(CountOrder)
  {
  }
}
