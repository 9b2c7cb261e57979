/**
 * The three line recognisers of the packaged tool (netvendor/core/netvendor.py):
 * a MAC address test, a MAC address-table line test and the port extractor.
 * NetVendor.py carries a character-for-character copy of `is_mac_address`,
 * which this module models for both.
 */
module NetvendorCore {
  import opened Common
  import opened Text
  import opened MacText

  /** The MAC text lower-cased with ':', '.' and '-' deleted. */
  function Cleaned(mac: string): string
  {
    Remove(Lower(mac), MacSeparators)
  }

  /** is_mac_address: twelve characters remain and int(_, 16) accepts them. */
  predicate IsMacAddress(mac: string)
  {
    var c := Cleaned(mac);
    |c| == 12 && HexParses(c)
  }

  /** Over hex digits and separators, cleaning is deleting the separators and lower-casing. */
  lemma CleanedHex(s: string)
    requires forall i :: 0 <= i < |s| ==> IsHexDigit(s[i]) || s[i] in MacSeparators
    ensures Cleaned(s) == Lower(Remove(s, MacSeparators)) && AllHex(Cleaned(s))
  {
    var r := Remove(s, MacSeparators);
    LowerRemoveCommute(s, MacSeparators);
    RemoveHex(s);
    LowerHex(r);
  }

  lemma {:induction false} RemoveHex(s: string)
    requires forall i :: 0 <= i < |s| ==> IsHexDigit(s[i]) || s[i] in MacSeparators
    ensures AllHex(Remove(s, MacSeparators))
  {
    if s != [] {
      RemoveHex(s[1..]);
    }
  }

  /** Twelve hex digits, however spelled, pass. */
  lemma TwelveHexAccepted(s: string)
    requires |Cleaned(s)| == 12 && AllHex(Cleaned(s))
    ensures IsMacAddress(s)
  {
    HexDigitsParse(Cleaned(s));
  }

  /** On text made of hex digits and separators, the test is exactly "twelve digits". */
  lemma MacOverHexIff(s: string)
    requires forall i :: 0 <= i < |s| ==> IsHexDigit(s[i]) || s[i] in MacSeparators
    ensures IsMacAddress(s) <==> |Remove(s, MacSeparators)| == 12
  {
    CleanedHex(s);
    if |Remove(s, MacSeparators)| == 12 {
      TwelveHexAccepted(s);
    }
  }

  /** The spelling h with its separators deleted and case folded is h lower-cased. */
  lemma CleanedSpelling(h: string, t: string)
    requires |h| == 12 && AllHex(h)
    requires Remove(t, MacSeparators) == h
    ensures Cleaned(t) == Lower(h) && IsMacAddress(t)
  {
    LowerRemoveCommute(t, MacSeparators);
    LowerHex(h);
    TwelveHexAccepted(t);
  }

  /** The four spellings of one address are all accepted: bare, colons, hyphens and Cisco dots. */
  lemma SeparatorStylesAccepted(h: string)
    requires |h| == 12 && AllHex(h)
    ensures IsMacAddress(h) && IsMacAddress(ColonForm(h))
    ensures IsMacAddress(PairForm(h, '-')) && IsMacAddress(DotForm(h))
  {
    HexAvoidsSeparators(h);
    RemoveNone(h, MacSeparators);
    CleanedSpelling(h, h);
    RemovePairForm(h, ':', MacSeparators);
    CleanedSpelling(h, PairForm(h, ':'));
    RemovePairForm(h, '-', MacSeparators);
    CleanedSpelling(h, PairForm(h, '-'));
    RemoveDotForm(h, MacSeparators);
    CleanedSpelling(h, DotForm(h));
  }

  /** A seventh pair makes fourteen digits, which is rejected. */
  lemma SevenPairsRejected(h: string, x: string)
    requires |h| == 12 && AllHex(h) && |x| == 2 && AllHex(x)
    ensures !IsMacAddress(ColonForm(h) + ":" + x)
  {
    var s := ColonForm(h) + ":" + x;
    HexAvoidsSeparators(h);
    HexAvoidsSeparators(x);
    RemovePairForm(h, ':', MacSeparators);
    RemoveNone(x, MacSeparators);
    assert s == ColonForm(h) + [':'] + x;
    RemoveAround(ColonForm(h), ':', x, MacSeparators);
    LowerRemoveCommute(s, MacSeparators);
  }

  /** A character that int(_, 16) never accepts, such as 'G', makes the text no MAC address. */
  lemma ForeignCharacterRejected(s: string, i: nat)
    requires i < |s| && s[i] !in MacSeparators && !HexTextChar(LowerChar(s[i]))
    ensures !IsMacAddress(s)
  {
    var c := Cleaned(s);
    assert Lower(s)[i] == LowerChar(s[i]);
    RemoveKeeps(Lower(s), MacSeparators, i);
    if |c| == 12 && HexParses(c) {
      HexParsesText(c);
      assert false;
    }
  }

  /** "00:11:22:33:44:GG" is rejected for its invalid characters. */
  lemma InvalidCharacterExample()
    ensures !IsMacAddress("00:11:22:33:44:GG")
  {
    ForeignCharacterRejected("00:11:22:33:44:GG", 15);
  }

  // ---------------------------------------------------------------------
  // is_mac_address_table
  // ---------------------------------------------------------------------

  /** The three header pairs, matched case-sensitively. */
  predicate IsHeader(line: string)
  {
    (Contains(line, "Vlan") && Contains(line, "Mac Address"))
    || (Contains(line, "VLAN") && Contains(line, "MAC Address"))
    || (Contains(line, "VLAN ID") && Contains(line, "MAC Address"))
  }

  /** int(w) succeeds with a value in the VLAN range 1..4094. */
  predicate IsVlan(w: string)
  {
    var v := ParseInt(w);
    v.Some? && 1 <= v.value <= 4094
  }

  /** A data row: the first word is a VLAN and there is a second word. */
  predicate VlanFirstRow(line: string)
  {
    var words := Words(Strip(line));
    |words| >= 2 && IsVlan(words[0])
  }

  predicate IsMacAddressTable(line: string)
  {
    IsHeader(line) || (VlanFirstRow(line) && IsMacAddress(Words(Strip(line))[1]))
  }

  /** A substring of a substring is a substring. */
  lemma {:induction false} ContainsStart(s: string, sub: string, p: string)
    requires Contains(s, sub) && StartsWith(sub, p)
    ensures Contains(s, p)
    decreases |s|
  {
    if StartsWith(s, sub) {
      assert s[..|p|] == sub[..|p|];
    } else {
      ContainsStart(s[1..], sub, p);
    }
  }

  /** The third header pair never decides: "VLAN ID" already contains "VLAN". */
  lemma ThirdHeaderSubsumed(line: string)
    ensures IsHeader(line) <==> (Contains(line, "Vlan") && Contains(line, "Mac Address"))
                                || (Contains(line, "VLAN") && Contains(line, "MAC Address"))
  {
    if Contains(line, "VLAN ID") {
      ContainsStart(line, "VLAN ID", "VLAN");
    }
  }

  /** The words of "<w> <rest>" are w followed by the words of rest. */
  lemma WordsOfRow(w: string, rest: string)
    requires w != [] && NoSpace(w)
    ensures Words(Strip(w + " " + rest)) == [w] + Words(rest)
  {
    WordsStrip(w + " " + rest);
    WordsConcatOneSpace(w, rest);
    WordsOfWord(w);
  }

  /** The words of "<a> <b> <rest>". */
  lemma TwoWordRow(a: string, b: string, rest: string)
    requires a != [] && NoSpace(a) && b != [] && NoSpace(b)
    ensures Words(Strip(a + " " + b + " " + rest)) == [a, b] + Words(rest)
  {
    var x := b + " " + rest;
    var line := a + " " + x;
    assert a + " " + b + " " + rest == line;
    WordsOfRow(a, x);
    WordsStrip(x);
    WordsOfRow(b, rest);
    ConsTwo(a, b, Words(rest));
  }

  /** A row "<vlan> <mac> ..." as `show mac address-table` prints it is recognised. */
  lemma TableRowRecognised(vlan: int, mac: string, rest: string)
    requires 1 <= vlan <= 4094 && mac != [] && NoSpace(mac) && IsMacAddress(mac)
    ensures IsMacAddressTable(IntToString(vlan) + " " + mac + " " + rest)
  {
    var v := IntToString(vlan);
    IntToStringNoSpace(vlan);
    ParseIntToString(vlan);
    TwoWordRow(v, mac, rest);
    VlanMacWords(v + " " + mac + " " + rest, v, mac, Words(rest));
  }

  /** A line whose words start with a VLAN and a MAC is a table line. */
  lemma VlanMacWords(line: string, v: string, mac: string, ws: seq<string>)
    requires Words(Strip(line)) == [v, mac] + ws && IsVlan(v) && IsMacAddress(mac)
    ensures IsMacAddressTable(line)
  {
    var words := [v, mac] + ws;
    assert words[0] == v && words[1] == mac;
  }

  /** int(w) raises for a word that starts with a letter. */
  lemma LetterWordNoInt(w: string)
    requires w != [] && ('A' <= w[0] <= 'Z' || 'a' <= w[0] <= 'z')
    ensures ParseInt(w) == None
  {
    var t := TrimEnd(w);
    assert SkipSpace(w) == w;
    assert |t| > 0 && t[0] == w[0];
    assert Unsigned(t) == t;
  }

  /** An ARP row "Internet ..." that is no header line is no table row. */
  lemma ArpRowRejected(rest: string)
    requires !IsHeader("Internet " + rest)
    ensures !IsMacAddressTable("Internet " + rest)
  {
    assert "Internet " + rest == "Internet" + " " + rest;
    WordsOfRow("Internet", rest);
    LetterWordNoInt("Internet");
    NonVlanFirstWord("Internet " + rest, "Internet", Words(rest));
  }

  /** A line that is no header and whose first word is no VLAN is no table line. */
  lemma NonVlanFirstWord(line: string, w: string, ws: seq<string>)
    requires Words(Strip(line)) == [w] + ws && !IsVlan(w) && !IsHeader(line)
    ensures !IsMacAddressTable(line)
  {
    assert ([w] + ws)[0] == w;
  }

  // ---------------------------------------------------------------------
  // parse_port_info
  // ---------------------------------------------------------------------

  predicate PortPrefixed(port: string)
  {
    StartsWith(port, "Gi") || StartsWith(port, "Fa") || StartsWith(port, "Te") || StartsWith(port, "Eth")
  }

  predicate IsArpLine(line: string)
  {
    Contains(line, "Internet") && Contains(line, "ARPA")
  }

  /** The port is the last word, when it has a port prefix or parses as an integer. */
  function ParsePortInfo(line: string): (r: Option<string>)
    ensures r.Some? ==> !IsArpLine(line) && |Words(line)| >= 2 && r.value == Words(line)[|Words(line)| - 1]
    ensures r.Some? ==> PortPrefixed(r.value) || ParseInt(r.value).Some?
    ensures !IsArpLine(line) && |Words(line)| >= 2 && PortPrefixed(Words(line)[|Words(line)| - 1]) ==>
              r == Some(Words(line)[|Words(line)| - 1])
    ensures !IsArpLine(line) && |Words(line)| >= 2 && ParseInt(Words(line)[|Words(line)| - 1]).Some? ==>
              r == Some(Words(line)[|Words(line)| - 1])
  {
    WordsStrip(line);
    if IsArpLine(line) then None
    else
      var words := Words(Strip(line));
      if |words| < 2 then None
      else
        var port := words[|words| - 1];
        if PortPrefixed(port) then Some(port)
        else if ParseInt(port).Some? then Some(port)
        else None
  }

  /** A table row "<a> <port>" whose last word is a numbered port yields that port. */
  lemma NumericPortParsed(a: string, n: int)
    requires Words(a) != [] && !IsArpLine(a + " " + IntToString(n))
    ensures ParsePortInfo(a + " " + IntToString(n)) == Some(IntToString(n))
  {
    IntToStringNoSpace(n);
    WordsConcatOneSpace(a, IntToString(n));
    assert a + " " + IntToString(n) == a + " " + IntToString(n) + [];
    WordsOfWord(IntToString(n));
    ParseIntToString(n);
  }
}
