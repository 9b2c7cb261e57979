/**
 * The manuf-derived cache as the offline OUIManager reads it. The parser
 * of shadowvendor/utils/update_oui_cache.py keeps each OUI as the manuf
 * file writes it, colon-separated ("00:00:0C"), while get_vendor in
 * netvendor/core/oui_manager.py looks a MAC up under its first six
 * characters, upper-cased. A key of eight characters is never found. The
 * corrected parser stores each OUI in the six-hex-digit form the rest of
 * the tool uses.
 */
module ManufLookup {
  import opened Common
  import opened Text
  import opened Dicts
  import OuiCacheUpdate
  import NetvendorCoreOui
  import NetVendorOuiSpec
  import MacText

  /** Every accepted line has a key longer than six characters, as "00:00:0C" has. */
  predicate LongKeys(lines: seq<string>)
  {
    forall i :: 0 <= i < |lines| && OuiCacheUpdate.ManufEntry(lines[i]).Some? ==> |OuiCacheUpdate.ManufEntry(lines[i]).value.0| > 6
  }

  /** As written: over a cache built from such lines, get_vendor answers None for every MAC. */
  lemma ManufCacheNeverHits(m: NetvendorCoreOui.Offline, lines: seq<string>, mac: string)
    requires m.cache == OuiCacheUpdate.ManufMap(lines) && LongKeys(lines)
    ensures NetvendorCoreOui.AnswerFor(m, mac).vendor == None
  {
    var k := NetvendorCoreOui.OuiKey(mac);
    assert |k| <= 6;
    if k in Keys(m.cache) {
      OuiCacheUpdate.ManufKeyFromLine(lines, k);
      assert false;
    }
  }

  /** The manuf line for Cisco's first OUI. */
  const CiscoLine: string := "00:00:0C\tCisco"

  /** As written: a Cisco MAC, bare or colon-separated, finds nothing in the cache built from the Cisco line. */
  lemma CiscoLineMisses(m: NetvendorCoreOui.Offline)
    requires m.cache == OuiCacheUpdate.ManufMap([CiscoLine])
    ensures NetvendorCoreOui.AnswerFor(m, "00000C123456").vendor == None
    ensures NetvendorCoreOui.AnswerFor(m, "00:00:0C:12:34:56").vendor == None
  {
    CiscoLongKey();
    ManufCacheNeverHits(m, [CiscoLine], "00000C123456");
    ManufCacheNeverHits(m, [CiscoLine], "00:00:0C:12:34:56");
  }

  lemma CiscoLongKey()
    ensures LongKeys([CiscoLine])
  {
    CiscoEntry();
  }

  /** The Cisco line is accepted with its key and vendor as written. */
  lemma CiscoEntry()
    ensures OuiCacheUpdate.ManufEntry(CiscoLine) == Some(("00:00:0C", "Cisco"))
  {
    assert CiscoLine == "00:00:0C" + ['\t'] + "Cisco";
    ManufEntryExact("00:00:0C", "Cisco");
  }

  /** A line "a<TAB>b" whose fields have no surrounding whitespace gives the entry (a, b). */
  lemma ManufEntryExact(a: string, b: string)
    requires a != [] && b != [] && a[0] != '#' && '\t' !in a && '\t' !in b
    requires !IsSpace(a[0]) && !IsSpace(a[|a| - 1]) && !IsSpace(b[0]) && !IsSpace(b[|b| - 1])
    ensures OuiCacheUpdate.ManufEntry(a + ['\t'] + b) == Some((a, b))
  {
    assert a + ['\t'] + b + "" == a + ['\t'] + b;
    OuiCacheUpdate.ManufEntryFields(a, b, "");
    StripNoop(a);
    StripNoop(b);
  }

  /** The corrected entry: the manuf key with its separators removed, upper-cased and cut to six characters. */
  function ManufEntryFixed(line: string): (r: Option<(string, string)>)
    ensures r.Some? <==> OuiCacheUpdate.ManufEntry(line).Some?
    ensures r.Some? ==> |r.value.0| <= 6 && r.value.1 == OuiCacheUpdate.ManufEntry(line).value.1
  {
    match OuiCacheUpdate.ManufEntry(line)
    case None => None
    case Some(e) => Some((NetVendorOuiSpec.NormalizeMac(e.0), e.1))
  }

  function ManufMapFixed(lines: seq<string>): Dict<string>
  {
    OuiCacheUpdate.Assign(lines, ManufEntryFixed)
  }

  /** Corrected: a MAC whose key matches the last line for that OUI gets that line's vendor. */
  lemma ManufFixedHits(m: NetvendorCoreOui.Offline, lines: seq<string>, i: nat, mac: string)
    requires m.cache == ManufMapFixed(lines) && mac !in m.failed
    requires i < |lines| && ManufEntryFixed(lines[i]).Some? && ManufEntryFixed(lines[i]).value.0 == NetvendorCoreOui.OuiKey(mac)
    requires forall j :: i < j < |lines| ==> ManufEntryFixed(lines[j]).None? || ManufEntryFixed(lines[j]).value.0 != NetvendorCoreOui.OuiKey(mac)
    ensures NetvendorCoreOui.AnswerFor(m, mac).vendor == Some(ManufEntryFixed(lines[i]).value.1)
  {
    var e := ManufEntryFixed(lines[i]).value;
    OuiCacheUpdate.AssignLastWins(lines, ManufEntryFixed, i, e.0, e.1);
  }

  /** Corrected: the Cisco line gives the key "00000C", the key get_vendor forms for a bare Cisco MAC. */
  lemma CiscoLineKeyMatches(line: string, mac: string)
    requires line == CiscoLine && mac == "00000C123456"
    ensures ManufEntryFixed(line).Some? && ManufEntryFixed(line).value.0 == NetvendorCoreOui.OuiKey(mac)
  {
    CiscoFixedEntry(line);
    CiscoMacKey(mac);
  }

  lemma CiscoFixedEntry(line: string)
    requires line == CiscoLine
    ensures ManufEntryFixed(line) == Some(("00000C", "Cisco"))
  {
    CiscoEntry();
    CiscoNormalized("00:00:0C");
    FixedEntryOf(line, ("00:00:0C", "Cisco"));
  }

  /** The corrected entry of a line the parser accepts as e. */
  lemma FixedEntryOf(line: string, e: (string, string))
    requires OuiCacheUpdate.ManufEntry(line) == Some(e)
    ensures ManufEntryFixed(line) == Some((NetVendorOuiSpec.NormalizeMac(e.0), e.1))
  {
  }

  lemma CiscoNormalized(k: string)
    requires k == "00:00:0C"
    ensures NetVendorOuiSpec.NormalizeMac(k) == "00000C"
  {
    assert Upper(k) == k;
    ColonsRemoved(k, "00", "00", "0C");
  }

  /** Deleting the separators from "x:y:z" leaves xyz. */
  lemma ColonsRemoved(k: string, x: string, y: string, z: string)
    requires k == x + ":" + y + ":" + z
    requires MacText.Avoids(x, MacSeparators) && MacText.Avoids(y, MacSeparators) && MacText.Avoids(z, MacSeparators)
    ensures Remove(k, MacSeparators) == x + y + z
  {
    assert k == x + [':'] + (y + [':'] + z);
    MacText.RemoveAround(x, ':', y + [':'] + z, MacSeparators);
    MacText.RemoveAround(y, ':', z, MacSeparators);
    RemoveNone(x, MacSeparators);
    RemoveNone(y, MacSeparators);
    RemoveNone(z, MacSeparators);
    assert x + (y + z) == x + y + z;
  }

  lemma CiscoMacKey(mac: string)
    requires mac == "00000C123456"
    ensures NetvendorCoreOui.OuiKey(mac) == "00000C"
  {
  }
}
