/**
 * The generators' outputs: generate_mac_address_table, generate_arp_table
 * and generate_mac_list in generator_test.py, and main in
 * generate_test_data.py. Each splits its row count between the vendors,
 * builds every vendor's rows in turn, shuffles them and joins them into
 * text. random.shuffle's outcome is a parameter: the permutation of row
 * positions it chose.
 */
module TestTables {
  import opened Common
  import opened Text
  import opened Dicts
  import opened TestRows
  import opened TestData
  import Tally
  import ShadowCore
  import NetvendorCore

  // ---------------------------------------------------------------------
  // random.shuffle
  // ---------------------------------------------------------------------

  /** p rearranges n positions: each position appears exactly once. */
  predicate IsPermutation(p: seq<nat>, n: nat)
  {
    |p| == n && (forall j | 0 <= j < n :: p[j] < n) && Tally.Distinct(p) && (forall k | 0 <= k < n :: k in p)
  }

  /** The list after random.shuffle moved the row at position p[j] to position j. */
  function Shuffled(s: seq<string>, p: seq<nat>): (r: seq<string>)
    requires IsPermutation(p, |s|)
    ensures |r| == |s|
  {
    seq(|s|, j requires 0 <= j < |s| => s[p[j]])
  }

  /** Every row before the shuffle is at exactly one position after it. */
  lemma ShuffledPlace(s: seq<string>, p: seq<nat>, k: nat) returns (j: nat)
    requires IsPermutation(p, |s|) && k < |s|
    ensures j < |s| && p[j] == k && Shuffled(s, p)[j] == s[k]
    ensures forall l | 0 <= l < |s| && l != j :: p[l] != k
  {
    assert k in p;
    j :| 0 <= j < |p| && p[j] == k;
  }

  // ---------------------------------------------------------------------
  // The rows of each output
  // ---------------------------------------------------------------------

  /** The OUI of every draw comes from random.choice(VENDORS[vendor]) for the row's vendor. */
  ghost predicate FromVendorOuis(draw: (nat, nat) -> RowDraw)
  {
    forall v: nat, i: nat | v < |CountOrder| :: draw(v, i).oui in OuisOf(v)
  }

  ghost predicate DataFromVendorOuis(draw: (nat, nat) -> DataDraw)
  {
    forall v: nat, i: nat | v < |CountOrder| :: draw(v, i).oui in OuisOf(v)
  }

  /** The row of generate_mac_address_table for the i-th row of the vendor at position v. */
  function MacRow(draw: (nat, nat) -> RowDraw): (nat, nat, nat) -> string
  {
    (v: nat, i: nat, k: nat) => MacTableEntry(draw(v, i))
  }

  /** The row of generate_arp_table: its address numbers the rows of each vendor from 1. */
  function ArpRow(draw: (nat, nat) -> RowDraw): (nat, nat, nat) -> string
  {
    (v: nat, i: nat, k: nat) => ArpTableEntry(draw(v, i), i)
  }

  /**
   * The evidently intended row of generate_arp_table: its address numbers
   * every row from 1 across vendors, as main in generate_test_data.py does.
   */
  function ArpRowFixed(draw: (nat, nat) -> RowDraw): (nat, nat, nat) -> string
  {
    (v: nat, i: nat, k: nat) => ArpTableEntry(draw(v, i), k)
  }

  /** The row of generate_mac_list. */
  function ListRow(draw: (nat, nat) -> RowDraw): (nat, nat, nat) -> string
  {
    (v: nat, i: nat, k: nat) => MacListEntry(draw(v, i))
  }

  /** The row of main in generate_test_data.py: index counts every row from 1, across vendors. */
  function DataRow(draw: (nat, nat) -> DataDraw): (nat, nat, nat) -> string
  {
    (v: nat, i: nat, k: nat) => DataEntry(k + 1, draw(v, i))
  }

  // ---------------------------------------------------------------------
  // generate_mac_address_table, generate_arp_table, generate_mac_list
  // ---------------------------------------------------------------------

  const MacHeader: string := "Vlan    Mac Address       Type        Ports\n" + "----    -----------       ----        -----\n"
  const ArpHeader: string := "Protocol  Address          Age (min)  Hardware Addr   Type   Interface\n"

  /** The rows of a generated table in their shuffled order, when the distribution succeeds. */
  function TableRows(target: nat, draws: seq<nat>, row: (nat, nat, nat) -> string, perm: seq<nat>): (rows: seq<string>)
    requires |draws| == |CountOrder| && IsPermutation(perm, target) && Rebalanced(target, draws).Ok?
    ensures |rows| == target
  {
    var counts := Rebalanced(target, draws).value;
    SumOfCounts(draws);
    RebalancedCounts(target, draws);
    GeneratedLength(counts, row);
    Shuffled(Generated(counts, row), perm)
  }

  /** (header + "\n".join(entries), vendor_counts), or the error of the distribution. */
  function Table(header: string, target: nat, draws: seq<nat>, row: (nat, nat, nat) -> string, perm: seq<nat>)
    : Result<(string, Dict<int>), Raised>
    requires |draws| == |CountOrder| && IsPermutation(perm, target)
  {
    var r := Rebalanced(target, draws);
    if r.Err? then Err(r.error)
    else
      SumOfCounts(draws);
      RebalancedCounts(target, draws);
      Ok((header + Join("\n", TableRows(target, draws, row, perm)), Tallied(r.value, CountOrder)))
  }

  /** The body the three table generators share: distribute, generate and count, shuffle, join. */
  method GenerateTable(header: string, target: nat, draws: seq<nat>, row: (nat, nat, nat) -> string, perm: seq<nat>)
    returns (r: Result<(string, Dict<int>), Raised>)
    requires |draws| == |CountOrder| && IsPermutation(perm, target)
    ensures r == Table(header, target, draws, row, perm)
  {
    var distribution := VendorDistribution(target, draws);
    if distribution.Err? {
      return Err(distribution.error);
    }
    SumOfCounts(draws);
    RebalancedCounts(target, draws);
    CountOrderDistinct();
    var entries, vendorCounts := GenerateRows(distribution.value, CountOrder, row);
    GeneratedLength(distribution.value, row);
    r := Ok((header + Join("\n", Shuffled(entries, perm)), vendorCounts));
  }

  /** generate_mac_address_table(count) */
  method GenerateMacAddressTable(count: nat, draws: seq<nat>, draw: (nat, nat) -> RowDraw, perm: seq<nat>)
    returns (r: Result<(string, Dict<int>), Raised>)
    requires InRanges(draws, PercentOf(count, LowPercent), PercentOf(count, HighPercent))
    requires IsPermutation(perm, count)
    ensures r == Table(MacHeader, count, draws, MacRow(draw), perm)
    ensures count >= 6 ==> r.Ok?
  {
    if count >= 6 {
      DistributionSucceeds(count, draws);
    }
    r := GenerateTable(MacHeader, count, draws, MacRow(draw), perm);
  }

  /** generate_arp_table(count) */
  method GenerateArpTable(count: nat, draws: seq<nat>, draw: (nat, nat) -> RowDraw, perm: seq<nat>)
    returns (r: Result<(string, Dict<int>), Raised>)
    requires InRanges(draws, PercentOf(count, LowPercent), PercentOf(count, HighPercent))
    requires IsPermutation(perm, count)
    ensures r == Table(ArpHeader, count, draws, ArpRow(draw), perm)
    ensures count >= 6 ==> r.Ok?
  {
    if count >= 6 {
      DistributionSucceeds(count, draws);
    }
    r := GenerateTable(ArpHeader, count, draws, ArpRow(draw), perm);
  }

  /** generate_mac_list(count): no header. */
  method GenerateMacList(count: nat, draws: seq<nat>, draw: (nat, nat) -> RowDraw, perm: seq<nat>)
    returns (r: Result<(string, Dict<int>), Raised>)
    requires InRanges(draws, PercentOf(count, LowPercent), PercentOf(count, HighPercent))
    requires IsPermutation(perm, count)
    ensures r == Table("", count, draws, ListRow(draw), perm)
    ensures count >= 6 ==> r.Ok?
  {
    if count >= 6 {
      DistributionSucceeds(count, draws);
    }
    r := GenerateTable("", count, draws, ListRow(draw), perm);
  }

  /**
   * A generated table holds count rows, and vendor_counts holds every
   * vendor's share of them: the vendor's count when it has rows, nothing
   * otherwise, adding up to count.
   */
  lemma TableCounts(header: string, target: nat, draws: seq<nat>, row: (nat, nat, nat) -> string, perm: seq<nat>)
    requires |draws| == |CountOrder| && IsPermutation(perm, target)
    requires Table(header, target, draws, row, perm).Ok?
    ensures var counts := Rebalanced(target, draws).value;
      var tally := Table(header, target, draws, row, perm).value.1;
      |TableRows(target, draws, row, perm)| == target && TallySum(tally) == target
      && forall v | 0 <= v < |CountOrder| :: Get(tally, CountOrder[v]) == if counts[v] > 0 then Some(counts[v]) else None
  {
    var counts := Rebalanced(target, draws).value;
    SumOfCounts(draws);
    RebalancedCounts(target, draws);
    GeneratedLength(counts, row);
    TalliedSum(counts, CountOrder, row);
    CountOrderDistinct();
    forall v | 0 <= v < |CountOrder|
      ensures Get(Tallied(counts, CountOrder), CountOrder[v]) == if counts[v] > 0 then Some(counts[v]) else None
    {
      TalliedGet(counts, CountOrder, v);
    }
  }

  /** Every row of a table is the i-th row of some vendor v, counted for that vendor. */
  lemma TableRowOrigin(target: nat, draws: seq<nat>, row: (nat, nat, nat) -> string, perm: seq<nat>, j: nat)
    returns (v: nat, i: nat)
    requires |draws| == |CountOrder| && IsPermutation(perm, target) && Rebalanced(target, draws).Ok?
    requires j < target
    ensures var counts := Rebalanced(target, draws).value;
      v < |CountOrder| && i < counts[v]
      && TableRows(target, draws, row, perm)[j] == row(v, i, perm[j])
  {
    var counts := Rebalanced(target, draws).value;
    SumOfCounts(draws);
    RebalancedCounts(target, draws);
    GeneratedLength(counts, row);
    v, i := GeneratedAt(counts, row, perm[j]);
  }

  /** A draw for the vendor at position v has a well-formed OUI. */
  lemma DrawOui(draw: (nat, nat) -> RowDraw, v: nat, i: nat)
    requires FromVendorOuis(draw) && v < |CountOrder|
    ensures IsHexTriple(draw(v, i).oui)
  {
    assert draw(v, i).oui in OuisOf(v);
  }

  /**
   * Every row of the MAC address table is counted for a vendor v, and its
   * second column is a MAC built on the OUI drawn from v's list, in the
   * dotted form ShadowVendor's MAC table test accepts.
   */
  lemma MacTableRow(target: nat, draws: seq<nat>, draw: (nat, nat) -> RowDraw, perm: seq<nat>, j: nat)
    returns (v: nat, i: nat)
    requires |draws| == |CountOrder| && IsPermutation(perm, target) && Rebalanced(target, draws).Ok?
    requires FromVendorOuis(draw) && j < target
    ensures v < |CountOrder| && i < Rebalanced(target, draws).value[v]
    ensures var d := draw(v, i);
      var w := Words(TableRows(target, draws, MacRow(draw), perm)[j]);
      |w| == 4 && w[1] == DottedMac(d.oui, MacSuffix(d.a, d.b, d.c)) && ShadowCore.IsArpTableMac(w[1])
  {
    v, i := TableRowOrigin(target, draws, MacRow(draw), perm, j);
    DrawOui(draw, v, i);
    MacRowIs(draw, v, i, perm[j]);
    MacRowColumns(draw(v, i));
  }

  /** Four columns, the second the MAC m, which ShadowVendor's MAC table test accepts. */
  predicate MacColumns(w: seq<string>, m: string)
  {
    |w| == 4 && w[1] == m && ShadowCore.IsArpTableMac(m)
  }

  /** A MAC table row has four columns, the second the dotted MAC. */
  lemma MacRowColumns(d: RowDraw)
    requires IsHexTriple(d.oui)
    ensures MacColumns(Words(MacTableEntry(d)), DottedMac(d.oui, MacSuffix(d.a, d.b, d.c)))
  {
    MacTableEntryWords(d);
  }

  lemma MacRowIs(draw: (nat, nat) -> RowDraw, v: nat, i: nat, k: nat)
    ensures MacRow(draw)(v, i, k) == MacTableEntry(draw(v, i))
  {
  }

  /** Every line of the MAC list is counted for a vendor v and is a colon MAC on v's OUI that both MAC tests accept. */
  lemma MacListRow(target: nat, draws: seq<nat>, draw: (nat, nat) -> RowDraw, perm: seq<nat>, j: nat)
    returns (v: nat, i: nat)
    requires |draws| == |CountOrder| && IsPermutation(perm, target) && Rebalanced(target, draws).Ok?
    requires FromVendorOuis(draw) && j < target
    ensures v < |CountOrder| && i < Rebalanced(target, draws).value[v]
    ensures var d := draw(v, i);
      var line := TableRows(target, draws, ListRow(draw), perm)[j];
      line == ColonMac(d.oui, MacSuffix(d.a, d.b, d.c))
      && NetvendorCore.IsMacAddress(line) && ShadowCore.IsMacAddress(line)
  {
    v, i := TableRowOrigin(target, draws, ListRow(draw), perm, j);
    DrawOui(draw, v, i);
    ColonMacAccepted(draw(v, i).oui, MacSuffix(draw(v, i).a, draw(v, i).b, draw(v, i).c));
  }

  /**
   * generate_arp_table numbers addresses per vendor, so as soon as the
   * first two vendors both have rows, two rows of the table are first
   * rows of a vendor (i = 0), and both carry the address 192.168.1.1.
   */
  lemma ArpAddressesRepeat(target: nat, draws: seq<nat>, draw: (nat, nat) -> RowDraw, perm: seq<nat>)
    returns (j: nat, l: nat)
    requires |draws| == |CountOrder| && IsPermutation(perm, target) && Rebalanced(target, draws).Ok?
    requires FromVendorOuis(draw)
    requires Rebalanced(target, draws).value[0] > 0 && Rebalanced(target, draws).value[1] > 0
    ensures j < target && l < target && j != l
    ensures var rows := TableRows(target, draws, ArpRow(draw), perm);
      var wj, wl := Words(rows[j]), Words(rows[l]);
      |wj| == |wl| == 6 && wj[1] == wl[1] == Ip(1)
  {
    var counts := Rebalanced(target, draws).value;
    SumOfCounts(draws);
    RebalancedCounts(target, draws);
    GeneratedLength(counts, ArpRow(draw));
    var gen := Generated(counts, ArpRow(draw));
    DrawOui(draw, 0, 0);
    DrawOui(draw, 1, 0);
    FirstVendorRows(counts, ArpRow(draw));
    FirstRow(counts, ArpRow(draw), 0);
    FirstRow(counts, ArpRow(draw), 1);
    ArpRowIs(draw, 0, 0, 0);
    ArpRowIs(draw, 1, 0, counts[0]);
    j := ShuffledPlace(gen, perm, 0);
    l := ShuffledPlace(gen, perm, counts[0]);
    FirstRowsShareAddress(gen[0], gen[counts[0]], draw(0, 0), draw(1, 0));
  }

  /** With the running number as address, no two rows of the ARP table share an address. */
  lemma ArpAddressesDistinctFixed(target: nat, draws: seq<nat>, draw: (nat, nat) -> RowDraw, perm: seq<nat>, j: nat, l: nat)
    requires |draws| == |CountOrder| && IsPermutation(perm, target) && Rebalanced(target, draws).Ok?
    requires FromVendorOuis(draw) && j < l < target
    ensures var rows := TableRows(target, draws, ArpRowFixed(draw), perm);
      var wj, wl := Words(rows[j]), Words(rows[l]);
      |wj| == |wl| == 6 && wj[1] != wl[1]
  {
    var counts := Rebalanced(target, draws).value;
    SumOfCounts(draws);
    RebalancedCounts(target, draws);
    GeneratedLength(counts, ArpRowFixed(draw));
    ArpRowFixedNumbered(draw);
    IpOneToOne();
    ShuffledDistinct(counts, ArpRowFixed(draw), Ip, perm, j, l);
  }

  /** The corrected ARP row built at running position k carries generate_ip(k + 1). */
  lemma ArpRowFixedNumbered(draw: (nat, nat) -> RowDraw)
    requires FromVendorOuis(draw)
    ensures Numbered(ArpRowFixed(draw), Ip)
  {
    forall v: nat, i: nat, k: nat | v < |CountOrder| ensures AddressIs(ArpRowFixed(draw)(v, i, k), Ip(k + 1)) {
      DrawOui(draw, v, i);
      ArpRowFixedIs(draw, v, i, k);
      ArpEntryAddress(draw(v, i), k);
    }
  }

  lemma ArpRowFixedIs(draw: (nat, nat) -> RowDraw, v: nat, i: nat, k: nat)
    ensures ArpRowFixed(draw)(v, i, k) == ArpTableEntry(draw(v, i), k)
  {
  }

  /** The first row of the vendor at position v < 2, before the shuffle. */
  lemma FirstRow(counts: seq<int>, row: (nat, nat, nat) -> string, v: nat)
    requires v < 2 <= |counts| && counts[0] > 0 && counts[v] > 0
    requires |Generated(counts[..v], row)| == if v == 0 then 0 else counts[0]
    ensures var g := Generated(counts, row); var k := if v == 0 then 0 else counts[0];
      k < |g| && g[k] == row(v, 0, k)
  {
    GeneratedIndex(counts, row, v, 0);
  }

  lemma ArpRowIs(draw: (nat, nat) -> RowDraw, v: nat, i: nat, k: nat)
    ensures ArpRow(draw)(v, i, k) == ArpTableEntry(draw(v, i), i)
  {
  }

  /** Two first rows of a vendor carry the same address, 192.168.1.1. */
  lemma FirstRowsShareAddress(x: string, y: string, d: RowDraw, e: RowDraw)
    requires x == ArpTableEntry(d, 0) && y == ArpTableEntry(e, 0) && IsHexTriple(d.oui) && IsHexTriple(e.oui)
    ensures |Words(x)| == |Words(y)| == 6 && Words(x)[1] == Words(y)[1] == Ip(1)
  {
    ArpEntryAddress(d, 0);
    ArpEntryAddress(e, 0);
  }

  /** The address column of an ARP table row is generate_ip(i + 1). */
  lemma ArpEntryAddress(d: RowDraw, i: nat)
    requires IsHexTriple(d.oui)
    ensures AddressIs(ArpTableEntry(d, i), Ip(i + 1))
  {
    ArpTableEntryWords(d, i);
  }

  /** Before the second vendor come the first vendor's rows, and nothing precedes the first. */
  lemma FirstVendorRows(counts: seq<int>, row: (nat, nat, nat) -> string)
    requires |counts| >= 2 && counts[0] > 0
    ensures |Generated(counts[..0], row)| == 0 && |Generated(counts[..1], row)| == counts[0]
  {
    assert counts[..1][..0] == counts[..0];
  }

  // ---------------------------------------------------------------------
  // main in generate_test_data.py
  // ---------------------------------------------------------------------

  /**
   * The generation loop of main: every vendor's rows in turn, index
   * running over all of them from 1.
   */
  method GenerateEntries(counts: seq<int>, draw: (nat, nat) -> DataDraw) returns (entries: seq<string>)
    ensures entries == Generated(counts, DataRow(draw))
  {
    entries := [];
    var index := 1;
    var v := 0;
    while v < |counts|
      invariant v <= |counts|
      invariant entries == Generated(counts[..v], DataRow(draw))
      invariant index == |entries| + 1
    {
      var front := entries;
      var i := 0;
      while i < counts[v]
        invariant 0 <= i <= Rows(counts[v])
        invariant entries == front + VendorRows(v, i, |front|, DataRow(draw))
        invariant index == |entries| + 1
      {
        DataStep(front, entries, v, i, draw, index);
        entries := entries + [DataEntry(index, draw(v, i))];
        index := index + 1;
        i := i + 1;
      }
      assert i == Rows(counts[v]);
      GeneratedStep(counts, v, DataRow(draw));
      v := v + 1;
    }
    assert counts[..v] == counts;
  }

  /** The row main appends under the running index is the vendor's next row. */
  lemma DataStep(front: seq<string>, entries: seq<string>, v: nat, i: nat, draw: (nat, nat) -> DataDraw, index: int)
    requires entries == front + VendorRows(v, i, |front|, DataRow(draw)) && index == |entries| + 1
    ensures entries + [DataEntry(index, draw(v, i))] == front + VendorRows(v, i + 1, |front|, DataRow(draw))
  {
    RowStep(front, v, i, DataRow(draw));
  }

  /** The file written by `for entry in entries: f.write(f"{entry}\n")`. */
  function Terminated(entries: seq<string>): string
  {
    if entries == [] then [] else Terminated(entries[..|entries| - 1]) + entries[|entries| - 1] + "\n"
  }

  /** The write loop of main. */
  method WriteEntries(entries: seq<string>) returns (text: string)
    ensures text == Terminated(entries)
  {
    text := [];
    var j := 0;
    while j < |entries|
      invariant j <= |entries|
      invariant text == Terminated(entries[..j])
    {
      assert entries[..j + 1][..j] == entries[..j];
      text := text + entries[j] + "\n";
      j := j + 1;
    }
    assert entries[..j] == entries;
  }

  /** The rows of ip-arp-test.txt in their shuffled order. */
  function DataRows(draws: seq<nat>, draw: (nat, nat) -> DataDraw, perm: seq<nat>): (rows: seq<string>)
    requires InRanges(draws, DataLow, DataHigh) && IsPermutation(perm, 2500)
    ensures |rows| == 2500
  {
    DataDistribution(draws);
    GeneratedLength(Rebalanced(2500, draws).value, DataRow(draw));
    Shuffled(Generated(Rebalanced(2500, draws).value, DataRow(draw)), perm)
  }

  /** main: the 2500 rows, generated, shuffled and written one per line. */
  method GenerateTestData(draws: seq<nat>, draw: (nat, nat) -> DataDraw, perm: seq<nat>) returns (text: string)
    requires InRanges(draws, DataLow, DataHigh) && IsPermutation(perm, 2500)
    ensures text == Terminated(DataRows(draws, draw, perm))
  {
    DataDistribution(draws);
    var distribution := VendorDistribution(2500, draws);
    var entries := GenerateEntries(distribution.value, draw);
    GeneratedLength(distribution.value, DataRow(draw));
    text := WriteEntries(Shuffled(entries, perm));
  }

  /** Every data draw of a vendor has a well-formed OUI. */
  ghost predicate DataOuisWellFormed(draw: (nat, nat) -> DataDraw)
  {
    forall v: nat, i: nat | v < |CountOrder| :: IsHexTriple(draw(v, i).oui)
  }

  lemma DataVendorOuisWellFormed(draw: (nat, nat) -> DataDraw)
    requires DataFromVendorOuis(draw)
    ensures DataOuisWellFormed(draw)
  {
    forall v: nat, i: nat | v < |CountOrder| ensures IsHexTriple(draw(v, i).oui) {
      DataDrawOui(draw, v, i);
    }
  }

  /** A data draw for the vendor at position v has a well-formed OUI. */
  lemma DataDrawOui(draw: (nat, nat) -> DataDraw, v: nat, i: nat)
    requires DataFromVendorOuis(draw) && v < |CountOrder|
    ensures IsHexTriple(draw(v, i).oui)
  {
    assert draw(v, i).oui in OuisOf(v);
  }

  /**
   * Every row of ip-arp-test.txt has an address of its own: the row built
   * k-th gets generate_ip(k + 1), wherever the shuffle put it, and the
   * numbering is one-to-one.
   */
  lemma DataAddressesDistinct(draws: seq<nat>, draw: (nat, nat) -> DataDraw, perm: seq<nat>, j: nat, l: nat)
    requires InRanges(draws, DataLow, DataHigh) && IsPermutation(perm, 2500)
    requires DataFromVendorOuis(draw) && j < l < 2500
    ensures var wj, wl := Words(DataRows(draws, draw, perm)[j]), Words(DataRows(draws, draw, perm)[l]);
      |wj| == |wl| == 6 && wj[1] != wl[1]
  {
    DataDistribution(draws);
    var counts := Rebalanced(2500, draws).value;
    GeneratedLength(counts, DataRow(draw));
    DataVendorOuisWellFormed(draw);
    DataRowNumbered(draw);
    ShuffledDistinct(counts, DataRow(draw), Ip, perm, j, l);
  }

  /** Numbered rows, shuffled, still have pairwise different addresses. */
  lemma ShuffledDistinct(counts: seq<int>, row: (nat, nat, nat) -> string, address: int -> string, perm: seq<nat>, j: nat, l: nat)
    requires |counts| <= |CountOrder| && Numbered(row, address) && Injective(address)
    requires IsPermutation(perm, |Generated(counts, row)|) && j < l < |perm|
    ensures var rows := Shuffled(Generated(counts, row), perm);
      var wj, wl := Words(rows[j]), Words(rows[l]);
      |wj| == |wl| == 6 && wj[1] != wl[1]
  {
    ShuffledNumbered(counts, row, address, perm, j);
    ShuffledNumbered(counts, row, address, perm, l);
    assert perm[j] != perm[l];
  }

  /** A row of the file whose address column is ip. */
  predicate AddressIs(row: string, ip: string)
  {
    |Words(row)| == 6 && Words(row)[1] == ip
  }

  /** Different numbers give different addresses. */
  ghost predicate Injective(address: int -> string)
  {
    forall a: int, b: int | a != b :: address(a) != address(b)
  }

  /** Every row a builder makes at running position k carries address(k + 1). */
  ghost predicate Numbered(row: (nat, nat, nat) -> string, address: int -> string)
  {
    forall v: nat, i: nat, k: nat | v < |CountOrder| :: AddressIs(row(v, i, k), address(k + 1))
  }

  /** The rows of ip-arp-test.txt are numbered by generate_ip, which is one-to-one. */
  lemma DataRowNumbered(draw: (nat, nat) -> DataDraw)
    requires DataOuisWellFormed(draw)
    ensures Numbered(DataRow(draw), Ip) && Injective(Ip)
  {
    forall v: nat, i: nat, k: nat | v < |CountOrder| ensures AddressIs(DataRow(draw)(v, i, k), Ip(k + 1)) {
      DataRowAddress(draw, v, i, k);
    }
    IpOneToOne();
  }

  /** generate_ip is one-to-one. */
  lemma IpOneToOne()
    ensures Injective(Ip)
  {
    forall a: int, b: int | a != b ensures Ip(a) != Ip(b) {
      if Ip(a) == Ip(b) {
        IpInjective(a, b);
      }
    }
  }

  /** The row built at running position k carries generate_ip(k + 1). */
  lemma DataRowAddress(draw: (nat, nat) -> DataDraw, v: nat, i: nat, k: nat)
    requires IsHexTriple(draw(v, i).oui)
    ensures AddressIs(DataRow(draw)(v, i, k), Ip(k + 1))
  {
    DataRowIs(draw, v, i, k);
    DataEntryAddress(k + 1, draw(v, i));
  }

  lemma DataRowIs(draw: (nat, nat) -> DataDraw, v: nat, i: nat, k: nat)
    ensures DataRow(draw)(v, i, k) == DataEntry(k + 1, draw(v, i))
  {
  }

  /** After the shuffle, the row at position j carries the address of the position it was built at. */
  lemma ShuffledNumbered(counts: seq<int>, row: (nat, nat, nat) -> string, address: int -> string, perm: seq<nat>, j: nat)
    requires |counts| <= |CountOrder| && Numbered(row, address)
    requires IsPermutation(perm, |Generated(counts, row)|) && j < |perm|
    ensures AddressIs(Shuffled(Generated(counts, row), perm)[j], address(perm[j] + 1))
  {
    var v, i := GeneratedAt(counts, row, perm[j]);
  }

  /** The address column of a row of the file is generate_ip(index). */
  lemma DataEntryAddress(index: int, d: DataDraw)
    requires IsHexTriple(d.oui)
    ensures AddressIs(DataEntry(index, d), Ip(index))
  {
    DataEntryWords(index, d);
  }


}
