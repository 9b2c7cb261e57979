/**
 * Vendor drift over time: archived vendor_summary*.txt files are read
 * back into vendor -> (count, percentage) snapshots, and the snapshots'
 * percentages are laid side by side in vendor_drift.csv.
 *
 * Percentages stay text: the parser keeps the cell float() accepted
 * (isFloat decides which cells it accepts), and the CSV writer's
 * f"{pct:.1f}" is the parameter fmt.
 */
module DriftAnalysis {
  import opened Common
  import opened Text
  import opened Dicts
  import opened Sorting
  import opened Tally
  import opened VendorCounts
  import ShadowVendorApi
  import ShadowVendorOutput

  /** One table row of a snapshot: the device count and the percentage text. */
  datatype Entry = Entry(count: int, pct: string)

  /** The companion {stem}.metadata.json, when it exists and loads: the values of its three keys. */
  datatype Metadata = Metadata(runTimestamp: Option<string>, site: Option<string>, changeTicketId: Option<string>)

  datatype Snapshot = Snapshot(name: string, vendors: Dict<Entry>, runTimestamp: Option<string>,
                               site: Option<string>, changeTicketId: Option<string>)

  // ---------------------------------------------------------------------
  // parse_vendor_summary_file
  // ---------------------------------------------------------------------

  /** The table header: stripped it starts with "Vendor", and it mentions "Count" and "Percentage". */
  predicate IsHeader(line: string)
  {
    StartsWith(Strip(line), "Vendor") && Contains(line, "Count") && Contains(line, "Percentage")
  }

  /** A blank line, or a rule made only of '-', '=' and '+'. */
  predicate IsRule(line: string)
  {
    var t := Strip(line);
    forall i :: 0 <= i < |t| ==> t[i] in {'-', '=', '+'}
  }

  /**
   * A data row: at least three words, an int count in the second-last word,
   * a float in the last word without its trailing '%', and a non-empty name
   * made of the words before them; None when the row is skipped.
   */
  function RowOf(line: string, isFloat: string -> bool): Option<(string, Entry)>
  {
    var parts := Words(line);
    if |parts| < 3 then None
    else
      var count := ParseInt(parts[|parts| - 2]);
      var pct := TrimEndChar(parts[|parts| - 1], '%');
      var name := Strip(Join(" ", parts[..|parts| - 2]));
      if count.None? || !isFloat(pct) || name == [] then None
      else Some((name, Entry(count.value, pct)))
  }

  /** The parser's state: whether the header was seen, and the vendors read so far. */
  datatype Parse = Parse(headerFound: bool, vendors: Dict<Entry>)

  /** One line of the loop: up to the header only the header is looked for; after it rules are skipped and rows stored. */
  function Step(st: Parse, raw: string, isFloat: string -> bool): Parse
  {
    var line := TrimEndChar(raw, '\n');
    if !st.headerFound then Parse(IsHeader(line), st.vendors)
    else if IsRule(line) then st
    else match RowOf(line, isFloat)
      case None => st
      case Some(row) => Parse(true, Put(st.vendors, row.0, row.1))
  }

  /** The loop over the remaining lines from state st. */
  function FoldFrom(st: Parse, lines: seq<string>, isFloat: string -> bool): Parse
    decreases |lines|
  {
    if lines == [] then st else FoldFrom(Step(st, lines[0], isFloat), lines[1..], isFloat)
  }

  function Parsed(lines: seq<string>, isFloat: string -> bool): Parse
  {
    FoldFrom(Parse(false, []), lines, isFloat)
  }

  /** The snapshot of the file at path with the given lines and companion metadata. */
  function SnapshotOf(path: string, lines: seq<string>, isFloat: string -> bool, metadata: Option<Metadata>): Snapshot
  {
    var meta := metadata.GetOr(Metadata(None, None, None));
    Snapshot(ShadowVendorApi.Stem(path), Parsed(lines, isFloat).vendors, meta.runTimestamp, meta.site, meta.changeTicketId)
  }

  /**
   * parse_vendor_summary_file: lines is what readlines() returned and
   * metadata the companion file's contents (None when it is missing or
   * does not load).
   */
  method ParseVendorSummaryFile(path: string, lines: seq<string>, isFloat: string -> bool, metadata: Option<Metadata>)
    returns (snap: Snapshot)
    ensures snap == SnapshotOf(path, lines, isFloat, metadata)
  {
    var headerFound := false;
    var vendors: Dict<Entry> := [];
    var i := 0;
    assert lines[0..] == lines;
    while i < |lines|
      invariant i <= |lines| && FoldFrom(Parse(headerFound, vendors), lines[i..], isFloat) == Parsed(lines, isFloat)
    {
      assert lines[i..][1..] == lines[i + 1..];
      var line := TrimEndChar(lines[i], '\n');
      if !headerFound {
        if IsHeader(line) {
          headerFound := true;
        }
      } else if !IsRule(line) {
        var row := RowOf(line, isFloat);
        if row.Some? {
          vendors := Put(vendors, row.value.0, row.value.1);
        }
      }
      i := i + 1;
    }
    assert lines[i..] == [];
    var runTimestamp, site, changeTicketId := None, None, None;
    if metadata.Some? {
      runTimestamp, site, changeTicketId := metadata.value.runTimestamp, metadata.value.site, metadata.value.changeTicketId;
    }
    snap := Snapshot(ShadowVendorApi.Stem(path), vendors, runTimestamp, site, changeTicketId);
  }

  // ---------------------------------------------------------------------
  // What the parser keeps
  // ---------------------------------------------------------------------

  /** The line the loop looks at: the raw line without its trailing newlines. */
  function LineAt(lines: seq<string>, i: nat): string
    requires i < |lines|
  {
    TrimEndChar(lines[i], '\n')
  }

  /** The row stored from line i once the header was seen, if any. */
  function RowAt(lines: seq<string>, i: nat, isFloat: string -> bool): Option<(string, Entry)>
    requires i < |lines|
  {
    if IsRule(LineAt(lines, i)) then None else RowOf(LineAt(lines, i), isFloat)
  }

  /** Running the loop over a + b is running it over a, then over b. */
  lemma {:induction false} FoldConcat(st: Parse, a: seq<string>, b: seq<string>, isFloat: string -> bool)
    ensures FoldFrom(st, a + b, isFloat) == FoldFrom(FoldFrom(st, a, isFloat), b, isFloat)
    decreases |a|
  {
    if a == [] {
      assert a + b == b;
    } else {
      var next := Step(st, a[0], isFloat);
      assert (a + b)[0] == a[0] && (a + b)[1..] == a[1..] + b;
      assert FoldFrom(st, a + b, isFloat) == FoldFrom(next, a[1..] + b, isFloat);
      assert FoldFrom(st, a, isFloat) == FoldFrom(next, a[1..], isFloat);
      FoldConcat(next, a[1..], b, isFloat);
    }
  }

  /** The vendors after storing row, if there is one. */
  function Store(vendors: Dict<Entry>, row: Option<(string, Entry)>): Dict<Entry>
  {
    if row.None? then vendors else Put(vendors, row.value.0, row.value.1)
  }

  /** The vendors after storing each row in turn. */
  function StoreAll(vendors: Dict<Entry>, rows: seq<Option<(string, Entry)>>): Dict<Entry>
    decreases |rows|
  {
    if rows == [] then vendors else StoreAll(Store(vendors, rows[0]), rows[1..])
  }

  /** The row each line gives once the header was seen, None for a skipped line. */
  function RowsOf(lines: seq<string>, isFloat: string -> bool): (r: seq<Option<(string, Entry)>>)
    ensures |r| == |lines|
    decreases |lines|
  {
    if lines == [] then [] else [RowAt(lines, 0, isFloat)] + RowsOf(lines[1..], isFloat)
  }

  lemma {:induction false} RowsOfAt(lines: seq<string>, k: nat, isFloat: string -> bool)
    requires k < |lines|
    ensures RowsOf(lines, isFloat)[k] == RowAt(lines, k, isFloat)
    decreases k
  {
    if k > 0 {
      RowsOfAt(lines[1..], k - 1, isFloat);
      assert LineAt(lines[1..], k - 1) == LineAt(lines, k);
    }
  }

  /** After the header, one line stores the row read from it. */
  lemma FoldAfterHeader(vendors: Dict<Entry>, lines: seq<string>, isFloat: string -> bool)
    requires lines != []
    ensures FoldFrom(Parse(true, vendors), lines, isFloat)
            == FoldFrom(Parse(true, Store(vendors, RowAt(lines, 0, isFloat))), lines[1..], isFloat)
  {
    assert Step(Parse(true, vendors), lines[0], isFloat) == Parse(true, Store(vendors, RowAt(lines, 0, isFloat)));
  }

  /** After the header, the loop stores the rows of the remaining lines in order. */
  lemma {:induction false} AfterHeader(vendors: Dict<Entry>, lines: seq<string>, isFloat: string -> bool)
    ensures FoldFrom(Parse(true, vendors), lines, isFloat) == Parse(true, StoreAll(vendors, RowsOf(lines, isFloat)))
    decreases |lines|
  {
    if lines != [] {
      FoldAfterHeader(vendors, lines, isFloat);
      AfterHeader(Store(vendors, RowAt(lines, 0, isFloat)), lines[1..], isFloat);
      assert RowsOf(lines, isFloat)[1..] == RowsOf(lines[1..], isFloat);
    }
  }

  /** Before the header nothing is stored. */
  lemma {:induction false} NoHeaderKeeps(vendors: Dict<Entry>, lines: seq<string>, isFloat: string -> bool)
    requires forall i :: 0 <= i < |lines| ==> !IsHeader(LineAt(lines, i))
    ensures FoldFrom(Parse(false, vendors), lines, isFloat) == Parse(false, vendors)
    decreases |lines|
  {
    if lines != [] {
      assert LineAt(lines, 0) == TrimEndChar(lines[0], '\n');
      forall i | 0 <= i < |lines[1..]| ensures !IsHeader(LineAt(lines[1..], i)) {
        assert LineAt(lines[1..], i) == LineAt(lines, i + 1);
      }
      NoHeaderKeeps(vendors, lines[1..], isFloat);
    }
  }

  /** A file without a header line yields no vendors. */
  lemma NoHeaderNoVendors(lines: seq<string>, isFloat: string -> bool)
    requires forall i :: 0 <= i < |lines| ==> !IsHeader(LineAt(lines, i))
    ensures Parsed(lines, isFloat) == Parse(false, [])
  {
    NoHeaderKeeps([], lines, isFloat);
  }

  /** Every line up to and including the first header is ignored: reading starts afresh after it. */
  lemma HeaderSkipped(lines: seq<string>, k: nat, isFloat: string -> bool)
    requires k < |lines| && IsHeader(LineAt(lines, k))
    requires forall i :: 0 <= i < k ==> !IsHeader(LineAt(lines, i))
    ensures Parsed(lines, isFloat) == FoldFrom(Parse(true, []), lines[k + 1..], isFloat)
  {
    SplitAround(lines, k);
    FoldConcat(Parse(false, []), lines[..k], [lines[k]] + lines[k + 1..], isFloat);
    forall i | 0 <= i < k ensures !IsHeader(LineAt(lines[..k], i)) {
      assert LineAt(lines[..k], i) == LineAt(lines, i);
    }
    NoHeaderKeeps([], lines[..k], isFloat);
    HeaderThenRest(lines[k], lines[k + 1..], isFloat);
  }

  /** Before the header, a header line and then more lines: reading the rest from just past the header. */
  lemma HeaderThenRest(h: string, rest: seq<string>, isFloat: string -> bool)
    requires IsHeader(TrimEndChar(h, '\n'))
    ensures FoldFrom(Parse(false, []), [h] + rest, isFloat) == FoldFrom(Parse(true, []), rest, isFloat)
  {
    HeaderStep([], h, isFloat);
    assert ([h] + rest)[1..] == rest;
  }

  /** With the first header at line k, the vendors are the rows of the lines after it, stored in order. */
  lemma ParsedRows(lines: seq<string>, k: nat, isFloat: string -> bool)
    requires k < |lines| && IsHeader(LineAt(lines, k))
    requires forall i :: 0 <= i < k ==> !IsHeader(LineAt(lines, i))
    ensures Parsed(lines, isFloat) == Parse(true, StoreAll([], RowsOf(lines[k + 1..], isFloat)))
  {
    HeaderSkipped(lines, k, isFloat);
    AfterHeader([], lines[k + 1..], isFloat);
  }

  /** The entry of a vendor is the one of the last row naming it. */
  lemma {:induction false} LaterRowWins(vendors: Dict<Entry>, rows: seq<Option<(string, Entry)>>, j: nat)
    requires j < |rows| && rows[j].Some?
    requires forall k :: j < k < |rows| ==> rows[k].None? || rows[k].value.0 != rows[j].value.0
    ensures Get(StoreAll(vendors, rows), rows[j].value.0) == Some(rows[j].value.1)
    decreases |rows|
  {
    var next := Store(vendors, rows[0]);
    if j == 0 {
      PutGet(vendors, rows[0].value.0, rows[0].value.1, rows[0].value.0);
      UnnamedKept(next, rows[1..], rows[0].value.0);
    } else {
      LaterRowWins(next, rows[1..], j - 1);
    }
  }

  /** A vendor no row names keeps the entry it had. */
  lemma {:induction false} UnnamedKept(vendors: Dict<Entry>, rows: seq<Option<(string, Entry)>>, name: string)
    requires forall k :: 0 <= k < |rows| ==> rows[k].None? || rows[k].value.0 != name
    ensures Get(StoreAll(vendors, rows), name) == Get(vendors, name)
    decreases |rows|
  {
    if rows != [] {
      if rows[0].Some? {
        PutGet(vendors, rows[0].value.0, rows[0].value.1, name);
      }
      UnnamedKept(Store(vendors, rows[0]), rows[1..], name);
    }
  }

  /** A vendor is stored exactly when it was there before or some row names it. */
  lemma {:induction false} StoredNames(vendors: Dict<Entry>, rows: seq<Option<(string, Entry)>>, name: string)
    ensures name in Keys(StoreAll(vendors, rows))
            <==> name in Keys(vendors) || exists k :: 0 <= k < |rows| && rows[k].Some? && rows[k].value.0 == name
    decreases |rows|
  {
    if rows != [] {
      var next := Store(vendors, rows[0]);
      StoredNames(next, rows[1..], name);
      assert name in Keys(next) <==> name in Keys(vendors) || (rows[0].Some? && rows[0].value.0 == name);
      if exists k :: 0 <= k < |rows[1..]| && rows[1..][k].Some? && rows[1..][k].value.0 == name {
        var k :| 0 <= k < |rows[1..]| && rows[1..][k].Some? && rows[1..][k].value.0 == name;
        assert rows[k + 1] == rows[1..][k];
      }
      if exists k :: 0 <= k < |rows| && rows[k].Some? && rows[k].value.0 == name {
        var k :| 0 <= k < |rows| && rows[k].Some? && rows[k].value.0 == name;
        if k > 0 {
          assert rows[1..][k - 1] == rows[k];
        }
      }
    }
  }

  /** Rows with fresh, distinct names are appended in order. */
  lemma {:induction false} StoreAllFresh(vendors: Dict<Entry>, rows: seq<Option<(string, Entry)>>, entries: Dict<Entry>)
    requires |rows| == |entries| && forall i :: 0 <= i < |rows| ==> rows[i] == Some(entries[i])
    requires DistinctKeys(entries) && forall i :: 0 <= i < |entries| ==> entries[i].0 !in Keys(vendors)
    ensures StoreAll(vendors, rows) == vendors + entries
    decreases |rows|
  {
    if rows == [] {
      assert vendors + entries == vendors;
    } else {
      var e := entries[0];
      PutAbsent(vendors, e.0, e.1);
      KeysSnoc(vendors, e);
      StoreAllFresh(vendors + [e], rows[1..], entries[1..]);
      assert vendors + [e] + entries[1..] == vendors + entries;
    }
  }

  // ---------------------------------------------------------------------
  // Reading back the summary that save_vendor_summary writes
  // ---------------------------------------------------------------------

  /** " ".join(name.split()): the vendor name as the parser gives it back. */
  function Collapse(name: string): string
  {
    Join(" ", Words(name))
  }

  /** A percentage cell the parser reads back whole: one word, not ending in '%', that float() accepts. */
  predicate PctCell(p: string, isFloat: string -> bool)
  {
    p != [] && NoSpace(p) && p[|p| - 1] != '%' && isFloat(p)
  }

  /** What readlines() returns for a file written one line at a time, each ended by a newline. */
  function FileLines(lines: seq<string>): (r: seq<string>)
    ensures |r| == |lines| && forall i :: 0 <= i < |lines| ==> r[i] == lines[i] + "\n"
  {
    if lines == [] then [] else [lines[0] + "\n"] + FileLines(lines[1..])
  }

  /** The entries the table rows should come back as, in row order. */
  function Expected(rows: seq<(string, int)>, total: int, pct: (int, int) -> string): (r: Dict<Entry>)
    ensures |r| == |rows|
    ensures forall i :: 0 <= i < |rows| ==> r[i] == (Collapse(rows[i].0), Entry(rows[i].1, pct(rows[i].1, total)))
  {
    if rows == [] then []
    else [(Collapse(rows[0].0), Entry(rows[0].1, pct(rows[0].1, total)))] + Expected(rows[1..], total, pct)
  }

  /** rstrip("\n") makes the line ending invisible to the loop. */
  lemma {:induction false} FoldNewlines(st: Parse, lines: seq<string>, isFloat: string -> bool)
    ensures FoldFrom(st, FileLines(lines), isFloat) == FoldFrom(st, lines, isFloat)
    decreases |lines|
  {
    if lines != [] {
      var raw := lines[0] + "\n";
      assert raw[..|raw| - 1] == lines[0];
      assert TrimEndChar(raw, '\n') == TrimEndChar(lines[0], '\n');
      assert FileLines(lines)[1..] == FileLines(lines[1..]);
      FoldNewlines(Step(st, lines[0], isFloat), lines[1..], isFloat);
    }
  }

  /** Text ending in a non-space character keeps that character last when stripped. */
  lemma StripKeepsLast(s: string)
    requires s != [] && !IsSpace(s[|s| - 1])
    ensures Strip(s) != [] && Strip(s)[|Strip(s)| - 1] == s[|s| - 1]
  {
    var u := SkipSpace(s);
    assert u[|u| - 1] == s[|s| - 1];
    assert TrimEnd(u) == u;
  }

  /** Words joined by single spaces neither start nor end with whitespace. */
  lemma {:induction false} JoinWordsEdges(ws: seq<string>)
    requires ws != [] && forall i :: 0 <= i < |ws| ==> ws[i] != [] && NoSpace(ws[i])
    ensures var j := Join(" ", ws); j != [] && !IsSpace(j[0]) && !IsSpace(j[|j| - 1])
  {
    if |ws| > 1 {
      JoinWordsEdges(ws[1..]);
      var rest := Join(" ", ws[1..]);
      assert Join(" ", ws) == ws[0] + " " + rest;
    }
  }

  /** The digits of str(n), and a leading minus sign. */
  lemma IntToStringChars(n: int)
    ensures forall i :: 0 <= i < |IntToString(n)| ==> IsDigit(IntToString(n)[i]) || IntToString(n)[i] == '-'
  {
    var s := IntToString(n);
    if n < 0 {
      var d := NatToString(-n);
      forall i | 0 < i < |s| ensures IsDigit(s[i]) {
        assert s[i] == d[i - 1];
      }
    }
  }

  /** No character of s is a 'C'. */
  predicate NoC(s: string)
  {
    forall i :: 0 <= i < |s| ==> s[i] != 'C'
  }

  /** Lines without a 'C' cannot be the header. */
  lemma NoHeadersWithoutC(lines: seq<string>)
    requires forall i :: 0 <= i < |lines| ==> NoC(lines[i])
    ensures forall i :: 0 <= i < |lines| ==> !IsHeader(LineAt(lines, i))
  {
    forall i | 0 <= i < |lines| ensures !IsHeader(LineAt(lines, i)) {
      var t := LineAt(lines, i);
      assert t == lines[i][..|t|];
      assert 'C' !in t;
      LacksChar(t, "Count", 0);
    }
  }

  /** The column header save_vendor_summary writes is a header to the parser. */
  lemma SummaryHeaderIsHeader()
    ensures IsHeader(TrimEndChar(ShadowVendorOutput.SummaryHeader(), '\n'))
  {
    var v := "Vendor" + Spaces(24) + " ";
    var c := "Count" + Spaces(5);
    var p := "Percentage";
    var h := ShadowVendorOutput.SummaryHeader();
    assert LeftAlign("Vendor", 30) == "Vendor" + Spaces(24);
    assert LeftAlign("Count", 10) == c;
    assert LeftAlign(p, 10) == p;
    assert h == v + c + " " + p;
    assert h[|h| - 1] == 'e';
    assert TrimEndChar(h, '\n') == h;
    assert h[0] == 'V';
    StripNoop(h);
    assert h[..6] == "Vendor";
    ContainsSelf("Count");
    ContainsPrefix("Count", Spaces(5), "Count");
    ContainsSuffix(v, c, "Count");
    ContainsPrefix(v + c, " " + p, "Count");
    assert v + c + " " + p == (v + c) + (" " + p);
    ContainsSelf(p);
    ContainsSuffix(v + c + " ", p, p);
  }

  /** After the header, a line of fewer than three words changes nothing. */
  lemma ShortLineSkipped(d: Dict<Entry>, raw: string, isFloat: string -> bool)
    requires |Words(TrimEndChar(raw, '\n'))| < 3
    ensures Step(Parse(true, d), raw, isFloat) == Parse(true, d)
  {
  }

  /** After the header, a rule written as one word (the 50-dash line) changes nothing. */
  lemma OneWordSkipped(d: Dict<Entry>, r: string, isFloat: string -> bool)
    requires r != [] && NoSpace(r)
    ensures FoldFrom(Parse(true, d), [r], isFloat) == Parse(true, d)
  {
    assert TrimEndChar(r, '\n') == r;
    WordsOfWord(r);
    ShortLineSkipped(d, r, isFloat);
    assert [r][1..] == [];
  }

  /** Before the header, the header line switches to reading rows. */
  lemma HeaderStep(d: Dict<Entry>, h: string, isFloat: string -> bool)
    requires IsHeader(TrimEndChar(h, '\n'))
    ensures Step(Parse(false, d), h, isFloat) == Parse(true, d)
  {
  }

  /** The total line has no 'C'. */
  lemma TotalLineNoC(total: int)
    ensures NoC("Total Devices: " + IntToString(total))
  {
    var t := "Total Devices: " + IntToString(total);
    IntToStringChars(total);
    forall i | 0 <= i < |t| ensures t[i] != 'C' {
      if i >= 15 {
        assert t[i] == IntToString(total)[i - 15];
      }
    }
  }

  /** The fixed lines above the column header have no 'C'. */
  lemma FixedLinesNoC()
    ensures NoC("Network Device Vendor Summary") && NoC("") && NoC("Vendor Distribution:")
    ensures NoC(ShadowVendorOutput.Equals) && NoC(ShadowVendorOutput.Dashes)
  {
  }

  /** The seven lines above the column header have no 'C'. */
  lemma HeadBeforeHeader(total: int)
    ensures var top := ShadowVendorOutput.SummaryTop(total);
            |top| == 7 && forall i :: 0 <= i < 7 ==> NoC(top[i])
  {
    var head := ShadowVendorOutput.SummaryTop(total);
    TotalLineNoC(total);
    FixedLinesNoC();
    forall i | 0 <= i < 7 ensures NoC(head[i]) {
      assert i == 0 || i == 1 || i == 2 || i == 3 || i == 4 || i == 5 || i == 6;
    }
  }

  /**
   * Nine lines of which the first seven lack a 'C', the eighth is a header and
   * the ninth a one-word rule leave the parser just past the header, with
   * nothing stored.
   */
  lemma HeadFold(before: seq<string>, h: string, r: string, isFloat: string -> bool)
    requires |before| == 7 && forall i :: 0 <= i < 7 ==> NoC(before[i])
    requires IsHeader(TrimEndChar(h, '\n')) && r != [] && NoSpace(r)
    ensures FoldFrom(Parse(false, []), before + [h, r], isFloat) == Parse(true, [])
  {
    NoHeadersWithoutC(before);
    NoHeaderKeeps([], before, isFloat);
    HeaderAndRuleRead(h, r, isFloat);
    FoldConcat(Parse(false, []), before, [h, r], isFloat);
  }

  /** A header line and a one-word rule leave the parser past the header, with nothing stored. */
  lemma HeaderAndRuleRead(h: string, r: string, isFloat: string -> bool)
    requires IsHeader(TrimEndChar(h, '\n')) && r != [] && NoSpace(r)
    ensures FoldFrom(Parse(false, []), [h, r], isFloat) == Parse(true, [])
  {
    HeaderStep([], h, isFloat);
    OneWordSkipped([], r, isFloat);
    assert [h, r][1..] == [r];
  }

  /** The 50-dash rule is one non-empty word. */
  lemma DashesWord()
    ensures ShadowVendorOutput.Dashes != [] && NoSpace(ShadowVendorOutput.Dashes)
  {
  }

  /** The nine lines above the rows leave the parser just past the header, with nothing stored. */
  lemma HeadRead(total: int, isFloat: string -> bool)
    ensures FoldFrom(Parse(false, []), ShadowVendorOutput.SummaryHead(total), isFloat) == Parse(true, [])
  {
    HeadBeforeHeader(total);
    SummaryHeaderIsHeader();
    DashesWord();
    HeadFold(ShadowVendorOutput.SummaryTop(total), ShadowVendorOutput.SummaryHeader(), ShadowVendorOutput.Dashes, isFloat);
  }

  /** The pieces of a summary row regrouped around the two runs of padding that separate its words. */
  lemma Regroup(v: string, sa: string, cs: string, sb: string, sm: string, p: string)
    ensures v + sa + " " + (cs + sb) + " " + (sm + p) + "%" == v + (sa + " ") + (cs + (sb + " " + sm) + (p + "%"))
  {
  }

  /** The words of one summary row: the name's words, the count, the percentage with its '%'. */
  lemma RowLineWords(v: string, c: int, p: string)
    requires p != [] && NoSpace(p)
    ensures Words(ShadowVendorOutput.SummaryLine(v, c, p)) == Words(v) + [IntToString(c), p + "%"]
  {
    var cs := IntToString(c);
    var sa := Spaces(if |v| < 30 then 30 - |v| else 0);
    var sb := Spaces(if |cs| < 10 then 10 - |cs| else 0);
    var sm := Spaces(if |p| < 6 then 6 - |p| else 0);
    assert LeftAlign(v, 30) == v + sa;
    assert LeftAlign(cs, 10) == cs + sb;
    assert RightAlign(p, 6) == sm + p;
    Regroup(v, sa, cs, sb, sm, p);
    var sp1 := sa + " ";
    var sp2 := sb + " " + sm;
    var w := p + "%";
    assert ShadowVendorOutput.SummaryLine(v, c, p) == v + sp1 + (cs + sp2 + w);
    assert forall i :: 0 <= i < |sp1| ==> IsSpace(sp1[i]);
    assert forall i :: 0 <= i < |sp2| ==> IsSpace(sp2[i]);
    IntToStringNoSpace(c);
    assert NoSpace(w) by {
      assert forall i :: 0 <= i < |p| ==> w[i] == p[i];
    }
    WordsThenTwo(v, sp1, cs, sp2, w);
  }

  /** A line whose last two words are str(c) and p + "%" is read as the row of the earlier words, c and p. */
  lemma RowOfWords(line: string, ws: seq<string>, c: int, p: string, isFloat: string -> bool)
    requires ws != [] && forall i :: 0 <= i < |ws| ==> ws[i] != [] && NoSpace(ws[i])
    requires Words(line) == ws + [IntToString(c), p + "%"] && PctCell(p, isFloat)
    ensures RowOf(line, isFloat) == Some((Join(" ", ws), Entry(c, p)))
  {
    var parts := Words(line);
    var w := p + "%";
    assert parts[|parts| - 2] == IntToString(c);
    ParseIntToString(c);
    assert parts[|parts| - 1] == w;
    assert w[..|w| - 1] == p;
    assert TrimEndChar(w, '%') == p;
    assert parts[..|parts| - 2] == ws;
    JoinWordsEdges(ws);
    StripNoop(Join(" ", ws));
  }

  /** A summary row ends in '%': it has no newline to trim and is not a rule. */
  lemma RowLineTrim(v: string, c: int, p: string)
    ensures var line := ShadowVendorOutput.SummaryLine(v, c, p);
            TrimEndChar(line, '\n') == line && !IsRule(line)
  {
    var line := ShadowVendorOutput.SummaryLine(v, c, p);
    assert line[|line| - 1] == '%';
    StripKeepsLast(line);
  }

  /** The rows read back from the summary's row lines are the expected entries. */
  lemma BodyRows(rows: seq<(string, int)>, total: int, pct: (int, int) -> string, isFloat: string -> bool)
    requires forall i :: 0 <= i < |rows| ==> Words(rows[i].0) != [] && PctCell(pct(rows[i].1, total), isFloat)
    ensures var read := RowsOf(ShadowVendorOutput.RowLines(rows, total, pct), isFloat);
            forall i :: 0 <= i < |rows| ==> read[i] == Some(Expected(rows, total, pct)[i])
  {
    var body := ShadowVendorOutput.RowLines(rows, total, pct);
    forall i | 0 <= i < |rows| ensures RowsOf(body, isFloat)[i] == Some(Expected(rows, total, pct)[i]) {
      var v, c, p := rows[i].0, rows[i].1, pct(rows[i].1, total);
      RowsOfAt(body, i, isFloat);
      RowLineTrim(v, c, p);
      RowLineWords(v, c, p);
      RowOfWords(body[i], Words(v), c, p, isFloat);
    }
  }

  /** Rows whose collapsed names differ give entries with distinct keys. */
  lemma ExpectedDistinct(rows: seq<(string, int)>, total: int, pct: (int, int) -> string)
    requires forall i, j :: 0 <= i < j < |rows| ==> Collapse(rows[i].0) != Collapse(rows[j].0)
    ensures DistinctKeys(Expected(rows, total, pct))
  {
  }

  /** A file made of a head that ends on the header, row lines, and a one-word rule stores the rows read in order. */
  lemma ReadParts(head: seq<string>, body: seq<string>, r: string, expected: Dict<Entry>, isFloat: string -> bool)
    requires FoldFrom(Parse(false, []), head, isFloat) == Parse(true, [])
    requires |body| == |expected| && forall i :: 0 <= i < |body| ==> RowsOf(body, isFloat)[i] == Some(expected[i])
    requires DistinctKeys(expected) && r != [] && NoSpace(r)
    ensures Parsed(FileLines(head + body + [r]), isFloat) == Parse(true, expected)
  {
    FoldNewlines(Parse(false, []), head + body + [r], isFloat);
    FoldConcat(Parse(false, []), head + body, [r], isFloat);
    FoldConcat(Parse(false, []), head, body, isFloat);
    AfterHeader([], body, isFloat);
    StoreAllFresh([], RowsOf(body, isFloat), expected);
    assert [] + expected == expected;
    OneWordSkipped(expected, r, isFloat);
  }

  /**
   * The summary file, read back line by line, gives every row's vendor with
   * its whitespace collapsed, its count and its percentage cell, in row order.
   */
  lemma SummaryRoundTrip(rows: seq<(string, int)>, total: int, pct: (int, int) -> string, isFloat: string -> bool)
    requires forall i :: 0 <= i < |rows| ==> Words(rows[i].0) != [] && PctCell(pct(rows[i].1, total), isFloat)
    requires forall i, j :: 0 <= i < j < |rows| ==> Collapse(rows[i].0) != Collapse(rows[j].0)
    ensures var lines := ShadowVendorOutput.SummaryHead(total) + ShadowVendorOutput.RowLines(rows, total, pct) + [ShadowVendorOutput.Dashes];
            Parsed(FileLines(lines), isFloat) == Parse(true, Expected(rows, total, pct))
  {
    HeadRead(total, isFloat);
    BodyRows(rows, total, pct, isFloat);
    DashesWord();
    ExpectedDistinct(rows, total, pct);
    ReadParts(ShadowVendorOutput.SummaryHead(total), ShadowVendorOutput.RowLines(rows, total, pct),
              ShadowVendorOutput.Dashes, Expected(rows, total, pct), isFloat);
  }

  /** Rows whose names are distinct and already collapsed come back under their own names. */
  lemma ExpectedLookup(rows: seq<(string, int)>, total: int, pct: (int, int) -> string)
    requires forall i :: 0 <= i < |rows| ==> Collapse(rows[i].0) == rows[i].0
    requires forall i, j :: 0 <= i < j < |rows| ==> rows[i].0 != rows[j].0
    ensures var e := Expected(rows, total, pct);
            DistinctKeys(e)
            && (forall v :: v in Keys(e) <==> exists i :: 0 <= i < |rows| && rows[i].0 == v)
            && forall i :: 0 <= i < |rows| ==> Get(e, rows[i].0) == Some(Entry(rows[i].1, pct(rows[i].1, total)))
  {
    ExpectedKeys(rows, total, pct);
    ExpectedGet(rows, total, pct);
  }

  /** The keys of the expected entries are the rows' names, each once. */
  lemma ExpectedKeys(rows: seq<(string, int)>, total: int, pct: (int, int) -> string)
    requires forall i :: 0 <= i < |rows| ==> Collapse(rows[i].0) == rows[i].0
    requires forall i, j :: 0 <= i < j < |rows| ==> rows[i].0 != rows[j].0
    ensures var e := Expected(rows, total, pct);
            DistinctKeys(e) && forall v :: v in Keys(e) <==> exists i :: 0 <= i < |rows| && rows[i].0 == v
  {
    var e := Expected(rows, total, pct);
    forall v | v in Keys(e) ensures exists i :: 0 <= i < |rows| && rows[i].0 == v {
      var i :| 0 <= i < |e| && Keys(e)[i] == v;
    }
    forall v | exists i :: 0 <= i < |rows| && rows[i].0 == v ensures v in Keys(e) {
      var i :| 0 <= i < |rows| && rows[i].0 == v;
      assert Keys(e)[i] == v;
    }
  }

  /** Each row's name looks up that row's count and percentage cell. */
  lemma ExpectedGet(rows: seq<(string, int)>, total: int, pct: (int, int) -> string)
    requires forall i :: 0 <= i < |rows| ==> Collapse(rows[i].0) == rows[i].0
    requires forall i, j :: 0 <= i < j < |rows| ==> rows[i].0 != rows[j].0
    ensures var e := Expected(rows, total, pct);
            forall i :: 0 <= i < |rows| ==> Get(e, rows[i].0) == Some(Entry(rows[i].1, pct(rows[i].1, total)))
  {
    var e := Expected(rows, total, pct);
    forall i | 0 <= i < |rows| ensures Get(e, rows[i].0) == Some(Entry(rows[i].1, pct(rows[i].1, total))) {
      GetAt(e, i);
    }
  }

  /** The conditions of the round trip hold for the rows save_vendor_summary writes. */
  lemma SummaryRowsReadable(vendors: seq<string>, pct: (int, int) -> string, isFloat: string -> bool)
    requires forall i :: 0 <= i < |vendors| ==> Words(vendors[i]) != [] && Collapse(vendors[i]) == vendors[i]
    requires forall i :: 0 <= i < |vendors| ==> PctCell(pct(multiset(vendors)[vendors[i]], |vendors|), isFloat)
    ensures var rows := SummaryRows(vendors);
            (forall i :: 0 <= i < |rows| ==> (Words(rows[i].0) != [] && Collapse(rows[i].0) == rows[i].0
                                         && PctCell(pct(rows[i].1, |vendors|), isFloat)))
            && (forall i, j :: 0 <= i < j < |rows| ==> Collapse(rows[i].0) != Collapse(rows[j].0))
  {
    var rows := SummaryRows(vendors);
    SummaryRowsSpec(vendors);
    forall i | 0 <= i < |rows|
      ensures Words(rows[i].0) != [] && Collapse(rows[i].0) == rows[i].0 && PctCell(pct(rows[i].1, |vendors|), isFloat)
    {
      var k :| 0 <= k < |vendors| && vendors[k] == rows[i].0;
    }
  }

  /**
   * vendor_summary.txt as save_vendor_summary writes it parses back to
   * exactly the vendors seen, each with its number of devices and its
   * percentage cell, provided every name is already in collapsed form.
   */
  lemma SummaryTextRoundTrip(vendors: seq<string>, pct: (int, int) -> string, isFloat: string -> bool)
    requires forall i :: 0 <= i < |vendors| ==> Words(vendors[i]) != [] && Collapse(vendors[i]) == vendors[i]
    requires forall i :: 0 <= i < |vendors| ==> PctCell(pct(multiset(vendors)[vendors[i]], |vendors|), isFloat)
    ensures var got := Parsed(FileLines(ShadowVendorOutput.SummaryText(vendors, pct)), isFloat);
            got.headerFound && DistinctKeys(got.vendors)
            && (forall v :: v in Keys(got.vendors) <==> v in vendors)
            && forall i :: 0 <= i < |vendors| ==>
                 var n := multiset(vendors)[vendors[i]];
                 Get(got.vendors, vendors[i]) == Some(Entry(n, pct(n, |vendors|)))
  {
    SummaryTextParsed(vendors, pct, isFloat);
    SummaryLookup(vendors, pct);
  }

  /** The summary file reads back as the expected entry of each row, the percentages taken of all devices. */
  lemma SummaryTextParsed(vendors: seq<string>, pct: (int, int) -> string, isFloat: string -> bool)
    requires forall i :: 0 <= i < |vendors| ==> Words(vendors[i]) != [] && Collapse(vendors[i]) == vendors[i]
    requires forall i :: 0 <= i < |vendors| ==> PctCell(pct(multiset(vendors)[vendors[i]], |vendors|), isFloat)
    ensures Parsed(FileLines(ShadowVendorOutput.SummaryText(vendors, pct)), isFloat)
            == Parse(true, Expected(SummaryRows(vendors), |vendors|, pct))
  {
    CounterTotal(vendors);
    SummaryRowsReadable(vendors, pct, isFloat);
    SummaryRoundTrip(SummaryRows(vendors), |vendors|, pct, isFloat);
  }

  /** The expected entries of the summary rows: one per vendor seen, with its count and percentage. */
  lemma SummaryLookup(vendors: seq<string>, pct: (int, int) -> string)
    requires forall i :: 0 <= i < |vendors| ==> Collapse(vendors[i]) == vendors[i]
    ensures var e := Expected(SummaryRows(vendors), |vendors|, pct);
            DistinctKeys(e)
            && (forall v :: v in Keys(e) <==> v in vendors)
            && forall i :: 0 <= i < |vendors| ==>
                 var n := multiset(vendors)[vendors[i]];
                 Get(e, vendors[i]) == Some(Entry(n, pct(n, |vendors|)))
  {
    SummaryRowsSpec(vendors);
    RowsLookup(vendors, SummaryRows(vendors), pct);
  }

  /** Rows naming each vendor seen once, with its count, give each vendor its count and percentage. */
  lemma RowsLookup(vendors: seq<string>, rows: seq<(string, int)>, pct: (int, int) -> string)
    requires forall i :: 0 <= i < |vendors| ==> Collapse(vendors[i]) == vendors[i]
    requires forall i :: 0 <= i < |rows| ==> rows[i].0 in vendors && rows[i].1 == multiset(vendors)[rows[i].0]
    requires forall x :: x in vendors ==> exists i :: 0 <= i < |rows| && rows[i].0 == x
    requires forall i, j :: 0 <= i < j < |rows| ==> rows[i].0 != rows[j].0
    ensures var e := Expected(rows, |vendors|, pct);
            DistinctKeys(e)
            && (forall v :: v in Keys(e) <==> v in vendors)
            && forall i :: 0 <= i < |vendors| ==>
                 var n := multiset(vendors)[vendors[i]];
                 Get(e, vendors[i]) == Some(Entry(n, pct(n, |vendors|)))
  {
    forall i | 0 <= i < |rows| ensures Collapse(rows[i].0) == rows[i].0 {
      var k :| 0 <= k < |vendors| && vendors[k] == rows[i].0;
    }
    ExpectedLookup(rows, |vendors|, pct);
    VendorsLookup(vendors, rows, Expected(rows, |vendors|, pct), pct);
  }

  /** Entries that give each row its count and percentage give each vendor the same, when the rows cover the vendors. */
  lemma VendorsLookup(vendors: seq<string>, rows: seq<(string, int)>, e: Dict<Entry>, pct: (int, int) -> string)
    requires forall i :: 0 <= i < |rows| ==> rows[i].0 in vendors && rows[i].1 == multiset(vendors)[rows[i].0]
    requires forall x :: x in vendors ==> exists i :: 0 <= i < |rows| && rows[i].0 == x
    requires forall v :: v in Keys(e) <==> exists i :: 0 <= i < |rows| && rows[i].0 == v
    requires forall i :: 0 <= i < |rows| ==> Get(e, rows[i].0) == Some(Entry(rows[i].1, pct(rows[i].1, |vendors|)))
    ensures forall v :: v in Keys(e) <==> v in vendors
    ensures forall i :: 0 <= i < |vendors| ==>
              var n := multiset(vendors)[vendors[i]];
              Get(e, vendors[i]) == Some(Entry(n, pct(n, |vendors|)))
  {
    forall i | 0 <= i < |vendors|
      ensures Get(e, vendors[i]) == Some(Entry(multiset(vendors)[vendors[i]], pct(multiset(vendors)[vendors[i]], |vendors|)))
    {
      assert vendors[i] in vendors;
      var j :| 0 <= j < |rows| && rows[j].0 == vendors[i];
    }
  }
}
