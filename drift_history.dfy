/**
 * The archive side of drift analysis (netvendor/utils/drift_analysis.py):
 * the vendor_summary*.txt snapshots of a history directory are loaded in
 * name order, and their percentages are laid side by side in
 * vendor_drift.csv, one column per snapshot and one row per vendor.
 *
 * The directory is a value: each file name with the lines readlines()
 * returns, or None when the file cannot be read as text. The companion
 * metadata files are the parameter meta, from the metadata path to what
 * loading it gives. The CSV is the list of rows csv.writer is given, and
 * f"{pct:.1f}" on the percentage cell is the parameter fmt.
 */
module DriftHistory {
  import opened Common
  import opened Text
  import opened Dicts
  import opened Sorting
  import opened Tally
  import opened DriftAnalysis
  import ShadowVendorApi
  import ShadowVendorOutput

  // ---------------------------------------------------------------------
  // write_vendor_drift_csv
  // ---------------------------------------------------------------------

  /** [s.label for s in snapshots] */
  function Labels(snaps: seq<Snapshot>): (r: seq<string>)
    ensures |r| == |snaps| && forall i :: 0 <= i < |snaps| ==> r[i] == snaps[i].name
  {
    seq(|snaps|, i requires 0 <= i < |snaps| => snaps[i].name)
  }

  /** The three metadata rows of the CSV. */
  datatype Field = RunTimestamp | Site | ChangeTicketId

  function FieldName(f: Field): string
  {
    match f
    case RunTimestamp => "run_timestamp"
    case Site => "site"
    case ChangeTicketId => "change_ticket_id"
  }

  function FieldOf(s: Snapshot, f: Field): Option<string>
  {
    match f
    case RunTimestamp => s.runTimestamp
    case Site => s.site
    case ChangeTicketId => s.changeTicketId
  }

  /** The field's name, then each snapshot's value of it or "" when it has none. */
  function MetaRow(snaps: seq<Snapshot>, f: Field): (r: seq<string>)
    ensures |r| == |snaps| + 1 && r[0] == FieldName(f)
    ensures forall i :: 0 <= i < |snaps| ==> r[i + 1] == FieldOf(snaps[i], f).GetOr("")
  {
    [FieldName(f)] + seq(|snaps|, i requires 0 <= i < |snaps| => FieldOf(snaps[i], f).GetOr(""))
  }

  /** The vendor names of every snapshot, in snapshot order. */
  function AllVendors(snaps: seq<Snapshot>): seq<string>
  {
    if snaps == [] then [] else AllVendors(snaps[..|snaps| - 1]) + Keys(snaps[|snaps| - 1].vendors)
  }

  /** sorted(all_vendors): each vendor of any snapshot once, in order. */
  function VendorColumn(snaps: seq<Snapshot>): seq<string>
  {
    Sort(Dedup(AllVendors(snaps)))
  }

  /** The cell of vendor v under snapshot s: its formatted percentage, or "" when s does not list v. */
  function Cell(s: Snapshot, v: string, fmt: string -> string): string
  {
    match Get(s.vendors, v)
    case Some(e) => fmt(e.pct)
    case None => ""
  }

  /** The row of vendor v: its name, then its cell under each snapshot. */
  function VendorRow(v: string, snaps: seq<Snapshot>, fmt: string -> string): (r: seq<string>)
    ensures |r| == |snaps| + 1 && r[0] == v
    ensures forall i :: 0 <= i < |snaps| ==> r[i + 1] == Cell(snaps[i], v, fmt)
  {
    [v] + seq(|snaps|, i requires 0 <= i < |snaps| => Cell(snaps[i], v, fmt))
  }

  function VendorRows(vs: seq<string>, snaps: seq<Snapshot>, fmt: string -> string): (r: seq<seq<string>>)
    ensures |r| == |vs| && forall j :: 0 <= j < |vs| ==> r[j] == VendorRow(vs[j], snaps, fmt)
  {
    seq(|vs|, j requires 0 <= j < |vs| => VendorRow(vs[j], snaps, fmt))
  }

  /** The six rows above the vendor rows: labels, the three metadata rows, a blank row, the column header. */
  function Preamble(snaps: seq<Snapshot>): seq<seq<string>>
  {
    [["Metadata"] + Labels(snaps), MetaRow(snaps, RunTimestamp), MetaRow(snaps, Site),
     MetaRow(snaps, ChangeTicketId), [], ["Vendor"] + Labels(snaps)]
  }

  /** The rows of vendor_drift.csv for the given snapshots. */
  function DriftRows(snaps: seq<Snapshot>, fmt: string -> string): seq<seq<string>>
  {
    Preamble(snaps) + VendorRows(VendorColumn(snaps), snaps, fmt)
  }

  /**
   * write_vendor_drift_csv: nothing is written for no snapshots; otherwise
   * the rows handed to the CSV writer, in order.
   */
  method WriteVendorDriftCsv(snaps: seq<Snapshot>, fmt: string -> string) returns (written: Option<seq<seq<string>>>)
    ensures written == if snaps == [] then None else Some(DriftRows(snaps, fmt))
  {
    if snaps == [] {
      return None;
    }
    var all := CollectVendors(snaps);
    var ordered := Sort(all);
    var labels := Labels(snaps);
    var out := [["Metadata"] + labels, MetaRow(snaps, RunTimestamp), MetaRow(snaps, Site),
                MetaRow(snaps, ChangeTicketId), [], ["Vendor"] + labels];
    ghost var pre := Preamble(snaps);
    assert out == pre + VendorRows(ordered[..0], snaps, fmt);
    var j := 0;
    while j < |ordered|
      invariant j <= |ordered| && out == pre + VendorRows(ordered[..j], snaps, fmt)
    {
      var row := BuildRow(ordered[j], snaps, fmt);
      VendorRowsSnoc(pre, ordered, j, snaps, fmt);
      out := out + [row];
      j := j + 1;
    }
    assert ordered[..j] == ordered;
    written := Some(out);
  }

  /** The rows of one more vendor are the rows so far and that vendor's row. */
  lemma VendorRowsSnoc(pre: seq<seq<string>>, vs: seq<string>, j: nat, snaps: seq<Snapshot>, fmt: string -> string)
    requires j < |vs|
    ensures pre + VendorRows(vs[..j + 1], snaps, fmt) == pre + VendorRows(vs[..j], snaps, fmt) + [VendorRow(vs[j], snaps, fmt)]
  {
    var r := pre + VendorRows(vs[..j], snaps, fmt) + [VendorRow(vs[j], snaps, fmt)];
    forall k | 0 <= k < |r| ensures (pre + VendorRows(vs[..j + 1], snaps, fmt))[k] == r[k] {
      if k >= |pre| + j {
        assert vs[..j + 1][j] == vs[j];
      }
    }
  }

  /** all_vendors.update(snap.vendors.keys()) for each snapshot: every vendor once, in order of first appearance. */
  method CollectVendors(snaps: seq<Snapshot>) returns (all: seq<string>)
    ensures all == Dedup(AllVendors(snaps))
  {
    all := [];
    var i := 0;
    while i < |snaps|
      invariant i <= |snaps| && all == Dedup(AllVendors(snaps[..i]))
    {
      AllVendorsSnoc(snaps, i);
      all := AddKeys(all, AllVendors(snaps[..i]), Keys(snaps[i].vendors));
      i := i + 1;
    }
    assert snaps[..i] == snaps;
  }

  /** The vendors of the first i + 1 snapshots are those of the first i, then the keys of snapshot i. */
  lemma AllVendorsSnoc(snaps: seq<Snapshot>, i: nat)
    requires i < |snaps|
    ensures AllVendors(snaps[..i + 1]) == AllVendors(snaps[..i]) + Keys(snaps[i].vendors)
  {
    assert snaps[..i + 1][..i] == snaps[..i];
  }

  /** The inner loop: each key not yet seen is appended. */
  method AddKeys(all: seq<string>, before: seq<string>, keys: seq<string>) returns (r: seq<string>)
    requires all == Dedup(before)
    ensures r == Dedup(before + keys)
  {
    r := all;
    var k := 0;
    assert before + keys[..0] == before;
    while k < |keys|
      invariant k <= |keys| && r == Dedup(before + keys[..k])
    {
      DedupStep(before, keys, k);
      if keys[k] !in r {
        r := r + [keys[k]];
      }
      k := k + 1;
    }
    assert keys[..k] == keys;
  }

  /** One more key is appended to the vendors seen exactly when it is new. */
  lemma DedupStep(before: seq<string>, keys: seq<string>, k: nat)
    requires k < |keys|
    ensures var r := Dedup(before + keys[..k]);
            Dedup(before + keys[..k + 1]) == if keys[k] in r then r else r + [keys[k]]
  {
    var seen := before + keys[..k];
    DedupAppend(seen, keys[k]);
    assert seen + [keys[k]] == before + keys[..k + 1];
  }

  /** row = [vendor], then the vendor's cell under each snapshot. */
  method BuildRow(v: string, snaps: seq<Snapshot>, fmt: string -> string) returns (row: seq<string>)
    ensures row == VendorRow(v, snaps, fmt)
  {
    row := [v];
    var s := 0;
    while s < |snaps|
      invariant s <= |snaps| && |row| == s + 1 && row[0] == v
      invariant forall t :: 0 <= t < s ==> row[t + 1] == Cell(snaps[t], v, fmt)
    {
      var cell := "";
      match Get(snaps[s].vendors, v) {
        case Some(e) => cell := fmt(e.pct);
        case None =>
      }
      row := row + [cell];
      s := s + 1;
    }
  }

  /** A vendor is in the column of some snapshot exactly when some snapshot lists it. */
  lemma {:induction false} AllVendorsIn(snaps: seq<Snapshot>, v: string)
    ensures v in AllVendors(snaps) <==> exists i :: 0 <= i < |snaps| && v in Keys(snaps[i].vendors)
  {
    if snaps != [] {
      var init := snaps[..|snaps| - 1];
      AllVendorsIn(init, v);
      if v in AllVendors(init) {
        var i :| 0 <= i < |init| && v in Keys(init[i].vendors);
        assert snaps[i] == init[i];
      }
      if exists i :: 0 <= i < |snaps| && v in Keys(snaps[i].vendors) {
        var i :| 0 <= i < |snaps| && v in Keys(snaps[i].vendors);
        if i < |init| {
          assert init[i] == snaps[i];
        }
      }
    }
  }

  /**
   * The vendor column lists each vendor of any snapshot exactly once, in
   * sorted order, and nothing else.
   */
  lemma VendorColumnSpec(snaps: seq<Snapshot>)
    ensures var vs := VendorColumn(snaps);
            Sorted(vs) && Distinct(vs)
            && forall v :: v in vs <==> exists i :: 0 <= i < |snaps| && v in Keys(snaps[i].vendors)
  {
    var d := Dedup(AllVendors(snaps));
    SortSpec(d);
    PermutedDistinct(d, Sort(d));
    forall v ensures v in Sort(d) <==> exists i :: 0 <= i < |snaps| && v in Keys(snaps[i].vendors) {
      assert v in Sort(d) <==> v in multiset(Sort(d));
      assert v in d <==> v in multiset(d);
      AllVendorsIn(snaps, v);
    }
  }

  /**
   * Layout of vendor_drift.csv: the label row, the three metadata rows, a
   * blank row and the column header; then one row per vendor, sorted and
   * without repeats, each as wide as the header.
   */
  lemma DriftRowsLayout(snaps: seq<Snapshot>, fmt: string -> string)
    ensures var rows, vs := DriftRows(snaps, fmt), VendorColumn(snaps);
            |rows| == 6 + |vs|
            && rows[0] == ["Metadata"] + Labels(snaps) && rows[5] == ["Vendor"] + Labels(snaps) && rows[4] == []
            && rows[1] == MetaRow(snaps, RunTimestamp) && rows[2] == MetaRow(snaps, Site)
            && rows[3] == MetaRow(snaps, ChangeTicketId)
            && (forall j :: 6 <= j < |rows| ==> |rows[j]| == |rows[5]| && rows[j][0] == vs[j - 6])
            && (forall j, k :: 6 <= j < k < |rows| ==> LexLe(rows[j][0], rows[k][0]) && rows[j][0] != rows[k][0])
  {
    VendorColumnSpec(snaps);
  }

  /**
   * Every entry of every snapshot is in the CSV: the row of its vendor has
   * the formatted percentage under the snapshot's column, and a vendor a
   * snapshot does not list has an empty cell there.
   */
  lemma DriftCell(snaps: seq<Snapshot>, fmt: string -> string, i: nat, v: string)
    requires i < |snaps| && exists k :: 0 <= k < |snaps| && v in Keys(snaps[k].vendors)
    ensures var rows := DriftRows(snaps, fmt);
            exists j :: 6 <= j < |rows| && |rows[j]| == |snaps| + 1 && rows[j][0] == v
                        && rows[j][i + 1] == match Get(snaps[i].vendors, v) case Some(e) => fmt(e.pct) case None => ""
  {
    var rows, vs := DriftRows(snaps, fmt), VendorColumn(snaps);
    VendorColumnSpec(snaps);
    assert v in vs;
    var t :| 0 <= t < |vs| && vs[t] == v;
    DriftRowAt(snaps, fmt, t);
    assert rows[6 + t][i + 1] == Cell(snaps[i], v, fmt);
  }

  /** Past the six preamble rows, row 6 + t is the row of the t-th vendor of the column. */
  lemma DriftRowAt(snaps: seq<Snapshot>, fmt: string -> string, t: nat)
    requires t < |VendorColumn(snaps)|
    ensures |DriftRows(snaps, fmt)| == 6 + |VendorColumn(snaps)|
    ensures DriftRows(snaps, fmt)[6 + t] == VendorRow(VendorColumn(snaps)[t], snaps, fmt)
  {
  }

  // ---------------------------------------------------------------------
  // load_snapshots_from_directory and analyze_drift
  // ---------------------------------------------------------------------

  /**
   * What reading the companion {stem}.metadata.json gives: no such file, a
   * file that is not JSON or cannot be opened (both ignored), a file whose
   * loading raises an error parse_vendor_summary_file does not catch (not
   * UTF-8, or JSON that is not an object), or the object's three values.
   */
  datatype MetaFile = NoMetaFile | Ignored | Raises | MetaObject(meta: Metadata)

  /** The metadata handed to the parser, or Err when loading it raises. */
  function MetaOutcome(m: MetaFile): Result<Option<Metadata>, string>
  {
    match m
    case NoMetaFile => Ok(None)
    case Ignored => Ok(None)
    case Raises => Err("metadata")
    case MetaObject(meta) => Ok(Some(meta))
  }

  /** The history path: missing, an ordinary file, or a directory of named files (None: not readable as text). */
  datatype HistoryPath = Absent | PlainFile | Directory(files: Dict<Option<seq<string>>>)

  datatype DriftError = NotADirectory | PathIsFile | NoSnapshots

  /** Matched by the pattern vendor_summary*.txt. */
  predicate IsSummaryName(name: string)
  {
    StartsWith(name, "vendor_summary") && EndsWith(name, ".txt")
  }

  /** The names the pattern matches, in directory order. */
  function SummaryNames(names: seq<string>): (r: seq<string>)
    ensures forall x :: x in r <==> x in names && IsSummaryName(x)
  {
    if names == [] then []
    else
      var init := SummaryNames(names[..|names| - 1]);
      var last := names[|names| - 1];
      FrontLast(names);
      if IsSummaryName(last) then init + [last] else init
  }

  /** path.parent / f"{path.stem}.metadata.json" for the file name in the history directory. */
  function MetaPath(historyDir: string, name: string): string
  {
    JoinPath(historyDir, ShadowVendorApi.Stem(name) + ".metadata.json")
  }

  function JoinPath(dir: string, name: string): string
  {
    ShadowVendorApi.JoinPath(dir, name)
  }

  /** The snapshot of one file, or None when reading it raises and the loader skips it. */
  function SnapshotAt(historyDir: string, files: Dict<Option<seq<string>>>, name: string,
                      meta: string -> MetaFile, isFloat: string -> bool): Option<Snapshot>
  {
    var content := Get(files, name);
    if content.None? || content.value.None? then None
    else
      match MetaOutcome(meta(MetaPath(historyDir, name)))
      case Ok(m) => Some(SnapshotOf(JoinPath(historyDir, name), content.value.value, isFloat, m))
      case Err(_) => None
  }

  /** Reading one file of the directory, as the loader's try block does. */
  function Reader(historyDir: string, files: Dict<Option<seq<string>>>, meta: string -> MetaFile,
                  isFloat: string -> bool): string -> Option<Snapshot>
  {
    name => SnapshotAt(historyDir, files, name, meta, isFloat)
  }

  /** The snapshots of the named files, in the given order, skipping the ones that raise. */
  function SnapshotsOf(historyDir: string, files: Dict<Option<seq<string>>>, names: seq<string>,
                       meta: string -> MetaFile, isFloat: string -> bool): seq<Snapshot>
  {
    Somes(names, Reader(historyDir, files, meta, isFloat))
  }

  /** The summary files of the directory, in sorted name order. */
  function SortedSummaries(files: Dict<Option<seq<string>>>): seq<string>
  {
    Sort(SummaryNames(Keys(files)))
  }

  function LoadedSnapshots(historyDir: string, dir: HistoryPath, meta: string -> MetaFile,
                           isFloat: string -> bool): Result<seq<Snapshot>, DriftError>
  {
    match dir
    case Directory(files) => Ok(SnapshotsOf(historyDir, files, SortedSummaries(files), meta, isFloat))
    case _ => Err(NotADirectory)
  }

  /**
   * load_snapshots_from_directory: a ValueError when the path is not a
   * directory; otherwise the snapshots of the vendor_summary*.txt files in
   * sorted name order, skipping any file whose parsing raises.
   */
  method LoadSnapshotsFromDirectory(historyDir: string, dir: HistoryPath, meta: string -> MetaFile,
                                    isFloat: string -> bool) returns (r: Result<seq<Snapshot>, DriftError>)
    ensures r == LoadedSnapshots(historyDir, dir, meta, isFloat)
  {
    if !dir.Directory? {
      return Err(NotADirectory);
    }
    var files := dir.files;
    var names := SortedSummaries(files);
    var snaps: seq<Snapshot> := [];
    var i := 0;
    while i < |names|
      invariant i <= |names| && snaps == SnapshotsOf(historyDir, files, names[..i], meta, isFloat)
    {
      var one := LoadOne(historyDir, files, names[i], meta, isFloat);
      LoadStep(historyDir, files, names, i, meta, isFloat);
      if one.Some? {
        snaps := snaps + [one.value];
      }
      i := i + 1;
    }
    assert names[..i] == names;
    r := Ok(snaps);
  }

  /** The body of the loader's try block for one file: None when it raises. */
  method LoadOne(historyDir: string, files: Dict<Option<seq<string>>>, name: string,
                 meta: string -> MetaFile, isFloat: string -> bool) returns (one: Option<Snapshot>)
    ensures one == SnapshotAt(historyDir, files, name, meta, isFloat)
  {
    var content := Get(files, name);
    if content.None? || content.value.None? {
      return None;
    }
    var m := MetaOutcome(meta(MetaPath(historyDir, name)));
    if m.Err? {
      return None;
    }
    var snap := ParseVendorSummaryFile(JoinPath(historyDir, name), content.value.value, isFloat, m.value);
    one := Some(snap);
  }

  /** One more file adds its snapshot, if it has one. */
  lemma LoadStep(historyDir: string, files: Dict<Option<seq<string>>>, names: seq<string>, i: nat,
                 meta: string -> MetaFile, isFloat: string -> bool)
    requires i < |names|
    ensures var one := SnapshotAt(historyDir, files, names[i], meta, isFloat);
            SnapshotsOf(historyDir, files, names[..i + 1], meta, isFloat)
            == SnapshotsOf(historyDir, files, names[..i], meta, isFloat) + if one.Some? then [one.value] else []
  {
    assert names[..i + 1][..i] == names[..i];
  }

  /** The result of analyze_drift: where the CSV goes and its rows, or why nothing was written. */
  function AnalyzeDriftOf(historyDir: string, outputPath: Option<string>, dir: HistoryPath, meta: string -> MetaFile,
                          isFloat: string -> bool, fmt: string -> string): Result<(string, seq<seq<string>>), DriftError>
  {
    if dir.PlainFile? then Err(PathIsFile)
    else
      var files := if dir.Directory? then dir.files else [];
      var snaps := SnapshotsOf(historyDir, files, SortedSummaries(files), meta, isFloat);
      if snaps == [] then Err(NoSnapshots)
      else Ok((outputPath.GetOr(JoinPath(historyDir, "vendor_drift.csv")), DriftRows(snaps, fmt)))
  }

  /**
   * analyze_drift: mkdir(parents=True, exist_ok=True) creates a missing
   * history directory and raises on an ordinary file; a RuntimeError when
   * no snapshot loads; otherwise the CSV is written to output_path, by
   * default history_dir/vendor_drift.csv.
   */
  method AnalyzeDrift(historyDir: string, outputPath: Option<string>, dir: HistoryPath, meta: string -> MetaFile,
                      isFloat: string -> bool, fmt: string -> string) returns (r: Result<(string, seq<seq<string>>), DriftError>)
    ensures r == AnalyzeDriftOf(historyDir, outputPath, dir, meta, isFloat, fmt)
  {
    if dir.PlainFile? {
      return Err(PathIsFile);
    }
    var made := if dir.Directory? then dir else Directory([]);
    var loaded := LoadSnapshotsFromDirectory(historyDir, made, meta, isFloat);
    var snaps := loaded.value;
    if snaps == [] {
      return Err(NoSnapshots);
    }
    var path := if outputPath.Some? then outputPath.value else JoinPath(historyDir, "vendor_drift.csv");
    var written := WriteVendorDriftCsv(snaps, fmt);
    r := Ok((path, written.value));
  }

  /**
   * At most one snapshot per summary file, and exactly the files' snapshots
   * in sorted name order when no file raises.
   */
  lemma LoadedInOrder(historyDir: string, files: Dict<Option<seq<string>>>, meta: string -> MetaFile, isFloat: string -> bool)
    ensures var names := SortedSummaries(files);
            var snaps := SnapshotsOf(historyDir, files, names, meta, isFloat);
            |snaps| <= |names|
            && ((forall k :: 0 <= k < |names| ==> SnapshotAt(historyDir, files, names[k], meta, isFloat).Some?) ==>
                  |snaps| == |names|
                  && forall k :: 0 <= k < |names| ==> Some(snaps[k]) == SnapshotAt(historyDir, files, names[k], meta, isFloat))
  {
    var names := SortedSummaries(files);
    var f := Reader(historyDir, files, meta, isFloat);
    SomesAtMost(names, f);
    if forall k :: 0 <= k < |names| ==> SnapshotAt(historyDir, files, names[k], meta, isFloat).Some? {
      assert forall k :: 0 <= k < |names| ==> f(names[k]) == SnapshotAt(historyDir, files, names[k], meta, isFloat);
      SomesAll(names, f);
    }
  }

  /** The names the loader reads: each summary file of the directory once, in sorted order. */
  lemma SortedSummariesSpec(files: Dict<Option<seq<string>>>)
    requires DistinctKeys(files)
    ensures var names := SortedSummaries(files);
            Sorted(names) && Distinct(names)
            && forall x :: x in names <==> x in Keys(files) && IsSummaryName(x)
  {
    var found := SummaryNames(Keys(files));
    SortSpec(found);
    SummaryNamesDistinct(Keys(files));
    PermutedDistinct(found, Sort(found));
    forall x ensures x in Sort(found) <==> x in found {
      assert x in Sort(found) <==> x in multiset(Sort(found));
      assert x in found <==> x in multiset(found);
    }
  }

  /** Keeping some names of a list without repeats keeps it without repeats. */
  lemma {:induction false} SummaryNamesDistinct(names: seq<string>)
    requires Distinct(names)
    ensures Distinct(SummaryNames(names))
  {
    if names != [] {
      var init := names[..|names| - 1];
      assert forall i :: 0 <= i < |init| ==> init[i] == names[i];
      SummaryNamesDistinct(init);
    }
  }

  /** A file is loaded exactly when it can be read and its metadata does not raise. */
  lemma SnapshotAtSpec(historyDir: string, files: Dict<Option<seq<string>>>, name: string,
                       meta: string -> MetaFile, isFloat: string -> bool)
    ensures var one := SnapshotAt(historyDir, files, name, meta, isFloat);
            (one.Some? <==> Get(files, name).Some? && Get(files, name).value.Some?
                            && meta(MetaPath(historyDir, name)) != Raises)
            && (one.Some? ==> one.value.name == ShadowVendorApi.Stem(JoinPath(historyDir, name))
                              && one.value.vendors == DriftAnalysis.Parsed(Get(files, name).value.value, isFloat).vendors)
  {
  }

  /** The pattern's matches of a list with one more name that it does not match are unchanged. */
  lemma SummaryNamesSkip(names: seq<string>, x: string)
    requires !IsSummaryName(x)
    ensures SummaryNames(names + [x]) == SummaryNames(names)
  {
    assert (names + [x])[..|names|] == names;
  }

  /** Only vendor_summary*.txt files are read: adding any other file changes nothing that is loaded. */
  lemma LoadIgnoresOtherFiles(historyDir: string, files: Dict<Option<seq<string>>>, e: (string, Option<seq<string>>),
                              meta: string -> MetaFile, isFloat: string -> bool)
    requires !IsSummaryName(e.0)
    ensures LoadedSnapshots(historyDir, Directory(files + [e]), meta, isFloat)
            == LoadedSnapshots(historyDir, Directory(files), meta, isFloat)
  {
    KeysSnoc(files, e);
    SummaryNamesSkip(Keys(files), e.0);
    var names := SortedSummaries(files);
    forall k | 0 <= k < |names| ensures Get(files + [e], names[k]) == Get(files, names[k]) {
      SortSpec(SummaryNames(Keys(files)));
      assert names[k] in multiset(names);
      GetSnoc(files, e, names[k]);
    }
    SomesAgree(names, Reader(historyDir, files + [e], meta, isFloat), Reader(historyDir, files, meta, isFloat));
  }

  /** analyze_drift fails on an ordinary file, and for want of snapshots, and for nothing else. */
  lemma AnalyzeDriftErrors(historyDir: string, outputPath: Option<string>, dir: HistoryPath, meta: string -> MetaFile,
                           isFloat: string -> bool, fmt: string -> string)
    ensures var r := AnalyzeDriftOf(historyDir, outputPath, dir, meta, isFloat, fmt);
            var made := if dir.Directory? then dir else Directory([]);
            (r == Err(PathIsFile) <==> dir.PlainFile?)
            && (r == Err(NoSnapshots) <==> !dir.PlainFile? && LoadedSnapshots(historyDir, made, meta, isFloat) == Ok([]))
            && r != Err(NotADirectory)
            && (dir.Absent? ==> r == Err(NoSnapshots))
  {
    if dir.Absent? {
      assert SortedSummaries([]) == [];
    }
  }

  /**
   * Without output_path the drift CSV goes to history_dir/vendor_drift.csv,
   * the path the API lists among its output files for that history directory.
   */
  lemma DriftPathListed(historyDir: string, dir: HistoryPath, meta: string -> MetaFile, isFloat: string -> bool,
                        fmt: string -> string, opts: ShadowVendorApi.Options, stem: string)
    requires opts.historyDir == Some(historyDir)
    ensures var r := AnalyzeDriftOf(historyDir, None, dir, meta, isFloat, fmt);
            r.Ok? ==> r.value.0 == ShadowVendorApi.OutputPath(ShadowVendorApi.DriftCsv, opts, stem)
  {
    AnalyzeDriftPath(historyDir, None, dir, meta, isFloat, fmt);
    DriftCsvPath(opts, stem);
  }

  /** The drift CSV goes to output_path when given, else to history_dir/vendor_drift.csv. */
  lemma AnalyzeDriftPath(historyDir: string, outputPath: Option<string>, dir: HistoryPath, meta: string -> MetaFile,
                         isFloat: string -> bool, fmt: string -> string)
    ensures var r := AnalyzeDriftOf(historyDir, outputPath, dir, meta, isFloat, fmt);
            r.Ok? ==> r.value.0 == outputPath.GetOr(JoinPath(historyDir, "vendor_drift.csv"))
  {
  }

  /** The API's path of the drift CSV. */
  lemma DriftCsvPath(opts: ShadowVendorApi.Options, stem: string)
    ensures ShadowVendorApi.OutputPath(ShadowVendorApi.DriftCsv, opts, stem) == JoinPath(opts.historyDir.GetOr(""), "vendor_drift.csv")
  {
  }

  /** A history directory holding one readable summary file loads as that file's snapshot. */
  lemma SingleFileLoaded(historyDir: string, name: string, lines: seq<string>, meta: string -> MetaFile,
                         isFloat: string -> bool)
    requires IsSummaryName(name) && meta(MetaPath(historyDir, name)) != Raises
    ensures var files := [(name, Some(lines))];
            var one := SnapshotAt(historyDir, files, name, meta, isFloat);
            one.Some? && one.value.vendors == DriftAnalysis.Parsed(lines, isFloat).vendors
            && SnapshotsOf(historyDir, files, SortedSummaries(files), meta, isFloat) == [one.value]
  {
    var files := [(name, Some(lines))];
    assert Keys(files) == [name];
    assert SummaryNames([name]) == [name];
    SortOne(name);
    SomesOne(name, Reader(historyDir, files, meta, isFloat));
  }

  /** sorted() of one name. */
  lemma SortOne(x: string)
    ensures Sort([x]) == [x]
  {
    assert [x][1..] == [];
    assert SortBy([x][1..], Self) == [];
  }

  /** The values of a single element. */
  lemma SomesOne<A, B>(x: A, f: A -> Option<B>)
    ensures Somes([x], f) == if f(x).Some? then [f(x).value] else []
  {
    assert [x][..0] == [];
  }

  /** With a single snapshot, every vendor it lists has a row holding its formatted percentage. */
  lemma SingleSnapshotCells(snap: Snapshot, fmt: string -> string)
    ensures var rows := DriftRows([snap], fmt);
            forall v :: v in Keys(snap.vendors) ==>
              exists j :: 6 <= j < |rows| && |rows[j]| == 2 && rows[j][0] == v && rows[j][1] == fmt(Get(snap.vendors, v).value.pct)
  {
    forall v | v in Keys(snap.vendors)
      ensures exists j :: 6 <= j < |DriftRows([snap], fmt)| && |DriftRows([snap], fmt)[j]| == 2 && DriftRows([snap], fmt)[j][0] == v
                          && DriftRows([snap], fmt)[j][1] == fmt(Get(snap.vendors, v).value.pct)
    {
      DriftCell([snap], fmt, 0, v);
    }
  }

  /**
   * A history directory holding one readable summary file: the drift CSV
   * has a row for every vendor the file lists, with the formatted
   * percentage under the file's column.
   */
  lemma SingleFileDrift(historyDir: string, name: string, lines: seq<string>, meta: string -> MetaFile,
                        isFloat: string -> bool, fmt: string -> string)
    requires IsSummaryName(name) && meta(MetaPath(historyDir, name)) != Raises
    ensures var r := AnalyzeDriftOf(historyDir, None, Directory([(name, Some(lines))]), meta, isFloat, fmt);
            var got := DriftAnalysis.Parsed(lines, isFloat).vendors;
            r.Ok? && forall v :: v in Keys(got) ==>
              exists j :: 6 <= j < |r.value.1| && |r.value.1[j]| == 2 && r.value.1[j][0] == v
                          && r.value.1[j][1] == fmt(Get(got, v).value.pct)
  {
    SingleFileLoaded(historyDir, name, lines, meta, isFloat);
    SingleSnapshotCells(SnapshotAt(historyDir, [(name, Some(lines))], name, meta, isFloat).value, fmt);
  }

  /**
   * A vendor_summary.txt written by save_vendor_summary and archived alone
   * in the history directory gives a drift CSV with a row for every vendor
   * seen, holding its percentage of all devices.
   */
  lemma ArchivedSummaryInDrift(historyDir: string, name: string, vendors: seq<string>, pct: (int, int) -> string,
                               meta: string -> MetaFile, isFloat: string -> bool, fmt: string -> string)
    requires IsSummaryName(name) && meta(MetaPath(historyDir, name)) != Raises
    requires forall i :: 0 <= i < |vendors| ==> Words(vendors[i]) != [] && Collapse(vendors[i]) == vendors[i]
    requires forall i :: 0 <= i < |vendors| ==> PctCell(pct(multiset(vendors)[vendors[i]], |vendors|), isFloat)
    ensures var lines := FileLines(ShadowVendorOutput.SummaryText(vendors, pct));
            var r := AnalyzeDriftOf(historyDir, None, Directory([(name, Some(lines))]), meta, isFloat, fmt);
            r.Ok? && forall i :: 0 <= i < |vendors| ==>
              exists j :: 6 <= j < |r.value.1| && |r.value.1[j]| == 2 && r.value.1[j][0] == vendors[i]
                          && r.value.1[j][1] == fmt(pct(multiset(vendors)[vendors[i]], |vendors|))
  {
    var lines := FileLines(ShadowVendorOutput.SummaryText(vendors, pct));
    SummaryTextRoundTrip(vendors, pct, isFloat);
    SingleFileDrift(historyDir, name, lines, meta, isFloat, fmt);
    var got := DriftAnalysis.Parsed(lines, isFloat).vendors;
    forall i | 0 <= i < |vendors| ensures vendors[i] in Keys(got) {
      assert vendors[i] in vendors;
    }
  }
}
