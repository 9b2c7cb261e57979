/**
 * The OUIManager of oui_manager.py: a JSON database holding, for each of
 * five configured vendors, the sorted list of OUIs found for it in the IEEE
 * oui.txt registry. An update scans the registry's lines for each vendor's
 * search names, turns every "xx-xx-xx   (hex)   Name" line into the text
 * "xxxx.xx", and merges that with what the database already held.
 */
module OuiDatabase {
  import opened Common
  import opened Text
  import opened Dicts
  import opened Sorting
  import opened Tally
  import MacText

  /** The vendors configured in the constructor: each key with the names searched for in the registry. */
  const ConfiguredVendors: Dict<seq<string>> := [
    ("HP", ["Hewlett Packard", "HP Enterprise", "HP Inc"]),
    ("Apple", ["Apple, Inc"]),
    ("Dell", ["Dell Inc", "Dell Technologies"]),
    ("Cisco", ["Cisco Systems", "Cisco SPVTG"]),
    ("Mitel", ["Mitel Networks"])
  ]

  lemma ConfiguredKeysDistinct()
    ensures DistinctKeys(ConfiguredVendors)
  {
  }

  /** The contents of oui_database.json. */
  datatype Database = Database(lastUpdated: string, vendors: Dict<seq<string>>)

  // ---------------------------------------------------------------------
  // load_database
  // ---------------------------------------------------------------------

  function EmptyLists(vs: Dict<seq<string>>): (r: Dict<seq<string>>)
    ensures Keys(r) == Keys(vs) && forall i :: 0 <= i < |r| ==> r[i].1 == []
  {
    if vs == [] then [] else [(vs[0].0, [])] + EmptyLists(vs[1..])
  }

  /** load_database: the file as parsed, or with no file an empty list for every configured vendor; invalid JSON is not caught here. */
  function LoadedDatabase(vendors: Dict<seq<string>>, file: Stored<Database>): Result<Database, string>
  {
    match file
    case Missing => Ok(Database("", EmptyLists(vendors)))
    case Corrupt => Err("JSONDecodeError")
    case Parsed(db) => Ok(db)
  }

  /** With no file the database was never updated and lists no OUI for any configured vendor, and for no other. */
  lemma LoadDatabaseMissing(vendors: Dict<seq<string>>)
    requires DistinctKeys(vendors)
    ensures LoadedDatabase(vendors, Missing).Ok?
    ensures LoadedDatabase(vendors, Missing).value.lastUpdated == ""
    ensures Keys(LoadedDatabase(vendors, Missing).value.vendors) == Keys(vendors)
    ensures DistinctKeys(LoadedDatabase(vendors, Missing).value.vendors)
    ensures forall i :: 0 <= i < |vendors| ==> Get(LoadedDatabase(vendors, Missing).value.vendors, vendors[i].0) == Some([])
  {
    var d := EmptyLists(vendors);
    assert DistinctKeys(d) by {
      forall i, j | 0 <= i < j < |d| ensures d[i].0 != d[j].0 {
        assert Keys(d)[i] == Keys(vendors)[i] && Keys(d)[j] == Keys(vendors)[j];
      }
    }
    forall i | 0 <= i < |vendors| ensures Get(d, vendors[i].0) == Some([]) {
      assert Keys(d)[i] == Keys(vendors)[i];
      GetAt(d, i);
    }
  }

  // ---------------------------------------------------------------------
  // The line test and the OUI text
  // ---------------------------------------------------------------------

  const HexMarker: string := "(hex)"

  /** any(name.upper() in line.upper() for name in names) */
  predicate NamesVendor(line: string, names: seq<string>)
  {
    exists i :: 0 <= i < |names| && Contains(Upper(line), Upper(names[i]))
  }

  /** A line contributes an OUI when it names the vendor and carries the "(hex)" marker. */
  predicate OuiLine(line: string, names: seq<string>)
  {
    NamesVendor(line, names) && Contains(line, HexMarker)
  }

  /** line.split(pat)[0]: everything before the first occurrence of pat. */
  function Before(s: string, pat: string): (r: string)
    requires pat != []
    ensures |r| <= |s| && r == s[..|r|]
    decreases |s|
  {
    if s == [] || StartsWith(s, pat) then [] else [s[0]] + Before(s[1..], pat)
  }

  /** The part before "(hex)", stripped, with '-' removed and lower-cased. */
  function OuiDigits(line: string): string
  {
    Lower(Remove(Strip(Before(line, HexMarker)), {'-'}))
  }

  /** f"{oui[:4]}.{oui[4:]}": a '.' inserted after the first four characters; dropping it gives the digits back. */
  function Dotted(o: string): (r: string)
    ensures var n := if |o| < 4 then |o| else 4;
            |r| == |o| + 1 && r[n] == '.' && r[..n] + r[n + 1..] == o
  {
    var head := Take(o, 4);
    var r := head + "." + o[|head|..];
    assert r[..|head|] == head && r[|head| + 1..] == o[|head|..];
    r
  }

  /** The OUI text of a registry line. */
  function OuiText(line: string): string
  {
    Dotted(OuiDigits(line))
  }

  lemma {:induction false} BeforeFirst(a: string, pat: string, rest: string)
    requires pat != [] && pat[0] !in a
    ensures Before(a + pat + rest, pat) == a
    decreases |a|
  {
    var s := a + pat + rest;
    if a == [] {
      assert s == pat + rest;
      assert StartsWith(s, pat);
    } else {
      assert s[0] == a[0] != pat[0];
      assert s[1..] == a[1..] + pat + rest;
      BeforeFirst(a[1..], pat, rest);
    }
  }

  lemma {:induction false} TrimEndSpaces(x: string, pad: string)
    requires x != [] && !IsSpace(x[|x| - 1])
    requires forall i :: 0 <= i < |pad| ==> IsSpace(pad[i])
    ensures TrimEnd(x + pad) == x
    decreases |pad|
  {
    if pad == [] {
      assert x + pad == x;
    } else {
      var p := pad[..|pad| - 1];
      assert (x + pad)[..|x + pad| - 1] == x + p;
      TrimEndSpaces(x, p);
    }
  }

  /** The three dash-joined pairs of a registry line: "AA-BB-CC". */
  function DashedOui(h: string): string
    requires |h| == 6
  {
    h[0..2] + "-" + h[2..4] + "-" + h[4..6]
  }

  lemma RemoveDashes(h: string)
    requires |h| == 6 && AllHex(h)
    ensures Remove(DashedOui(h), {'-'}) == h
  {
    forall k | 0 <= k <= 4 && k % 2 == 0 ensures Remove(h[k..k + 2], {'-'}) == h[k..k + 2] {
      RemoveNone(h[k..k + 2], {'-'});
    }
    MacText.RemoveAround(h[0..2], '-', h[2..4], {'-'});
    MacText.RemoveAround(h[0..2] + "-" + h[2..4], '-', h[4..6], {'-'});
    assert h[0..2] + h[2..4] + h[4..6] == h;
  }

  /** A registry line "AA-BB-CC   (hex)\t\tName" gives the OUI text "aabb.cc". */
  lemma RegistryLineOui(h: string, pad: string, rest: string)
    requires |h| == 6 && AllHex(h)
    requires forall i :: 0 <= i < |pad| ==> IsSpace(pad[i])
    ensures OuiText(DashedOui(h) + pad + HexMarker + rest) == Lower(h[..4]) + "." + Lower(h[4..])
  {
    RegistryLineDigits(h, pad, rest);
    var o := Lower(h);
    assert o[..4] == Lower(h[..4]) && o[4..] == Lower(h[4..]);
  }

  /** The digits of such a line: the six hex characters, lower-cased. */
  lemma RegistryLineDigits(h: string, pad: string, rest: string)
    requires |h| == 6 && AllHex(h)
    requires forall i :: 0 <= i < |pad| ==> IsSpace(pad[i])
    ensures OuiDigits(DashedOui(h) + pad + HexMarker + rest) == Lower(h)
  {
    RegistryBefore(h, pad, rest);
    RegistryStrip(h, pad);
    RemoveDashes(h);
  }

  /** The text before the marker is the dashed OUI and its padding. */
  lemma RegistryBefore(h: string, pad: string, rest: string)
    requires |h| == 6 && AllHex(h)
    requires forall i :: 0 <= i < |pad| ==> IsSpace(pad[i])
    ensures Before(DashedOui(h) + pad + HexMarker + rest, HexMarker) == DashedOui(h) + pad
  {
    var a := DashedOui(h) + pad;
    assert forall i :: 0 <= i < |a| ==> a[i] != '(' by {
      forall i | 0 <= i < |a| ensures a[i] != '(' {
        if i >= |DashedOui(h)| {
          assert a[i] == pad[i - |DashedOui(h)|];
        }
      }
    }
    BeforeFirst(a, HexMarker, rest);
  }

  /** Stripping the padding leaves the dashed OUI. */
  lemma RegistryStrip(h: string, pad: string)
    requires |h| == 6 && AllHex(h)
    requires forall i :: 0 <= i < |pad| ==> IsSpace(pad[i])
    ensures Strip(DashedOui(h) + pad) == DashedOui(h)
  {
    var a := DashedOui(h) + pad;
    assert DashedOui(h)[0] == h[0] && DashedOui(h)[7] == h[5];
    assert SkipSpace(a) == a;
    TrimEndSpaces(DashedOui(h), pad);
  }

  // ---------------------------------------------------------------------
  // Scanning and merging
  // ---------------------------------------------------------------------

  /** The OUI text a registry line gives for one vendor, if it names the vendor and carries the marker. */
  function LineOui(line: string, names: seq<string>): Option<string>
  {
    if OuiLine(line, names) then Some(OuiText(line)) else None
  }

  /** new_ouis after the scan: each OUI text once, in the order first found. */
  function FoundOuis(lines: seq<string>, names: seq<string>): seq<string>
  {
    Dedup(Somes(lines, line => LineOui(line, names)))
  }

  /** The scan finds exactly the OUI texts of the vendor's marked lines, none twice. */
  lemma FoundOuisSpec(lines: seq<string>, names: seq<string>)
    ensures Distinct(FoundOuis(lines, names))
    ensures forall x :: x in FoundOuis(lines, names) <==>
      exists i :: 0 <= i < |lines| && LineOui(lines[i], names) == Some(x)
  {
    forall x ensures x in FoundOuis(lines, names) <==>
      exists i :: 0 <= i < |lines| && LineOui(lines[i], names) == Some(x)
    {
      SomesSpec(lines, line => LineOui(line, names), x);
    }
  }

  /** The elements of s. */
  function Elems(s: seq<string>): set<string>
  {
    set x | x in s
  }

  datatype Stats = Stats(existing: nat, newOuis: nat, total: nat)

  datatype Merged = Merged(ouis: seq<string>, stats: Stats)

  /** sorted(existing | new) with its statistics. */
  function Merge(existing: seq<string>, found: seq<string>): Merged
  {
    var updated := Sort(Dedup(existing + found));
    Merged(updated, Stats(|Elems(existing)|, |Elems(found) - Elems(existing)|, |updated|))
  }

  lemma {:induction false} DistinctCard(s: seq<string>)
    requires Distinct(s)
    ensures |Elems(s)| == |s|
  {
    if s != [] {
      var p := s[..|s| - 1];
      DistinctCard(p);
      assert Elems(s) == Elems(p) + {s[|s| - 1]};
      assert s[|s| - 1] !in Elems(p);
    }
  }

  /** A value at two positions occurs at least twice. */
  lemma RepeatCounts(s: seq<string>, i: nat, j: nat)
    requires i < j < |s| && s[i] == s[j]
    ensures multiset(s)[s[i]] >= 2
  {
    assert s == s[..j] + s[j..];
    assert s[i] in multiset(s[..j]) && s[j] in multiset(s[j..]);
  }

  /** In a sequence without repeats every value occurs at most once. */
  lemma {:induction false} DistinctOnce(s: seq<string>, x: string)
    requires Distinct(s)
    ensures multiset(s)[x] <= 1
  {
    if s != [] {
      var p := s[..|s| - 1];
      DistinctOnce(p, x);
      FrontLast(s);
      if x == s[|s| - 1] {
        assert x !in p;
      }
    }
  }

  /** A permutation of a sequence without repeats has none either. */
  lemma PermutationDistinct(s: seq<string>, t: seq<string>)
    requires Distinct(s) && multiset(t) == multiset(s)
    ensures Distinct(t)
  {
    forall i, j | 0 <= i < j < |t| ensures t[i] != t[j] {
      if t[i] == t[j] {
        RepeatCounts(t, i, j);
        DistinctOnce(s, t[i]);
      }
    }
  }

  /** The merged list is sorted, has no repeats, loses nothing and adds only found OUIs; total = existing + new. */
  lemma MergeSpec(existing: seq<string>, found: seq<string>)
    ensures var m := Merge(existing, found);
            Sorted(m.ouis) && Distinct(m.ouis)
            && (forall x :: x in m.ouis <==> x in existing || x in found)
            && m.stats.total == m.stats.existing + m.stats.newOuis
  {
    MergeSortedDistinct(existing, found);
    MergeMembers(existing, found);
    MergeTotal(existing, found);
  }

  lemma MergeSortedDistinct(existing: seq<string>, found: seq<string>)
    ensures var m := Merge(existing, found); Sorted(m.ouis) && Distinct(m.ouis)
  {
    var d := Dedup(existing + found);
    SortSpec(d);
    PermutationDistinct(d, Merge(existing, found).ouis);
  }

  lemma MergeMembers(existing: seq<string>, found: seq<string>)
    ensures var m := Merge(existing, found); forall x :: x in m.ouis <==> x in existing || x in found
  {
    var d := Dedup(existing + found);
    var m := Merge(existing, found);
    SortSpec(d);
    forall x ensures x in m.ouis <==> x in existing || x in found {
      assert x in m.ouis <==> x in multiset(m.ouis);
      assert x in d <==> x in multiset(d);
    }
  }

  lemma MergeTotal(existing: seq<string>, found: seq<string>)
    ensures var m := Merge(existing, found); m.stats.total == m.stats.existing + m.stats.newOuis
  {
    var m := Merge(existing, found);
    MergeSortedDistinct(existing, found);
    MergeMembers(existing, found);
    DistinctCard(m.ouis);
    assert Elems(m.ouis) == Elems(existing) + (Elems(found) - Elems(existing));
    assert Elems(existing) * (Elems(found) - Elems(existing)) == {};
  }

  /** Two sorted lists without repeats that hold the same values are equal. */
  lemma {:induction false} SortedUnique(a: seq<string>, b: seq<string>)
    requires Sorted(a) && Sorted(b) && Distinct(a) && Distinct(b)
    requires forall x :: x in a <==> x in b
    ensures a == b
    decreases |a|
  {
    if a == [] {
      DistinctCard(b);
      assert Elems(b) == Elems(a) == {};
    } else {
      assert b != [] by {
        assert a[0] in b;
      }
      assert LexLe(a[0], b[0]) by {
        assert b[0] in a;
        var k :| 0 <= k < |a| && a[k] == b[0];
        if k > 0 {
          assert LexLe(a[0], a[k]);
        } else {
          LexLeTotal(a[0], a[0]);
        }
      }
      assert LexLe(b[0], a[0]) by {
        assert a[0] in b;
        var k :| 0 <= k < |b| && b[k] == a[0];
        if k > 0 {
          assert LexLe(b[0], b[k]);
        } else {
          LexLeTotal(b[0], b[0]);
        }
      }
      LexLeAntisym(a[0], b[0]);
      forall x ensures x in a[1..] <==> x in b[1..] {
        assert x in a <==> x == a[0] || x in a[1..];
        assert x in b <==> x == b[0] || x in b[1..];
        assert a[0] !in a[1..] && b[0] !in b[1..];
      }
      SortedUnique(a[1..], b[1..]);
      assert a == [a[0]] + a[1..] && b == [b[0]] + b[1..];
    }
  }

  /** Merging the same registry scan a second time changes no list and reports no new OUI. */
  lemma MergeIdempotent(existing: seq<string>, found: seq<string>)
    ensures Merge(Merge(existing, found).ouis, found).ouis == Merge(existing, found).ouis
    ensures Merge(Merge(existing, found).ouis, found).stats.newOuis == 0
  {
    var m := Merge(existing, found);
    var m2 := Merge(m.ouis, found);
    MergeSpec(existing, found);
    MergeSpec(m.ouis, found);
    SortedUnique(m2.ouis, m.ouis);
    assert Elems(found) - Elems(m.ouis) == {};
  }

  // ---------------------------------------------------------------------
  // update_database, check_update_needed and get_vendor_ouis
  // ---------------------------------------------------------------------

  /** database["vendors"].get(key, []) */
  function Existing(db: Database, key: string): seq<string>
  {
    Get(db.vendors, key).GetOr([])
  }

  function VendorKey(e: (string, seq<string>)): string
  {
    e.0
  }

  /** A vendor's list after the update: its earlier list merged with the registry scan for its names. */
  function ListUpdate(lines: seq<string>): ((string, seq<string>), Option<seq<string>>) -> seq<string>
  {
    (e: (string, seq<string>), prior: Option<seq<string>>) => Merge(prior.GetOr([]), FoundOuis(lines, e.1)).ouis
  }

  /** A vendor's statistics, against what the loaded database held for it. */
  function StatsUpdate(db: Database, lines: seq<string>): ((string, seq<string>), Option<Stats>) -> Stats
  {
    (e: (string, seq<string>), prior: Option<Stats>) => Merge(Existing(db, e.0), FoundOuis(lines, e.1)).stats
  }

  datatype Updated = Updated(ok: bool, saved: Option<Database>, stats: Dict<Stats>)

  /**
   * update_database with the download and the clock as inputs: a failed
   * download or an unreadable database ends in False with nothing saved;
   * otherwise every vendor is merged, the time stamped and the result saved.
   */
  function UpdateOutcome(vendors: Dict<seq<string>>, file: Stored<Database>, download: Option<seq<string>>, now: string): Updated
  {
    if download.None? || file.Corrupt? then Updated(false, None, [])
    else
      var db := LoadedDatabase(vendors, file).value;
      var lines := download.value;
      Updated(true, Some(Database(now, PutAll(db.vendors, vendors, VendorKey, ListUpdate(lines)))),
              PutAll([], vendors, VendorKey, StatsUpdate(db, lines)))
  }

  /** True exactly when the download and the load succeed; the saved database carries the time and every vendor's merged list and statistics. */
  lemma UpdateSpec(vendors: Dict<seq<string>>, file: Stored<Database>, download: Option<seq<string>>, now: string, i: nat)
    requires DistinctKeys(vendors) && i < |vendors|
    ensures var u := UpdateOutcome(vendors, file, download, now);
            (u.ok <==> download.Some? && !file.Corrupt?)
            && (u.ok <==> u.saved.Some?)
            && (u.ok ==> u.saved.value.lastUpdated == now)
            && (u.ok ==>
                  var m := Merge(Existing(LoadedDatabase(vendors, file).value, vendors[i].0), FoundOuis(download.value, vendors[i].1));
                  Get(u.saved.value.vendors, vendors[i].0) == Some(m.ouis) && Get(u.stats, vendors[i].0) == Some(m.stats))
  {
    if download.Some? && !file.Corrupt? {
      var db := LoadedDatabase(vendors, file).value;
      PutAllAt(db.vendors, vendors, VendorKey, ListUpdate(download.value), i);
      PutAllAt([], vendors, VendorKey, StatsUpdate(db, download.value), i);
    }
  }

  /** A vendor that is not configured keeps whatever list the database held for it. */
  lemma UpdateKeepsOthers(vendors: Dict<seq<string>>, file: Stored<Database>, lines: seq<string>, now: string, vendor: string)
    requires !file.Corrupt? && vendor !in Keys(vendors)
    ensures Get(UpdateOutcome(vendors, file, Some(lines), now).saved.value.vendors, vendor)
            == Get(LoadedDatabase(vendors, file).value.vendors, vendor)
  {
    PutAllOther(LoadedDatabase(vendors, file).value.vendors, vendors, VendorKey, ListUpdate(lines), vendor);
  }

  /** get_vendor_ouis: load_database followed by set(database["vendors"].get(vendor, [])); an unreadable file raises. */
  function VendorOuiSet(vendors: Dict<seq<string>>, file: Stored<Database>, vendor: string): Result<set<string>, string>
  {
    match LoadedDatabase(vendors, file)
    case Err(e) => Err(e)
    case Ok(db) => Ok(Elems(Existing(db, vendor)))
  }

  /** Without a database file no vendor has any OUI. */
  lemma NoFileNoOuis(vendors: Dict<seq<string>>, vendor: string)
    requires DistinctKeys(vendors)
    ensures VendorOuiSet(vendors, Missing, vendor) == Ok({})
  {
    var d := EmptyLists(vendors);
    LoadDatabaseMissing(vendors);
    if vendor in Keys(d) {
      var i :| 0 <= i < |d| && Keys(d)[i] == vendor;
      GetAt(d, i);
      assert d[i] == (vendor, []);
    }
    assert Existing(Database("", d), vendor) == [];
    assert Elems([]) == {};
  }

  /** The merged list holds exactly the values of both inputs. */
  lemma MergeElems(existing: seq<string>, found: seq<string>)
    ensures Elems(Merge(existing, found).ouis) == Elems(existing) + Elems(found)
  {
    var m := Merge(existing, found).ouis;
    MergeSpec(existing, found);
    forall x ensures x in Elems(m) <==> x in Elems(existing) + Elems(found) {
      assert x in m <==> x in existing || x in found;
    }
  }

  lemma MergedOuiSet(vendors: Dict<seq<string>>, saved: Database, key: string, existing: seq<string>, found: seq<string>)
    requires Get(saved.vendors, key) == Some(Merge(existing, found).ouis)
    ensures VendorOuiSet(vendors, Parsed(saved), key) == Ok(Elems(existing) + Elems(found))
  {
    MergeElems(existing, found);
  }

  /** After an update, a vendor's OUIs are what it had before together with everything the registry lists for it. */
  lemma UpdateThenGet(vendors: Dict<seq<string>>, file: Stored<Database>, lines: seq<string>, now: string, i: nat)
    requires DistinctKeys(vendors) && !file.Corrupt? && i < |vendors|
    ensures var u := UpdateOutcome(vendors, file, Some(lines), now);
            VendorOuiSet(vendors, Parsed(u.saved.value), vendors[i].0)
            == Ok(Elems(Existing(LoadedDatabase(vendors, file).value, vendors[i].0)) + Elems(FoundOuis(lines, vendors[i].1)))
  {
    var e := Existing(LoadedDatabase(vendors, file).value, vendors[i].0);
    var f := FoundOuis(lines, vendors[i].1);
    var saved := UpdateOutcome(vendors, file, Some(lines), now).saved.value;
    UpdateSpec(vendors, file, Some(lines), now, i);
    MergedOuiSet(vendors, saved, vendors[i].0, e, f);
  }

  /** check_update_needed: the answer, lower-cased, must be exactly "y"; the database is only loaded for the report. */
  function CheckUpdate(vendors: Dict<seq<string>>, file: Stored<Database>, answer: string): Result<bool, string>
  {
    match LoadedDatabase(vendors, file)
    case Err(e) => Err(e)
    case Ok(_) => Ok(Lower(answer) == "y")
  }

  /** "y" and "Y" ask for an update and every other answer declines, whatever the database holds; an unreadable file raises. */
  lemma CheckUpdateAnswer(vendors: Dict<seq<string>>, file: Stored<Database>, answer: string)
    ensures CheckUpdate(vendors, file, answer) == if file.Corrupt? then Err("JSONDecodeError") else Ok(answer == "y" || answer == "Y")
  {
    if Lower(answer) == "y" {
      assert answer[0] == 'y' || answer[0] == 'Y';
      assert answer == [answer[0]];
    }
  }

  // ---------------------------------------------------------------------
  // The manager and the loops of update_database
  // ---------------------------------------------------------------------

  /** The scan of the registry lines for one vendor. */
  method ScanLines(lines: seq<string>, names: seq<string>) returns (found: seq<string>)
    ensures found == FoundOuis(lines, names)
  {
    ghost var f := line => LineOui(line, names);
    found := [];
    var i := 0;
    while i < |lines|
      invariant i <= |lines|
      invariant found == Dedup(Somes(lines[..i], f))
    {
      ghost var before := Somes(lines[..i], f);
      assert lines[..i + 1][..i] == lines[..i];
      var line := lines[i];
      if NamesVendor(line, names) && Contains(line, HexMarker) {
        var oui := OuiText(line);
        assert Somes(lines[..i + 1], f) == before + [oui];
        DedupAppend(before, oui);
        if oui !in found {
          found := found + [oui];
        }
      } else {
        assert Somes(lines[..i + 1], f) == before;
      }
      i := i + 1;
    }
    assert lines[..i] == lines;
  }

  /** One more configured vendor: its list is merged over what the earlier merges left, its statistics against the loaded database. */
  lemma MergeStep(vendors: Dict<seq<string>>, loaded: Database, lines: seq<string>, k: nat)
    requires DistinctKeys(vendors) && k < |vendors|
    ensures var key := vendors[k].0; var found := FoundOuis(lines, vendors[k].1);
            var before := PutAll(loaded.vendors, vendors[..k], VendorKey, ListUpdate(lines));
            PutAll(loaded.vendors, vendors[..k + 1], VendorKey, ListUpdate(lines))
              == Put(before, key, Merge(Existing(Database(loaded.lastUpdated, before), key), found).ouis)
            && PutAll([], vendors[..k + 1], VendorKey, StatsUpdate(loaded, lines))
              == Put(PutAll([], vendors[..k], VendorKey, StatsUpdate(loaded, lines)), key, Merge(Existing(Database(loaded.lastUpdated, before), key), found).stats)
  {
    PrefixOfPrefix(vendors, k);
    MergeStepStats(vendors, loaded, lines, k);
  }

  /** The statistics half of MergeStep: the earlier vendors leave this vendor's list as the loaded database has it. */
  lemma MergeStepStats(vendors: Dict<seq<string>>, loaded: Database, lines: seq<string>, k: nat)
    requires DistinctKeys(vendors) && k < |vendors|
    ensures var key := vendors[k].0; var found := FoundOuis(lines, vendors[k].1);
            var before := PutAll(loaded.vendors, vendors[..k], VendorKey, ListUpdate(lines));
            PutAll([], vendors[..k + 1], VendorKey, StatsUpdate(loaded, lines))
              == Put(PutAll([], vendors[..k], VendorKey, StatsUpdate(loaded, lines)), key, Merge(Existing(Database(loaded.lastUpdated, before), key), found).stats)
  {
    var key := vendors[k].0;
    assert forall j :: 0 <= j < k ==> VendorKey(vendors[..k][j]) != key;
    PutAllOther(loaded.vendors, vendors[..k], VendorKey, ListUpdate(lines), key);
    var before := PutAll(loaded.vendors, vendors[..k], VendorKey, ListUpdate(lines));
    assert Existing(Database(loaded.lastUpdated, before), key) == Existing(loaded, key);
    PutAllSnoc([], vendors, VendorKey, StatsUpdate(loaded, lines), k);
  }

  /** The one merge per configured vendor of update_database, over the loaded database. */
  method MergeVendors(vendors: Dict<seq<string>>, loaded: Database, lines: seq<string>) returns (database: Database, stats: Dict<Stats>)
    requires DistinctKeys(vendors)
    ensures database == Database(loaded.lastUpdated, PutAll(loaded.vendors, vendors, VendorKey, ListUpdate(lines)))
    ensures stats == PutAll([], vendors, VendorKey, StatsUpdate(loaded, lines))
  {
    database := loaded;
    stats := [];
    var k := 0;
    while k < |vendors|
      invariant k <= |vendors|
      invariant database == Database(loaded.lastUpdated, PutAll(loaded.vendors, vendors[..k], VendorKey, ListUpdate(lines)))
      invariant stats == PutAll([], vendors[..k], VendorKey, StatsUpdate(loaded, lines))
    {
      var key := vendors[k].0;
      MergeStep(vendors, loaded, lines, k);
      var found := ScanLines(lines, vendors[k].1);
      var merged := Merge(Existing(database, key), found);
      database := database.(vendors := Put(database.vendors, key, merged.ouis));
      stats := Put(stats, key, merged.stats);
      k := k + 1;
    }
    assert vendors[..k] == vendors;
  }

  /** The OUIManager: its configured vendors and the database file it reads and writes. */
  class OuiManager {
    var vendors: Dict<seq<string>>
    var file: Stored<Database>

    predicate Valid()
      reads this
    {
      DistinctKeys(vendors)
    }

    /** __init__: the five configured vendors over whatever database file is on disk. */
    constructor(disk: Stored<Database>)
      ensures Valid() && vendors == ConfiguredVendors && file == disk
    {
      vendors := ConfiguredVendors;
      file := disk;
      ConfiguredKeysDistinct();
    }

    method LoadDatabase() returns (r: Result<Database, string>)
      ensures r == LoadedDatabase(vendors, file)
    {
      match file
      case Missing => r := Ok(Database("", EmptyLists(vendors)));
      case Corrupt => r := Err("JSONDecodeError");
      case Parsed(db) => r := Ok(db);
    }

    method SaveDatabase(data: Database)
      modifies this
      ensures file == Parsed(data) && vendors == old(vendors)
    {
      file := Parsed(data);
    }

    /** update_database; the summary it prints is the statistics returned. */
    method UpdateDatabase(download: Option<seq<string>>, now: string) returns (ok: bool, stats: Dict<Stats>)
      requires Valid()
      modifies this
      ensures Valid() && vendors == old(vendors)
      ensures var u := UpdateOutcome(old(vendors), old(file), download, now);
              ok == u.ok && stats == u.stats && file == (if u.ok then Parsed(u.saved.value) else old(file))
    {
      if download.None? {
        return false, [];
      }
      var loaded := LoadDatabase();
      if loaded.Err? {
        return false, [];
      }
      var database;
      database, stats := MergeVendors(vendors, loaded.value, download.value);
      SaveDatabase(database.(lastUpdated := now));
      ok := true;
    }

    method CheckUpdateNeeded(answer: string) returns (r: Result<bool, string>)
      ensures r == CheckUpdate(vendors, file, answer)
    {
      var loaded := LoadDatabase();
      if loaded.Err? {
        return Err(loaded.error);
      }
      r := Ok(Lower(answer) == "y");
    }

    method GetVendorOuis(vendor: string) returns (r: Result<set<string>, string>)
      ensures r == VendorOuiSet(vendors, file, vendor)
    {
      var loaded := LoadDatabase();
      if loaded.Err? {
        return Err(loaded.error);
      }
      r := Ok(Elems(Existing(loaded.value, vendor)));
    }
  }
}
