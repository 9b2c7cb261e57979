/**
 * The Wireshark `manuf` file turned into the OUI -> vendor dict that
 * pre-seeds the OUI cache. The raw text arrives already cut into lines
 * (str.splitlines), so each line carries no line terminator.
 */
module OuiCacheUpdate {
  import opened Common
  import opened Text
  import opened Dicts

  const Tab: set<char> := {'\t'}

  /** A line the parser passes over before splitting it: empty, or a '#' comment. */
  predicate IsCommentOrEmpty(line: string)
  {
    line == [] || line[0] == '#'
  }

  /** The (oui, vendor) pair one line contributes, or None when the line is skipped. */
  function ManufEntry(line: string): (r: Option<(string, string)>)
    ensures IsCommentOrEmpty(line) ==> r == None
    ensures r.Some? ==> r.value.0 == Strip(r.value.0) && r.value.1 == Strip(r.value.1)
  {
    if IsCommentOrEmpty(line) then None
    else
      var parts := SplitOn(Strip(line), Tab);
      if |parts| < 2 then None
      else
        StripIdempotent(parts[0]);
        StripIdempotent(parts[1]);
        Some((Strip(parts[0]), Strip(parts[1])))
  }

  /** The dict after the given lines: each line f accepts assigns its value to its key, in line order. */
  function Assign<L>(lines: seq<L>, f: L -> Option<(string, string)>): (d: Dict<string>)
    ensures DistinctKeys(d)
  {
    if lines == [] then []
    else
      var d := Assign(lines[..|lines| - 1], f);
      match f(lines[|lines| - 1])
      case None => d
      case Some(e) => PutDistinct(d, e.0, e.1); Put(d, e.0, e.1)
  }

  /** The oui_map parse_manuf_data returns for the given lines. */
  function ManufMap(lines: seq<string>): Dict<string>
  {
    Assign(lines, ManufEntry)
  }

  /** parse_manuf_data: the loop over the lines, filling oui_map. */
  method ParseManufData(lines: seq<string>) returns (ouiMap: Dict<string>)
    ensures ouiMap == ManufMap(lines)
  {
    ouiMap := [];
    var i := 0;
    while i < |lines|
      invariant i <= |lines| && ouiMap == Assign(lines[..i], ManufEntry)
    {
      var line := lines[i];
      if line == [] || line[0] == '#' {
        // a comment or an empty line
      } else {
        var parts := SplitOn(Strip(line), Tab);
        if |parts| >= 2 {
          var oui, vendor := Strip(parts[0]), Strip(parts[1]);
          ouiMap := Put(ouiMap, oui, vendor);
        }
      }
      AssignStep(lines, i);
      i := i + 1;
    }
    assert lines[..i] == lines;
  }

  /** One more line: the dict as the loop body leaves it. */
  lemma AssignStep(lines: seq<string>, i: nat)
    requires i < |lines|
    ensures Assign(lines[..i + 1], ManufEntry) ==
            var line := lines[i];
            if line == [] || line[0] == '#' then Assign(lines[..i], ManufEntry)
            else
              var parts := SplitOn(Strip(line), Tab);
              if |parts| >= 2 then Put(Assign(lines[..i], ManufEntry), Strip(parts[0]), Strip(parts[1]))
              else Assign(lines[..i], ManufEntry)
  {
    PrefixOfPrefix(lines, i);
    var e := ManufEntry(lines[i]);
    if e.None? {
      AssignSkip(lines[..i + 1], ManufEntry);
    } else {
      AssignPut(lines[..i + 1], ManufEntry, e.value.0, e.value.1);
    }
  }

  lemma AssignSkip<L>(lines: seq<L>, f: L -> Option<(string, string)>)
    requires lines != [] && f(lines[|lines| - 1]) == None
    ensures Assign(lines, f) == Assign(lines[..|lines| - 1], f)
  {
  }

  lemma AssignPut<L>(lines: seq<L>, f: L -> Option<(string, string)>, k: string, v: string)
    requires lines != [] && f(lines[|lines| - 1]) == Some((k, v))
    ensures Assign(lines, f) == Put(Assign(lines[..|lines| - 1], f), k, v)
  {
  }

  // ---------------------------------------------------------------------
  // Properties
  // ---------------------------------------------------------------------

  lemma StripIdempotent(s: string)
    ensures Strip(Strip(s)) == Strip(s)
  {
    StripNoop(Strip(s));
  }

  /** A str.split(c) with a single separator character has two or more pieces exactly when c occurs. */
  lemma SplitTwoIffSeparator(s: string, c: char)
    ensures |SplitOn(s, {c})| >= 2 <==> c in s
  {
    var n := FirstOf(s, {c});
    if n < |s| {
      assert s[n] == c;
    } else {
      forall i | 0 <= i < |s| ensures s[i] != c {
        assert s[i] !in {c};
      }
    }
  }

  /** A line is skipped exactly when it is empty, a comment, or has no tab once stripped. */
  lemma ManufEntrySkipped(line: string)
    ensures ManufEntry(line) == None <==> IsCommentOrEmpty(line) || '\t' !in Strip(line)
  {
    SplitTwoIffSeparator(Strip(line), '\t');
  }

  /**
   * A line "a<TAB>b" followed by nothing or by further tab-separated
   * fields gives the stripped first two fields; the rest is ignored.
   */
  lemma ManufEntryFields(a: string, b: string, tail: string)
    requires a != [] && a[0] != '#' && !IsSpace(a[0]) && '\t' !in a && '\t' !in b
    requires tail == [] || tail[0] == '\t'
    requires var line := a + ['\t'] + b + tail; !IsSpace(line[|line| - 1])
    ensures ManufEntry(a + ['\t'] + b + tail) == Some((Strip(a), Strip(b)))
  {
    var line := a + ['\t'] + b + tail;
    TabFields(a, b, tail);
    StripNoop(line);
  }

  /** Splitting "a<TAB>b" plus nothing or further tab-separated fields at tabs gives a and b first. */
  lemma TabFields(a: string, b: string, tail: string)
    requires '\t' !in a && '\t' !in b
    requires tail == [] || tail[0] == '\t'
    ensures var parts := SplitOn(a + ['\t'] + b + tail, Tab); |parts| >= 2 && parts[0] == a && parts[1] == b
  {
    forall i | 0 <= i < |a| ensures a[i] !in Tab {
      assert a[i] != '\t';
    }
    forall i | 0 <= i < |b| ensures b[i] !in Tab {
      assert b[i] != '\t';
    }
    assert a + ['\t'] + b + tail == a + ['\t'] + (b + tail);
    SplitOnCut(a, '\t', b + tail, Tab);
    if tail == [] {
      assert b + tail == b;
      SplitOnWhole(b, Tab);
    } else {
      assert b + tail == b + ['\t'] + tail[1..];
      SplitOnCut(b, '\t', tail[1..], Tab);
    }
  }

  /**
   * The key is kept exactly as written, separators and case included
   * ("00:00:0C" stays in colon form): no normalisation to six hex digits.
   */
  lemma ManufKeyVerbatim(a: string, b: string, tail: string)
    requires a != [] && a[0] != '#' && !IsSpace(a[0]) && !IsSpace(a[|a| - 1]) && '\t' !in a && '\t' !in b
    requires tail == [] || tail[0] == '\t'
    requires var line := a + ['\t'] + b + tail; !IsSpace(line[|line| - 1])
    ensures ManufEntry(a + ['\t'] + b + tail).Some? && ManufEntry(a + ['\t'] + b + tail).value.0 == a
  {
    ManufEntryFields(a, b, tail);
    StripNoop(a);
  }

  /** The entry for key k after the lines is that of the last accepted line with key k. */
  lemma ManufLastWins(lines: seq<string>, i: nat, k: string, v: string)
    requires i < |lines| && ManufEntry(lines[i]) == Some((k, v))
    requires forall j :: i < j < |lines| ==> ManufEntry(lines[j]).None? || ManufEntry(lines[j]).value.0 != k
    ensures Get(ManufMap(lines), k) == Some(v)
  {
    AssignLastWins(lines, ManufEntry, i, k, v);
  }

  /** Every key of the result is the first field of some accepted line. */
  lemma ManufKeyFromLine(lines: seq<string>, k: string)
    requires k in Keys(ManufMap(lines))
    ensures exists i :: 0 <= i < |lines| && ManufEntry(lines[i]).Some? && ManufEntry(lines[i]).value.0 == k
  {
    AssignKeyFrom(lines, ManufEntry, k);
  }

  /** A value found under k was the vendor of some accepted line with key k. */
  lemma ManufValueFromLine(lines: seq<string>, k: string)
    requires Get(ManufMap(lines), k).Some?
    ensures exists i :: 0 <= i < |lines| && ManufEntry(lines[i]) == Some((k, Get(ManufMap(lines), k).value))
  {
    AssignValueFrom(lines, ManufEntry, k);
  }

  lemma {:induction false} AssignLastWins<L>(lines: seq<L>, f: L -> Option<(string, string)>, i: nat, k: string, v: string)
    requires i < |lines| && f(lines[i]) == Some((k, v))
    requires forall j :: i < j < |lines| ==> f(lines[j]).None? || f(lines[j]).value.0 != k
    ensures Get(Assign(lines, f), k) == Some(v)
  {
    var p := lines[..|lines| - 1];
    var last := lines[|lines| - 1];
    match f(last)
    case None =>
      AssignLastWins(p, f, i, k, v);
    case Some(e) =>
      PutGet(Assign(p, f), e.0, e.1, k);
      if i < |lines| - 1 {
        AssignLastWins(p, f, i, k, v);
      }
  }

  lemma {:induction false} AssignKeyFrom<L>(lines: seq<L>, f: L -> Option<(string, string)>, k: string)
    requires k in Keys(Assign(lines, f))
    ensures exists i :: 0 <= i < |lines| && f(lines[i]).Some? && f(lines[i]).value.0 == k
  {
    var p := lines[..|lines| - 1];
    var last := lines[|lines| - 1];
    if f(last).Some? && f(last).value.0 == k {
      assert lines[|lines| - 1] == last;
    } else {
      if f(last).Some? {
        var e := f(last).value;
        assert Keys(Put(Assign(p, f), e.0, e.1)) == if e.0 in Keys(Assign(p, f)) then Keys(Assign(p, f)) else Keys(Assign(p, f)) + [e.0];
      }
      AssignKeyFrom(p, f, k);
      var i :| 0 <= i < |p| && f(p[i]).Some? && f(p[i]).value.0 == k;
      assert lines[i] == p[i];
    }
  }

  lemma {:induction false} AssignValueFrom<L>(lines: seq<L>, f: L -> Option<(string, string)>, k: string)
    requires Get(Assign(lines, f), k).Some?
    ensures exists i :: 0 <= i < |lines| && f(lines[i]) == Some((k, Get(Assign(lines, f), k).value))
  {
    var p := lines[..|lines| - 1];
    var last := lines[|lines| - 1];
    var v := Get(Assign(lines, f), k).value;
    if f(last).Some? && f(last).value.0 == k {
      PutGet(Assign(p, f), k, f(last).value.1, k);
      assert lines[|lines| - 1] == last;
    } else {
      if f(last).Some? {
        var e := f(last).value;
        PutGet(Assign(p, f), e.0, e.1, k);
      }
      AssignValueFrom(p, f, k);
      var i :| 0 <= i < |p| && f(p[i]) == Some((k, v));
      assert lines[i] == p[i];
    }
  }
}
