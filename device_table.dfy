/**
 * The device table both ShadowVendor front ends build from an input file:
 * each line is stripped, blank lines are skipped, every other line is
 * counted, and a line that describes a device stores it under its
 * formatted MAC, replacing whatever an earlier line stored there. What a
 * line yields depends on the input type; that is a parameter here.
 */
module DeviceTable {
  import opened Common
  import opened Text
  import opened Dicts

  /** The three kinds of input file. */
  datatype InputKind = MacList | ArpTable | MacTable
  {
    /** The input_type string reported for the kind. */
    function Name(): (r: string)
      ensures r in {"mac_list", "arp_table", "mac_table"}
    {
      match this
      case MacList => "mac_list"
      case ArpTable => "arp_table"
      case MacTable => "mac_table"
    }
  }

  /** {'vlan': ..., 'port': ...} */
  datatype Device = Device(vlan: string, port: string)

  /** What one device line contributes: the formatted MAC, its entry, and whether a port was found. */
  datatype Row = Row(mac: string, device: Device, hasPort: bool)

  /** A raw line is blank once stripped (skipped, not counted), counted without a device, or a device line. */
  datatype Read = Blank | Counted | Found(row: Row)

  /** devices, line_count, mac_count and port_count after a run of lines. */
  datatype Tally = Tally(devices: Dict<Device>, lineCount: nat, macCount: nat, portCount: nat)

  /** How a front end reads a raw line: blank after stripping, or the row the stripped line yields. */
  function ReadWith(row: string -> Option<Row>): string -> Read
  {
    raw => if Strip(raw) == [] then Blank else if row(Strip(raw)).Some? then Found(row(Strip(raw)).value) else Counted
  }

  /** One pass of the loop body over a line as read. */
  function Step(t: Tally, r: Read): Tally
  {
    match r
    case Blank => t
    case Counted => t.(lineCount := t.lineCount + 1)
    case Found(d) =>
      Tally(Put(t.devices, d.mac, d.device), t.lineCount + 1, t.macCount + 1,
            t.portCount + if d.hasPort then 1 else 0)
  }

  /** The loop over all lines, in order. */
  function Scan(lines: seq<string>, read: string -> Read): Tally
  {
    if lines == [] then Tally([], 0, 0, 0)
    else Step(Scan(lines[..|lines| - 1], read), read(lines[|lines| - 1]))
  }

  /** Each stored MAC appears once, there are no more devices than MACs found, no more MACs than counted lines, and no more ports than MACs. */
  lemma {:induction false} ScanCounts(lines: seq<string>, read: string -> Read)
    ensures var t := Scan(lines, read);
            DistinctKeys(t.devices) && |t.devices| <= t.macCount <= t.lineCount && t.portCount <= t.macCount
            && t.lineCount <= |lines|
  {
    if lines != [] {
      var p := lines[..|lines| - 1];
      var t := Scan(p, read);
      ScanCounts(p, read);
      var r := read(lines[|lines| - 1]);
      if r.Found? {
        PutDistinct(t.devices, r.row.mac, r.row.device);
      }
    }
  }

  /** Line i of the file yields a device for MAC k. */
  predicate YieldsAt(lines: seq<string>, read: string -> Read, i: int, k: string)
    requires 0 <= i < |lines|
  {
    read(lines[i]).Found? && read(lines[i]).row.mac == k
  }

  /** One line adds at most its own MAC to the stored ones. */
  lemma StepKeys(t: Tally, r: Read, k: string)
    ensures k in Keys(Step(t, r).devices) <==> k in Keys(t.devices) || (r.Found? && r.row.mac == k)
  {
  }

  /** A MAC is stored exactly when some line yields a device for it. */
  lemma {:induction false} ScanKeys(lines: seq<string>, read: string -> Read, k: string)
    ensures k in Keys(Scan(lines, read).devices) <==> exists i :: 0 <= i < |lines| && YieldsAt(lines, read, i, k)
  {
    if lines != [] {
      var n := |lines| - 1;
      var p := lines[..n];
      ScanKeys(p, read, k);
      assert Scan(lines, read) == Step(Scan(p, read), read(lines[n]));
      StepKeys(Scan(p, read), read(lines[n]), k);
      var before := exists i :: 0 <= i < n && YieldsAt(p, read, i, k);
      var now := exists i :: 0 <= i < |lines| && YieldsAt(lines, read, i, k);
      assert now <==> before || YieldsAt(lines, read, n, k) by {
        if now {
          var i :| 0 <= i < |lines| && YieldsAt(lines, read, i, k);
          if i < n {
            assert YieldsAt(p, read, i, k);
          }
        }
        if before {
          var i :| 0 <= i < n && YieldsAt(p, read, i, k);
          assert YieldsAt(lines, read, i, k);
        }
      }
    } else {
      assert Scan(lines, read).devices == [];
    }
  }

  /** One line replaces the entry of its own MAC and leaves every other entry alone. */
  lemma StepGet(t: Tally, r: Read, q: string)
    ensures Get(Step(t, r).devices, q) == if r.Found? && r.row.mac == q then Some(r.row.device) else Get(t.devices, q)
  {
    if r.Found? {
      PutGet(t.devices, r.row.mac, r.row.device, q);
    }
  }

  /** The stored entry for a MAC is the one from the last line that yields it. */
  lemma {:induction false} LaterLineWins(lines: seq<string>, read: string -> Read, i: nat)
    requires i < |lines| && read(lines[i]).Found?
    requires forall j :: i < j < |lines| && read(lines[j]).Found? ==> read(lines[j]).row.mac != read(lines[i]).row.mac
    ensures Get(Scan(lines, read).devices, read(lines[i]).row.mac) == Some(read(lines[i]).row.device)
  {
    var n := |lines| - 1;
    var p := lines[..n];
    var r := read(lines[i]).row;
    assert Scan(lines, read) == Step(Scan(p, read), read(lines[n]));
    StepGet(Scan(p, read), read(lines[n]), r.mac);
    if i < n {
      assert p[i] == lines[i];
      forall j | i < j < n && read(p[j]).Found? ensures read(p[j]).row.mac != r.mac {
        assert p[j] == lines[j];
      }
      LaterLineWins(p, read, i);
    }
  }

  /** No device is stored exactly when no line yields one. */
  lemma NoDevices(lines: seq<string>, read: string -> Read)
    ensures Scan(lines, read).devices == [] <==> forall i :: 0 <= i < |lines| ==> !read(lines[i]).Found?
  {
    var d := Scan(lines, read).devices;
    if d != [] {
      ScanKeys(lines, read, d[0].0);
      assert Keys(d)[0] == d[0].0;
    }
    if exists i :: 0 <= i < |lines| && read(lines[i]).Found? {
      var i :| 0 <= i < |lines| && read(lines[i]).Found?;
      ScanKeys(lines, read, read(lines[i]).row.mac);
      assert YieldsAt(lines, read, i, read(lines[i]).row.mac);
    }
  }

  /** A property every found MAC has is had by every stored MAC. */
  lemma KeysFromRows(lines: seq<string>, read: string -> Read, good: string -> bool)
    requires forall raw :: read(raw).Found? ==> good(read(raw).row.mac)
    ensures forall k :: k in Keys(Scan(lines, read).devices) ==> good(k)
  {
    forall k | k in Keys(Scan(lines, read).devices) ensures good(k) {
      ScanKeys(lines, read, k);
    }
  }

  /** The line loop of both front ends: the device dict and the three counters updated line by line. */
  method CollectDevices(lines: seq<string>, read: string -> Read) returns (t: Tally)
    ensures t == Scan(lines, read)
  {
    var devices: Dict<Device> := [];
    var lineCount, macCount, portCount := 0, 0, 0;
    var i := 0;
    while i < |lines|
      invariant i <= |lines|
      invariant Tally(devices, lineCount, macCount, portCount) == Scan(lines[..i], read)
    {
      assert lines[..i + 1][..i] == lines[..i];
      var r := read(lines[i]);
      if !r.Blank? {
        lineCount := lineCount + 1;
        if r.Found? {
          devices := Put(devices, r.row.mac, r.row.device);
          macCount := macCount + 1;
          if r.row.hasPort {
            portCount := portCount + 1;
          }
        }
      }
      i := i + 1;
    }
    assert lines[..i] == lines;
    t := Tally(devices, lineCount, macCount, portCount);
  }
}
