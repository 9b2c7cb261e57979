/**
 * The offline OUIManager of netvendor/core/oui_manager.py. It answers from
 * the vendor cache read out of oui_cache.json and never consults a lookup
 * service. A MAC that finds no entry is remembered, as the whole MAC
 * string, in the failed-lookup set, and every later call for it answers
 * None. Files are fingerprinted by size, modification time and a hash of
 * their whole content.
 */
module NetvendorCoreOui {
  import opened Common
  import opened Text
  import opened Dicts
  import opened NetVendorOuiSpec

  /** The manager's three tables and every JSON image it has written to each file, oldest first. */
  datatype Offline = Offline(cache: Dict<string>, failed: set<string>, processed: map<string, FileMeta>,
                             cacheWrites: seq<Dict<string>>, failedWrites: seq<set<string>>,
                             processedWrites: seq<map<string, FileMeta>>)

  /** The cache has no repeated key, and each file, once written, holds the table's current value. */
  predicate Persisted(m: Offline)
  {
    DistinctKeys(m.cache)
    && (m.cacheWrites != [] ==> m.cacheWrites[|m.cacheWrites| - 1] == m.cache)
    && (m.failedWrites != [] ==> m.failedWrites[|m.failedWrites| - 1] == m.failed)
    && (m.processedWrites != [] ==> m.processedWrites[|m.processedWrites| - 1] == m.processed)
  }

  // ---------------------------------------------------------------------
  // __init__ and the three loaders
  // ---------------------------------------------------------------------

  /** load_cache: the JSON object as parsed, later duplicate keys overwriting earlier ones; anything else is empty. */
  function LoadedDict(stored: Stored<Dict<string>>): Dict<string>
  {
    if stored.Parsed? then FromPairs(stored.value) else []
  }

  /** load_failed_lookups: set() of the parsed list. */
  function LoadedSet(stored: Stored<seq<string>>): set<string>
  {
    if stored.Parsed? then set i | 0 <= i < |stored.value| :: stored.value[i] else {}
  }

  /** load_processed_files */
  function LoadedMap(stored: Stored<map<string, FileMeta>>): map<string, FileMeta>
  {
    if stored.Parsed? then stored.value else map[]
  }

  /**
   * __init__: a missing file is first written with the empty table, then
   * all three files are loaded, so a missing file loads as empty.
   */
  function Init(sc: Stored<Dict<string>>, sf: Stored<seq<string>>, sp: Stored<map<string, FileMeta>>): Offline
  {
    Offline(LoadedDict(sc), LoadedSet(sf), LoadedMap(sp),
            if sc.Missing? then [[]] else [],
            if sf.Missing? then [{}] else [],
            if sp.Missing? then [map[]] else [])
  }

  /** A missing or corrupt file starts the table empty, a parsed one restores exactly what was saved, and the result is consistent with the files. */
  lemma InitSpec(sc: Stored<Dict<string>>, sf: Stored<seq<string>>, sp: Stored<map<string, FileMeta>>)
    ensures Persisted(Init(sc, sf, sp))
    ensures !sc.Parsed? ==> Init(sc, sf, sp).cache == []
    ensures !sf.Parsed? ==> Init(sc, sf, sp).failed == {}
    ensures !sp.Parsed? ==> Init(sc, sf, sp).processed == map[]
    ensures sc.Parsed? && DistinctKeys(sc.value) ==> Init(sc, sf, sp).cache == sc.value
    ensures sf.Parsed? ==> forall mac :: mac in Init(sc, sf, sp).failed <==> mac in sf.value
    ensures |Init(sc, sf, sp).failedWrites| == (if sf.Missing? then 1 else 0)
  {
    InitPersisted(sc, sf, sp);
    if sc.Parsed? && DistinctKeys(sc.value) {
      FromPairsOfDistinct(sc.value);
    }
  }

  /** Reading back the empty table just written gives what a missing file stands for. */
  lemma EmptyFilesLoaded(sc: Stored<Dict<string>>, sf: Stored<seq<string>>, sp: Stored<map<string, FileMeta>>)
    ensures LoadedDict(if sc.Missing? then Parsed([]) else sc) == LoadedDict(sc)
    ensures LoadedSet(if sf.Missing? then Parsed([]) else sf) == LoadedSet(sf)
    ensures LoadedMap(if sp.Missing? then Parsed(map[]) else sp) == LoadedMap(sp)
  {
    if sf.Missing? {
      var e: seq<string> := [];
      assert LoadedSet(Parsed(e)) == {};
    }
  }

  lemma InitPersisted(sc: Stored<Dict<string>>, sf: Stored<seq<string>>, sp: Stored<map<string, FileMeta>>)
    ensures Persisted(Init(sc, sf, sp))
  {
    if sc.Parsed? {
      FromPairsDistinct(sc.value);
    }
  }

  // ---------------------------------------------------------------------
  // get_vendor
  // ---------------------------------------------------------------------

  /** mac[:6].upper(): the first six characters, separators included, upper-cased. */
  function OuiKey(mac: string): (k: string)
    ensures |k| == if |mac| <= 6 then |mac| else 6
    ensures forall i :: 0 <= i < |k| ==> k[i] == UpperChar(mac[i])
  {
    Upper(Take(mac, 6))
  }

  datatype Answer = Answer(after: Offline, vendor: Option<string>)

  /** get_vendor: a MAC that failed before answers None; otherwise the cached value, or None with the MAC added to the failed set and that set saved. */
  function AnswerFor(m: Offline, mac: string): (a: Answer)
    ensures a.vendor.Some? <==> mac !in m.failed && OuiKey(mac) in Keys(m.cache)
    ensures a.vendor.Some? ==> a.vendor == Get(m.cache, OuiKey(mac))
    ensures a.after.failed == if a.vendor.Some? then m.failed else m.failed + {mac}
    ensures a.after.cache == m.cache && a.after.processed == m.processed
    ensures a.after.cacheWrites == m.cacheWrites && a.after.processedWrites == m.processedWrites
    ensures Persisted(m) ==> Persisted(a.after)
  {
    if mac in m.failed then Answer(m, None)
    else match Get(m.cache, OuiKey(mac))
      case Some(v) => Answer(m, Some(v))
      case None =>
        var f := m.failed + {mac};
        Answer(m.(failed := f, failedWrites := m.failedWrites + [f]), None)
  }

  /** Asking again for the same MAC gives the same answer and changes nothing. */
  lemma GetVendorRepeat(m: Offline, mac: string)
    ensures AnswerFor(AnswerFor(m, mac).after, mac) == Answer(AnswerFor(m, mac).after, AnswerFor(m, mac).vendor)
  {
  }

  /** get_vendor for each MAC in turn. */
  function AnswerAll(m: Offline, macs: seq<string>): Offline
    decreases macs
  {
    if macs == [] then m else AnswerAll(AnswerFor(m, macs[0]).after, macs[1..])
  }

  /** Lookups never shrink the failed set and never touch the cache. */
  lemma {:induction false} AnswerAllGrow(m: Offline, macs: seq<string>)
    ensures m.failed <= AnswerAll(m, macs).failed
    ensures AnswerAll(m, macs).cache == m.cache
    decreases macs
  {
    if macs != [] {
      AnswerAllGrow(AnswerFor(m, macs[0]).after, macs[1..]);
    }
  }

  /** Once a MAC has answered None, it answers None after any further lookups, whatever the other MACs were. */
  lemma MissIsPermanent(m: Offline, mac: string, others: seq<string>)
    requires AnswerFor(m, mac).vendor == None
    ensures AnswerFor(AnswerAll(AnswerFor(m, mac).after, others), mac).vendor == None
  {
    AnswerAllGrow(AnswerFor(m, mac).after, others);
  }

  /** A colon-, dash- or dot-separated MAC carries its separator into the key, so it never hits a cache whose keys are bare hex. */
  lemma SeparatedMacMisses(m: Offline, mac: string)
    requires |mac| > 2 && mac[2] in MacSeparators
    requires forall k :: k in Keys(m.cache) ==> AllHex(k)
    ensures AnswerFor(m, mac).vendor == None
    ensures mac in AnswerFor(m, mac).after.failed
  {
    var k := OuiKey(mac);
    assert k[2] == mac[2];
    assert !AllHex(k);
  }

  /** The key ignores letter case, though the failed set does not. */
  lemma KeyIgnoresCase(mac: string)
    ensures OuiKey(Lower(mac)) == OuiKey(mac)
  {
  }

  // ---------------------------------------------------------------------
  // get_vendor_ouis
  // ---------------------------------------------------------------------

  /** The keys whose value equals vendor when both are lower-cased. */
  function VendorOuis(d: Dict<string>, vendor: string): set<string>
  {
    if d == [] then {}
    else VendorOuis(d[..|d| - 1], vendor)
         + (if Lower(d[|d| - 1].1) == Lower(vendor) then {d[|d| - 1].0} else {})
  }

  /** A key is returned exactly when some entry under it names the vendor, ignoring case. */
  lemma {:induction false} VendorOuisSpec(d: Dict<string>, vendor: string)
    ensures forall k :: k in VendorOuis(d, vendor) <==>
      exists i :: 0 <= i < |d| && d[i].0 == k && Lower(d[i].1) == Lower(vendor)
  {
    if d != [] {
      var p := d[..|d| - 1];
      VendorOuisSpec(p, vendor);
      forall k ensures k in VendorOuis(d, vendor) <==>
        exists i :: 0 <= i < |d| && d[i].0 == k && Lower(d[i].1) == Lower(vendor)
      {
        if exists i :: 0 <= i < |d| && d[i].0 == k && Lower(d[i].1) == Lower(vendor) {
          var i :| 0 <= i < |d| && d[i].0 == k && Lower(d[i].1) == Lower(vendor);
          if i < |p| {
            assert p[i] == d[i];
          }
        }
      }
    }
  }

  /** Over a cache without repeated keys: the keys whose cached vendor matches, ignoring case. */
  lemma VendorOuisByGet(d: Dict<string>, vendor: string)
    requires DistinctKeys(d)
    ensures forall k :: k in VendorOuis(d, vendor) <==> Get(d, k).Some? && Lower(Get(d, k).value) == Lower(vendor)
  {
    VendorOuisSpec(d, vendor);
    forall k ensures k in VendorOuis(d, vendor) <==> Get(d, k).Some? && Lower(Get(d, k).value) == Lower(vendor) {
      if Get(d, k).Some? {
        var i :| 0 <= i < |d| && Keys(d)[i] == k;
        GetAt(d, i);
      }
      if k in VendorOuis(d, vendor) {
        var i :| 0 <= i < |d| && d[i].0 == k && Lower(d[i].1) == Lower(vendor);
        GetAt(d, i);
      }
    }
  }

  /** Spellings of a vendor that differ only in letter case select the same keys. */
  lemma {:induction false} VendorOuisCase(d: Dict<string>, v: string, w: string)
    requires Lower(v) == Lower(w)
    ensures VendorOuis(d, v) == VendorOuis(d, w)
  {
    if d != [] {
      VendorOuisCase(d[..|d| - 1], v, w);
    }
  }

  // ---------------------------------------------------------------------
  // get_file_metadata, has_file_changed and update_file_metadata
  // ---------------------------------------------------------------------

  /** get_file_metadata: size, modification time and the SHA-256 hex digest of the whole file, the digest left abstract. */
  function FileMetadata(f: FileState, digest: seq<byte> -> string): FileMeta
  {
    FileMeta(|f.content|, f.mtime, digest(f.content))
  }

  /** has_file_changed: an unrecorded path, or a record differing in size, time or hash. */
  predicate FileChanged(m: Offline, path: string, f: FileState, digest: seq<byte> -> string)
  {
    path !in m.processed || m.processed[path] != FileMetadata(f, digest)
  }

  /** update_file_metadata: record the file and save the table. */
  function RecordFile(m: Offline, path: string, f: FileState, digest: seq<byte> -> string): (r: Offline)
    ensures Persisted(m) ==> Persisted(r)
  {
    var p := m.processed[path := FileMetadata(f, digest)];
    m.(processed := p, processedWrites := m.processedWrites + [p])
  }

  /** After recording a file it reads as unchanged; other paths keep their answer; an unrecorded path always reads as changed. */
  lemma UpdateThenUnchanged(m: Offline, path: string, q: string, f: FileState, g: FileState, digest: seq<byte> -> string)
    ensures !FileChanged(RecordFile(m, path, f, digest), path, f, digest)
    ensures q != path ==> (FileChanged(RecordFile(m, path, f, digest), q, g, digest) <==> FileChanged(m, q, g, digest))
    ensures path !in m.processed ==> FileChanged(m, path, f, digest)
  {
  }

  /**
   * With a digest that tells contents apart, any edit after recording is
   * noticed, however small and wherever in the file, unlike the windowed
   * fingerprint of NetVendor.py (MiddleEditUnnoticed).
   */
  lemma AnyEditNoticed(m: Offline, path: string, f: FileState, g: FileState, digest: seq<byte> -> string)
    requires forall a, b :: digest(a) == digest(b) ==> a == b
    requires f.content != g.content
    ensures FileChanged(RecordFile(m, path, f, digest), path, g, digest)
  {
  }

  /** The concatenation of the blocks, first to last. */
  function Flatten(blocks: seq<seq<byte>>): seq<byte>
  {
    if blocks == [] then [] else Flatten(blocks[..|blocks| - 1]) + blocks[|blocks| - 1]
  }

  /** The size of each read(4096) in _get_file_hash. */
  const BlockSize: nat := 4096

  /**
   * The loop of _get_file_hash: read(4096) until it returns nothing,
   * feeding each block to the hash. The blocks fed are the whole file, in
   * order, every one full except possibly the last, so the digest is that
   * of the whole content.
   */
  method HashedBlocks(content: seq<byte>) returns (blocks: seq<seq<byte>>)
    ensures Flatten(blocks) == content
    ensures forall j :: 0 <= j < |blocks| ==> 0 < |blocks[j]| <= BlockSize
    ensures forall j :: 0 <= j < |blocks| - 1 ==> |blocks[j]| == BlockSize
  {
    blocks := [];
    var pos := 0;
    while pos < |content|
      invariant pos <= |content|
      invariant Flatten(blocks) == content[..pos]
      invariant forall j :: 0 <= j < |blocks| ==> |blocks[j]| == BlockSize
    {
      var end := if |content| - pos < BlockSize then |content| else pos + BlockSize;
      var block := content[pos..end];
      var prev := blocks;
      blocks := blocks + [block];
      assert blocks[..|blocks| - 1] == prev;
      assert content[..end] == content[..pos] + block;
      if |block| < BlockSize {
        // A short read is the last one: the next read returns nothing.
        assert end == |content| && content[..end] == content;
        return;
      }
      pos := end;
    }
    assert content[..pos] == content;
  }

  // ---------------------------------------------------------------------
  // The object
  // ---------------------------------------------------------------------

  class OfflineManager {
    var cache: Dict<string>
    var failed: set<string>
    var processed: map<string, FileMeta>
    /** Every image written to oui_cache.json, failed_lookups.json and processed_files.json, oldest first. */
    var cacheWrites: seq<Dict<string>>
    var failedWrites: seq<set<string>>
    var processedWrites: seq<map<string, FileMeta>>

    function Snapshot(): Offline
      reads this
    {
      Offline(cache, failed, processed, cacheWrites, failedWrites, processedWrites)
    }

    predicate Valid()
      reads this
    {
      Persisted(Snapshot())
    }

    /** __init__: write an empty table into each missing file, then load all three. */
    constructor (sc: Stored<Dict<string>>, sf: Stored<seq<string>>, sp: Stored<map<string, FileMeta>>)
      ensures Valid() && Snapshot() == Init(sc, sf, sp)
    {
      cache := [];
      failed := {};
      processed := map[];
      cacheWrites := [];
      failedWrites := [];
      processedWrites := [];
      new;
      if sc.Missing? {
        SaveCache();
      }
      if sf.Missing? {
        SaveFailedLookups();
      }
      if sp.Missing? {
        SaveProcessedFiles();
      }
      assert cache == [] && failed == {} && processed == map[];
      assert cacheWrites == Init(sc, sf, sp).cacheWrites && failedWrites == Init(sc, sf, sp).failedWrites
        && processedWrites == Init(sc, sf, sp).processedWrites;
      // A file just written holds the empty table and is read back as such.
      LoadCache(if sc.Missing? then Parsed([]) else sc);
      LoadFailedLookups(if sf.Missing? then Parsed([]) else sf);
      LoadProcessedFiles(if sp.Missing? then Parsed(map[]) else sp);
      EmptyFilesLoaded(sc, sf, sp);
      assert cache == Init(sc, sf, sp).cache && failed == Init(sc, sf, sp).failed
        && processed == Init(sc, sf, sp).processed;
      InitPersisted(sc, sf, sp);
    }

    /** save_cache (it takes no force argument). */
    method SaveCache()
      modifies this
      ensures Snapshot() == old(Snapshot()).(cacheWrites := old(cacheWrites) + [old(cache)])
    {
      cacheWrites := cacheWrites + [cache];
    }

    method SaveFailedLookups()
      modifies this
      ensures Snapshot() == old(Snapshot()).(failedWrites := old(failedWrites) + [old(failed)])
    {
      failedWrites := failedWrites + [failed];
    }

    method SaveProcessedFiles()
      modifies this
      ensures Snapshot() == old(Snapshot()).(processedWrites := old(processedWrites) + [old(processed)])
    {
      processedWrites := processedWrites + [processed];
    }

    /** load_cache: a file that exists replaces the cache, with the empty table when it is not valid JSON. */
    method LoadCache(stored: Stored<Dict<string>>)
      modifies this
      ensures Snapshot() == old(Snapshot()).(cache := if stored.Missing? then old(cache) else LoadedDict(stored))
    {
      match stored {
        case Missing =>
        case Corrupt => cache := [];
        case Parsed(raw) => cache := FromPairs(raw);
      }
    }

    method LoadFailedLookups(stored: Stored<seq<string>>)
      modifies this
      ensures Snapshot() == old(Snapshot()).(failed := if stored.Missing? then old(failed) else LoadedSet(stored))
    {
      match stored {
        case Missing =>
        case Corrupt => failed := {};
        case Parsed(macs) => failed := set i | 0 <= i < |macs| :: macs[i];
      }
    }

    method LoadProcessedFiles(stored: Stored<map<string, FileMeta>>)
      modifies this
      ensures Snapshot() == old(Snapshot()).(processed := if stored.Missing? then old(processed) else LoadedMap(stored))
    {
      match stored {
        case Missing =>
        case Corrupt => processed := map[];
        case Parsed(records) => processed := records;
      }
    }

    /** get_vendor */
    method GetVendor(mac: string) returns (vendor: Option<string>)
      requires Valid()
      modifies this
      ensures Valid()
      ensures Snapshot() == AnswerFor(old(Snapshot()), mac).after
      ensures vendor == AnswerFor(old(Snapshot()), mac).vendor
    {
      if mac in failed {
        return None;
      }
      var oui := Upper(Take(mac, 6));
      vendor := Get(cache, oui);
      if vendor.None? {
        failed := failed + {mac};
        SaveFailedLookups();
      }
    }

    /** get_vendor_ouis: the loop over cache.items(). */
    method GetVendorOuis(vendor: string) returns (ouis: set<string>)
      ensures ouis == VendorOuis(cache, vendor)
    {
      ouis := {};
      var i := 0;
      while i < |cache|
        invariant i <= |cache|
        invariant ouis == VendorOuis(cache[..i], vendor)
      {
        assert cache[..i + 1][..i] == cache[..i];
        if Lower(cache[i].1) == Lower(vendor) {
          ouis := ouis + {cache[i].0};
        }
        i := i + 1;
      }
      assert cache[..i] == cache;
    }

    /** has_file_changed, comparing the three recorded fields one by one. */
    method HasFileChanged(path: string, f: FileState, digest: seq<byte> -> string) returns (changed: bool)
      ensures changed <==> FileChanged(Snapshot(), path, f, digest)
    {
      if path !in processed {
        return true;
      }
      var current := FileMetadata(f, digest);
      var stored := processed[path];
      changed := current.size != stored.size || current.mtime != stored.mtime || current.hash != stored.hash;
    }

    /** update_file_metadata */
    method UpdateFileMetadata(path: string, f: FileState, digest: seq<byte> -> string)
      requires Valid()
      modifies this
      ensures Valid()
      ensures Snapshot() == RecordFile(old(Snapshot()), path, f, digest)
    {
      processed := processed[path := FileMetadata(f, digest)];
      SaveProcessedFiles();
    }
  }
}
