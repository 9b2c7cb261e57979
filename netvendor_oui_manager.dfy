/**
 * The OUIManager object of NetVendor.py. Its methods update the fields in
 * place as the original does, and each is proved to leave the object in
 * the state the matching function of module NetVendorOui describes.
 */
module NetVendorOuiManager {
  import opened Common
  import opened Text
  import opened Dicts
  import opened NetVendorOuiSpec
  import NetVendorOui

  class OuiManager {
    var cache: Dict<string>
    var failed: set<string>
    var processed: map<string, FileMeta>
    var pendingSaves: nat
    var services: seq<Service>
    var cursor: nat
    /** time.time(): advanced by every sleep the manager takes, and by Elapse for the time that passes between calls. */
    var clock: real
    /** How many one-second pauses the rotation has taken. */
    var pauses: nat
    /** Every image written to oui_cache.json, failed_lookups.json and processed_files.json, oldest first. */
    var cacheWrites: seq<Dict<string>>
    var failedWrites: seq<set<string>>
    var processedWrites: seq<map<string, FileMeta>>

    function Rotation(): Probe
      reads this
    {
      Probe(services, cursor, clock, pauses)
    }

    function Snapshot(): NetVendorOui.Manager
      reads this
    {
      NetVendorOui.Manager(cache, failed, processed, pendingSaves, Rotation(), cacheWrites, failedWrites, processedWrites)
    }

    predicate Valid()
      reads this
    {
      NetVendorOui.Inv(Snapshot())
    }

    /** __init__: default services, then load_cache, load_failed_lookups and load_processed_files. */
    constructor (storedCache: Stored<Dict<string>>, storedFailed: Stored<seq<string>>,
                 storedProcessed: Stored<map<string, FileMeta>>, now: real)
      ensures Valid() && Snapshot() == NetVendorOui.Init(storedCache, storedFailed, storedProcessed, now)
    {
      cache := [];
      failed := {};
      processed := map[];
      pendingSaves := 0;
      services := DefaultServices;
      cursor := 0;
      clock := now;
      pauses := 0;
      cacheWrites := [];
      failedWrites := [];
      processedWrites := [];
      new;
      LoadCache(storedCache);
      LoadFailedLookups(storedFailed);
      LoadProcessedFiles(storedProcessed);
      NetVendorOui.InitValid(storedCache, storedFailed, storedProcessed, now);
    }

    method LoadCache(stored: Stored<Dict<string>>)
      modifies this
      ensures Snapshot() == old(Snapshot()).(cache := if stored.Missing? then old(cache) else LoadedCache(stored))
    {
      match stored {
        case Missing =>
        case Corrupt => cache := [];
        case Parsed(_) => cache := LoadedCache(stored);
      }
    }

    method LoadFailedLookups(stored: Stored<seq<string>>)
      modifies this
      ensures Snapshot() == old(Snapshot()).(failed := if stored.Missing? then old(failed) else NetVendorOui.LoadedFailed(stored))
    {
      match stored {
        case Missing =>
        case Corrupt => failed := {};
        case Parsed(xs) => failed := set x | x in xs;
      }
    }

    method LoadProcessedFiles(stored: Stored<map<string, FileMeta>>)
      modifies this
      ensures Snapshot() == old(Snapshot()).(processed := if stored.Missing? then old(processed) else NetVendorOui.LoadedProcessed(stored))
    {
      match stored {
        case Missing =>
        case Corrupt => processed := map[];
        case Parsed(recs) => processed := recs;
      }
    }

    /** save_cache: count unforced calls up to fifty, otherwise write the cache keeping the first key of each vendor. */
    method SaveCache(force: bool)
      modifies this
      ensures Snapshot() == NetVendorOui.SaveCache(old(Snapshot()), force)
    {
      if !force && pendingSaves < MaxPendingSaves {
        pendingSaves := pendingSaves + 1;
        return;
      }
      pendingSaves := 0;
      var unique := UniqueCache();
      cacheWrites := cacheWrites + [unique];
    }

    /** The image save_cache writes: each entry kept only when its vendor is not yet among the kept values. */
    method UniqueCache() returns (unique: Dict<string>)
      ensures unique == UniqueByValue(cache)
    {
      unique := [];
      var i := 0;
      while i < |cache|
        invariant 0 <= i <= |cache|
        invariant unique == UniqueByValue(cache[..i])
      {
        assert cache[..i + 1][..i] == cache[..i];
        var (mac, vendor) := cache[i];
        if vendor !in Values(unique) {
          unique := Put(unique, mac, vendor);
        }
        i := i + 1;
      }
      assert cache[..|cache|] == cache;
    }

    method SaveFailedLookups()
      modifies this
      ensures Snapshot() == old(Snapshot()).(failedWrites := old(failedWrites) + [failed])
    {
      failedWrites := failedWrites + [failed];
    }

    method SaveProcessedFiles()
      modifies this
      ensures Snapshot() == old(Snapshot()).(processedWrites := old(processedWrites) + [processed])
    {
      processedWrites := processedWrites + [processed];
    }

    /** Time passing between two calls on the object: time.time() now reads now. */
    method Elapse(now: real)
      requires Valid() && now >= clock
      modifies this
      ensures Valid() && Snapshot() == NetVendorOui.Elapse(old(Snapshot()), now)
    {
      NetVendorOui.ElapseValid(Snapshot(), now);
      clock := now;
    }

    /** _rate_limit: sleep until the service's rate limit has passed since its last call, then stamp the call. */
    method RateLimit()
      requires cursor < |services|
      modifies this
      ensures Rotation() == Stamp(old(Rotation()))
      ensures Snapshot() == old(Snapshot()).(rotation := Rotation())
    {
      var service := services[cursor];
      var now := clock;
      if now - service.lastCall < service.rateLimit {
        clock := now + (service.rateLimit - (now - service.lastCall));
      }
      services := services[cursor := service.(lastCall := clock)];
    }

    /** get_vendor(mac), the k-th request of the rotation answered by replies[k]. */
    method GetVendor(mac: string, replies: seq<Reply>) returns (vendor: string)
      requires Valid()
      modifies this
      ensures Valid()
      ensures var a := NetVendorOui.GetVendor(old(Snapshot()), mac, replies);
        Snapshot() == a.after && vendor == a.vendor
    {
      NetVendorOui.GetVendorValid(Snapshot(), mac, replies);
      if !ValidMac(mac) {
        return "Unknown";
      }
      var oui := NormalizeMac(mac);
      if oui in Keys(cache) {
        return Get(cache, oui).value;
      }
      if oui in failed {
        return "Unknown";
      }
      vendor := RotateServices(oui, replies);
    }

    /** The while loop of get_vendor for an OUI that is neither cached nor failed: try the services in turn, at most two rounds. */
    method RotateServices(oui: string, replies: seq<Reply>) returns (vendor: string)
      requires ProbeOk(Rotation())
      modifies this
      ensures var m := old(Snapshot());
        var a := NetVendorOui.AfterLookup(m, oui, Run(m.rotation, replies, m.rotation.cursor, 0, 2 * |m.rotation.services|));
        Snapshot() == a.after && vendor == a.vendor
    {
      ghost var m0 := Snapshot();
      var original := cursor;
      var retries := 0;
      var maxRetries := |services| * 2;
      ghost var goal := Run(Rotation(), replies, original, 0, maxRetries);
      while retries < maxRetries
        invariant 0 <= retries <= maxRetries && |services| * 2 == maxRetries && ProbeOk(Rotation())
        invariant Run(Rotation(), replies, original, retries, maxRetries) == goal
        invariant Snapshot() == old(Snapshot()).(rotation := Rotation())
      {
        ghost var before := Rotation();
        RunExits(before, replies, original, retries, maxRetries);
        var done;
        done, vendor := Attempt(oui, replies, retries, original);
        if done {
          ghost var r := ReplyAt(replies, retries);
          assert Outcome(Stamp(before), if r.NotFound? then Absent else Hit(r.vendor), retries + 1) == goal;
          NetVendorOui.AfterLookupRotation(m0, before, oui, goal);
          return;
        }
        RunStep(before, replies, original, retries, maxRetries);
        retries := retries + 1;
      }
      RunExits(Rotation(), replies, original, retries, maxRetries);
      assert goal == Outcome(Rotation(), GaveUp, maxRetries);
      RecordFailure(oui);
      return "Unknown";
    }

    /** One pass of that loop: call the current service, stop on a vendor or a 404, otherwise back off on 429 and move on. */
    method Attempt(oui: string, replies: seq<Reply>, k: nat, original: nat) returns (done: bool, vendor: string)
      requires ProbeOk(Rotation())
      modifies this
      ensures var r := ReplyAt(replies, k);
        done <==> Terminal(r)
      ensures var r := ReplyAt(replies, k);
        done ==>
          var end := if r.NotFound? then Absent else Hit(r.vendor);
          var a := NetVendorOui.AfterLookup(old(Snapshot()), oui, Outcome(Stamp(old(Rotation())), end, k + 1));
          Snapshot() == a.after && vendor == a.vendor
      ensures !done ==>
        Rotation() == Advance(Stamp(old(Rotation())), ReplyAt(replies, k), original)
        && Snapshot() == old(Snapshot()).(rotation := Rotation())
    {
      RateLimit();
      ghost var stamped := Rotation();
      var reply := ReplyAt(replies, k);
      match reply {
        case Success(v) =>
          if v != "" && v != "Unknown" {
            RecordVendor(oui, v);
            return true, v;
          }
        case TooManyRequests =>
          BackOff();
        case NotFound =>
          RecordFailure(oui);
          return true, "Unknown";
        case _ =>
      }
      NextService(original);
      ghost var next := Advance(stamped, reply, original);
      assert services == next.services && cursor == next.cursor;
      assert clock == next.clock && pauses == next.pauses;
      return false, "";
    }

    /** service['rate_limit'] *= 1.5 for the current service */
    method BackOff()
      requires ProbeOk(Rotation())
      modifies this
      ensures services == old(services)[old(cursor) := old(services)[old(cursor)].(rateLimit := old(services)[old(cursor)].rateLimit * 1.5)]
      ensures Snapshot() == old(Snapshot()).(rotation := Rotation()) && Rotation() == old(Rotation()).(services := services)
    {
      var service := services[cursor];
      services := services[cursor := service.(rateLimit := service.rateLimit * 1.5)];
    }

    /** Move to the next service, sleeping one second when the rotation is back where it started. */
    method NextService(original: nat)
      requires ProbeOk(Rotation())
      modifies this
      ensures |services| == |old(services)| && cursor == (old(cursor) + 1) % |old(services)|
      ensures (clock, pauses) == if cursor == original then (old(clock) + 1.0, old(pauses) + 1) else (old(clock), old(pauses))
      ensures Snapshot() == old(Snapshot()).(rotation := Rotation()) && services == old(services)
    {
      cursor := (cursor + 1) % |services|;
      if cursor == original {
        clock := clock + 1.0;
        pauses := pauses + 1;
      }
    }

    /** self.cache[oui] = vendor followed by save_cache() */
    method RecordVendor(oui: string, v: string)
      modifies this
      ensures Snapshot() == NetVendorOui.SaveCache(old(Snapshot()).(cache := Put(old(cache), oui, v)), false)
    {
      cache := Put(cache, oui, v);
      SaveCache(false);
    }

    /** self.failed_lookups.add(oui) followed by save_failed_lookups() */
    method RecordFailure(oui: string)
      modifies this
      ensures Snapshot() == NetVendorOui.AddFailed(old(Snapshot()), oui)
    {
      failed := failed + {oui};
      SaveFailedLookups();
    }

    /** batch_lookup_vendors(macs, progress); hasProgress says whether a progress bar was passed. */
    method BatchLookupVendors(macs: seq<string>, hasProgress: bool, replies: seq<seq<Reply>>) returns (results: Dict<string>)
      requires Valid()
      modifies this
      ensures Valid()
      ensures NetVendorOui.BatchLookup(old(Snapshot()), macs, hasProgress, replies) == NetVendorOui.Batched(Snapshot(), results)
    {
      var unknown;
      results, unknown := SortOutMacs(macs);
      if unknown != [] && hasProgress {
        ghost var goal := NetVendorOui.LookupFrom(Snapshot(), results, unknown, replies, 0);
        var j := 0;
        while j < |unknown|
          invariant 0 <= j <= |unknown| && Valid()
          invariant NetVendorOui.LookupFrom(Snapshot(), results, unknown, replies, j) == goal
        {
          var vendor := GetVendor(unknown[j], NetVendorOui.RepliesFor(replies, j));
          results := Put(results, unknown[j], vendor);
          j := j + 1;
        }
      }
    }

    /** The first loop of batch_lookup_vendors: answer the MACs that need no request, keep the rest in order. */
    method SortOutMacs(macs: seq<string>) returns (results: Dict<string>, unknown: seq<string>)
      ensures NetVendorOui.FirstPass(Snapshot(), macs) == NetVendorOui.Pass(results, unknown)
    {
      results := [];
      unknown := [];
      var i := 0;
      while i < |macs|
        invariant 0 <= i <= |macs|
        invariant NetVendorOui.Pass(results, unknown) == NetVendorOui.FirstPass(Snapshot(), macs[..i])
      {
        var mac := macs[i];
        SliceSnoc(macs, i);
        NetVendorOui.FirstPassSnoc(Snapshot(), macs[..i], mac);
        if !ValidMac(mac) {
          results := Put(results, mac, "Unknown");
        } else {
          var oui := NormalizeMac(mac);
          if oui in Keys(cache) {
            results := Put(results, mac, Get(cache, oui).value);
          } else if oui in failed {
            results := Put(results, mac, "Unknown");
          } else {
            unknown := unknown + [mac];
          }
        }
        i := i + 1;
      }
      assert macs[..|macs|] == macs;
    }

    /** cleanup_cache: normalise the keys, standardise the vendors, copy the entries, save; returns (cleaned_count, duplicates_removed). */
    method CleanupCache() returns (cleanedCount: int, duplicatesRemoved: int)
      requires Valid()
      modifies this
      ensures Valid()
      ensures NetVendorOui.Cleanup(old(Snapshot())) == NetVendorOui.Cleaned(Snapshot(), cleanedCount, duplicatesRemoved)
    {
      NetVendorOui.CleanupSpec(Snapshot());
      ghost var m0 := Snapshot();
      var originalCount := |cache|;
      var normalized := NormalizedCache();
      var standardized := StandardizeAll(normalized);
      NormalizeKeysSpec(cache);
      StandardizedDistinct(normalized);
      var unique := CopyEntries(standardized);
      cache := unique;
      assert unique == CleanCache(m0.cache);
      assert Snapshot() == m0.(cache := unique);
      SaveCache(false);
      assert Snapshot() == NetVendorOui.SaveCache(m0.(cache := unique), false);
      assert cache == unique;
      cleanedCount := |cache|;
      duplicatesRemoved := originalCount - cleanedCount;
      NetVendorOui.CleanupResult(m0, Snapshot());
    }

    /** Step 1 of cleanup_cache: every valid key normalised, a later entry overwriting an earlier one with the same key. */
    method NormalizedCache() returns (normalized: Dict<string>)
      ensures normalized == NormalizeKeys(cache)
    {
      normalized := [];
      var i := 0;
      while i < |cache|
        invariant 0 <= i <= |cache|
        invariant normalized == NormalizeKeys(cache[..i])
      {
        assert cache[..i + 1][..i] == cache[..i];
        var (mac, vendor) := cache[i];
        if ValidMac(mac) {
          normalized := Put(normalized, NormalizeMac(mac), vendor);
        }
        i := i + 1;
      }
      assert cache[..|cache|] == cache;
    }

    /** has_file_changed(path) for the file's current contents f, with md5 as digest. */
    method HasFileChanged(path: string, f: FileState, digest: seq<byte> -> string) returns (changed: bool)
      ensures changed <==> path !in processed || processed[path] != Metadata(f, digest)
    {
      var current := Metadata(f, digest);
      if path !in processed {
        return true;
      }
      var stored := processed[path];
      changed := current.size != stored.size || current.mtime != stored.mtime || current.hash != stored.hash;
    }

    /** update_file_metadata(path): record the file and write the records. */
    method UpdateFileMetadata(path: string, f: FileState, digest: seq<byte> -> string)
      modifies this
      ensures Snapshot() == NetVendorOui.UpdateFileMetadata(old(Snapshot()), path, f, digest)
    {
      processed := processed[path := Metadata(f, digest)];
      SaveProcessedFiles();
    }
  }

  /** Standardising vendors keeps the keys, so distinct keys stay distinct. */
  lemma StandardizedDistinct(n: Dict<string>)
    requires DistinctKeys(n)
    ensures DistinctKeys(StandardizeAll(n))
  {
    var c := StandardizeAll(n);
    forall i, j | 0 <= i < j < |c| ensures c[i].0 != c[j].0 {
      assert c[i].0 == n[i].0 && c[j].0 == n[j].0;
    }
  }

  /** Step 3 of cleanup_cache: unique_entries[mac] = vendor for every entry, in order; with distinct keys this is a copy. */
  method CopyEntries(d: Dict<string>) returns (unique: Dict<string>)
    requires DistinctKeys(d)
    ensures unique == d
  {
    unique := [];
    var k := 0;
    while k < |d|
      invariant 0 <= k <= |d|
      invariant unique == d[..k]
    {
      LastKeyFresh(d[..k + 1]);
      assert d[..k + 1][..k] == d[..k];
      PutAbsent(unique, d[k].0, d[k].1);
      unique := Put(unique, d[k].0, d[k].1);
      k := k + 1;
    }
    assert d[..|d|] == d;
  }
}
