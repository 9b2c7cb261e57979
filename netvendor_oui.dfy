/**
 * NetVendor.py's OUIManager: an in-memory vendor cache keyed by OUI, a set
 * of OUIs whose lookup failed, records of processed input files, and a
 * rotation over two rate-limited HTTP lookup services. The class keeps its
 * state in fields; each operation is specified by a function on a snapshot
 * of that state, and the lemmas here are about those functions.
 */
module NetVendorOui {
  import opened Common
  import opened Text
  import opened Dicts
  import opened NetVendorOuiSpec

  /** The manager's state, together with every image written to its three JSON files. */
  datatype Manager = Manager(
    cache: Dict<string>,
    failed: set<string>,
    processed: map<string, FileMeta>,
    pending: nat,
    rotation: Probe,
    cacheWrites: seq<Dict<string>>,
    failedWrites: seq<set<string>>,
    processedWrites: seq<map<string, FileMeta>>)

  /** What every operation keeps: a service to call, the cursor on one of them, non-negative limits, and distinct, normalised cache keys. */
  predicate Inv(m: Manager)
  {
    |m.rotation.services| >= 1 && ProbeOk(m.rotation) && LimitsOk(m.rotation)
    && DistinctKeys(m.cache) && forall k :: k in Keys(m.cache) ==> NormalizeMac(k) == k
  }

  /** load_failed_lookups: the stored list as a set, or empty. */
  function LoadedFailed(stored: Stored<seq<string>>): set<string>
  {
    match stored
    case Parsed(xs) => set x | x in xs
    case _ => {}
  }

  /** load_processed_files: the stored records, or none. */
  function LoadedProcessed(stored: Stored<map<string, FileMeta>>): map<string, FileMeta>
  {
    match stored
    case Parsed(recs) => recs
    case _ => map[]
  }

  /** __init__ followed by the three loads; nothing is written. */
  function Init(storedCache: Stored<Dict<string>>, storedFailed: Stored<seq<string>>,
                storedProcessed: Stored<map<string, FileMeta>>, now: real): Manager
  {
    Manager(LoadedCache(storedCache), LoadedFailed(storedFailed), LoadedProcessed(storedProcessed), 0,
            Probe(DefaultServices, 0, now, 0), [], [], [])
  }

  /** A new manager satisfies the invariant; missing or unreadable files give an empty state. */
  lemma InitValid(storedCache: Stored<Dict<string>>, storedFailed: Stored<seq<string>>,
                  storedProcessed: Stored<map<string, FileMeta>>, now: real)
    ensures Inv(Init(storedCache, storedFailed, storedProcessed, now))
    ensures !storedCache.Parsed? ==> Init(storedCache, storedFailed, storedProcessed, now).cache == []
    ensures !storedFailed.Parsed? ==> Init(storedCache, storedFailed, storedProcessed, now).failed == {}
    ensures !storedProcessed.Parsed? ==> Init(storedCache, storedFailed, storedProcessed, now).processed == map[]
  {
    LoadedCacheKeys(storedCache);
  }

  /**
   * Time passing between two calls on the manager: time.time() now reads
   * now, which is no earlier than the clock.
   */
  function Elapse(m: Manager, now: real): (r: Manager)
    requires now >= m.rotation.clock
    ensures r.rotation.clock == now
  {
    m.(rotation := m.rotation.(clock := now))
  }

  /** Waiting keeps the invariant and moves nothing but the clock forward. */
  lemma ElapseValid(m: Manager, now: real)
    requires Inv(m) && now >= m.rotation.clock
    ensures Inv(Elapse(m, now)) && NoEarlier(m.rotation, Elapse(m, now).rotation)
    ensures Elapse(m, now).(rotation := m.rotation) == m
  {
  }

  /** save_cache(force) */
  function SaveCache(m: Manager, force: bool): (r: Manager)
  {
    m.(pending := PendingAfter(m.pending, force),
       cacheWrites := if SaveWrites(m.pending, force) then m.cacheWrites + [UniqueByValue(m.cache)] else m.cacheWrites)
  }

  /** failed_lookups.add(oui) followed by save_failed_lookups() */
  function AddFailed(m: Manager, oui: string): Manager
  {
    m.(failed := m.failed + {oui}, failedWrites := m.failedWrites + [m.failed + {oui}])
  }

  /** The state after get_vendor, what it returned, and how many requests it made. */
  datatype Answer = Answer(after: Manager, vendor: string, requests: nat)

  /** The vendor get_vendor returns without any request, or None when it must ask the services. */
  function Known(m: Manager, mac: string): Option<string>
  {
    if !ValidMac(mac) then Some("Unknown")
    else
      var oui := NormalizeMac(mac);
      if oui in Keys(m.cache) then Get(m.cache, oui)
      else if oui in m.failed then Some("Unknown")
      else None
  }

  /** get_vendor(mac), with replies[k] the outcome of its k-th request. */
  function GetVendor(m: Manager, mac: string, replies: seq<Reply>): Answer
    requires Inv(m)
  {
    match Known(m, mac)
    case Some(v) => Answer(m, v, 0)
    case None =>
      var p := m.rotation;
      AfterLookup(m, NormalizeMac(mac), Run(p, replies, p.cursor, 0, 2 * |p.services|))
  }

  lemma PutNormalised(cache: Dict<string>, oui: string, v: string)
    requires DistinctKeys(cache) && (forall k :: k in Keys(cache) ==> NormalizeMac(k) == k) && NormalizeMac(oui) == oui
    ensures DistinctKeys(Put(cache, oui, v)) && forall k :: k in Keys(Put(cache, oui, v)) ==> NormalizeMac(k) == k
  {
    PutDistinct(cache, oui, v);
  }

  /** The state and answer of get_vendor when it reaches the services, as a function of the rotation's outcome. */
  function AfterLookup(m: Manager, oui: string, o: Outcome): Answer
  {
    match o.end
    case Hit(v) => Answer(SaveCache(m.(rotation := o.probe, cache := Put(m.cache, oui, v)), false), v, o.attempts)
    case _ => Answer(AddFailed(m.(rotation := o.probe), oui), "Unknown", o.attempts)
  }

  /** The answer of a lookup does not depend on the rotation state it started from, only on the outcome's. */
  lemma AfterLookupRotation(m: Manager, p: Probe, oui: string, o: Outcome)
    ensures AfterLookup(m.(rotation := p), oui, o) == AfterLookup(m, oui, o)
  {
  }

  /** get_vendor keeps the invariant. */
  lemma GetVendorValid(m: Manager, mac: string, replies: seq<Reply>)
    requires Inv(m)
    ensures Inv(GetVendor(m, mac, replies).after)
  {
    if Known(m, mac).None? {
      var p := m.rotation;
      RunMonotone(p, replies, p.cursor, 0, 2 * |p.services|);
      var oui := NormalizeMac(mac);
      NormalizeIdempotent(mac);
      var o := Run(p, replies, p.cursor, 0, 2 * |p.services|);
      if o.end.Hit? {
        PutNormalised(m.cache, oui, o.end.vendor);
      }
    }
  }

  /**
   * get_vendor makes no request exactly when the MAC is invalid, its OUI is
   * cached or its OUI failed before; it then changes nothing and answers
   * "Unknown" or the cached vendor. Otherwise it makes between one and
   * 2 * len(api_services) requests.
   */
  lemma GetVendorRequests(m: Manager, mac: string, replies: seq<Reply>)
    requires Inv(m)
    ensures var a := GetVendor(m, mac, replies);
      (a.requests == 0 <==> Known(m, mac).Some?)
      && a.requests <= 2 * |m.rotation.services|
      && (Known(m, mac).Some? ==> a.after == m && a.vendor == Known(m, mac).value)
  {
  }

  /** Known answers: "Unknown" for an invalid MAC or a failed OUI, the cached vendor otherwise. */
  lemma KnownAnswers(m: Manager, mac: string)
    ensures !ValidMac(mac) ==> Known(m, mac) == Some("Unknown")
    ensures ValidMac(mac) && NormalizeMac(mac) in Keys(m.cache) ==> Known(m, mac) == Get(m.cache, NormalizeMac(mac)) && Known(m, mac).Some?
    ensures ValidMac(mac) && NormalizeMac(mac) !in Keys(m.cache) && NormalizeMac(mac) in m.failed ==> Known(m, mac) == Some("Unknown")
  {
  }

  /**
   * A lookup that reaches the services either caches the vendor of the
   * first 200 that names one and returns it, or records the OUI as failed,
   * writes the failed set and returns "Unknown".
   */
  lemma GetVendorMiss(m: Manager, mac: string, replies: seq<Reply>)
    requires Inv(m) && Known(m, mac).None?
    ensures var a := GetVendor(m, mac, replies);
      var oui := NormalizeMac(mac);
      var p := m.rotation;
      var o := Run(p, replies, p.cursor, 0, 2 * |p.services|);
      a.after.rotation == o.probe && a.requests == o.attempts
      && (o.end.Hit? ==>
            a.vendor == o.end.vendor && a.vendor != "" && a.vendor != "Unknown"
            && a.after.cache == Put(m.cache, oui, a.vendor) && a.after.failed == m.failed
            && a.after.pending == PendingAfter(m.pending, false))
      && (!o.end.Hit? ==>
            a.vendor == "Unknown" && a.after.cache == m.cache
            && a.after.failed == m.failed + {oui} && a.after.failedWrites == m.failedWrites + [a.after.failed])
  {
    var p := m.rotation;
    RunEnds(p, replies, p.cursor, 0, 2 * |p.services|);
  }

  /** Asking again for the same MAC makes no request and gives the same answer: the first call cached the vendor or recorded the failure. */
  lemma GetVendorRemembers(m: Manager, mac: string, replies: seq<Reply>, again: seq<Reply>)
    requires Inv(m)
    ensures var a := GetVendor(m, mac, replies);
      Inv(a.after) && GetVendor(a.after, mac, again) == Answer(a.after, a.vendor, 0)
  {
    GetVendorValid(m, mac, replies);
    var a := GetVendor(m, mac, replies);
    if Known(m, mac).None? {
      var oui := NormalizeMac(mac);
      GetVendorMiss(m, mac, replies);
      if a.after.failed == m.failed + {oui} {
        assert Known(a.after, mac) == Some("Unknown");
      } else {
        PutGet(m.cache, oui, a.vendor, oui);
        assert Get(a.after.cache, oui) == Some(a.vendor);
      }
    }
  }

  /** Any two spellings of one OUI get the same answer. */
  lemma SameOuiSameAnswer(m: Manager, s: string, t: string, replies: seq<Reply>)
    requires Inv(m)
    requires Remove(Lower(s), MacSeparators) == Remove(Lower(t), MacSeparators)
    ensures GetVendor(m, s, replies) == GetVendor(m, t, replies)
  {
    SameKey(s, t);
  }

  // ---------------------------------------------------------------------
  // batch_lookup_vendors
  // ---------------------------------------------------------------------

  /** The first pass: answers for the MACs that need no request, and the rest in input order. */
  datatype Pass = Pass(results: Dict<string>, unknown: seq<string>)

  function FirstPass(m: Manager, macs: seq<string>): Pass
  {
    if macs == [] then Pass([], [])
    else
      var p := FirstPass(m, macs[..|macs| - 1]);
      var mac := macs[|macs| - 1];
      match Known(m, mac)
      case Some(v) => Pass(Put(p.results, mac, v), p.unknown)
      case None => Pass(p.results, p.unknown + [mac])
  }

  /** The state after a batch and the vendor it found for each MAC. */
  datatype Batched = Batched(after: Manager, results: Dict<string>)

  /** The replies the i-th request sequence of a batch sees; none are given past the end. */
  function RepliesFor(replies: seq<seq<Reply>>, i: nat): seq<Reply>
  {
    if i < |replies| then replies[i] else []
  }

  /** The second pass from the i-th remaining MAC on: get_vendor on each in turn. */
  function LookupFrom(m: Manager, results: Dict<string>, unknown: seq<string>, replies: seq<seq<Reply>>, i: nat): (r: Batched)
    requires Inv(m)
    ensures Inv(r.after)
    decreases |unknown| - i
  {
    if i >= |unknown| then Batched(m, results)
    else
      var a := GetVendor(m, unknown[i], RepliesFor(replies, i));
      GetVendorValid(m, unknown[i], RepliesFor(replies, i));
      LookupFrom(a.after, Put(results, unknown[i], a.vendor), unknown, replies, i + 1)
  }

  /** batch_lookup_vendors(macs, progress), with hasProgress saying whether a progress bar was passed. */
  function BatchLookup(m: Manager, macs: seq<string>, hasProgress: bool, replies: seq<seq<Reply>>): Batched
    requires Inv(m)
  {
    var p := FirstPass(m, macs);
    if p.unknown != [] && hasProgress then LookupFrom(m, p.results, p.unknown, replies, 0) else Batched(m, p.results)
  }

  lemma FirstPassSnoc(m: Manager, q: seq<string>, mac: string)
    ensures var p := FirstPass(m, q);
      FirstPass(m, q + [mac]) == match Known(m, mac)
        case Some(v) => Pass(Put(p.results, mac, v), p.unknown)
        case None => Pass(p.results, p.unknown + [mac])
  {
    assert (q + [mac])[..|q|] == q;
  }

  /** The first pass answers exactly the MACs with a known answer, and defers exactly the others. */
  lemma {:induction false} FirstPassSpec(m: Manager, macs: seq<string>)
    ensures var p := FirstPass(m, macs);
      (forall mac :: Get(p.results, mac) == if mac in macs then Known(m, mac) else None)
      && (forall mac :: mac in p.unknown <==> mac in macs && Known(m, mac).None?)
  {
    if macs != [] {
      var q := macs[..|macs| - 1];
      var mac := macs[|macs| - 1];
      FirstPassSpec(m, q);
      var p := FirstPass(m, q);
      FrontLast(macs);
      forall x ensures Get(FirstPass(m, macs).results, x) == if x in macs then Known(m, x) else None {
        if Known(m, mac).Some? {
          PutGet(p.results, mac, Known(m, mac).value, x);
        }
      }
    }
  }

  /** Without a progress bar no request is made and the MACs that would need one are missing from the result. */
  lemma BatchWithoutProgress(m: Manager, macs: seq<string>, replies: seq<seq<Reply>>)
    requires Inv(m)
    ensures var r := BatchLookup(m, macs, false, replies);
      r.after == m && forall mac :: Get(r.results, mac) == if mac in macs then Known(m, mac) else None
  {
    FirstPassSpec(m, macs);
  }

  lemma PutKeys(d: Dict<string>, x: string, v: string)
    ensures forall k :: k in Keys(Put(d, x, v)) <==> k in Keys(d) || k == x
  {
  }

  lemma SuffixMembers(xs: seq<string>, i: nat)
    requires i < |xs|
    ensures forall k :: k in xs[i..] <==> k == xs[i] || k in xs[i + 1..]
  {
    assert xs[i..] == [xs[i]] + xs[i + 1..];
  }

  /** One step of the second pass: the state after the i-th lookup and the answer it adds. */
  lemma LookupStep(m: Manager, results: Dict<string>, unknown: seq<string>, replies: seq<seq<Reply>>, i: nat)
    requires Inv(m) && i < |unknown|
    ensures var a := GetVendor(m, unknown[i], RepliesFor(replies, i));
      Inv(a.after)
      && LookupFrom(m, results, unknown, replies, i) == LookupFrom(a.after, Put(results, unknown[i], a.vendor), unknown, replies, i + 1)
  {
    GetVendorValid(m, unknown[i], RepliesFor(replies, i));
  }

  /** The second pass keeps every answer it was given and adds one for every MAC it looks up. */
  lemma {:induction false} LookupFromKeys(m: Manager, results: Dict<string>, unknown: seq<string>, replies: seq<seq<Reply>>, i: nat)
    requires Inv(m) && i <= |unknown|
    ensures forall k :: k in Keys(LookupFrom(m, results, unknown, replies, i).results) <==> k in Keys(results) || k in unknown[i..]
    decreases |unknown| - i
  {
    if i < |unknown| {
      var a := GetVendor(m, unknown[i], RepliesFor(replies, i));
      LookupStep(m, results, unknown, replies, i);
      LookupFromKeys(a.after, Put(results, unknown[i], a.vendor), unknown, replies, i + 1);
      PutKeys(results, unknown[i], a.vendor);
      SuffixMembers(unknown, i);
    }
  }

  /** The state before the i-th lookup of the second pass: the earlier lookups applied in turn. */
  function StateBefore(m: Manager, unknown: seq<string>, replies: seq<seq<Reply>>, i: nat): (s: Manager)
    requires Inv(m) && i <= |unknown|
    ensures Inv(s)
  {
    if i == 0 then m
    else
      var s := StateBefore(m, unknown, replies, i - 1);
      GetVendorValid(s, unknown[i - 1], RepliesFor(replies, i - 1));
      GetVendor(s, unknown[i - 1], RepliesFor(replies, i - 1)).after
  }

  /** What get_vendor answers for the i-th remaining MAC, in the state the earlier lookups left. */
  function SecondPassAnswer(m: Manager, unknown: seq<string>, replies: seq<seq<Reply>>, i: nat): string
    requires Inv(m) && i < |unknown|
  {
    GetVendor(StateBefore(m, unknown, replies, i), unknown[i], RepliesFor(replies, i)).vendor
  }

  /** One lookup of the second pass, in the state the earlier ones left. */
  lemma SecondPassStep(m: Manager, results: Dict<string>, unknown: seq<string>, replies: seq<seq<Reply>>, i: nat)
    requires Inv(m) && i < |unknown|
    ensures LookupFrom(StateBefore(m, unknown, replies, i), results, unknown, replies, i)
         == LookupFrom(StateBefore(m, unknown, replies, i + 1), Put(results, unknown[i], SecondPassAnswer(m, unknown, replies, i)),
                       unknown, replies, i + 1)
  {
    LookupStep(StateBefore(m, unknown, replies, i), results, unknown, replies, i);
  }

  /** The second pass ends in the state all its lookups leave. */
  lemma {:induction false} LookupFromAfter(m: Manager, results: Dict<string>, unknown: seq<string>, replies: seq<seq<Reply>>, i: nat)
    requires Inv(m) && i <= |unknown|
    ensures LookupFrom(StateBefore(m, unknown, replies, i), results, unknown, replies, i).after
         == StateBefore(m, unknown, replies, |unknown|)
    decreases |unknown| - i
  {
    if i < |unknown| {
      SecondPassStep(m, results, unknown, replies, i);
      LookupFromAfter(m, Put(results, unknown[i], SecondPassAnswer(m, unknown, replies, i)), unknown, replies, i + 1);
    }
  }

  /** The second pass leaves the answer of a MAC it does not look up as it was. */
  lemma {:induction false} LookupFromOthers(m: Manager, results: Dict<string>, unknown: seq<string>, replies: seq<seq<Reply>>,
                                            i: nat, k: string)
    requires Inv(m) && i <= |unknown| && k !in unknown[i..]
    ensures Get(LookupFrom(StateBefore(m, unknown, replies, i), results, unknown, replies, i).results, k) == Get(results, k)
    decreases |unknown| - i
  {
    if i < |unknown| {
      var v := SecondPassAnswer(m, unknown, replies, i);
      SecondPassStep(m, results, unknown, replies, i);
      SuffixMembers(unknown, i);
      LookupFromOthers(m, Put(results, unknown[i], v), unknown, replies, i + 1, k);
      PutGet(results, unknown[i], v, k);
    }
  }

  /** The second pass maps a MAC it looks up to what its last lookup answered. */
  lemma {:induction false} LookupFromLast(m: Manager, results: Dict<string>, unknown: seq<string>, replies: seq<seq<Reply>>,
                                          i: nat, j: nat)
    requires Inv(m) && i <= j < |unknown| && unknown[j] !in unknown[j + 1..]
    ensures Get(LookupFrom(StateBefore(m, unknown, replies, i), results, unknown, replies, i).results, unknown[j])
         == Some(SecondPassAnswer(m, unknown, replies, j))
    decreases |unknown| - i
  {
    var v := SecondPassAnswer(m, unknown, replies, i);
    SecondPassStep(m, results, unknown, replies, i);
    if i < j {
      LookupFromLast(m, Put(results, unknown[i], v), unknown, replies, i + 1, j);
    } else {
      LookupFromOthers(m, Put(results, unknown[i], v), unknown, replies, i + 1, unknown[i]);
      PutGet(results, unknown[i], v, unknown[i]);
    }
  }

  /**
   * With a progress bar every MAC gets an answer: the MACs the first pass
   * answered keep that answer, and every other MAC holds what get_vendor
   * answered for it, in the state the lookups before it left (for a MAC
   * listed twice, its later lookup).
   */
  lemma BatchWithProgress(m: Manager, macs: seq<string>, replies: seq<seq<Reply>>)
    requires Inv(m)
    ensures var r := BatchLookup(m, macs, true, replies); var p := FirstPass(m, macs);
      (forall mac :: mac in Keys(r.results) <==> mac in macs)
      && (forall mac :: mac in macs && Known(m, mac).Some? ==> Get(r.results, mac) == Known(m, mac))
      && (forall j :: 0 <= j < |p.unknown| && p.unknown[j] !in p.unknown[j + 1..] ==>
            Get(r.results, p.unknown[j]) == Some(SecondPassAnswer(m, p.unknown, replies, j)))
      && r.after == StateBefore(m, p.unknown, replies, |p.unknown|)
  {
    FirstPassSpec(m, macs);
    var p := FirstPass(m, macs);
    var r := BatchLookup(m, macs, true, replies);
    forall mac ensures mac in Keys(p.results) <==> mac in macs && Known(m, mac).Some? {
      assert Get(p.results, mac).Some? <==> mac in Keys(p.results);
    }
    if p.unknown != [] {
      LookupFromKeys(m, p.results, p.unknown, replies, 0);
      LookupFromAfter(m, p.results, p.unknown, replies, 0);
      assert p.unknown[0..] == p.unknown;
      forall mac | mac in macs && Known(m, mac).Some? ensures Get(r.results, mac) == Known(m, mac) {
        LookupFromOthers(m, p.results, p.unknown, replies, 0, mac);
      }
      forall j | 0 <= j < |p.unknown| && p.unknown[j] !in p.unknown[j + 1..]
        ensures Get(r.results, p.unknown[j]) == Some(SecondPassAnswer(m, p.unknown, replies, j))
      {
        LookupFromLast(m, p.results, p.unknown, replies, 0, j);
      }
    }
  }

  // ---------------------------------------------------------------------
  // cleanup_cache and the file records
  // ---------------------------------------------------------------------

  /** cleanup_cache: the cleaned cache goes through an unforced save; the result is (cleaned_count, duplicates_removed). */
  datatype Cleaned = Cleaned(after: Manager, cleanedCount: int, duplicatesRemoved: int)

  function Cleanup(m: Manager): Cleaned
  {
    var c := CleanCache(m.cache);
    Cleaned(SaveCache(m.(cache := c), false), |c|, |m.cache| - |c|)
  }

  lemma CleanupResult(m: Manager, after: Manager)
    requires after == SaveCache(m.(cache := CleanCache(m.cache)), false)
    ensures Cleanup(m) == Cleaned(after, |after.cache|, |m.cache| - |after.cache|)
  {
  }

  /** Cleaning keeps the invariant, never grows the cache, and the two counts add up to the original size. */
  lemma CleanupSpec(m: Manager)
    requires Inv(m)
    ensures var r := Cleanup(m);
      Inv(r.after) && r.duplicatesRemoved >= 0 && r.cleanedCount + r.duplicatesRemoved == |m.cache|
      && forall k :: k in Keys(r.after.cache) ==> ValidKey(k) && |k| == 6
  {
    var n := NormalizeKeys(m.cache);
    NormalizeKeysSpec(m.cache);
    var c := StandardizeAll(n);
    assert Keys(c) == Keys(n);
    forall k | k in Keys(c) ensures ValidKey(k) && |k| == 6 && NormalizeMac(k) == k {
      var i :| 0 <= i < |c| && Keys(c)[i] == k;
      assert Keys(n)[i] == n[i].0;
    }
    assert DistinctKeys(c) by {
      forall i, j | 0 <= i < j < |c| ensures c[i].0 != c[j].0 {
        assert c[i].0 == n[i].0 && c[j].0 == n[j].0;
      }
    }
  }

  /** update_file_metadata: record the file and write the records. */
  function UpdateFileMetadata(m: Manager, path: string, f: FileState, digest: seq<byte> -> string): Manager
  {
    var recs := m.processed[path := Metadata(f, digest)];
    m.(processed := recs, processedWrites := m.processedWrites + [recs])
  }

  /** Right after update_file_metadata the same file reads as unchanged, and the write holds the new record. */
  lemma UpdateThenUnchanged(m: Manager, path: string, f: FileState, digest: seq<byte> -> string)
    ensures var m1 := UpdateFileMetadata(m, path, f, digest);
      !Changed(m1.processed, path, f, digest) && m1.processedWrites[|m1.processedWrites| - 1][path] == Metadata(f, digest)
  {
    RecordedUnchanged(m.processed, path, f, digest);
  }
}
