/**
 * The value-level part of NetVendor.py's OUIManager: the OUI key of a MAC,
 * the retry loop of get_vendor as a function of the per-attempt replies,
 * the lazy cache write-back, the de-duplicated cache image, the cleanup
 * pass and the file-change fingerprint. The class in module NetVendorOui
 * is proved against these definitions.
 */
module NetVendorOuiSpec {
  import opened Common
  import opened Text
  import opened Dicts

  // ---------------------------------------------------------------------
  // _normalize_mac and _validate_mac
  // ---------------------------------------------------------------------

  /** re.sub(r'[.:-]', '', mac.upper())[:6] */
  function NormalizeMac(mac: string): (r: string)
    ensures |r| <= 6 && |r| <= |Remove(Upper(mac), MacSeparators)|
    ensures r == Remove(Upper(mac), MacSeparators)[..|r|]
  {
    Take(Remove(Upper(mac), MacSeparators), 6)
  }

  /** re.match(r'^[0-9A-F]{6}', key): the key starts with six upper-case hex digits. */
  predicate ValidKey(key: string)
  {
    |key| >= 6 && forall i :: 0 <= i < 6 ==> IsUpperHexDigit(key[i])
  }

  /** _validate_mac */
  predicate ValidMac(mac: string)
  {
    ValidKey(NormalizeMac(mac))
  }

  /** A key is exactly six upper-case hex digits when it is valid. */
  lemma ValidMacKey(mac: string)
    requires ValidMac(mac)
    ensures |NormalizeMac(mac)| == 6 && IsUppered(NormalizeMac(mac)) && Avoids(NormalizeMac(mac), MacSeparators)
  {
  }

  predicate IsUppered(s: string)
  {
    forall i :: 0 <= i < |s| ==> !('a' <= s[i] <= 'z')
  }

  predicate Avoids(s: string, cs: set<char>)
  {
    forall i :: 0 <= i < |s| ==> s[i] !in cs
  }

  lemma {:induction false} UpperFixed(s: string)
    requires IsUppered(s)
    ensures Upper(s) == s
  {
  }

  lemma {:induction false} RemoveAvoiding(s: string, cs: set<char>)
    requires Avoids(s, cs)
    ensures Remove(s, cs) == s
    decreases |s|
  {
    if s != [] {
      RemoveAvoiding(s[1..], cs);
    }
  }

  /** Normalising twice is normalising once. */
  lemma NormalizeIdempotent(mac: string)
    ensures NormalizeMac(NormalizeMac(mac)) == NormalizeMac(mac)
  {
    var k := NormalizeMac(mac);
    var r := Remove(Upper(mac), MacSeparators);
    assert IsUppered(r) by {
      forall i | 0 <= i < |r| ensures !('a' <= r[i] <= 'z') {
        RemoveFrom(Upper(mac), MacSeparators);
        assert r[i] in Upper(mac);
      }
    }
    assert IsUppered(k);
    UpperFixed(k);
    RemoveAvoiding(k, MacSeparators);
  }

  /** Upper-casing does not create or destroy separators. */
  lemma {:induction false} UpperRemoveCommute(s: string)
    ensures Remove(Upper(s), MacSeparators) == Upper(Remove(s, MacSeparators))
    decreases |s|
  {
    if s != [] {
      UpperRemoveCommute(s[1..]);
      assert Upper(s)[1..] == Upper(s[1..]);
      var head := if s[0] in MacSeparators then [] else [s[0]];
      UpperAppend(head, Remove(s[1..], MacSeparators));
    }
  }

  lemma UpperAppend(a: string, b: string)
    ensures Upper(a + b) == Upper(a) + Upper(b)
  {
  }

  lemma UpperOfLower(s: string)
    ensures Upper(Lower(s)) == Upper(s)
  {
  }

  /** MACs that differ only in separator style or letter case get the same key. */
  lemma SameKey(s: string, t: string)
    requires Remove(Lower(s), MacSeparators) == Remove(Lower(t), MacSeparators)
    ensures NormalizeMac(s) == NormalizeMac(t)
  {
    UpperRemoveCommute(Lower(s));
    UpperRemoveCommute(Lower(t));
    UpperOfLower(s);
    UpperOfLower(t);
  }

  // ---------------------------------------------------------------------
  // The retry loop of get_vendor
  // ---------------------------------------------------------------------

  /** One lookup service: its name, the seconds it wants between calls, and when it was last called. */
  datatype Service = Service(name: string, rateLimit: real, lastCall: real)

  /** macvendors (2 s) and maclookup (1 s), never called. */
  const DefaultServices: seq<Service> := [Service("macvendors", 2.0, 0.0), Service("maclookup", 1.0, 0.0)]

  /**
   * What one request attempt came back with: a 200 with the vendor text it
   * carried (the body, or the JSON "company" field), 429, 404, another
   * status, or an exception (a request or JSON decoding error).
   */
  datatype Reply = Success(vendor: string) | TooManyRequests | NotFound | OtherStatus | Failed

  /** The replies the services give, one per attempt; past the end every request fails. */
  function ReplyAt(replies: seq<Reply>, k: nat): Reply
  {
    if k < |replies| then replies[k] else Failed
  }

  /** A 200 that names a vendor ends the lookup. */
  predicate IsHit(r: Reply)
  {
    r.Success? && r.vendor != "" && r.vendor != "Unknown"
  }

  predicate Terminal(r: Reply)
  {
    IsHit(r) || r.NotFound?
  }

  /** The rotation state: the services, the cursor, the clock and how many one-second pauses were taken. */
  datatype Probe = Probe(services: seq<Service>, cursor: nat, clock: real, pauses: nat)

  predicate ProbeOk(p: Probe)
  {
    p.cursor < |p.services|
  }

  /** _rate_limit: the time of the call, after sleeping until rate_limit has passed since last_call. */
  function CallTime(s: Service, now: real): (t: real)
    ensures t >= now && t - s.lastCall >= s.rateLimit
  {
    if now - s.lastCall < s.rateLimit then s.lastCall + s.rateLimit else now
  }

  /** The probe once the current service is called: its last_call and the clock move to the call time. */
  function Stamp(p: Probe): (q: Probe)
    requires ProbeOk(p)
    ensures ProbeOk(q) && |q.services| == |p.services| && q.cursor == p.cursor
  {
    var s := p.services[p.cursor];
    var t := CallTime(s, p.clock);
    p.(services := p.services[p.cursor := s.(lastCall := t)], clock := t)
  }

  /** After a non-terminal attempt: a 429 multiplies the service's limit by 1.5, the cursor moves on, and a full turn costs a one-second pause. */
  function Advance(p: Probe, r: Reply, start: nat): (q: Probe)
    requires ProbeOk(p)
    ensures ProbeOk(q) && |q.services| == |p.services|
  {
    var s := p.services[p.cursor];
    var s' := if r.TooManyRequests? then s.(rateLimit := s.rateLimit * 1.5) else s;
    var c := (p.cursor + 1) % |p.services|;
    var q := p.(services := p.services[p.cursor := s'], cursor := c);
    if c == start then q.(clock := q.clock + 1.0, pauses := q.pauses + 1) else q
  }

  /** How a lookup ended: a vendor, a 404, or the retry budget spent. */
  datatype LookupEnd = Hit(vendor: string) | Absent | GaveUp

  datatype Outcome = Outcome(probe: Probe, end: LookupEnd, attempts: nat)

  /** The while loop of get_vendor from attempt k on, with budget max. */
  function Run(p: Probe, replies: seq<Reply>, start: nat, k: nat, max: nat): (o: Outcome)
    requires ProbeOk(p)
    ensures ProbeOk(o.probe) && |o.probe.services| == |p.services|
    ensures k <= max ==> k <= o.attempts <= max
    ensures k < max ==> o.attempts > k
    ensures o.end.GaveUp? <==> k >= max || (o.attempts == max && !Terminal(ReplyAt(replies, max - 1)))
    decreases max - k
  {
    if k >= max then Outcome(p, GaveUp, k)
    else
      var q := Stamp(p);
      var r := ReplyAt(replies, k);
      if IsHit(r) then Outcome(q, Hit(r.vendor), k + 1)
      else if r.NotFound? then Outcome(q, Absent, k + 1)
      else Run(Advance(q, r, start), replies, start, k + 1, max)
  }

  /** A non-terminal attempt hands the rest of the loop to the advanced probe. */
  lemma RunStep(p: Probe, replies: seq<Reply>, start: nat, k: nat, max: nat)
    requires ProbeOk(p) && k < max && !Terminal(ReplyAt(replies, k))
    ensures Run(p, replies, start, k, max) == Run(Advance(Stamp(p), ReplyAt(replies, k), start), replies, start, k + 1, max)
  {
  }

  /** The loop's three exits: a vendor, a 404, or the budget spent. */
  lemma RunExits(p: Probe, replies: seq<Reply>, start: nat, k: nat, max: nat)
    requires ProbeOk(p)
    ensures k < max && IsHit(ReplyAt(replies, k)) ==> Run(p, replies, start, k, max) == Outcome(Stamp(p), Hit(ReplyAt(replies, k).vendor), k + 1)
    ensures k < max && ReplyAt(replies, k).NotFound? ==> Run(p, replies, start, k, max) == Outcome(Stamp(p), Absent, k + 1)
    ensures k >= max ==> Run(p, replies, start, k, max) == Outcome(p, GaveUp, k)
  {
  }

  /** The lookup get_vendor runs on a miss: from the current cursor, with a budget of two rounds. */
  function Lookup(services: seq<Service>, cursor: nat, clock: real, pauses: nat, replies: seq<Reply>): (o: Outcome)
    requires cursor < |services|
  {
    Run(Probe(services, cursor, clock, pauses), replies, cursor, 0, 2 * |services|)
  }

  /** The replies before the last attempt were all non-terminal, and the lookup ends on the one it names. */
  lemma {:induction false} RunEnds(p: Probe, replies: seq<Reply>, start: nat, k: nat, max: nat)
    requires ProbeOk(p) && k <= max
    ensures var o := Run(p, replies, start, k, max);
      (forall j :: k <= j < o.attempts - 1 ==> !Terminal(ReplyAt(replies, j)))
      && (o.end.Hit? ==> o.attempts >= k + 1 && ReplyAt(replies, o.attempts - 1) == Success(o.end.vendor) && IsHit(ReplyAt(replies, o.attempts - 1)))
      && (o.end.Absent? ==> o.attempts >= k + 1 && ReplyAt(replies, o.attempts - 1) == NotFound)
      && (o.end.GaveUp? ==> o.attempts == max && forall j :: k <= j < max ==> !Terminal(ReplyAt(replies, j)))
    decreases max - k
  {
    if k < max {
      var q := Stamp(p);
      var r := ReplyAt(replies, k);
      if !IsHit(r) && !r.NotFound? {
        RunEnds(Advance(q, r, start), replies, start, k + 1, max);
      }
    }
  }

  /** The first terminal reply ends the loop on that attempt, whatever comes after it. */
  lemma {:induction false} RunStopsAt(p: Probe, replies: seq<Reply>, start: nat, j: nat, k: nat, max: nat)
    requires ProbeOk(p) && j <= k < max
    requires Terminal(ReplyAt(replies, k))
    requires forall i :: j <= i < k ==> !Terminal(ReplyAt(replies, i))
    ensures var o := Run(p, replies, start, j, max);
      o.attempts == k + 1
      && o.end == (if ReplyAt(replies, k).NotFound? then Absent else Hit(ReplyAt(replies, k).vendor))
    decreases k - j
  {
    if j < k {
      RunStopsAt(Advance(Stamp(p), ReplyAt(replies, j), start), replies, start, j + 1, k, max);
    }
  }

  /** A 404 stops the rotation at once: no further service is tried and the OUI is reported absent. */
  lemma NotFoundStops(services: seq<Service>, cursor: nat, clock: real, pauses: nat, replies: seq<Reply>, k: nat)
    requires cursor < |services| && k < 2 * |services|
    requires ReplyAt(replies, k) == NotFound
    requires forall j :: 0 <= j < k ==> !Terminal(ReplyAt(replies, j))
    ensures var o := Lookup(services, cursor, clock, pauses, replies); o.end == Absent && o.attempts == k + 1
  {
    RunStopsAt(Probe(services, cursor, clock, pauses), replies, cursor, 0, k, 2 * |services|);
  }

  /** A 200 with an empty or "Unknown" vendor is no answer: the loop goes on as after any other failure. */
  lemma EmptyVendorFallsThrough(p: Probe, replies: seq<Reply>, start: nat, k: nat, max: nat)
    requires ProbeOk(p) && k < max
    requires ReplyAt(replies, k) == Success("") || ReplyAt(replies, k) == Success("Unknown")
    ensures Run(p, replies, start, k, max) == Run(Advance(Stamp(p), ReplyAt(replies, k), start), replies, start, k + 1, max)
  {
  }

  /** Every service has a non-negative rate limit. */
  predicate LimitsOk(p: Probe)
  {
    forall i :: 0 <= i < |p.services| ==> p.services[i].rateLimit >= 0.0
  }

  /** One probe is no earlier than another: its clock, pauses, limits and call times have not gone back, and no service was renamed. */
  predicate NoEarlier(p: Probe, q: Probe)
  {
    |q.services| == |p.services| && q.clock >= p.clock && q.pauses >= p.pauses
    && forall i :: 0 <= i < |p.services| ==>
         q.services[i].rateLimit >= p.services[i].rateLimit
         && q.services[i].name == p.services[i].name
         && q.services[i].lastCall >= p.services[i].lastCall
  }

  lemma StampMonotone(p: Probe)
    requires ProbeOk(p) && LimitsOk(p)
    ensures NoEarlier(p, Stamp(p)) && LimitsOk(Stamp(p))
  {
    var s := p.services[p.cursor];
    var t := CallTime(s, p.clock);
    assert t >= s.lastCall + s.rateLimit;
  }

  lemma AdvanceMonotone(p: Probe, r: Reply, start: nat)
    requires ProbeOk(p) && LimitsOk(p)
    ensures NoEarlier(p, Advance(p, r, start)) && LimitsOk(Advance(p, r, start))
  {
  }

  /** Rate limits never decrease, service names never change, and neither the clock nor any call time runs backwards. */
  lemma {:induction false} RunMonotone(p: Probe, replies: seq<Reply>, start: nat, k: nat, max: nat)
    requires ProbeOk(p) && LimitsOk(p)
    ensures NoEarlier(p, Run(p, replies, start, k, max).probe) && LimitsOk(Run(p, replies, start, k, max).probe)
    decreases max - k
  {
    if k < max {
      var q := Stamp(p);
      var r := ReplyAt(replies, k);
      StampMonotone(p);
      if !IsHit(r) && !r.NotFound? {
        var a := Advance(q, r, start);
        AdvanceMonotone(q, r, start);
        RunMonotone(a, replies, start, k + 1, max);
      }
    }
  }

  /** Once rate_limit seconds have passed since the last call, _rate_limit does not sleep. */
  lemma RateLimitReset(s: Service, now: real)
    requires now - s.lastCall >= s.rateLimit
    ensures CallTime(s, now) == now
  {
  }

  /**
   * However much time passes after a call, the next call to the same
   * service comes at least rate_limit seconds after it.
   */
  lemma SpacedAfterWaiting(p: Probe, now: real)
    requires ProbeOk(p) && now >= Stamp(p).clock
    ensures var q := Stamp(p); var r := Stamp(q.(clock := now));
      r.clock == r.services[p.cursor].lastCall >= q.services[p.cursor].lastCall + q.services[p.cursor].rateLimit
      && r.clock >= now
  {
  }

  /** A service is called only once rate_limit seconds have passed since its previous call, given a non-negative limit. */
  lemma CallSpacing(s: Service, now: real)
    requires s.rateLimit >= 0.0
    ensures CallTime(s, now) >= s.lastCall + s.rateLimit && CallTime(s, now) >= s.lastCall
  {
  }

  /** A 429 multiplies the limit of the service it came from by 1.5 and touches no other limit. */
  lemma BackoffOnly(p: Probe, start: nat)
    requires ProbeOk(p)
    ensures var a := Advance(p, TooManyRequests, start);
      a.services[p.cursor].rateLimit == p.services[p.cursor].rateLimit * 1.5
      && forall i :: 0 <= i < |p.services| && i != p.cursor ==> a.services[i] == p.services[i]
  {
  }

  /** The cursor after m steps of (cursor + 1) % n from c. */
  function Rotate(c: nat, m: nat, n: nat): (r: nat)
    requires c < n
    ensures r < n
  {
    if m == 0 then c else Next(Rotate(c, m - 1, n), n)
  }

  /** The position after c among n services, wrapping to 0. */
  function Next(c: nat, n: nat): nat
    requires c < n
  {
    if c + 1 == n then 0 else c + 1
  }

  lemma NextCursor(c: nat, n: nat)
    requires c < n
    ensures (c + 1) % n == Next(c, n)
  {
  }

  lemma {:induction false} RotateShort(c: nat, m: nat, n: nat)
    requires c + m < n
    ensures Rotate(c, m, n) == c + m
  {
    if m > 0 {
      RotateShort(c, m - 1, n);
    }
  }

  lemma {:induction false} RotateSplit(c: nat, m1: nat, m2: nat, n: nat)
    requires c < n
    ensures Rotate(c, m1 + m2, n) == Rotate(Rotate(c, m1, n), m2, n)
    decreases m2
  {
    if m2 > 0 {
      RotateSplit(c, m1, m2 - 1, n);
    }
  }

  /** n steps around n services come back to the start. */
  lemma FullTurn(c: nat, n: nat)
    requires c < n
    ensures Rotate(c, n, n) == c
  {
    RotateShort(c, n - c - 1, n);
    assert Rotate(c, n - c, n) == 0;
    RotateSplit(c, n - c, c, n);
    if c > 0 {
      RotateShort(0, c, n);
    }
  }

  /** The cursor moves one step per non-terminal attempt and stays put on the terminal one. */
  lemma {:induction false} RunCursor(p: Probe, replies: seq<Reply>, start: nat, k: nat, max: nat)
    requires ProbeOk(p) && k <= max && start < |p.services|
    requires p.cursor == Rotate(start, k, |p.services|)
    ensures var o := Run(p, replies, start, k, max);
      o.attempts >= 1 || o.end.GaveUp?
    ensures var o := Run(p, replies, start, k, max);
      o.probe.cursor == Rotate(start, if o.end.GaveUp? then o.attempts else o.attempts - 1, |p.services|)
    decreases max - k
  {
    if k < max {
      var q := Stamp(p);
      var r := ReplyAt(replies, k);
      if !IsHit(r) && !r.NotFound? {
        NextCursor(p.cursor, |p.services|);
        RunCursor(Advance(q, r, start), replies, start, k + 1, max);
      }
    }
  }

  /** A lookup that spends its budget has made 2 * len(api_services) attempts, two full rounds, and leaves the cursor where it began. */
  lemma GaveUpTwoRounds(services: seq<Service>, cursor: nat, clock: real, pauses: nat, replies: seq<Reply>)
    requires cursor < |services|
    requires Lookup(services, cursor, clock, pauses, replies).end.GaveUp?
    ensures var o := Lookup(services, cursor, clock, pauses, replies);
      o.attempts == 2 * |services| && o.probe.cursor == cursor
  {
    var n := |services|;
    RunEnds(Probe(services, cursor, clock, pauses), replies, cursor, 0, 2 * n);
    RunCursor(Probe(services, cursor, clock, pauses), replies, cursor, 0, 2 * n);
    RotateSplit(cursor, n, n, n);
    FullTurn(cursor, n);
  }

  // ---------------------------------------------------------------------
  // save_cache
  // ---------------------------------------------------------------------

  const MaxPendingSaves: nat := 50

  /** Whether save_cache writes the file. */
  predicate SaveWrites(pending: nat, force: bool)
  {
    force || pending >= MaxPendingSaves
  }

  /** pending_saves after one save_cache call. */
  function PendingAfter(pending: nat, force: bool): (r: nat)
    ensures SaveWrites(pending, force) <==> r == 0
    ensures !SaveWrites(pending, force) ==> r == pending + 1
  {
    if !force && pending < MaxPendingSaves then pending + 1 else 0
  }

  /** pending_saves after k unforced calls. */
  function PendingAfterUnforced(pending: nat, k: nat): nat
  {
    if k == 0 then pending else PendingAfter(PendingAfterUnforced(pending, k - 1), false)
  }

  /** From a fresh counter, the first fifty unforced calls only count, and the fifty-first writes and resets. */
  lemma {:induction false} FiftyFirstWrites(k: nat)
    requires k <= MaxPendingSaves
    ensures PendingAfterUnforced(0, k) == k
    ensures k < MaxPendingSaves ==> !SaveWrites(PendingAfterUnforced(0, k), false)
    ensures k == MaxPendingSaves ==> SaveWrites(PendingAfterUnforced(0, k), false) && PendingAfterUnforced(0, k + 1) == 0
  {
    if k > 0 {
      FiftyFirstWrites(k - 1);
    }
  }

  function Values(d: Dict<string>): (vs: seq<string>)
    ensures |vs| == |d| && forall i :: 0 <= i < |d| ==> vs[i] == d[i].1
  {
    if d == [] then [] else [d[0].1] + Values(d[1..])
  }

  /** The image save_cache writes: entries in order, each kept only when its vendor was not kept before. */
  function UniqueByValue(d: Dict<string>): Dict<string>
  {
    if d == [] then []
    else
      var u := UniqueByValue(d[..|d| - 1]);
      var e := d[|d| - 1];
      if e.1 in Values(u) then u else Put(u, e.0, e.1)
  }

  predicate DistinctValues(d: Dict<string>)
  {
    forall i, j :: 0 <= i < j < |d| ==> d[i].1 != d[j].1
  }

  lemma ValuesSnoc(d: Dict<string>, e: (string, string))
    ensures Values(d + [e]) == Values(d) + [e.1]
  {
  }

  lemma DistinctValuesSnoc(u: Dict<string>, e: (string, string))
    requires DistinctValues(u) && e.1 !in Values(u)
    ensures DistinctValues(u + [e])
  {
    var w := u + [e];
    forall i, j | 0 <= i < j < |w| ensures w[i].1 != w[j].1 {
      if j == |u| {
        assert Values(u)[i] == u[i].1;
      }
    }
  }

  /** A key drawn from the entries before the last cannot be the last entry's key. */
  lemma FreshKeyAmong(p: Dict<string>, u: Dict<string>, k: string)
    requires k !in Keys(p) && forall e :: e in u ==> e in p
    ensures k !in Keys(u)
  {
    forall i | 0 <= i < |u| ensures Keys(u)[i] != k {
      assert u[i] in p;
      var j :| 0 <= j < |p| && p[j] == u[i];
      assert Keys(p)[j] == p[j].0;
    }
  }

  /** Keeping one more entry whose key and vendor are both new. */
  lemma UniqueStep(p: Dict<string>, u: Dict<string>, e: (string, string))
    requires DistinctValues(u) && DistinctKeys(u) && (forall x :: x in u ==> x in p)
    requires e.0 !in Keys(p) && e.1 !in Values(u)
    ensures var w := Put(u, e.0, e.1);
      DistinctValues(w) && DistinctKeys(w)
      && (forall x :: x in w ==> x in p + [e])
      && Values(w) == Values(u) + [e.1]
  {
    FreshKeyAmong(p, u, e.0);
    PutAbsent(u, e.0, e.1);
    ValuesSnoc(u, e);
    DistinctSnoc(u, e);
    DistinctValuesSnoc(u, e);
  }

  /**
   * With distinct cache keys, the written image has pairwise distinct
   * vendors and distinct keys, holds only entries of the cache, and loses
   * no vendor.
   */
  lemma {:induction false} UniqueByValueSpec(d: Dict<string>)
    requires DistinctKeys(d)
    ensures var u := UniqueByValue(d);
      DistinctValues(u) && DistinctKeys(u)
      && (forall e :: e in u ==> e in d)
      && (forall v :: v in Values(d) <==> v in Values(u))
  {
    if d != [] {
      var p := d[..|d| - 1];
      var e := d[|d| - 1];
      LastKeyFresh(d);
      UniqueByValueSpec(p);
      var u := UniqueByValue(p);
      FrontLast(d);
      ValuesSnoc(p, e);
      assert UniqueByValue(d) == if e.1 in Values(u) then u else Put(u, e.0, e.1);
      if e.1 !in Values(u) {
        UniqueStep(p, u, e);
      }
    }
  }

  // ---------------------------------------------------------------------
  // cleanup_cache
  // ---------------------------------------------------------------------

  /** Step 1: valid keys normalised, later entries overwriting earlier ones with the same key. */
  function NormalizeKeys(d: Dict<string>): Dict<string>
  {
    if d == [] then []
    else
      var n := NormalizeKeys(d[..|d| - 1]);
      var e := d[|d| - 1];
      if ValidMac(e.0) then Put(n, NormalizeMac(e.0), e.1) else n
  }

  /** vendor.replace(', Inc.', '').replace(' Inc.', '').replace(' Corporation', '').strip() */
  function StandardizeVendor(v: string): string
  {
    Strip(ReplaceAll(ReplaceAll(ReplaceAll(v, ", Inc.", ""), " Inc.", ""), " Corporation", ""))
  }

  /** Step 2: every vendor standardised, keys and order kept. */
  function StandardizeAll(d: Dict<string>): (r: Dict<string>)
    ensures |r| == |d| && forall i :: 0 <= i < |d| ==> r[i] == (d[i].0, StandardizeVendor(d[i].1))
  {
    if d == [] then [] else [(d[0].0, StandardizeVendor(d[0].1))] + StandardizeAll(d[1..])
  }

  /** The cache cleanup_cache leaves behind (its third step copies every entry, so it removes nothing). */
  function CleanCache(d: Dict<string>): Dict<string>
  {
    StandardizeAll(NormalizeKeys(d))
  }

  /** Normalising never adds entries, so duplicates_removed is never negative; every key left is a six-digit upper-case OUI. */
  lemma {:induction false} NormalizeKeysSpec(d: Dict<string>)
    ensures var n := NormalizeKeys(d);
      |n| <= |d| && DistinctKeys(n)
      && forall i :: 0 <= i < |n| ==> ValidKey(n[i].0) && |n[i].0| == 6 && NormalizeMac(n[i].0) == n[i].0
  {
    if d != [] {
      var p := d[..|d| - 1];
      var e := d[|d| - 1];
      NormalizeKeysSpec(p);
      var n := NormalizeKeys(p);
      if ValidMac(e.0) {
        var k := NormalizeMac(e.0);
        PutDistinct(n, k, e.1);
        NormalizeIdempotent(e.0);
        var r := Put(n, k, e.1);
        forall i | 0 <= i < |r| ensures ValidKey(r[i].0) && |r[i].0| == 6 && NormalizeMac(r[i].0) == r[i].0 {
          assert Keys(r)[i] == r[i].0;
          if r[i].0 != k {
            assert r[i].0 in Keys(n);
            var j :| 0 <= j < |n| && Keys(n)[j] == r[i].0;
          }
        }
      }
    }
  }

  /** Every key kept by normalising is a fixed point of normalisation, so a second normalising pass keeps every entry. */
  lemma {:induction false} NormalizeKeysStable(d: Dict<string>)
    requires DistinctKeys(d)
    requires forall i :: 0 <= i < |d| ==> ValidKey(d[i].0) && NormalizeMac(d[i].0) == d[i].0
    ensures NormalizeKeys(d) == d
  {
    if d != [] {
      var p := d[..|d| - 1];
      var e := d[|d| - 1];
      LastKeyFresh(d);
      NormalizeKeysStable(p);
      assert ValidMac(e.0);
      PutAbsent(p, e.0, e.1);
      FrontLast(d);
    }
  }

  /** Cleaning twice normalises nothing further: the keys of a cleaned cache survive a second pass unchanged. */
  lemma CleanKeysSettle(d: Dict<string>)
    ensures Keys(NormalizeKeys(CleanCache(d))) == Keys(CleanCache(d))
  {
    var n := NormalizeKeys(d);
    NormalizeKeysSpec(d);
    var c := StandardizeAll(n);
    assert Keys(c) == Keys(n);
    assert DistinctKeys(c) by {
      forall i, j | 0 <= i < j < |c| ensures c[i].0 != c[j].0 {
        assert c[i].0 == n[i].0 && c[j].0 == n[j].0;
      }
    }
    NormalizeKeysStable(c);
  }

  // ---------------------------------------------------------------------
  // get_file_metadata and has_file_changed
  // ---------------------------------------------------------------------

  newtype byte = x: int | 0 <= x < 256

  /** What os.stat and reading the file give: its bytes (so its size) and its modification time. */
  datatype FileState = FileState(content: seq<byte>, mtime: real)

  datatype FileMeta = FileMeta(size: nat, mtime: real, hash: string)

  /** One mebibyte, the length of each hashed window. */
  const Window: nat := 1048576

  /** The first window of the file followed by everything from the start of its last window. */
  function Sampled(content: seq<byte>): (r: seq<byte>)
    ensures |content| <= Window ==> r == content + content
  {
    var n := |content|;
    var head := if n <= Window then content else content[..Window];
    var from := if n <= Window then 0 else n - Window;
    head + content[from..]
  }

  /** get_file_metadata with md5 left abstract as digest. */
  function Metadata(f: FileState, digest: seq<byte> -> string): FileMeta
  {
    FileMeta(|f.content|, f.mtime, digest(Sampled(f.content)))
  }

  /** has_file_changed against the stored records. */
  predicate Changed(processed: map<string, FileMeta>, path: string, f: FileState, digest: seq<byte> -> string)
  {
    path !in processed
    || var m := Metadata(f, digest);
       var s := processed[path];
       m.size != s.size || m.mtime != s.mtime || m.hash != s.hash
  }

  /** Right after recording a file, the untouched file reads as unchanged. */
  lemma RecordedUnchanged(processed: map<string, FileMeta>, path: string, f: FileState, digest: seq<byte> -> string)
    ensures !Changed(processed[path := Metadata(f, digest)], path, f, digest)
    ensures path !in processed ==> Changed(processed, path, f, digest)
  {
  }

  /** An edit that keeps the size and touches only bytes outside both windows leaves the fingerprint unchanged. */
  lemma MiddleEditUnseen(a: seq<byte>, b: seq<byte>)
    requires |a| == |b| > 2 * Window
    requires forall i :: 0 <= i < |a| && (i < Window || i >= |a| - Window) ==> a[i] == b[i]
    ensures Sampled(a) == Sampled(b)
  {
    var n := |a|;
    assert a[..Window] == b[..Window];
    assert a[n - Window..] == b[n - Window..];
  }

  /** Such an edit, with the modification time kept, goes unnoticed by has_file_changed. */
  lemma MiddleEditUnnoticed(processed: map<string, FileMeta>, path: string, f: FileState, g: FileState, digest: seq<byte> -> string)
    requires |f.content| == |g.content| > 2 * Window && f.mtime == g.mtime
    requires forall i :: 0 <= i < |f.content| && (i < Window || i >= |f.content| - Window) ==> f.content[i] == g.content[i]
    ensures !Changed(processed[path := Metadata(f, digest)], path, g, digest)
  {
    MiddleEditUnseen(f.content, g.content);
  }

  /** load_cache: the parsed cache with every key normalised, later keys overwriting earlier ones; a missing or unreadable file gives an empty cache. */
  function LoadedCache(stored: Stored<Dict<string>>): (d: Dict<string>)
  {
    match stored
    case Parsed(raw) => FromPairs(NormalizeAll(raw))
    case _ => []
  }

  function NormalizeAll(raw: Dict<string>): (r: Dict<string>)
    ensures |r| == |raw| && forall i :: 0 <= i < |raw| ==> r[i] == (NormalizeMac(raw[i].0), raw[i].1)
  {
    if raw == [] then [] else [(NormalizeMac(raw[0].0), raw[0].1)] + NormalizeAll(raw[1..])
  }

  /** Every key of a loaded cache is already normalised, so lookups by normalised key find it, and no key repeats. */
  lemma LoadedCacheKeys(stored: Stored<Dict<string>>)
    ensures DistinctKeys(LoadedCache(stored))
    ensures forall k :: k in Keys(LoadedCache(stored)) ==> NormalizeMac(k) == k
  {
    if stored.Parsed? {
      var ps := NormalizeAll(stored.value);
      FromPairsDistinct(ps);
      FromPairsKeys(ps);
      forall k | k in Keys(ps) ensures NormalizeMac(k) == k {
        var i :| 0 <= i < |ps| && Keys(ps)[i] == k;
        NormalizeIdempotent(stored.value[i].0);
      }
    }
  }
}
