/** The relay's sliding-window cache of one sender's packets, and NACK repair. */
module RelayCache {
  import opened Primitives
  import opened Sequence

  const CACHE_WINDOW: int := 200

  /** Cached packets by wire number, and the highest number seen. */
  datatype Stream = Stream(highest: Option<Seq24>, cache: map<Seq24, Bytes>)

  const Silent: Stream := Stream(None, map[])

  function Trim(cache: map<Seq24, Bytes>, ref: Seq24): map<Seq24, Bytes> {
    cache - (set k | k in cache && SeqDelta(k, ref) > CACHE_WINDOW)
  }

  function Ahead(s: Stream, num: Seq24): Seq24 {
    if s.highest.Some? then SeqDelta(s.highest.value, num) else 1
  }

  /** One DATA packet: cache it, trim against the newer of it and the highest. */
  function OnData(s: Stream, num: Seq24, packet: Bytes): Stream {
    var ahead := Ahead(s, num);
    var ref := if HALF <= ahead && s.highest.Some? then s.highest.value else num;
    Stream(if 0 < ahead < HALF then Some(num) else s.highest, Trim(s.cache[num := packet], ref))
  }

  // ---- The unbounded log it stands for ----

  /** Every packet received, by message number, the last one for each number. */
  datatype Record = Record(got: map<int, Bytes>, max: int)

  ghost predicate CachedKey(s: Stream, rec: Record, k: Seq24) {
    var u := Back(rec.max, k);
    && (k in s.cache <==> u in rec.got && rec.max - u <= CACHE_WINDOW)
    && (k in s.cache && u in rec.got ==> s.cache[k] == rec.got[u])
  }

  /** The cache is the packets received at most CACHE_WINDOW behind the newest. */
  ghost predicate Refines(s: Stream, rec: Record) {
    if s.highest.None? then s.cache == map[] && rec.got == map[]
    else
      && s.highest.value == Wire(rec.max) && rec.max in rec.got
      && (forall u :: u in rec.got ==> u <= rec.max)
      && (forall k: Seq24 :: CachedKey(s, rec, k))
  }

  function AfterData(rec: Record, u: int, packet: Bytes): Record {
    Record(rec.got[u := packet], if rec.got == map[] || rec.max < u then u else rec.max)
  }

  lemma FirstRefines(s: Stream, rec: Record, u: int, packet: Bytes)
    requires Refines(s, rec) && s.highest.None?
    ensures Refines(OnData(s, Wire(u), packet), AfterData(rec, u, packet))
  {
    hide Wire, SeqDelta;
    var s', rec' := OnData(s, Wire(u), packet), AfterData(rec, u, packet);
    forall k: Seq24 ensures CachedKey(s', rec', k) {
      BackRange(u, k);
      BackIsUnique(u, k, u);
    }
  }

  lemma NewerKey(s: Stream, rec: Record, u: int, packet: Bytes, k: Seq24)
    requires s.highest == Some(Wire(rec.max)) && rec.max in rec.got && rec.max < u < rec.max + HALF && CachedKey(s, rec, k)
    requires forall v :: v in rec.got ==> v <= rec.max
    ensures CachedKey(OnData(s, Wire(u), packet), AfterData(rec, u, packet), k)
  {
    WireDelta(rec.max, u);
    BackRange(rec.max, k);
    BackRange(u, k);
    BackIsUnique(u, k, u);
    if k != Wire(u) && u - SEQ_MOD < Back(rec.max, k) {
      BackIsUnique(u, k, Back(rec.max, k));
    }
  }

  lemma OlderKey(s: Stream, rec: Record, u: int, packet: Bytes, k: Seq24)
    requires s.highest == Some(Wire(rec.max)) && rec.max in rec.got && rec.max - HALF <= u <= rec.max && CachedKey(s, rec, k)
    ensures CachedKey(OnData(s, Wire(u), packet), AfterData(rec, u, packet), k)
  {
    WireDelta(rec.max, u);
    BackIsUnique(rec.max, k, u);
  }

  /** Each packet within half the space of the newest keeps the refinement. */
  lemma OnDataRefines(s: Stream, rec: Record, u: int, packet: Bytes)
    requires Refines(s, rec) && (s.highest.Some? ==> -HALF <= u - rec.max < HALF)
    ensures Refines(OnData(s, Wire(u), packet), AfterData(rec, u, packet))
  {
    hide Wire, SeqDelta;
    if s.highest.None? {
      FirstRefines(s, rec, u, packet);
    } else {
      var s', rec' := OnData(s, Wire(u), packet), AfterData(rec, u, packet);
      HighestMoves(s, rec, u, packet);
      forall k: Seq24 ensures CachedKey(s', rec', k) {
        assert CachedKey(s, rec, k);
        if rec.max < u { NewerKey(s, rec, u, packet, k); } else { OlderKey(s, rec, u, packet, k); }
      }
    }
  }

  lemma HighestMoves(s: Stream, rec: Record, u: int, packet: Bytes)
    requires s.highest == Some(Wire(rec.max)) && rec.max in rec.got && -HALF <= u - rec.max < HALF
    ensures OnData(s, Wire(u), packet).highest == Some(Wire(AfterData(rec, u, packet).max))
    ensures rec.max <= AfterData(rec, u, packet).max
  {
    WireDelta(rec.max, u);
  }

  // ---- Whole runs ----

  datatype Arrival = Arrival(u: int, packet: Bytes)

  function Feed(arrivals: seq<Arrival>, n: nat): Stream
    requires n <= |arrivals|
  {
    if n == 0 then Silent
    else OnData(Feed(arrivals, n - 1), Wire(arrivals[n - 1].u), arrivals[n - 1].packet)
  }

  function Recorded(arrivals: seq<Arrival>, n: nat): Record
    requires n <= |arrivals|
  {
    if n == 0 then Record(map[], 0)
    else AfterData(Recorded(arrivals, n - 1), arrivals[n - 1].u, arrivals[n - 1].packet)
  }

  /** Every packet after the first arrives within half the space of the newest. */
  predicate Timely(arrivals: seq<Arrival>) {
    forall n :: 0 < n < |arrivals| ==> -HALF <= arrivals[n].u - Recorded(arrivals, n).max < HALF
  }

  /** After every DATA step of every timely run, across any number of wraps, the
      cache is exactly the received packets at most 200 behind the newest. */
  lemma {:induction false} CacheRefinesLog(arrivals: seq<Arrival>, n: nat)
    requires n <= |arrivals| && Timely(arrivals)
    ensures Refines(Feed(arrivals, n), Recorded(arrivals, n))
    ensures n > 0 ==> Feed(arrivals, n).highest.Some?
    ensures n > 1 ==> Recorded(arrivals, n - 1).max <= Recorded(arrivals, n).max
  {
    hide Wire, SeqDelta, CachedKey, OnData;
    if n > 0 {
      CacheRefinesLog(arrivals, n - 1);
      OnDataRefines(Feed(arrivals, n - 1), Recorded(arrivals, n - 1), arrivals[n - 1].u, arrivals[n - 1].packet);
      if n > 1 { HighestMoves(Feed(arrivals, n - 1), Recorded(arrivals, n - 1), arrivals[n - 1].u, arrivals[n - 1].packet); }
      FeedStarts(Feed(arrivals, n - 1), Wire(arrivals[n - 1].u), arrivals[n - 1].packet);
    }
  }

  lemma FeedStarts(s: Stream, num: Seq24, packet: Bytes)
    ensures OnData(s, num, packet).highest.Some?
  {
  }

  /** The wire numbers at most `d` behind `max`. */
  ghost function Behind(max: int, d: nat): set<Seq24> {
    if d == 0 then {Wire(max)} else Behind(max, d - 1) + {Wire(max - d)}
  }

  lemma {:induction false} BehindSize(max: int, d: nat)
    ensures |Behind(max, d)| <= d + 1
  {
    if d > 0 { BehindSize(max, d - 1); }
  }

  lemma {:induction false} BehindHas(max: int, d: nat, k: Seq24)
    requires max - Back(max, k) <= d
    ensures k in Behind(max, d)
  {
    hide Wire, SeqDelta, Back;
    BackRange(max, k);
    if d > 0 && max - Back(max, k) < d { BehindHas(max, d - 1, k); }
  }

  /** At most 201 packets are ever cached. */
  lemma CacheIsBounded(s: Stream, rec: Record)
    requires Refines(s, rec)
    ensures |s.cache| <= CACHE_WINDOW + 1
  {
    hide Wire, SeqDelta, Behind;
    if s.highest.Some? {
      forall k | k in s.cache ensures k in Behind(rec.max, CACHE_WINDOW) {
        assert CachedKey(s, rec, k);
        BehindHas(rec.max, CACHE_WINDOW, k);
      }
      BehindSize(rec.max, CACHE_WINDOW);
      assert s.cache.Keys <= Behind(rec.max, CACHE_WINDOW);
      SubsetSize(s.cache.Keys, Behind(rec.max, CACHE_WINDOW));
    }
  }

  lemma {:induction false} SubsetSize(a: set<Seq24>, b: set<Seq24>)
    requires a <= b
    ensures |a| <= |b|
  {
    if a != {} {
      var x :| x in a;
      SubsetSize(a - {x}, b - {x});
    }
  }

  // ---- NACK repair ----

  datatype Repair = Repair(packets: seq<Bytes>, missing: seq<Seq24>)

  /** The cached packets among the first `n` requested, in order, and the rest. */
  function RepairOf(cache: map<Seq24, Bytes>, wanted: seq<Seq24>, n: nat): Repair
    requires n <= |wanted|
  {
    if n == 0 then Repair([], [])
    else
      var r := RepairOf(cache, wanted, n - 1);
      if wanted[n - 1] in cache then r.(packets := r.packets + [cache[wanted[n - 1]]])
      else r.(missing := r.missing + [wanted[n - 1]])
  }

  /** A requested message is repaired, with the very packet last received for it,
      exactly if it was received and is at most 200 behind the newest; one newer
      than all received is missing. */
  lemma RepairedIff(s: Stream, rec: Record, u: int)
    requires Refines(s, rec) && s.highest.Some? && rec.max - SEQ_MOD < u < rec.max + SEQ_MOD - CACHE_WINDOW
    ensures Wire(u) in s.cache <==> u in rec.got && rec.max - u <= CACHE_WINDOW
    ensures Wire(u) in s.cache ==> s.cache[Wire(u)] == rec.got[u]
  {
    hide Wire, SeqDelta, Back;
    assert CachedKey(s, rec, Wire(u));
    CycleBefore(u);
    BackIsUnique(rec.max, Wire(u), if u <= rec.max then u else u - SEQ_MOD);
  }

  /** Where among the answers the request at position `i` is answered: as many
      before it as earlier requests of the same kind. */
  function Earlier(cache: map<Seq24, Bytes>, wanted: seq<Seq24>, i: nat, cached: bool): nat
    requires i <= |wanted|
  {
    if i == 0 then 0
    else Earlier(cache, wanted, i - 1, cached) + (if (wanted[i - 1] in cache) == cached then 1 else 0)
  }

  /** The answers are exactly as many as the requests. */
  lemma {:induction false} RepairSizes(cache: map<Seq24, Bytes>, wanted: seq<Seq24>, n: nat)
    requires n <= |wanted|
    ensures var r := RepairOf(cache, wanted, n);
            && |r.packets| == Earlier(cache, wanted, n, true) && |r.missing| == Earlier(cache, wanted, n, false)
            && |r.packets| + |r.missing| == n
  {
    if n > 0 { RepairSizes(cache, wanted, n - 1); }
  }

  /** Every request is answered, in order, by its cached packet or as missing. */
  lemma {:induction false} RepairSplits(cache: map<Seq24, Bytes>, wanted: seq<Seq24>, n: nat, i: nat)
    requires i < n <= |wanted|
    ensures var r := RepairOf(cache, wanted, n);
            var at := Earlier(cache, wanted, i, wanted[i] in cache);
            if wanted[i] in cache then at < |r.packets| && r.packets[at] == cache[wanted[i]]
            else at < |r.missing| && r.missing[at] == wanted[i]
    decreases n
  {
    RepairSizes(cache, wanted, n - 1);
    if i < n - 1 { RepairSplits(cache, wanted, n - 1, i); }
  }

  /** Every packet sent is the cached packet of a requested number, and every number
      called missing was requested and is not cached. */
  lemma {:induction false} RepairsOnlyRequests(cache: map<Seq24, Bytes>, wanted: seq<Seq24>, n: nat)
    requires n <= |wanted|
    ensures var r := RepairOf(cache, wanted, n);
            && (forall x :: x in r.missing ==> x in wanted && x !in cache)
            && (forall p :: p in r.packets ==> Requested(cache, wanted, p))
  {
    if n > 0 {
      RepairsOnlyRequests(cache, wanted, n - 1);
      if wanted[n - 1] in cache { assert Requested(cache, wanted, cache[wanted[n - 1]]); }
    }
  }

  ghost predicate Requested(cache: map<Seq24, Bytes>, wanted: seq<Seq24>, p: Bytes) {
    exists i :: 0 <= i < |wanted| && wanted[i] in cache && cache[wanted[i]] == p
  }

  datatype StreamId = StreamId(convId: nat, senderId: nat)

  /** The relay's caches for all conversations and senders. */
  class MessageCache {
    var streams: map<StreamId, Stream>

    constructor ()
      ensures streams == map[]
    {
      streams := map[];
    }

    ghost function Of(id: StreamId): Stream
      reads this
    {
      if id in streams then streams[id] else Silent
    }

    method HandleData(id: StreamId, num: Seq24, packet: Bytes)
      modifies this
      ensures streams == old(streams)[id := OnData(old(Of(id)), num, packet)]
    {
      var s := if id in streams then streams[id] else Silent;
      var cache := s.cache[num := packet];
      var ahead := if s.highest.Some? then SeqDelta(s.highest.value, num) else 1;
      var ref := if HALF <= ahead && s.highest.Some? then s.highest.value else num;
      cache := TrimCache(cache, ref);
      var highest := if 0 < ahead < HALF then Some(num) else s.highest;
      streams := streams[id := Stream(highest, cache)];
    }

    method TrimCache(cache: map<Seq24, Bytes>, ref: Seq24) returns (kept: map<Seq24, Bytes>)
      ensures kept == Trim(cache, ref)
    {
      hide SeqDelta;
      kept := cache;
      var todo := cache.Keys;
      while todo != {}
        invariant todo <= kept.Keys <= cache.Keys
        invariant forall k :: k in cache ==> (k in kept <==> k in todo || SeqDelta(k, ref) <= CACHE_WINDOW)
        invariant forall k :: k in kept ==> kept[k] == cache[k]
        decreases |todo|
      {
        var k :| k in todo;
        if SeqDelta(k, ref) > CACHE_WINDOW {
          kept := kept - {k};
        }
        todo := todo - {k};
      }
    }

    method HandleNack(id: StreamId, wanted: seq<Seq24>) returns (packets: seq<Bytes>, missing: seq<Seq24>)
      ensures Repair(packets, missing) == RepairOf(Of(id).cache, wanted, |wanted|)
    {
      var cache := if id in streams then streams[id].cache else map[];
      packets, missing := [], [];
      for i := 0 to |wanted|
        invariant Repair(packets, missing) == RepairOf(cache, wanted, i)
      {
        if wanted[i] in cache {
          packets := packets + [cache[wanted[i]]];
        } else {
          missing := missing + [wanted[i]];
        }
      }
    }
  }
}
