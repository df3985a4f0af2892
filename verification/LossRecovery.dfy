/** The command-line client's receiver, which gives up on numbers that stay
    missing: NACK timestamps, gap scans and the declaration of permanent loss. */
module LossRecovery {
  import opened Primitives
  import opened Sequence
  import opened Dictionaries
  import opened Ratchet
  import opened Receiver

  /** How long, in milliseconds, a number may stay missing after its first NACK. */
  const PATIENCE: int := 4000

  datatype Tracker = Tracker(base: Inbound, stamps: map<Seq24, nat>)

  predicate Absent(t: Tracker, i: Seq24) {
    i !in t.base.buffer && i !in t.base.received
  }

  predicate Due(t: Tracker, i: Seq24, now: nat) {
    i in t.stamps && t.stamps[i] > 0 && now - t.stamps[i] > PATIENCE
  }

  /** Move on to the lost number, forget all history and everything buffered, and
      ask the sender for a Dict-Reset. */
  function DeclareLoss(t: Tracker, lost: Seq24): Tracker {
    var d := SeqDelta(OrZero(t.base.highest), lost);
    var h := if 0 < d < HALF then Some(lost) else t.base.highest;
    t.(base := t.base.(highest := h, received := map[], buffer := map[], resetRequests := t.base.resetRequests + 1))
  }

  function Stamp(t: Tracker, i: Seq24, now: nat): Tracker {
    if i in t.stamps then t else t.(stamps := t.stamps[i := now])
  }

  /** A gap scan under way: what it will NACK and what it has declared lost. */
  datatype Scan = Scan(state: Tracker, missing: seq<Seq24>, lost: seq<Seq24>)

  function Look(s: Scan, i: Seq24, now: nat): Scan {
    if !Absent(s.state, i) then s
    else if Due(s.state, i, now) then Scan(DeclareLoss(s.state, i), s.missing, s.lost + [i])
    else Scan(Stamp(s.state, i, now), s.missing + [i], s.lost)
  }

  /** Look at the numbers `k` to `limit` steps after `from`, in order. */
  function ScanGap(s: Scan, from: Seq24, now: nat, k: nat, limit: nat): Scan
    decreases limit + 1 - k
  {
    if k > limit then s else ScanGap(Look(s, Wire(from + k), now), from, now, k + 1, limit)
  }

  // ---- Messages ----

  function PrunedStamps(stamps: map<Seq24, nat>, highest: Seq24): map<Seq24, nat> {
    stamps - (set i | i in stamps && SeqDelta(i, highest) > RETAINED)
  }

  function Desynced(b: Inbound): Inbound {
    b.(received := map[], resetRequests := b.resetRequests + 1)
  }

  /** Here a packet that fails to inflate also drops the history. */
  function ProcessStrict(suite: Suite, t: Tracker, p: DataPacket, compressed: Bytes, num: Seq24): (t': Tracker)
    ensures t'.base.buffer == t.base.buffer
  {
    var dict := Dictionary(t.base.received, num);
    var b := t.base.(dicts := t.base.dicts + {dict});
    if p.header.dictFp != suite.fingerprint(dict) then t.(base := Desynced(b))
    else
      match suite.inflate(compressed, dict)
      case None => t.(base := Desynced(b))
      case Some(payload) =>
        if num in b.received then t.(base := b)
        else
          var stored := Store(b, num, payload);
          Tracker(stored, PrunedStamps(t.stamps, OrZero(stored.highest)))
  }

  function AcceptStrict(suite: Suite, t: Tracker, p: DataPacket, num: Seq24): (t': Tracker)
    ensures t'.base.buffer == t.base.buffer
  {
    match Unseal(suite, t.base, p)
    case None => t
    case Some(o) =>
      ProcessStrict(suite, t.(base := LearnChain(t.base, p.header.epoch, o.chain)), p, o.compressed, num)
  }

  function PopStrict(suite: Suite, t: Tracker, n: Seq24): (t': Tracker)
    requires n in t.base.buffer
    ensures t'.base.buffer == t.base.buffer - {n} && |t'.base.buffer| < |t.base.buffer|
  {
    assert (t.base.buffer - {n}).Keys == t.base.buffer.Keys - {n};
    AcceptStrict(suite, t.(base := t.base.(buffer := t.base.buffer - {n})), t.base.buffer[n], n)
  }

  function DrainStrict(suite: Suite, t: Tracker, n: Seq24): Tracker
    decreases |t.base.buffer|
  {
    if n !in t.base.buffer then t else DrainStrict(suite, PopStrict(suite, t, n), SeqNext(n))
  }

  function SettleStrict(suite: Suite, t: Tracker): Tracker {
    DrainStrict(suite, t, SeqNext(OrZero(t.base.highest)))
  }

  function OnData(suite: Suite, t: Tracker, p: DataPacket, now: nat): Scan {
    var num := p.header.num;
    var a := Ahead(t.base, num);
    if a == 0 || HALF <= a then Scan(t, [], [])
    else if a > 1 then
      var held := t.(base := t.base.(buffer := t.base.buffer[num := p]));
      ScanGap(Scan(held, [], []), OrZero(t.base.highest), now, 1, a - 1)
    else if Unseal(suite, t.base, p).None? then Scan(t, [], [])
    else Scan(SettleStrict(suite, AcceptStrict(suite, t, p, num)), [], [])
  }

  /** A probe announces the sender's newest number, which itself may be missing. */
  function OnSync(t: Tracker, num: Seq24, now: nat): Scan {
    var a := if t.base.highest.Some? then SeqDelta(t.base.highest.value, num) else num;
    if a == 0 || HALF <= a then Scan(t, [], [])
    else ScanGap(Scan(t, [], []), OrZero(t.base.highest), now, 1, a)
  }

  // ---- The position as an unbounded number ----

  /** The position after a change of the highest number: the nearest number with
      the new wire form, before or after `pos`. */
  function Follow(pos: int, t: Tracker): int {
    Nearest(pos, OrZero(t.base.highest))
  }

  /** The position followed through every look of a scan. */
  function ScanSpot(s: Scan, from: Seq24, now: nat, k: nat, limit: nat, pos: int): int
    decreases limit + 1 - k
  {
    if k > limit then pos
    else
      var s' := Look(s, Wire(from + k), now);
      ScanSpot(s', from, now, k + 1, limit, Follow(pos, s'.state))
  }

  /** The position followed through every packet of a drain. */
  function DrainSpot(suite: Suite, t: Tracker, n: Seq24, pos: int): int
    decreases |t.base.buffer|
  {
    if n !in t.base.buffer then pos
    else
      var t' := PopStrict(suite, t, n);
      DrainSpot(suite, t', SeqNext(n), Follow(pos, t'))
  }

  // ---- One gap scan ----

  /** The numbers a scan at `pos` has asked for and given up are ahead of `pos`, the
      latter not past `q`. */
  ghost predicate Within(s: Scan, pos: int, q: int, limit: int) {
    && (forall i :: i in s.lost ==> pos < Nearest(pos, i) <= q)
    && (forall i :: i in s.missing ==> pos < Nearest(pos, i) <= pos + limit)
    && (s.lost != [] ==> s.state.base.highest.Some?)
  }

  /** The scan at position `pos` concerns only numbers after `pos`, those it gives
      up are behind it when it ends, and it never moves back. */
  lemma {:induction false} ScanMoves(s: Scan, from: Seq24, now: nat, k: nat, limit: nat, pos: int, q: int)
    requires 1 <= k && limit < HALF && from == Wire(pos)
    requires OrZero(s.state.base.highest) == Wire(q) && pos <= q < pos + k && q <= pos + limit && Within(s, pos, q, limit)
    ensures var s' := ScanGap(s, from, now, k, limit);
            var q' := ScanSpot(s, from, now, k, limit, q);
            && q <= q' <= pos + limit && Within(s', pos, q', limit)
            && OrZero(s'.state.base.highest) == Wire(q')
            && (s.state.base.highest.Some? ==> s'.state.base.highest.Some?)
    decreases limit + 1 - k
  {
    hide Wire, SeqDelta, Nearest;
    if k <= limit {
      var i := Wire(from + k);
      WireShift(pos, k);
      NearestIsUnique(pos, i, pos + k);
      WireDelta(q, pos + k);
      var s1 := Look(s, i, now);
      var q1 := if Absent(s.state, i) && Due(s.state, i, now) then pos + k else q;
      NearestIsUnique(q, OrZero(s1.state.base.highest), q1);
      ScanMoves(s1, from, now, k + 1, limit, pos, q1);
    }
  }

  /** Some number was given up: nothing buffered or received is left, and the
      position is the last number given up. */
  ghost predicate GaveUp(s: Scan) {
    s.lost != [] ==>
      && s.state.base.buffer == map[] && s.state.base.received == map[]
      && s.state.base.highest == Some(s.lost[|s.lost| - 1])
  }

  lemma {:induction false} LossClears(s: Scan, from: Seq24, now: nat, k: nat, limit: nat, pos: int, q: int)
    requires 1 <= k && limit < HALF && from == Wire(pos)
    requires OrZero(s.state.base.highest) == Wire(q) && pos <= q < pos + k && GaveUp(s)
    ensures GaveUp(ScanGap(s, from, now, k, limit))
    decreases limit + 1 - k
  {
    hide Wire, SeqDelta;
    if k <= limit {
      var i := Wire(from + k);
      WireShift(pos, k);
      WireDelta(q, pos + k);
      var q1 := if Absent(s.state, i) && Due(s.state, i, now) then pos + k else q;
      LossClears(Look(s, i, now), from, now, k + 1, limit, pos, q1);
    }
  }

  predicate Overdue(t: Tracker, i: Seq24, now: nat) {
    Absent(t, i) && Due(t, i, now)
  }

  predicate OverdueAt(t: Tracker, from: Seq24, now: nat, j: int) {
    Overdue(t, Wire(from + j), now)
  }

  lemma LostOnlyGrows(s: Scan, from: Seq24, now: nat, k: nat, limit: nat)
    ensures s.lost <= ScanGap(s, from, now, k, limit).lost
    decreases limit + 1 - k
  {
    if k <= limit { LostOnlyGrows(Look(s, Wire(from + k), now), from, now, k + 1, limit); }
  }

  /** A scan gives something up exactly if a number in the gap is overdue.  If none
      is, it leaves the receiver as it was and asks for what the library client
      would ask for. */
  lemma {:induction false} LossIffOverdue(s: Scan, from: Seq24, now: nat, k: nat, limit: nat)
    requires 1 <= k
    ensures var s' := ScanGap(s, from, now, k, limit);
            && (s'.lost == s.lost <==> forall j :: k <= j <= limit ==> !OverdueAt(s.state, from, now, j))
            && (s'.lost == s.lost ==>
                  s'.state.base == s.state.base && s'.missing == s.missing + Missing(s.state.base, from, k, limit + 1))
    decreases limit + 1 - k
  {
    hide Wire;
    if k <= limit {
      var i := Wire(from + k);
      var s1 := Look(s, i, now);
      LostOnlyGrows(s1, from, now, k + 1, limit);
      if !Overdue(s.state, i, now) {
        LossIffOverdue(s1, from, now, k + 1, limit);
        assert !OverdueAt(s.state, from, now, k);
        assert forall j :: OverdueAt(s1.state, from, now, j) <==> OverdueAt(s.state, from, now, j);
      } else {
        assert OverdueAt(s.state, from, now, k);
      }
    }
  }

  lemma {:induction false} LostFromGap(s: Scan, from: Seq24, now: nat, k: nat, limit: nat, i: Seq24) returns (j: nat)
    requires i in ScanGap(s, from, now, k, limit).lost && i !in s.lost
    ensures k <= j <= limit && i == Wire(from + j)
    decreases limit + 1 - k
  {
    hide Wire;
    j := k;
    if k <= limit {
      var s1 := Look(s, Wire(from + k), now);
      if i !in s1.lost { j := LostFromGap(s1, from, now, k + 1, limit, i); }
    }
  }

  /** Exactly which numbers of a gap a scan gives up: those that are due and either
      absent from the start or wiped from the buffer by an earlier loss. */
  lemma {:induction false} LostIff(s: Scan, from: Seq24, now: nat, k: nat, limit: nat, j: nat)
    requires 1 <= k <= j <= limit < HALF && Wire(from + j) !in s.lost
    ensures var i := Wire(from + j);
            i in ScanGap(s, from, now, k, limit).lost <==>
            Due(s.state, i, now) && (Absent(s.state, i) || exists j' :: k <= j' < j && OverdueAt(s.state, from, now, j'))
    decreases limit + 1 - k
  {
    hide Wire, SeqDelta;
    var i, x := Wire(from + j), Wire(from + k);
    var s1 := Look(s, x, now);
    LostOnlyGrows(s1, from, now, k + 1, limit);
    if k == j {
      if i in ScanGap(s1, from, now, k + 1, limit).lost && i !in s1.lost {
        var j' := LostFromGap(s1, from, now, k + 1, limit, i);
        WireInjective(from + j, from + j');
      }
    } else {
      WireInjective(from + j, from + k);
      LostIff(s1, from, now, k + 1, limit, j);
      if OverdueAt(s.state, from, now, k) {
        assert Absent(s1.state, i);
      } else {
        assert forall j' :: OverdueAt(s1.state, from, now, j') <==> OverdueAt(s.state, from, now, j');
      }
    }
  }

  /** The drain that follows a declared loss while handling a probe finds an empty
      buffer, so it does nothing. */
  lemma DrainAfterLossIsIdle(suite: Suite, t: Tracker, lost: Seq24)
    ensures SettleStrict(suite, DeclareLoss(t, lost)) == DeclareLoss(t, lost)
  {
  }

  // ---- Deliveries ----

  /** The position stays or moves forward, by less than half the space and not past
      the packet's number. */
  lemma AcceptMoves(suite: Suite, t: Tracker, p: DataPacket, pos: int, n: int)
    requires t.base.highest == Some(Wire(pos)) && pos < n
    ensures var t' := AcceptStrict(suite, t, p, Wire(n));
            && t'.base.highest == Some(Wire(Follow(pos, t')))
            && pos <= Follow(pos, t') <= n && Follow(pos, t') < pos + HALF
  {
    hide Wire, SeqDelta, Dictionary, Nearest;
    var t' := AcceptStrict(suite, t, p, Wire(n));
    NearestIsUnique(pos, Wire(pos), pos);
    NearestIsFirst(pos, n);
    NearestWires(pos, OrZero(t'.base.highest));
  }

  lemma NearestIsFirst(pos: int, n: int)
    requires pos < n
    ensures 0 < SeqDelta(Wire(pos), Wire(n)) < HALF ==> pos < Nearest(pos, Wire(n)) <= n && Nearest(pos, Wire(n)) < pos + HALF
  {
    WireDelta(pos, n);
  }

  /** A drain never moves the position back, nor forward past what it takes out. */
  lemma {:induction false} DrainMoves(suite: Suite, t: Tracker, pos: int, n: int)
    requires t.base.highest == Some(Wire(pos)) && pos < n
    ensures var pos' := DrainSpot(suite, t, Wire(n), pos);
            && DrainStrict(suite, t, Wire(n)).base.highest == Some(Wire(pos'))
            && pos <= pos' && (pos' == pos || pos' < n + |t.base.buffer|)
    decreases |t.base.buffer|
  {
    hide Wire, SeqDelta, SeqNext, AcceptStrict, Follow;
    if Wire(n) in t.base.buffer {
      var popped := t.(base := t.base.(buffer := t.base.buffer - {Wire(n)}));
      AcceptMoves(suite, popped, t.base.buffer[Wire(n)], pos, n);
      WireNext(n);
      var t' := PopStrict(suite, t, Wire(n));
      DrainMoves(suite, t', Follow(pos, t'), n + 1);
    }
  }

  /** A stored message erases the timestamp of every number still ahead, so each
      delivery gives all missing numbers their full patience again. */
  lemma DeliveryRestartsClocks(suite: Suite, t: Tracker, p: DataPacket, compressed: Bytes, num: Seq24, i: Seq24)
    requires var t' := ProcessStrict(suite, t, p, compressed, num);
             t'.base.delivered != t.base.delivered && 0 < SeqDelta(OrZero(t'.base.highest), i) < HALF
    ensures i !in ProcessStrict(suite, t, p, compressed, num).stamps
  {
    hide Dictionary, Pruned;
  }

  // ---- Whole runs ----

  datatype Event =
    | Data(p: DataPacket, now: nat)
    | Sync(num: Seq24, now: nat)
    | ChainShare(epoch: nat, c: ChainState)
    | DictReset

  function Apply(suite: Suite, t: Tracker, ev: Event): Scan {
    match ev
    case Data(p, now) => OnData(suite, t, p, now)
    case Sync(num, now) => OnSync(t, num, now)
    case ChainShare(epoch, c) => Scan(t.(base := LearnChain(t.base, epoch, c)), [], [])
    case DictReset => Scan(t.(base := Flush(t.base)), [], [])
  }

  /** The receiver after the first `n` events. */
  function At(suite: Suite, events: seq<Event>, n: nat): Tracker
    requires n <= |events|
  {
    if n == 0 then Tracker(Newcomer, map[]) else Apply(suite, At(suite, events, n - 1), events[n - 1]).state
  }

  /** The position after an event, followed through every change of the highest
      number that handling it makes. */
  function EventSpot(suite: Suite, t: Tracker, ev: Event, pos: int): int {
    match ev
    case Data(p, now) =>
      var a := Ahead(t.base, p.header.num);
      if 1 < a < HALF then
        var held := t.(base := t.base.(buffer := t.base.buffer[p.header.num := p]));
        ScanSpot(Scan(held, [], []), OrZero(t.base.highest), now, 1, a - 1, pos)
      else if a == 1 && Unseal(suite, t.base, p).Some? then
        var t' := AcceptStrict(suite, t, p, p.header.num);
        DrainSpot(suite, t', SeqNext(OrZero(t'.base.highest)), Follow(pos, t'))
      else Follow(pos, Apply(suite, t, ev).state)
    case Sync(num, now) =>
      var a := if t.base.highest.Some? then SeqDelta(t.base.highest.value, num) else num;
      if 0 < a < HALF then ScanSpot(Scan(t, [], []), OrZero(t.base.highest), now, 1, a, pos)
      else Follow(pos, Apply(suite, t, ev).state)
    case _ => Follow(pos, Apply(suite, t, ev).state)
  }

  /** The position after `n` events; 0 stands for no baseline. */
  function Spot(suite: Suite, events: seq<Event>, n: nat): int
    requires n <= |events|
  {
    if n == 0 then 0 else EventSpot(suite, At(suite, events, n - 1), events[n - 1], Spot(suite, events, n - 1))
  }

  // ---- The position always stands for the highest number ----

  lemma {:induction false} ScanSpotWires(s: Scan, from: Seq24, now: nat, k: nat, limit: nat, pos: int)
    requires OrZero(s.state.base.highest) == Wire(pos)
    ensures OrZero(ScanGap(s, from, now, k, limit).state.base.highest) == Wire(ScanSpot(s, from, now, k, limit, pos))
    decreases limit + 1 - k
  {
    hide Wire, SeqDelta, Nearest, Look;
    if k <= limit {
      var s' := Look(s, Wire(from + k), now);
      NearestWires(pos, OrZero(s'.state.base.highest));
      ScanSpotWires(s', from, now, k + 1, limit, Follow(pos, s'.state));
    }
  }

  lemma {:induction false} DrainSpotWires(suite: Suite, t: Tracker, n: Seq24, pos: int)
    requires OrZero(t.base.highest) == Wire(pos)
    ensures OrZero(DrainStrict(suite, t, n).base.highest) == Wire(DrainSpot(suite, t, n, pos))
    decreases |t.base.buffer|
  {
    hide Wire, SeqDelta, SeqNext, Nearest, AcceptStrict;
    if n in t.base.buffer {
      var t' := PopStrict(suite, t, n);
      NearestWires(pos, OrZero(t'.base.highest));
      DrainSpotWires(suite, t', SeqNext(n), Follow(pos, t'));
    }
  }

  lemma EventSpotWires(suite: Suite, t: Tracker, ev: Event, pos: int)
    requires OrZero(t.base.highest) == Wire(pos)
    ensures OrZero(Apply(suite, t, ev).state.base.highest) == Wire(EventSpot(suite, t, ev, pos))
  {
    hide Wire, SeqDelta, SeqNext, Nearest, ScanGap, ScanSpot, DrainStrict, DrainSpot, AcceptStrict, Unseal;
    NearestWires(pos, OrZero(Apply(suite, t, ev).state.base.highest));
    match ev
    case Data(p, now) =>
      var a := Ahead(t.base, p.header.num);
      if 1 < a < HALF {
        var held := t.(base := t.base.(buffer := t.base.buffer[p.header.num := p]));
        ScanSpotWires(Scan(held, [], []), OrZero(t.base.highest), now, 1, a - 1, pos);
      } else if a == 1 && Unseal(suite, t.base, p).Some? {
        var t' := AcceptStrict(suite, t, p, p.header.num);
        NearestWires(pos, OrZero(t'.base.highest));
        DrainSpotWires(suite, t', SeqNext(OrZero(t'.base.highest)), Follow(pos, t'));
      }
    case Sync(num, now) =>
      var a := if t.base.highest.Some? then SeqDelta(t.base.highest.value, num) else num;
      if 0 < a < HALF { ScanSpotWires(Scan(t, [], []), OrZero(t.base.highest), now, 1, a, pos); }
    case _ =>
  }

  lemma {:induction false} SpotIsHighest(suite: Suite, events: seq<Event>, n: nat)
    requires n <= |events|
    ensures Wire(Spot(suite, events, n)) == OrZero(At(suite, events, n).base.highest)
  {
    hide Apply, EventSpot;
    if n > 0 {
      SpotIsHighest(suite, events, n - 1);
      EventSpotWires(suite, At(suite, events, n - 1), events[n - 1], Spot(suite, events, n - 1));
    }
  }

  // ---- No step back ----

  /** What a gap scan started by any event at position `pos` may ask for or give up. */
  lemma GapOf(suite: Suite, t: Tracker, ev: Event, pos: int)
    requires OrZero(t.base.highest) == Wire(pos)
    ensures var s := Apply(suite, t, ev);
            && (forall i :: i in s.missing ==> pos < Nearest(pos, i) < pos + HALF)
            && (forall i :: i in s.lost ==> pos < Nearest(pos, i) < pos + HALF && Nearest(pos, i) <= EventSpot(suite, t, ev, pos))
            && (s.lost != [] ==> s.state.base.highest.Some?)
  {
    hide Wire, SeqDelta, Nearest, ScanGap, ScanSpot, SettleStrict, AcceptStrict;
    match ev
    case Data(p, now) =>
      var a := Ahead(t.base, p.header.num);
      if 1 < a < HALF {
        var held := t.(base := t.base.(buffer := t.base.buffer[p.header.num := p]));
        ScanMoves(Scan(held, [], []), OrZero(t.base.highest), now, 1, a - 1, pos, pos);
      }
    case Sync(num, now) =>
      var a := if t.base.highest.Some? then SeqDelta(t.base.highest.value, num) else num;
      if 0 < a < HALF {
        ScanMoves(Scan(t, [], []), OrZero(t.base.highest), now, 1, a, pos, pos);
      }
    case _ =>
  }

  lemma NextMoves(suite: Suite, t: Tracker, p: DataPacket, pos: int)
    requires t.base.highest == Some(Wire(pos)) && SeqDelta(Wire(pos), p.header.num) == 1
    ensures var t' := AcceptStrict(suite, t, p, p.header.num);
            var pos' := DrainSpot(suite, t', SeqNext(OrZero(t'.base.highest)), Follow(pos, t'));
            && SettleStrict(suite, t').base.highest.Some?
            && pos <= pos' <= pos + 1 + |t.base.buffer|
  {
    hide Wire, SeqDelta, SeqNext, DrainStrict, DrainSpot, AcceptStrict, Follow;
    NextIsNext(pos, p.header.num);
    AcceptMoves(suite, t, p, pos, pos + 1);
    var t' := AcceptStrict(suite, t, p, p.header.num);
    WireNext(Follow(pos, t'));
    DrainMoves(suite, t', Follow(pos, t'), Follow(pos, t') + 1);
  }

  lemma NextIsNext(pos: int, num: Seq24)
    ensures SeqDelta(Wire(pos), num) == 1 <==> num == Wire(pos + 1)
  {
  }

  /** The furthest one message can move the position. */
  function Reach(t: Tracker): nat {
    Max(HALF - 1, 1 + |t.base.buffer|)
  }

  lemma EventMoves(suite: Suite, t: Tracker, ev: Event, pos: int)
    requires t.base.highest == Some(Wire(pos))
    ensures Apply(suite, t, ev).state.base.highest.Some?
    ensures pos <= EventSpot(suite, t, ev, pos) <= pos + Reach(t)
  {
    hide Wire, SeqDelta, SeqNext, Nearest, ScanGap, ScanSpot, SettleStrict, DrainSpot, AcceptStrict, Unseal;
    NearestIsUnique(pos, Wire(pos), pos);
    match ev
    case Data(p, now) =>
      var a := Ahead(t.base, p.header.num);
      if 1 < a < HALF {
        var held := t.(base := t.base.(buffer := t.base.buffer[p.header.num := p]));
        ScanMoves(Scan(held, [], []), Wire(pos), now, 1, a - 1, pos, pos);
      } else if a == 1 && Unseal(suite, t.base, p).Some? {
        NextMoves(suite, t, p, pos);
      }
    case Sync(num, now) =>
      var a := SeqDelta(Wire(pos), num);
      if 0 < a < HALF { ScanMoves(Scan(t, [], []), Wire(pos), now, 1, a, pos, pos); }
    case _ =>
  }

  /** With a baseline, no message ever moves the position back, including when
      losses are declared, and a baseline is never lost. */
  lemma NeverBackwards(suite: Suite, events: seq<Event>, n: nat)
    requires n < |events| && At(suite, events, n).base.highest.Some?
    ensures At(suite, events, n + 1).base.highest.Some?
    ensures Spot(suite, events, n) <= Spot(suite, events, n + 1) <= Spot(suite, events, n) + Reach(At(suite, events, n))
  {
    hide Wire, Apply, EventSpot, Reach;
    SpotIsHighest(suite, events, n);
    EventMoves(suite, At(suite, events, n), events[n], Spot(suite, events, n));
  }

  /** Unless 2^23 - 1 packets or more are buffered, following every change comes to
      the same as comparing the highest numbers before and after the message. */
  lemma SpotIsNearest(suite: Suite, events: seq<Event>, n: nat)
    requires n < |events| && At(suite, events, n).base.highest.Some?
    requires 1 + |At(suite, events, n).base.buffer| < HALF
    ensures Spot(suite, events, n + 1) == Follow(Spot(suite, events, n), At(suite, events, n + 1))
  {
    hide Wire, SeqDelta, Nearest, Apply, EventSpot;
    NeverBackwards(suite, events, n);
    SpotIsHighest(suite, events, n + 1);
    NearestIsUnique(Spot(suite, events, n), OrZero(At(suite, events, n + 1).base.highest), Spot(suite, events, n + 1));
  }

  lemma {:induction false} NeverBackwardsOver(suite: Suite, events: seq<Event>, m: nat, n: nat)
    requires m <= n <= |events| && At(suite, events, m).base.highest.Some?
    ensures At(suite, events, n).base.highest.Some?
    ensures Spot(suite, events, m) <= Spot(suite, events, n)
    decreases n
  {
    hide At, Spot, Reach;
    if m < n {
      NeverBackwardsOver(suite, events, m, n - 1);
      NeverBackwards(suite, events, n - 1);
    }
  }

  /** A number once declared lost is never asked for or declared lost by a later
      message: those concern only numbers after it, and its wire number can recur
      only once the position is more than half the space past it. */
  lemma LostForGood(suite: Suite, events: seq<Event>, m: nat, n: nat, i: Seq24, j: Seq24)
    requires m < n < |events|
    requires i in Apply(suite, At(suite, events, m), events[m]).lost
    requires var s := Apply(suite, At(suite, events, n), events[n]); j in s.missing || j in s.lost
    ensures var lost := Nearest(Spot(suite, events, m), i);
            var later := Nearest(Spot(suite, events, n), j);
            && lost <= Spot(suite, events, n) < later
            && (i == j ==> Spot(suite, events, n) > lost + HALF)
  {
    hide Wire, SeqDelta, Nearest, Apply, EventSpot;
    var pos, pos' := Spot(suite, events, m), Spot(suite, events, n);
    SpotIsHighest(suite, events, m);
    SpotIsHighest(suite, events, n);
    GapOf(suite, At(suite, events, m), events[m], pos);
    GapOf(suite, At(suite, events, n), events[n], pos');
    NeverBackwardsOver(suite, events, m + 1, n);
    NearestWires(pos, i);
    NearestWires(pos', j);
    if i == j && Nearest(pos', j) - Nearest(pos, i) < SEQ_MOD { WireInjective(Nearest(pos, i), Nearest(pos', j)); }
  }

  /** Three probes: the first asks for number 1, the second, more than four seconds
      later, gives it up, and the third asks only for what comes after it. */
  function ThreeProbes(): seq<Event> {
    [Sync(1, 1), Sync(1, 4002), Sync(3, 4003)]
  }

  lemma GivesUpAfterPatience(suite: Suite)
    ensures var events := ThreeProbes();
            && Apply(suite, At(suite, events, 0), events[0]).missing == [1]
            && Apply(suite, At(suite, events, 1), events[1]).lost == [1]
            && Apply(suite, At(suite, events, 2), events[2]).missing == [2, 3]
  {
    var events := ThreeProbes();
    var t0, t1, t2 := At(suite, events, 0), At(suite, events, 1), At(suite, events, 2);
    var s0 := Scan(t0, [], []);
    assert ScanGap(s0, 0, 1, 1, 1) == Look(s0, 1, 1);
    assert t1 == Tracker(Newcomer, map[1 := 1]);
    var s1 := Scan(t1, [], []);
    assert ScanGap(s1, 0, 4002, 1, 1) == Look(s1, 1, 4002);
    assert t2.base.highest == Some(1) && t2.stamps == map[1 := 1];
    var s2 := Scan(t2, [], []);
    assert ScanGap(s2, 1, 4003, 1, 2) == Look(Look(s2, 2, 4003), 3, 4003);
  }

  // ---- Patience ----

  function TimeOf(ev: Event): nat {
    if ev.Data? || ev.Sync? then ev.now else 0
  }

  /** The timestamp of `i` is the time of an earlier message that NACKed it. */
  ghost predicate NackedAt(suite: Suite, events: seq<Event>, n: nat, i: Seq24, time: nat)
    requires n <= |events|
  {
    exists m :: 0 <= m < n && NackedBy(suite, events, m, i, time)
  }

  ghost predicate NackedBy(suite: Suite, events: seq<Event>, m: nat, i: Seq24, time: nat)
    requires m < |events|
  {
    TimeOf(events[m]) == time && i in Apply(suite, At(suite, events, m), events[m]).missing
  }

  /** What a scan's timestamps can be: old ones, or `now` for what it will NACK. */
  ghost predicate StampsFrom(stamps: map<Seq24, nat>, s: Scan, now: nat) {
    forall i :: i in s.state.stamps ==>
      (i in stamps && s.state.stamps[i] == stamps[i]) || (i in s.missing && s.state.stamps[i] == now)
  }

  lemma {:induction false} ScanStamps(stamps: map<Seq24, nat>, s: Scan, from: Seq24, now: nat, k: nat, limit: nat)
    requires StampsFrom(stamps, s, now)
    ensures StampsFrom(stamps, ScanGap(s, from, now, k, limit), now)
    decreases limit + 1 - k
  {
    hide Wire, SeqDelta;
    if k <= limit {
      ScanStamps(stamps, Look(s, Wire(from + k), now), from, now, k + 1, limit);
    }
  }

  lemma {:induction false} DrainStamps(suite: Suite, t: Tracker, n: Seq24)
    ensures StampsFrom(t.stamps, Scan(DrainStrict(suite, t, n), [], []), 0)
    decreases |t.base.buffer|
  {
    hide SeqNext, SeqDelta, AcceptStrict;
    if n in t.base.buffer {
      AcceptStamps(suite, t.(base := t.base.(buffer := t.base.buffer - {n})), t.base.buffer[n], n);
      DrainStamps(suite, PopStrict(suite, t, n), SeqNext(n));
    }
  }

  lemma AcceptStamps(suite: Suite, t: Tracker, p: DataPacket, num: Seq24)
    ensures StampsFrom(t.stamps, Scan(AcceptStrict(suite, t, p, num), [], []), 0)
  {
    hide SeqDelta, Dictionary, Store;
  }

  lemma ApplyStamps(suite: Suite, t: Tracker, ev: Event)
    ensures StampsFrom(t.stamps, Apply(suite, t, ev), TimeOf(ev))
  {
    hide Wire, SeqDelta, SeqNext, ScanGap, DrainStrict, AcceptStrict, Unseal;
    match ev
    case Data(p, now) =>
      var a := Ahead(t.base, p.header.num);
      if 1 < a < HALF {
        var held := t.(base := t.base.(buffer := t.base.buffer[p.header.num := p]));
        ScanStamps(t.stamps, Scan(held, [], []), OrZero(t.base.highest), now, 1, a - 1);
      } else if a == 1 {
        AcceptStamps(suite, t, p, p.header.num);
        var t' := AcceptStrict(suite, t, p, p.header.num);
        DrainStamps(suite, t', SeqNext(OrZero(t'.base.highest)));
      }
    case Sync(num, now) =>
      var a := if t.base.highest.Some? then SeqDelta(t.base.highest.value, num) else num;
      if 0 < a < HALF { ScanStamps(t.stamps, Scan(t, [], []), OrZero(t.base.highest), now, 1, a); }
    case _ =>
  }

  lemma {:induction false} StampsAreNacks(suite: Suite, events: seq<Event>, n: nat, i: Seq24)
    requires n <= |events| && i in At(suite, events, n).stamps
    ensures NackedAt(suite, events, n, i, At(suite, events, n).stamps[i])
  {
    hide Apply;
    if n > 0 {
      var t := At(suite, events, n - 1);
      ApplyStamps(suite, t, events[n - 1]);
      var time := At(suite, events, n).stamps[i];
      if i in t.stamps && t.stamps[i] == time {
        StampsAreNacks(suite, events, n - 1, i);
        var m :| 0 <= m < n - 1 && NackedBy(suite, events, m, i, time);
        assert NackedBy(suite, events, m, i, time);
      } else {
        assert NackedBy(suite, events, n - 1, i, time);
      }
    }
  }

  /** Scanning never makes a number due that was not. */
  lemma {:induction false} LostWasDue(s: Scan, from: Seq24, now: nat, k: nat, limit: nat, t: Tracker)
    requires forall i: Seq24 :: Due(s.state, i, now) ==> Due(t, i, now)
    requires forall i :: i in s.lost ==> Due(t, i, now)
    ensures forall i :: i in ScanGap(s, from, now, k, limit).lost ==> Due(t, i, now)
    decreases limit + 1 - k
  {
    hide Wire, SeqDelta;
    if k <= limit {
      LostWasDue(Look(s, Wire(from + k), now), from, now, k + 1, limit, t);
    }
  }

  /** A number is declared lost only if an earlier message NACKed it more than
      four seconds before. */
  lemma LossNeedsPatience(suite: Suite, events: seq<Event>, n: nat, i: Seq24) returns (m: nat)
    requires n < |events| && i in Apply(suite, At(suite, events, n), events[n]).lost
    ensures m < n && 0 < TimeOf(events[m]) && TimeOf(events[n]) - TimeOf(events[m]) > PATIENCE
    ensures i in Apply(suite, At(suite, events, m), events[m]).missing
  {
    hide Wire, SeqDelta, ScanGap, At;
    var t := At(suite, events, n);
    match events[n] {
      case Data(p, now) =>
        var held := t.(base := t.base.(buffer := t.base.buffer[p.header.num := p]));
        LostWasDue(Scan(held, [], []), OrZero(t.base.highest), now, 1, Ahead(t.base, p.header.num) - 1, t);
      case Sync(num, now) =>
        var a := if t.base.highest.Some? then SeqDelta(t.base.highest.value, num) else num;
        LostWasDue(Scan(t, [], []), OrZero(t.base.highest), now, 1, a, t);
    }
    assert Due(t, i, TimeOf(events[n]));
    StampsAreNacks(suite, events, n, i);
    m :| 0 <= m < n && NackedBy(suite, events, m, i, t.stamps[i]);
  }

  // ---- Patience runs out ----

  /** How many numbers after the highest an event makes the receiver look at. */
  function Gap(t: Tracker, ev: Event): nat {
    match ev
    case Data(p, _) => if 1 < Ahead(t.base, p.header.num) < HALF then Ahead(t.base, p.header.num) - 1 else 0
    case Sync(num, _) =>
      var a := if t.base.highest.Some? then SeqDelta(t.base.highest.value, num) else num;
      if 0 < a < HALF then a else 0
    case _ => 0
  }

  lemma {:induction false} AskedIsStamped(s: Scan, from: Seq24, now: nat, k: nat, limit: nat)
    requires forall i :: i in s.missing ==> i in s.state.stamps
    ensures forall i :: i in ScanGap(s, from, now, k, limit).missing ==> i in ScanGap(s, from, now, k, limit).state.stamps
    decreases limit + 1 - k
  {
    hide Wire, SeqDelta;
    if k <= limit { AskedIsStamped(Look(s, Wire(from + k), now), from, now, k + 1, limit); }
  }

  /** A number asked for carries a timestamp afterwards: its old one, if it had one, and
      otherwise the time of the message. */
  lemma AskedAtTime(suite: Suite, t: Tracker, ev: Event, i: Seq24)
    requires i in Apply(suite, t, ev).missing && i !in t.stamps
    ensures i in Apply(suite, t, ev).state.stamps && Apply(suite, t, ev).state.stamps[i] == TimeOf(ev)
  {
    hide Wire, SeqDelta, ScanGap, SettleStrict, AcceptStrict, Unseal;
    ApplyStamps(suite, t, ev);
    match ev
    case Data(p, now) =>
      var held := t.(base := t.base.(buffer := t.base.buffer[p.header.num := p]));
      if 1 < Ahead(t.base, p.header.num) < HALF {
        AskedIsStamped(Scan(held, [], []), OrZero(t.base.highest), now, 1, Ahead(t.base, p.header.num) - 1);
      }
    case Sync(num, now) =>
      var a := if t.base.highest.Some? then SeqDelta(t.base.highest.value, num) else num;
      if 0 < a < HALF { AskedIsStamped(Scan(t, [], []), OrZero(t.base.highest), now, 1, a); }
    case _ =>
  }

  /** Nothing delivered is ever taken back, and unless something is delivered no
      timestamp changes or goes. */
  ghost predicate Steady(t: Tracker, t': Tracker) {
    && t.base.delivered <= t'.base.delivered
    && (t'.base.delivered == t.base.delivered ==>
          forall i :: i in t.stamps ==> i in t'.stamps && t'.stamps[i] == t.stamps[i])
  }

  lemma SteadyTwice(t: Tracker, t1: Tracker, t2: Tracker)
    requires Steady(t, t1) && Steady(t1, t2)
    ensures Steady(t, t2)
  {
    if t2.base.delivered == t.base.delivered { assert t1.base.delivered == t.base.delivered; }
  }

  lemma AcceptSteady(suite: Suite, t: Tracker, p: DataPacket, num: Seq24)
    ensures Steady(t, AcceptStrict(suite, t, p, num))
  {
    hide Dictionary, SeqDelta, Unseal, Pruned, PrunedStamps;
  }

  lemma {:induction false} DrainSteady(suite: Suite, t: Tracker, n: Seq24)
    ensures Steady(t, DrainStrict(suite, t, n))
    decreases |t.base.buffer|
  {
    hide SeqNext, AcceptStrict, Steady;
    if n in t.base.buffer {
      var popped := t.(base := t.base.(buffer := t.base.buffer - {n}));
      var t' := PopStrict(suite, t, n);
      AcceptSteady(suite, popped, t.base.buffer[n], n);
      SameSteady(t, popped, t');
      DrainSteady(suite, t', SeqNext(n));
      SteadyTwice(t, t', DrainStrict(suite, t, n));
    } else {
      StaysSteady(t);
    }
  }

  lemma SameSteady(t: Tracker, t1: Tracker, t2: Tracker)
    requires t1.stamps == t.stamps && t1.base.delivered == t.base.delivered && Steady(t1, t2)
    ensures Steady(t, t2)
  {
  }

  lemma StaysSteady(t: Tracker)
    ensures Steady(t, t)
  {
  }

  lemma {:induction false} ScanSteady(s: Scan, from: Seq24, now: nat, k: nat, limit: nat)
    ensures Steady(s.state, ScanGap(s, from, now, k, limit).state)
    decreases limit + 1 - k
  {
    hide Wire, SeqDelta;
    if k <= limit { ScanSteady(Look(s, Wire(from + k), now), from, now, k + 1, limit); }
  }

  lemma ApplySteady(suite: Suite, t: Tracker, ev: Event)
    ensures Steady(t, Apply(suite, t, ev).state)
  {
    hide Wire, SeqDelta, SeqNext, ScanGap, DrainStrict, AcceptStrict, Unseal, Steady;
    StaysSteady(t);
    SameSteady(t, Apply(suite, t, DictReset).state, Apply(suite, t, DictReset).state) by {
      StaysSteady(Apply(suite, t, DictReset).state);
    }
    match ev
    case Data(p, now) =>
      var a := Ahead(t.base, p.header.num);
      if 1 < a < HALF {
        var held := t.(base := t.base.(buffer := t.base.buffer[p.header.num := p]));
        ScanSteady(Scan(held, [], []), OrZero(t.base.highest), now, 1, a - 1);
        SameSteady(t, held, ScanGap(Scan(held, [], []), OrZero(t.base.highest), now, 1, a - 1).state);
      } else if a == 1 && Unseal(suite, t.base, p).Some? {
        var t' := AcceptStrict(suite, t, p, p.header.num);
        AcceptSteady(suite, t, p, p.header.num);
        DrainSteady(suite, t', SeqNext(OrZero(t'.base.highest)));
        SteadyTwice(t, t', SettleStrict(suite, t'));
      }
    case Sync(num, now) =>
      var a := if t.base.highest.Some? then SeqDelta(t.base.highest.value, num) else num;
      if 0 < a < HALF { ScanSteady(Scan(t, [], []), OrZero(t.base.highest), now, 1, a); }
    case ChainShare(epoch, c) =>
      StaysSteady(Apply(suite, t, ev).state);
      SameSteady(t, Apply(suite, t, ev).state, Apply(suite, t, ev).state);
    case DictReset =>
  }

  lemma {:induction false} RunSteady(suite: Suite, events: seq<Event>, m: nat, n: nat)
    requires m <= n <= |events|
    ensures Steady(At(suite, events, m), At(suite, events, n))
    decreases n
  {
    hide Steady, Apply;
    if m == n {
      StaysSteady(At(suite, events, n));
    } else {
      RunSteady(suite, events, m, n - 1);
      ApplySteady(suite, At(suite, events, n - 1), events[n - 1]);
      SteadyTwice(At(suite, events, m), At(suite, events, n - 1), At(suite, events, n));
    }
  }

  /** A number first asked for more than four seconds ago is given up by any message
      that finds it in the gap and still missing, unless something was delivered in
      between. */
  lemma PatienceRunsOut(suite: Suite, events: seq<Event>, m: nat, n: nat, j: nat)
    requires m < n < |events| && 0 < TimeOf(events[m]) && TimeOf(events[n]) - TimeOf(events[m]) > PATIENCE
    requires At(suite, events, n).base.delivered == At(suite, events, m).base.delivered
    requires var t, t' := At(suite, events, m), At(suite, events, n);
             var i := Wire(OrZero(t'.base.highest) + j);
             && i !in t.stamps && i in Apply(suite, t, events[m]).missing
             && 1 <= j <= Gap(t', events[n]) && Absent(t', i)
    ensures Wire(OrZero(At(suite, events, n).base.highest) + j) in Apply(suite, At(suite, events, n), events[n]).lost
  {
    hide Wire, SeqDelta, Apply;
    var t, t' := At(suite, events, m), At(suite, events, n);
    var i := Wire(OrZero(t'.base.highest) + j);
    AskedAtTime(suite, t, events[m], i);
    RunSteady(suite, events, m, m + 1);
    RunSteady(suite, events, m + 1, n);
    assert At(suite, events, m + 1).base.delivered == t.base.delivered;
    assert Due(t', i, TimeOf(events[n]));
    OverdueGivenUp(suite, t', events[n], j);
  }

  lemma OverdueGivenUp(suite: Suite, t: Tracker, ev: Event, j: nat)
    requires 1 <= j <= Gap(t, ev)
    requires Overdue(t, Wire(OrZero(t.base.highest) + j), TimeOf(ev))
    ensures Wire(OrZero(t.base.highest) + j) in Apply(suite, t, ev).lost
  {
    hide Wire, SeqDelta, ScanGap, SettleStrict, AcceptStrict, Unseal;
    var from := OrZero(t.base.highest);
    match ev
    case Data(p, now) =>
      var held := t.(base := t.base.(buffer := t.base.buffer[p.header.num := p]));
      var a := Ahead(t.base, p.header.num);
      GapEndsBefore(t, p, j);
      LostIff(Scan(held, [], []), from, now, 1, a - 1, j);
    case Sync(num, now) =>
      LostIff(Scan(t, [], []), from, now, 1, Gap(t, ev), j);
  }

  lemma GapEndsBefore(t: Tracker, p: DataPacket, j: nat)
    requires 1 <= j < Ahead(t.base, p.header.num) < HALF
    ensures Wire(OrZero(t.base.highest) + j) != p.header.num
  {
  }

  // ---- The client ----

  class LossyStream {
    const inner: InboundStream
    var stamps: map<Seq24, nat>

    ghost function State(): Tracker
      reads this, inner
    {
      Tracker(inner.State(), stamps)
    }

    constructor (suite: Suite)
      ensures fresh(inner) && inner.suite == suite && State() == Tracker(Newcomer, map[])
    {
      inner := new InboundStream(suite);
      stamps := map[];
    }

    method PruneStamps()
      modifies this`stamps
      ensures stamps == PrunedStamps(old(stamps), OrZero(inner.highest))
    {
      var todo := stamps.Keys;
      while todo != {}
        invariant todo <= stamps.Keys <= old(stamps).Keys
        invariant forall i :: i in old(stamps) ==>
                    (i in stamps <==> i in todo || SeqDelta(i, OrZero(inner.highest)) <= RETAINED)
        invariant forall i :: i in stamps ==> stamps[i] == old(stamps)[i]
        decreases |todo|
      {
        var i :| i in todo;
        if SeqDelta(i, OrZero(inner.highest)) > RETAINED {
          stamps := stamps - {i};
        }
        todo := todo - {i};
      }
    }

    method ProcessDataPacket(p: DataPacket, compressed: Bytes, num: Seq24)
      modifies this, inner
      ensures State() == ProcessStrict(inner.suite, old(State()), p, compressed, num)
    {
      hide Store, Dictionary, PrunedStamps;
      var dict := GetDictionary(inner.received, num);
      inner.dicts := inner.dicts + {dict};
      var payload := inner.suite.inflate(compressed, dict);
      if p.header.dictFp != inner.suite.fingerprint(dict) || payload.None? {
        inner.received := map[];
        inner.resetRequests := inner.resetRequests + 1;
      } else if num !in inner.received {
        inner.StorePayload(num, payload.value);
        PruneStamps();
      }
    }

    method ProcessBufferedPackets()
      modifies this, inner
      ensures State() == SettleStrict(inner.suite, old(State()))
    {
      hide ProcessStrict, Unseal;
      var n := SeqNext(OrZero(inner.highest));
      while n in inner.buffer
        invariant DrainStrict(inner.suite, State(), n) == SettleStrict(inner.suite, old(State()))
        decreases |inner.buffer|
      {
        var p := inner.buffer[n];
        ghost var before := State();
        inner.buffer := inner.buffer - {n};
        var dec := inner.DecryptDataInOrder(p);
        if dec.Some? {
          ProcessDataPacket(p, dec.value, n);
        }
        assert State() == PopStrict(inner.suite, before, n);
        n := SeqNext(n);
      }
    }

    method DeclarePermanentLoss(lost: Seq24)
      modifies inner
      ensures State() == DeclareLoss(old(State()), lost)
    {
      inner.received := inner.received[lost := []];
      var d := SeqDelta(OrZero(inner.highest), lost);
      if 0 < d < HALF {
        inner.highest := Some(lost);
      }
      inner.received := map[];
      inner.buffer := map[];
      inner.resetRequests := inner.resetRequests + 1;
    }

    /** The loop over a gap.  A probe also drains after each declared loss. */
    method ScanNumbers(from: Seq24, limit: nat, now: nat, probe: bool) returns (missing: seq<Seq24>, ghost lost: seq<Seq24>)
      modifies this, inner
      ensures Scan(State(), missing, lost) == ScanGap(Scan(old(State()), [], []), from, now, 1, limit)
    {
      hide Wire, SeqDelta, SettleStrict, DeclareLoss;
      missing, lost := [], [];
      var k := 1;
      while k <= limit
        invariant 1 <= k <= limit + 1
        invariant ScanGap(Scan(State(), missing, lost), from, now, k, limit)
               == ScanGap(Scan(old(State()), [], []), from, now, 1, limit)
      {
        var i := Wire(from + k);
        ghost var before := Scan(State(), missing, lost);
        if i !in inner.buffer && i !in inner.received {
          var ts := 0;
          if i !in stamps {
            stamps := stamps[i := now];
          } else {
            ts := stamps[i];
          }
          if ts > 0 && now - ts > PATIENCE {
            DeclarePermanentLoss(i);
            lost := lost + [i];
            if probe {
              DrainAfterLossIsIdle(inner.suite, before.state, i);
              ProcessBufferedPackets();
            }
          } else {
            missing := missing + [i];
          }
        }
        assert Scan(State(), missing, lost) == Look(before, i, now);
        k := k + 1;
      }
    }

    method HandleData(p: DataPacket, now: nat) returns (missing: seq<Seq24>, ghost lost: seq<Seq24>)
      modifies this, inner
      ensures Scan(State(), missing, lost) == OnData(inner.suite, old(State()), p, now)
    {
      hide Wire, SeqDelta, ScanGap, SettleStrict, ProcessStrict, Unseal;
      var num := p.header.num;
      missing, lost := [], [];
      var ahead := if inner.highest.Some? then SeqDelta(inner.highest.value, num)
                   else if 1 <= num <= DICT_WINDOW then num else 1;
      if ahead == 0 || HALF <= ahead {
        return;
      }
      if ahead > 1 {
        inner.buffer := inner.buffer[num := p];
        missing, lost := ScanNumbers(OrZero(inner.highest), ahead - 1, now, false);
        return;
      }
      var dec := inner.DecryptDataInOrder(p);
      if dec.Some? {
        ProcessDataPacket(p, dec.value, num);
        ProcessBufferedPackets();
      }
    }

    method HandleSync(num: Seq24, now: nat) returns (missing: seq<Seq24>, ghost lost: seq<Seq24>)
      modifies this, inner
      ensures Scan(State(), missing, lost) == OnSync(old(State()), num, now)
    {
      hide Wire, SeqDelta, ScanGap;
      missing, lost := [], [];
      var ahead := if inner.highest.Some? then SeqDelta(inner.highest.value, num) else num;
      if 0 < ahead < HALF {
        missing, lost := ScanNumbers(OrZero(inner.highest), ahead, now, true);
      }
    }
  }
}
