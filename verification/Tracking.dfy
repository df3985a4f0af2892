/** The receiver's true position.  As long as nothing in play is half the
    sequence space away, what a receiver delivers is a strictly increasing
    selection from the sender's log, each payload at its true number. */
module Tracking {
  import opened Primitives
  import opened Sequence
  import opened Dictionaries
  import opened Ratchet
  import opened Sender
  import opened SenderLedger
  import opened Receiver
  import opened Gate

  /** `r` stands at message `pos` and delivered exactly messages `nums`, in order. */
  ghost predicate Tracks(l: Ledger, r: Inbound, pos: int, nums: seq<int>) {
    && r.highest == Some(Wire(pos))
    && |nums| == |r.delivered| && nums != [] && nums[|nums| - 1] == pos
    && (forall i, j :: 0 <= i < j < |nums| ==> nums[i] < nums[j])
    && (forall i :: 0 <= i < |nums| ==> IsDelivery(l, r.delivered[i], nums[i]))
    && (forall k :: k in r.received ==> HeldAt(l, r.received, pos, k))
  }

  ghost predicate IsDelivery(l: Ledger, d: Delivery, u: int) {
    l.first <= u <= l.Top() && d == Delivery(Wire(u), l.log[u - l.first])
  }

  /** The message held under wire number `k` is the latest one at or before `pos`
      with that wire number. */
  ghost predicate HeldAt(l: Ledger, h: History, pos: int, k: Seq24)
    requires k in h
  {
    && l.first <= Back(pos, k) <= l.Top() && pos - Back(pos, k) <= RETAINED
    && h[k] == l.log[Back(pos, k) - l.first]
  }

  lemma StoreTracks(l: Ledger, r: Inbound, pos: int, nums: seq<int>, n: int)
    requires Tracks(l, r, pos, nums) && pos < n < pos + HALF && n <= l.Top()
    ensures Tracks(l, Store(r, Wire(n), l.log[n - l.first]), n, nums + [n])
  {
    hide Wire, SeqDelta, SeqNext;
    var r' := Store(r, Wire(n), l.log[n - l.first]);
    assert Wire(n) !in r.received by {
      if Wire(n) in r.received {
        assert HeldAt(l, r.received, pos, Wire(n));
        BackMoves(pos, n, Wire(n));
      }
    }
    WireDelta(pos, n);
    forall k | k in r'.received ensures HeldAt(l, r'.received, n, k) {
      HeldAfterStore(l, r, pos, n, k);
    }
    var nums' := nums + [n];
    forall i, j | 0 <= i < j < |nums'| ensures nums'[i] < nums'[j] {
      if j == |nums| && i < |nums| - 1 { assert nums[i] < nums[|nums| - 1]; }
    }
  }

  lemma HeldAfterStore(l: Ledger, r: Inbound, pos: int, n: int, k: Seq24)
    requires pos < n < pos + HALF && l.first <= n <= l.Top()
    requires k in Pruned(r.received[Wire(n) := l.log[n - l.first]], Wire(n))
    requires k in r.received ==> HeldAt(l, r.received, pos, k)
    ensures HeldAt(l, Pruned(r.received[Wire(n) := l.log[n - l.first]], Wire(n)), n, k)
  {
    if k == Wire(n) {
      BackIsUnique(n, k, n);
    } else {
      BackMoves(pos, n, k);
    }
  }

  /** Accepting a packet of message `n`, or one that does not open, leaves the
      receiver at `pos` or takes it to `n`. */
  lemma AcceptTracks(suite: Suite, l: Ledger, net: set<Emission>, ds: set<Bytes>,
                     r: Inbound, pos: int, nums: seq<int>, p: DataPacket, n: int)
    returns (pos': int, nums': seq<int>)
    requires Setting(suite, l, net, ds)
    requires Tracks(l, r, pos, nums) && pos < n < pos + HALF
    requires Carries(net, p, n) || Unopenable(suite, p)
    requires Accept(suite, r, p, Wire(n)).dicts <= ds
    ensures Tracks(l, Accept(suite, r, p, Wire(n)), pos', nums') && (pos' == pos || pos' == n)
  {
    var r' := Accept(suite, r, p, Wire(n));
    AcceptOutcome(suite, l, net, ds, r, p, n);
    if SameShelf(r, r') || SameShelf(r.(received := map[]), r') {
      pos', nums' := pos, nums;
    } else {
      StoreTracks(l, r, pos, nums, n);
      pos', nums' := n, nums + [n];
    }
  }

  /** A packet of some message within half the space of `pos`. */
  ghost predicate NearBy(net: set<Emission>, p: DataPacket, pos: int) {
    exists e :: e in net && e.packet == p && Near(pos, e.u)
  }

  /** Nothing buffered is half the sequence space or more away from `pos`. */
  ghost predicate InPlay(suite: Suite, net: set<Emission>, r: Inbound, pos: int) {
    && Wire(pos + HALF) !in r.buffer
    && forall k :: k in r.buffer ==> NearBy(net, r.buffer[k], pos) || Unopenable(suite, r.buffer[k])
  }

  lemma BufferedIsNext(suite: Suite, l: Ledger, net: set<Emission>, p: DataPacket, pos: int, n: int)
    requires forall e :: e in net ==> EmissionOk(suite, l, e)
    requires NearBy(net, p, pos) && p.header.num == Wire(n) && pos < n < pos + HALF
    ensures Carries(net, p, n)
  {
    var e :| e in net && e.packet == p && Near(pos, e.u);
    WireInjective(e.u, n);
  }

  lemma PopStaysInPlay(suite: Suite, net: set<Emission>, r: Inbound, start: int, n: Seq24)
    requires InPlay(suite, net, r, start) && Keyed(r) && n in r.buffer
    ensures InPlay(suite, net, Pop(suite, r, n), start) && Keyed(Pop(suite, r, n))
  {
  }

  lemma TracksAnyBuffer(l: Ledger, r: Inbound, r': Inbound, pos: int, nums: seq<int>)
    requires Tracks(l, r, pos, nums) && r' == r.(buffer := r'.buffer)
    ensures Tracks(l, r', pos, nums)
  {
  }

  lemma PopTracks(suite: Suite, l: Ledger, net: set<Emission>, ds: set<Bytes>,
                  r: Inbound, pos: int, nums: seq<int>, start: int, n: int)
    returns (pos': int, nums': seq<int>)
    requires Setting(suite, l, net, ds)
    requires Tracks(l, r, pos, nums) && start <= pos < n <= start + HALF
    requires InPlay(suite, net, r, start) && Keyed(r) && Wire(n) in r.buffer
    requires Pop(suite, r, Wire(n)).dicts <= ds
    ensures Tracks(l, Pop(suite, r, Wire(n)), pos', nums') && pos <= pos' <= n < start + HALF
  {
    hide Wire, SeqDelta, SeqNext, Accept, Tracks, EmissionOk;
    var p := r.buffer[Wire(n)];
    TracksAnyBuffer(l, r, r.(buffer := r.buffer - {Wire(n)}), pos, nums);
    if !Unopenable(suite, p) { BufferedIsNext(suite, l, net, p, start, n); }
    pos', nums' := AcceptTracks(suite, l, net, ds, r.(buffer := r.buffer - {Wire(n)}), pos, nums, p, n);
  }

  lemma {:induction false} DrainTracks(suite: Suite, l: Ledger, net: set<Emission>, ds: set<Bytes>,
                                       r: Inbound, pos: int, nums: seq<int>, start: int, n: int)
    returns (pos': int, nums': seq<int>)
    requires Setting(suite, l, net, ds)
    requires Tracks(l, r, pos, nums) && start <= pos < n <= start + HALF
    requires InPlay(suite, net, r, start) && Keyed(r)
    requires Drain(suite, r, Wire(n)).dicts <= ds
    ensures Tracks(l, Drain(suite, r, Wire(n)), pos', nums') && pos <= pos' < start + HALF
    decreases |r.buffer|
  {
    if Wire(n) in r.buffer {
      var r' := Pop(suite, r, Wire(n));
      WireNext(n);
      DrainDictsGrow(suite, r', Wire(n + 1));
      PopStaysInPlay(suite, net, r, start, Wire(n));
      pos', nums' := PopTracks(suite, l, net, ds, r, pos, nums, start, n);
      pos', nums' := DrainTracks(suite, l, net, ds, r', pos', nums', start, n + 1);
    } else {
      pos', nums' := pos, nums;
    }
  }

  /** A receiver that has not stored anything yet. */
  ghost predicate Unstarted(r: Inbound) {
    && r.highest == None && r.received == map[] && r.delivered == []
    && forall k :: k in r.buffer ==> 1 < k <= DICT_WINDOW
  }

  /** The numbers a receiver without a baseline takes for a gap after 0. */
  predicate TakenForGap(num: Seq24) {
    1 < num <= DICT_WINDOW
  }

  lemma UnstartedSettles(suite: Suite, r: Inbound)
    requires Unstarted(r)
    ensures Settle(suite, r) == r
  {
  }

  lemma SettleTracks(suite: Suite, l: Ledger, net: set<Emission>, ds: set<Bytes>, r: Inbound, pos: int, nums: seq<int>, start: int)
    returns (pos': int, nums': seq<int>)
    requires Setting(suite, l, net, ds) && Tracks(l, r, pos, nums) && start <= pos < start + HALF
    requires InPlay(suite, net, r, start) && Keyed(r)
    requires Settle(suite, r).dicts <= ds
    ensures Tracks(l, Settle(suite, r), pos', nums') && pos <= pos' < start + HALF
  {
    WireNext(pos);
    pos', nums' := DrainTracks(suite, l, net, ds, r, pos, nums, start, pos + 1);
  }

  lemma TakeNextTracks(suite: Suite, l: Ledger, net: set<Emission>, ds: set<Bytes>,
                       r: Inbound, pos: int, nums: seq<int>, e: Emission)
    returns (pos': int, nums': seq<int>)
    requires Setting(suite, l, net, ds) && e in net && e.u == pos + 1
    requires Tracks(l, r, pos, nums) && InPlay(suite, net, r, pos) && Keyed(r)
    requires TakeNext(suite, r, e.packet).dicts <= ds
    ensures Tracks(l, TakeNext(suite, r, e.packet), pos', nums') && pos <= pos' < pos + HALF
  {
    pos', nums' := pos, nums;
    if Unseal(suite, r, e.packet).Some? {
      var r' := Accept(suite, r, e.packet, Wire(e.u));
      DrainDictsGrow(suite, r', SeqNext(OrZero(r'.highest)));
      assert Carries(net, e.packet, e.u);
      pos', nums' := AcceptTracks(suite, l, net, ds, r, pos, nums, e.packet, e.u);
      pos', nums' := SettleTracks(suite, l, net, ds, r', pos', nums', pos);
    }
  }

  lemma ReceiveTracks(suite: Suite, l: Ledger, net: set<Emission>, ds: set<Bytes>,
                      r: Inbound, pos: int, nums: seq<int>, e: Emission)
    returns (pos': int, nums': seq<int>)
    requires Setting(suite, l, net, ds) && e in net && Near(pos, e.u)
    requires Tracks(l, r, pos, nums) && InPlay(suite, net, r, pos) && Keyed(r)
    requires Receive(suite, r, e.packet).dicts <= ds
    ensures Tracks(l, Receive(suite, r, e.packet), pos', nums') && pos <= pos' < pos + HALF
  {
    WireDelta(pos, e.u);
    if Ahead(r, e.packet.header.num) == 1 {
      pos', nums' := TakeNextTracks(suite, l, net, ds, r, pos, nums, e);
    } else {
      pos', nums' := pos, nums;
    }
  }

  /** The first packet stored sets the position to its own number. */
  lemma ReceiveStarts(suite: Suite, l: Ledger, net: set<Emission>, ds: set<Bytes>, r: Inbound, e: Emission)
    returns (pos': int, nums': seq<int>)
    requires Setting(suite, l, net, ds) && e in net
    requires Unstarted(r) && InPlay(suite, net, r, e.u) && Keyed(r)
    requires Receive(suite, r, e.packet).dicts <= ds
    ensures var r' := Receive(suite, r, e.packet);
            if r'.highest.None? then Unstarted(r')
            else Tracks(l, r', pos', nums') && e.u <= pos' < e.u + HALF
  {
    pos', nums' := e.u, [e.u];
    if Ahead(r, e.packet.header.num) == 1 && Unseal(suite, r, e.packet).Some? {
      var r' := Accept(suite, r, e.packet, Wire(e.u));
      DrainDictsGrow(suite, r', SeqNext(OrZero(r'.highest)));
      FirstAccept(suite, l, net, ds, r, e);
      if r'.highest.Some? {
        pos', nums' := SettleTracks(suite, l, net, ds, r', e.u, [e.u], e.u);
      }
    }
  }

  lemma FirstAccept(suite: Suite, l: Ledger, net: set<Emission>, ds: set<Bytes>, r: Inbound, e: Emission)
    requires Setting(suite, l, net, ds) && e in net && Unstarted(r)
    requires Accept(suite, r, e.packet, Wire(e.u)).dicts <= ds
    ensures var r' := Accept(suite, r, e.packet, Wire(e.u));
            if r'.highest.None? then Unstarted(r') else Tracks(l, r', e.u, [e.u])
  {
    hide Wire, SeqDelta, Accept, EmissionOk, CarriesWith, Pruned, HeldAt;
    assert Carries(net, e.packet, e.u);
    AcceptOutcome(suite, l, net, ds, r, e.packet, e.u);
    if l.first <= e.u <= l.Top() { FirstStoreTracks(l, r, e.u); }
  }

  lemma FirstStoreTracks(l: Ledger, r: Inbound, u: int)
    requires Unstarted(r) && l.first <= u <= l.Top()
    ensures Tracks(l, Store(r, Wire(u), l.log[u - l.first]), u, [u])
  {
    BackIsUnique(u, Wire(u), u);
  }

  lemma DamageTracksNothing(suite: Suite, r: Inbound, p: DataPacket)
    requires Unopenable(suite, p)
    ensures var r' := Receive(suite, r, p);
            r' == r.(buffer := r'.buffer) && (Unstarted(r) ==> Unstarted(r'))
  {
  }
}
