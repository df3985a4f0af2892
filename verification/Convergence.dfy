/** Reordering and repetition do not matter: any arrival order of the packets of
    messages n+1..m leaves the receiver in the state of in-order arrival. */
module Convergence {
  import opened Primitives
  import opened Sequence
  import opened Dictionaries
  import opened Ratchet
  import opened Sender
  import opened SenderLedger
  import opened Receiver
  import opened Gate

  /** The receiver stands at `n` and holds all it should since flush point `base`. */
  ghost predicate AtRest(l: Ledger, r: Inbound, base: int, n: int) {
    && l.first <= base <= n + 1
    && r.highest == Some(Wire(n))
    && Retains(r.received, l.log, l.first, Max(base, n - RETAINED), n)
  }

  /** Messages n+1..m exist. */
  predicate InRange(l: Ledger, n: int, m: int) {
    l.first <= n + 1 && n <= m <= l.Top() && |l.uses| == |l.log|
  }

  function Use(l: Ledger, u: int): KeyUse
    requires l.first <= u <= l.Top() && |l.uses| == |l.log|
  {
    l.uses[u - l.first]
  }

  /** The receiver's chain for message `u` is the one that sealed it, not past it. */
  ghost predicate CanOpen(suite: Suite, l: Ledger, r: Inbound, u: int)
    requires l.first <= u <= l.Top() && |l.uses| == |l.log|
  {
    var use := Use(l, u);
    use.epoch in r.chains && OnChain(suite, use.seed, r.chains[use.epoch]) && r.chains[use.epoch].index <= use.idx
  }

  /** Messages n+1..m exist, all can be opened, and within an epoch they were
      sealed by one chain, later messages at later positions. */
  ghost predicate Ready(suite: Suite, l: Ledger, r: Inbound, n: int, m: int) {
    && InRange(l, n, m)
    && (forall u :: n < u <= m ==> CanOpen(suite, l, r, u))
    && (forall u, v :: n < u < v <= m && Use(l, u).epoch == Use(l, v).epoch ==>
          Use(l, u).seed == Use(l, v).seed && Use(l, u).idx < Use(l, v).idx)
  }

  /** `e` is a packet of its message, compressed against the messages since `base`. */
  ghost predicate Proper(suite: Suite, l: Ledger, base: int, e: Emission) {
    && l.first <= base && EmissionOk(suite, l, e)
    && e.dict == Span(l.log, l.first, Max(base, e.u - DICT_WINDOW), e.u)
  }

  /** The state after delivering message `u` on top of `r`. */
  function Take(suite: Suite, l: Ledger, r: Inbound, u: int): (r': Inbound)
    requires l.first <= u <= l.Top() && |l.uses| == |l.log|
    ensures r'.buffer == r.buffer
  {
    var use := Use(l, u);
    Store(r.(chains := r.chains[use.epoch := ChainState(Iterate(suite, use.seed, use.idx + 1), use.idx + 1)],
             dicts := r.dicts + {Dictionary(r.received, Wire(u))}),
          Wire(u), l.log[u - l.first])
  }

  /** The state after delivering messages n+1..p in order. */
  function InOrder(suite: Suite, l: Ledger, r: Inbound, n: int, p: int): (r': Inbound)
    requires InRange(l, n, p)
    ensures r'.buffer == r.buffer
    decreases p - n
  {
    if p == n then r else Take(suite, l, InOrder(suite, l, r, n, p - 1), p)
  }

  // ---- In-order delivery ----

  lemma TakeRests(suite: Suite, l: Ledger, r: Inbound, base: int, n: int)
    requires AtRest(l, r, base, n) && n < l.Top() && |l.uses| == |l.log|
    ensures var r' := Take(suite, l, r, n + 1);
            && AtRest(l, r', base, n + 1)
            && r'.delivered == r.delivered + [Delivery(Wire(n + 1), l.log[n + 1 - l.first])]
  {
    var lo := Max(base, n - RETAINED);
    RetainsAt(r.received, l.log, l.first, lo, n, n + 1);
    RetainsNext(r.received, l.log, l.first, lo, n);
    WireDelta(n, n + 1);
  }

  lemma TakeStaysReady(suite: Suite, l: Ledger, r: Inbound, n: int, m: int)
    requires Ready(suite, l, r, n, m) && n < m
    ensures Ready(suite, l, Take(suite, l, r, n + 1), n + 1, m)
  {
    hide Wire, SeqDelta, Dictionary, Iterate;
    var r' := Take(suite, l, r, n + 1);
    forall u | n + 1 < u <= m ensures CanOpen(suite, l, r', u) {
      assert CanOpen(suite, l, r, u);
    }
  }

  /** What in-order delivery leaves behind: position m, the history of m, and
      messages n+1..m appended to what was delivered before. */
  lemma {:induction false} InOrderDelivers(suite: Suite, l: Ledger, r: Inbound, base: int, n: int, m: int, p: int)
    requires AtRest(l, r, base, n) && Ready(suite, l, r, n, m) && n <= p <= m
    ensures var r' := InOrder(suite, l, r, n, p);
            && AtRest(l, r', base, p) && Ready(suite, l, r', p, m)
            && |r'.delivered| == |r.delivered| + (p - n)
            && (forall i :: 0 <= i < |r.delivered| ==> r'.delivered[i] == r.delivered[i])
            && (forall u :: n < u <= p ==>
                  r'.delivered[|r.delivered| + u - n - 1] == Delivery(Wire(u), l.log[u - l.first]))
    decreases p - n
  {
    hide Wire, SeqDelta, Retains, CanOpen, Take, Use;
    if p > n {
      var q := InOrder(suite, l, r, n, p - 1);
      InOrderDelivers(suite, l, r, base, n, m, p - 1);
      TakeRests(suite, l, q, base, p - 1);
      TakeStaysReady(suite, l, q, p - 1, m);
    }
  }

  /** Accepting any proper packet of the next message is taking that message. */
  lemma AcceptTakes(suite: Suite, l: Ledger, r: Inbound, base: int, n: int, e: Emission)
    requires Lawful(suite) && Proper(suite, l, base, e) && e.u == n + 1
    requires AtRest(l, r, base, n) && CanOpen(suite, l, r, n + 1)
    ensures Unseal(suite, r, e.packet).Some?
    ensures Accept(suite, r, e.packet, Wire(n + 1)) == Take(suite, l, r, n + 1)
  {
    hide Wire, SeqDelta, Iterate;
    var use := Use(l, e.u);
    var payload := l.log[e.u - l.first];
    var mk := MessageKeyAt(suite, use.seed, use.idx);
    AdvanceFromAnywhere(suite, use.seed, r.chains[use.epoch], use.idx);
    assert SealLaw(suite, mk, e.packet.header, suite.deflate(payload, e.dict), mk, e.packet.header);
    assert DeflateLaw(suite, payload, e.dict);
    DictionaryOfLog(r.received, l.log, l.first, Max(base, n - RETAINED), n, n + 1);
  }

  // ---- Arrival in any order ----

  /** Everything the theorem assumes about the receiver and the packets. */
  ghost predicate Stage(suite: Suite, l: Ledger, net: set<Emission>, r: Inbound, base: int, n: int, m: int) {
    && Lawful(suite) && InRange(l, n, m) && m - n < HALF
    && AtRest(l, r, base, n) && Ready(suite, l, r, n, m)
    && (forall e :: e in net ==> Proper(suite, l, base, e))
    && (forall k :: k in r.buffer ==> !(n < Forth(n, k) <= m + 1))
  }

  /** The buffer entry for wire number `k` once the messages numbered in `seen`
      have arrived and those up to `p` have been delivered. */
  ghost predicate Slot(net: set<Emission>, r: Inbound, c: Inbound, n: int, m: int, p: int, seen: set<int>, k: Seq24) {
    var u := Forth(n, k);
    if p < u <= m then (k in c.buffer <==> u in seen) && (k in c.buffer ==> Carries(net, c.buffer[k], u))
    else (k in c.buffer <==> k in r.buffer) && (k in c.buffer ==> c.buffer[k] == r.buffer[k])
  }

  /** `c` has delivered n+1..p and buffered exactly the later messages seen. */
  ghost predicate Midway(suite: Suite, l: Ledger, net: set<Emission>, r: Inbound, n: int, m: int, c: Inbound, p: int, seen: set<int>)
    requires InRange(l, n, m)
  {
    && n <= p <= m
    && (forall u :: n < u <= p ==> u in seen)
    && c == InOrder(suite, l, r, n, p).(buffer := c.buffer)
    && (forall k: Seq24 :: Slot(net, r, c, n, m, p, seen, k))
  }

  /** Nothing more can be delivered: the next message has not been seen. */
  ghost predicate Stuck(m: int, p: int, seen: set<int>) {
    p == m || p + 1 !in seen
  }

  lemma AcceptNext(suite: Suite, l: Ledger, net: set<Emission>, r: Inbound, base: int, n: int, m: int, c: Inbound, p: int, pkt: DataPacket)
    requires Stage(suite, l, net, r, base, n, m) && n <= p < m
    requires c == InOrder(suite, l, r, n, p).(buffer := c.buffer) && Carries(net, pkt, p + 1)
    ensures Unseal(suite, c, pkt).Some? && c.highest == Some(Wire(p)) && pkt.header.num == Wire(p + 1)
    ensures Accept(suite, c, pkt, Wire(p + 1)) == InOrder(suite, l, r, n, p + 1).(buffer := c.buffer)
  {
    hide Wire, SeqDelta, Retains, Unseal, Accept, Iterate, Dictionary, Ready;
    var e :| e in net && e.packet == pkt && e.u == p + 1;
    InOrderDelivers(suite, l, r, base, n, m, p);
    CanOpenNext(suite, l, InOrder(suite, l, r, n, p), c, p, m);
    AcceptTakes(suite, l, c, base, p, e);
  }

  lemma CanOpenNext(suite: Suite, l: Ledger, q: Inbound, c: Inbound, p: int, m: int)
    requires Ready(suite, l, q, p, m) && p < m && c == q.(buffer := c.buffer)
    ensures CanOpen(suite, l, c, p + 1)
  {
    assert CanOpen(suite, l, q, p + 1);
  }

  lemma PopConverges(suite: Suite, l: Ledger, net: set<Emission>, r: Inbound,
                     base: int, n: int, m: int, c: Inbound, p: int, seen: set<int>)
    requires Stage(suite, l, net, r, base, n, m) && Midway(suite, l, net, r, n, m, c, p, seen) && !Stuck(m, p, seen)
    ensures Wire(p + 1) in c.buffer
    ensures Midway(suite, l, net, r, n, m, Pop(suite, c, Wire(p + 1)), p + 1, seen)
  {
    hide Wire, SeqDelta, Accept, InOrder, Forth, AtRest, Ready;
    var s := Wire(p + 1);
    ForthIsUnique(n, s, p + 1);
    assert Slot(net, r, c, n, m, p, seen, s);
    var rest := c.(buffer := c.buffer - {s});
    AcceptNext(suite, l, net, r, base, n, m, rest, p, c.buffer[s]);
    var c', p' := Pop(suite, c, s), p + 1;
    forall k: Seq24 ensures Slot(net, r, c', n, m, p', seen, k) {
      assert Slot(net, r, c, n, m, p, seen, k);
      ForthIsUnique(n, k, p + 1);
    }
  }

  lemma {:induction false} DrainConverges(suite: Suite, l: Ledger, net: set<Emission>, r: Inbound,
                                          base: int, n: int, m: int, c: Inbound, p: int, seen: set<int>)
    returns (p': int)
    requires Stage(suite, l, net, r, base, n, m) && Midway(suite, l, net, r, n, m, c, p, seen)
    ensures Midway(suite, l, net, r, n, m, Drain(suite, c, Wire(p + 1)), p', seen) && Stuck(m, p', seen)
    decreases m - p
  {
    hide Wire, SeqDelta, SeqNext, Pop, InOrder, Stage, Slot, Carries;
    if Stuck(m, p, seen) {
      NothingToDrain(suite, l, net, r, base, n, m, c, p, seen);
      p' := p;
    } else {
      PopConverges(suite, l, net, r, base, n, m, c, p, seen);
      WireNext(p + 1);
      p' := DrainConverges(suite, l, net, r, base, n, m, Pop(suite, c, Wire(p + 1)), p + 1, seen);
    }
  }

  lemma NothingToDrain(suite: Suite, l: Ledger, net: set<Emission>, r: Inbound,
                       base: int, n: int, m: int, c: Inbound, p: int, seen: set<int>)
    requires Stage(suite, l, net, r, base, n, m) && Midway(suite, l, net, r, n, m, c, p, seen) && Stuck(m, p, seen)
    ensures Wire(p + 1) !in c.buffer
  {
    hide Wire, SeqDelta, Forth, InOrder, AtRest, Ready;
    ForthIsUnique(n, Wire(p + 1), p + 1);
    assert Slot(net, r, c, n, m, p, seen, Wire(p + 1));
  }

  /** One arrival, of any message of the range, seen before or not. */
  lemma ArrivalConverges(suite: Suite, l: Ledger, net: set<Emission>, r: Inbound, base: int, n: int, m: int,
                         c: Inbound, p: int, seen: set<int>, e: Emission)
    returns (p': int)
    requires Stage(suite, l, net, r, base, n, m) && Midway(suite, l, net, r, n, m, c, p, seen) && Stuck(m, p, seen)
    requires e in net && n < e.u <= m
    ensures Midway(suite, l, net, r, n, m, Receive(suite, c, e.packet), p', seen + {e.u}) && Stuck(m, p', seen + {e.u})
  {
    hide Wire, SeqDelta, SeqNext, InOrder, Slot, Retains, Ready, Accept, Unseal, Drain;
    ArrivalClass(suite, l, net, r, base, n, m, c, p, e);
    if e.u <= p {
      assert seen + {e.u} == seen;
      p' := p;
    } else if e.u > p + 1 {
      BufferConverges(suite, l, net, r, n, m, c, p, seen, e);
      p' := p;
    } else {
      assert Carries(net, e.packet, p + 1);
      AcceptNext(suite, l, net, r, base, n, m, c, p, e.packet);
      NextConverges(suite, l, net, r, base, n, m, c, p, seen);
      var c' := Accept(suite, c, e.packet, Wire(p + 1));
      InOrderDelivers(suite, l, r, base, n, m, p + 1);
      WireNext(p + 1);
      p' := DrainConverges(suite, l, net, r, base, n, m, c', p + 1, seen + {e.u});
    }
  }

  lemma ArrivalClass(suite: Suite, l: Ledger, net: set<Emission>, r: Inbound, base: int, n: int, m: int, c: Inbound, p: int, e: Emission)
    requires Stage(suite, l, net, r, base, n, m) && n <= p <= m && c == InOrder(suite, l, r, n, p).(buffer := c.buffer)
    requires e in net && n < e.u <= m
    ensures var a := Ahead(c, e.packet.header.num);
            && e.packet.header.num == Wire(e.u)
            && (e.u <= p ==> a == 0 || HALF <= a) && (p < e.u ==> a == e.u - p)
  {
    InOrderDelivers(suite, l, r, base, n, m, p);
    assert Proper(suite, l, base, e);
    WireDelta(p, e.u);
  }

  lemma BufferConverges(suite: Suite, l: Ledger, net: set<Emission>, r: Inbound,
                        n: int, m: int, c: Inbound, p: int, seen: set<int>, e: Emission)
    requires InRange(l, n, m) && m - n < HALF
    requires Midway(suite, l, net, r, n, m, c, p, seen) && e in net && p + 1 < e.u <= m
    ensures Midway(suite, l, net, r, n, m, c.(buffer := c.buffer[Wire(e.u) := e.packet]), p, seen + {e.u})
  {
    hide Wire, SeqDelta, Forth, InOrder;
    var c', seen' := c.(buffer := c.buffer[Wire(e.u) := e.packet]), seen + {e.u};
    assert Carries(net, e.packet, e.u);
    forall k: Seq24 ensures Slot(net, r, c', n, m, p, seen', k) {
      assert Slot(net, r, c, n, m, p, seen, k);
      ForthIsUnique(n, k, e.u);
    }
  }

  /** Delivering the next message directly: its own slot stays free. */
  lemma NextConverges(suite: Suite, l: Ledger, net: set<Emission>, r: Inbound,
                      base: int, n: int, m: int, c: Inbound, p: int, seen: set<int>)
    requires Stage(suite, l, net, r, base, n, m) && Midway(suite, l, net, r, n, m, c, p, seen) && p + 1 !in seen && p < m
    ensures Midway(suite, l, net, r, n, m, InOrder(suite, l, r, n, p + 1).(buffer := c.buffer), p + 1, seen + {p + 1})
  {
    hide Wire, SeqDelta, Forth, InOrder, AtRest, Ready;
    var c', p', seen' := InOrder(suite, l, r, n, p + 1).(buffer := c.buffer), p + 1, seen + {p + 1};
    forall k: Seq24 ensures Slot(net, r, c', n, m, p', seen', k) {
      assert Slot(net, r, c, n, m, p, seen, k);
    }
  }

  // ---- The theorem ----

  /** The receiver after the first `k` arrivals. */
  function ReceiveAll(suite: Suite, r: Inbound, arrivals: seq<Emission>, k: nat): Inbound
    requires k <= |arrivals|
  {
    if k == 0 then r else Receive(suite, ReceiveAll(suite, r, arrivals, k - 1), arrivals[k - 1].packet)
  }

  function Seen(arrivals: seq<Emission>, k: nat): set<int>
    requires k <= |arrivals|
  {
    if k == 0 then {} else Seen(arrivals, k - 1) + {arrivals[k - 1].u}
  }

  lemma {:induction false} ArrivalsConverge(suite: Suite, l: Ledger, net: set<Emission>, r: Inbound, base: int, n: int, m: int,
                                            arrivals: seq<Emission>, k: nat)
    returns (p: int)
    requires Stage(suite, l, net, r, base, n, m) && k <= |arrivals|
    requires forall i :: 0 <= i < |arrivals| ==> arrivals[i] in net && n < arrivals[i].u <= m
    ensures Midway(suite, l, net, r, n, m, ReceiveAll(suite, r, arrivals, k), p, Seen(arrivals, k))
    ensures Stuck(m, p, Seen(arrivals, k))
  {
    hide Wire, SeqDelta, Receive, InOrder, AtRest, Ready, Slot;
    if k == 0 {
      p := n;
      StartConverges(suite, l, net, r, base, n, m);
    } else {
      p := ArrivalsConverge(suite, l, net, r, base, n, m, arrivals, k - 1);
      p := ArrivalConverges(suite, l, net, r, base, n, m, ReceiveAll(suite, r, arrivals, k - 1), p, Seen(arrivals, k - 1), arrivals[k - 1]);
    }
  }

  lemma StartConverges(suite: Suite, l: Ledger, net: set<Emission>, r: Inbound, base: int, n: int, m: int)
    requires Stage(suite, l, net, r, base, n, m)
    ensures Midway(suite, l, net, r, n, m, r, n, {})
  {
    hide Wire, SeqDelta, Forth, AtRest, Ready;
    forall k: Seq24 ensures Slot(net, r, r, n, m, n, {}, k) {
    }
  }

  ghost predicate Arrived(arrivals: seq<Emission>, u: int) {
    exists i :: 0 <= i < |arrivals| && arrivals[i].u == u
  }

  /** Any arrival order, with any repetitions, of packets of messages n+1..m that
      covers them all leaves exactly the state of in-order delivery: position,
      history, chains, deliveries and an unchanged buffer. */
  lemma AnyOrderConverges(suite: Suite, l: Ledger, net: set<Emission>, r: Inbound, base: int, n: int, m: int, arrivals: seq<Emission>)
    requires Stage(suite, l, net, r, base, n, m)
    requires forall i :: 0 <= i < |arrivals| ==> arrivals[i] in net && n < arrivals[i].u <= m
    requires forall u :: n < u <= m ==> Arrived(arrivals, u)
    ensures ReceiveAll(suite, r, arrivals, |arrivals|) == InOrder(suite, l, r, n, m)
  {
    hide Wire, SeqDelta, Receive, AtRest, Ready, ReceiveAll, Seen, Forth, Slot, InOrder, Proper;
    var p := ArrivalsConverge(suite, l, net, r, base, n, m, arrivals, |arrivals|);
    if p < m {
      assert Arrived(arrivals, p + 1);
      var i :| 0 <= i < |arrivals| && arrivals[i].u == p + 1;
      SeenHas(arrivals, |arrivals|, i);
    }
    BufferRestored(suite, l, net, r, n, m, ReceiveAll(suite, r, arrivals, |arrivals|), Seen(arrivals, |arrivals|));
  }

  lemma BufferRestored(suite: Suite, l: Ledger, net: set<Emission>, r: Inbound, n: int, m: int, c: Inbound, seen: set<int>)
    requires InRange(l, n, m) && Midway(suite, l, net, r, n, m, c, m, seen)
    ensures c == InOrder(suite, l, r, n, m)
  {
    hide Wire, SeqDelta, Forth, InOrder;
    forall k: Seq24 ensures (k in c.buffer <==> k in r.buffer) && (k in c.buffer ==> c.buffer[k] == r.buffer[k]) {
      assert Slot(net, r, c, n, m, m, seen, k);
    }
    assert c.buffer == r.buffer;
  }

  lemma {:induction false} SeenHas(arrivals: seq<Emission>, k: nat, i: nat)
    requires i < k <= |arrivals|
    ensures arrivals[i].u in Seen(arrivals, k)
  {
    if i < k - 1 { SeenHas(arrivals, k - 1, i); }
  }
}
