/** The receiving half of a client, for the stream of one remote sender:
    classification by modular distance, the out-of-order buffer and its drain,
    and the dictionary gate in front of every delivery. */
module Receiver {
  import opened Primitives
  import opened Sequence
  import opened Dictionaries
  import opened Ratchet

  datatype Delivery = Delivery(num: Seq24, payload: Bytes)

  datatype Inbound = Inbound(
    highest: Option<Seq24>,
    received: History,
    buffer: map<Seq24, DataPacket>,
    chains: map<nat, ChainState>,   // the sender's chain by epoch
    resetRequests: nat,             // Dict-Resets this receiver has asked for
    delivered: seq<Delivery>,       // every message stored so far, in order
    dicts: set<Bytes>               // every dictionary compared so far
  )

  const Newcomer: Inbound := Inbound(None, map[], map[], map[], 0, [], {})

  function OrZero(h: Option<Seq24>): Seq24 {
    match h case None => 0 case Some(s) => s
  }

  datatype Opened = Opened(compressed: Bytes, chain: ChainState)

  /** Decrypt with the sender's chain; fails for an unknown epoch, for an index
      the chain is already past, and when the packet does not authenticate. */
  function Unseal(suite: Suite, r: Inbound, p: DataPacket): Option<Opened> {
    var h := p.header;
    if h.epoch !in r.chains || h.idx < r.chains[h.epoch].index then None
    else
      var a := Advance(suite, r.chains[h.epoch], h.idx);
      match suite.open(a.messageKey, h, p.body)
      case None => None
      case Some(x) => Some(Opened(x, a.state))
  }

  /** Store a payload that passed the gate, unless its number is already held. */
  function Store(r: Inbound, num: Seq24, payload: Bytes): Inbound {
    if num in r.received then r
    else
      var d := if r.highest.Some? then SeqDelta(r.highest.value, num) else 1;
      var h := if 0 < d < HALF then Some(num) else r.highest;
      r.(highest := h,
         received := Pruned(r.received[num := payload], OrZero(h)),
         delivered := r.delivered + [Delivery(num, payload)])
  }

  /** The gate: the packet's fingerprint against the receiver's own dictionary. */
  function Process(suite: Suite, r: Inbound, p: DataPacket, compressed: Bytes, num: Seq24): (r': Inbound)
    ensures r'.buffer == r.buffer
  {
    var dict := Dictionary(r.received, num);
    var checked := r.(dicts := r.dicts + {dict});
    if p.header.dictFp != suite.fingerprint(dict) then
      checked.(received := map[], resetRequests := r.resetRequests + 1)
    else
      match suite.inflate(compressed, dict)
      case None => checked
      case Some(payload) => Store(checked, num, payload)
  }

  /** Decrypt, commit the advanced chain, and process; a failed decrypt changes nothing. */
  function Accept(suite: Suite, r: Inbound, p: DataPacket, num: Seq24): (r': Inbound)
    ensures r'.buffer == r.buffer
  {
    match Unseal(suite, r, p)
    case None => r
    case Some(o) => Process(suite, r.(chains := r.chains[p.header.epoch := o.chain]), p, o.compressed, num)
  }

  /** Take packet `n` out of the buffer and accept it, whatever becomes of it. */
  function Pop(suite: Suite, r: Inbound, n: Seq24): (r': Inbound)
    requires n in r.buffer
    ensures r'.buffer == r.buffer - {n} && |r'.buffer| < |r.buffer|
  {
    assert (r.buffer - {n}).Keys == r.buffer.Keys - {n};
    Accept(suite, r.(buffer := r.buffer - {n}), r.buffer[n], n)
  }

  /** Take buffered packets n, n+1, ... until one is absent. */
  function Drain(suite: Suite, r: Inbound, n: Seq24): Inbound
    decreases |r.buffer|
  {
    if n !in r.buffer then r else Drain(suite, Pop(suite, r, n), SeqNext(n))
  }

  /** How far a packet is ahead.  Without a baseline the first packet counts as
      the next one, unless its number is one the sender's history may still cover. */
  function Ahead(r: Inbound, num: Seq24): Seq24 {
    if r.highest.Some? then SeqDelta(r.highest.value, num)
    else if 1 <= num <= DICT_WINDOW then num else 1
  }

  function Receive(suite: Suite, r: Inbound, p: DataPacket): Inbound {
    var num := p.header.num;
    var a := Ahead(r, num);
    if a == 0 || HALF <= a then r
    else if a > 1 then r.(buffer := r.buffer[num := p])
    else TakeNext(suite, r, p)
  }

  /** The exact next packet: if it decrypts, process it, then drain the buffer. */
  function TakeNext(suite: Suite, r: Inbound, p: DataPacket): Inbound {
    if Unseal(suite, r, p).None? then r else Settle(suite, Accept(suite, r, p, p.header.num))
  }

  function Settle(suite: Suite, r: Inbound): Inbound {
    Drain(suite, r, SeqNext(OrZero(r.highest)))
  }

  /** The numbers a gap NACK asks for: those strictly between the highest number
      and the packet's that are neither buffered nor received. */
  function Missing(r: Inbound, from: Seq24, k: nat, ahead: nat): seq<Seq24>
    requires 1 <= k
    decreases ahead - k
  {
    if k >= ahead then []
    else
      var i := Wire(from + k);
      (if i !in r.buffer && i !in r.received then [i] else []) + Missing(r, from, k + 1, ahead)
  }

  /** A gap NACK asks for exactly the numbers in the gap that are not held. */
  lemma {:induction false} MissingIff(r: Inbound, pos: int, k: nat, ahead: nat, i: Seq24)
    requires 1 <= k <= ahead <= HALF
    ensures i in Missing(r, Wire(pos), k, ahead) <==>
            pos + k <= Forth(pos, i) < pos + ahead && i !in r.buffer && i !in r.received
    decreases ahead - k
  {
    hide Wire, SeqDelta, Forth;
    WireShift(pos, k);
    ForthIsUnique(pos, i, pos + k);
    if k < ahead { MissingIff(r, pos, k + 1, ahead, i); }
  }

  /** What a gap makes the receiver ask for; empty when there is no gap. */
  function NackFor(r: Inbound, num: Seq24, after: Inbound): seq<Seq24> {
    if 1 < Ahead(r, num) < HALF then Missing(after, OrZero(r.highest), 1, Ahead(r, num)) else []
  }

  /** With a baseline, a packet makes the receiver ask for exactly the numbers between
      its position and the packet that it does not hold, and for nothing if the packet
      is a duplicate, stale or the next one. */
  lemma NackIff(suite: Suite, r: Inbound, p: DataPacket, pos: int, i: Seq24)
    requires r.highest == Some(Wire(pos))
    ensures var u := Forth(pos, p.header.num);
            i in NackFor(r, p.header.num, Receive(suite, r, p)) <==>
            u < pos + HALF && pos < Forth(pos, i) < u && i !in r.buffer && i !in r.received
  {
    hide Wire, SeqDelta, TakeNext;
    var num := p.header.num;
    var a := Ahead(r, num);
    if 1 < a < HALF { MissingIff(r.(buffer := r.buffer[num := p]), pos, 1, a, i); }
  }

  /** Without a baseline it asks for the numbers from 1 up to the packet's, if that is
      one from 2 to 200, and otherwise for nothing. */
  lemma FreshNackIff(suite: Suite, r: Inbound, p: DataPacket, i: Seq24)
    requires r.highest == None
    ensures var num := p.header.num;
            i in NackFor(r, num, Receive(suite, r, p)) <==>
            num <= DICT_WINDOW && 1 <= i < num && i !in r.buffer && i !in r.received
  {
    hide TakeNext;
    var num := p.header.num;
    if 1 < num <= DICT_WINDOW { MissingIff(r.(buffer := r.buffer[num := p]), 0, 1, num, i); }
  }

  ghost predicate Rising(pos: int, l: seq<Seq24>) {
    forall a, b :: 0 <= a < b < |l| ==> Forth(pos, l[a]) < Forth(pos, l[b])
  }

  lemma RisingFront(pos: int, i: Seq24, rest: seq<Seq24>)
    requires Rising(pos, rest) && forall b :: 0 <= b < |rest| ==> Forth(pos, i) < Forth(pos, rest[b])
    ensures Rising(pos, [i] + rest)
  {
    hide Forth;
  }

  /** Each number is asked for once, oldest first. */
  lemma {:induction false} MissingInOrder(r: Inbound, pos: int, k: nat, ahead: nat)
    requires 1 <= k <= ahead < HALF
    ensures Rising(pos, Missing(r, Wire(pos), k, ahead))
    decreases ahead - k
  {
    hide Wire, SeqDelta, Forth, Rising;
    var rest := Missing(r, Wire(pos), k + 1, ahead);
    if k == ahead {
      NoneRising(pos);
    } else {
      WireShift(pos, k);
      var i := Wire(pos + k);
      ForthIsUnique(pos, i, pos + k);
      MissingInOrder(r, pos, k + 1, ahead);
      forall b | 0 <= b < |rest| ensures pos + k < Forth(pos, rest[b]) {
        assert rest[b] in rest;
        MissingIff(r, pos, k + 1, ahead, rest[b]);
      }
      RisingFront(pos, i, rest);
      assert [] + rest == rest;
    }
  }

  lemma NoneRising(pos: int)
    ensures Rising(pos, [])
  {
  }

  function LearnChain(r: Inbound, epoch: nat, c: ChainState): Inbound {
    r.(chains := r.chains[epoch := c])
  }

  function Flush(r: Inbound): Inbound {
    r.(received := map[])
  }

  class InboundStream {
    const suite: Suite
    var highest: Option<Seq24>
    var received: History
    var buffer: map<Seq24, DataPacket>
    var chains: map<nat, ChainState>
    var resetRequests: nat
    ghost var delivered: seq<Delivery>
    ghost var dicts: set<Bytes>

    ghost function State(): Inbound
      reads this
    {
      Inbound(highest, received, buffer, chains, resetRequests, delivered, dicts)
    }

    constructor (suite: Suite)
      ensures State() == Newcomer && this.suite == suite
    {
      this.suite := suite;
      highest, received, buffer, chains, resetRequests := None, map[], map[], map[], 0;
      delivered, dicts := [], {};
    }

    /** Commits the advanced chain only after a successful decrypt. */
    method DecryptDataInOrder(p: DataPacket) returns (dec: Option<Bytes>)
      modifies this`chains
      ensures match Unseal(suite, old(State()), p)
              case None => dec == None && State() == old(State())
              case Some(o) => dec == Some(o.compressed) && State() == LearnChain(old(State()), p.header.epoch, o.chain)
    {
      var h := p.header;
      if h.epoch !in chains || h.idx < chains[h.epoch].index {
        return None;
      }
      var a := AdvanceChain(suite, chains[h.epoch], h.idx);
      dec := suite.open(a.messageKey, h, p.body);
      if dec.Some? {
        chains := chains[h.epoch := a.state];
      }
    }

    method PruneReceived()
      modifies this`received
      ensures received == Pruned(old(received), OrZero(highest))
    {
      var todo := received.Keys;
      while todo != {}
        invariant todo <= received.Keys <= old(received).Keys
        invariant forall k :: k in old(received) ==>
                    (k in received <==> k in todo || SeqDelta(k, OrZero(highest)) <= RETAINED)
        invariant forall k :: k in received ==> received[k] == old(received)[k]
        decreases |todo|
      {
        var k :| k in todo;
        if SeqDelta(k, OrZero(highest)) > RETAINED {
          received := received - {k};
        }
        todo := todo - {k};
      }
    }

    method ProcessDataPacket(p: DataPacket, compressed: Bytes, num: Seq24)
      modifies this
      ensures State() == Process(suite, old(State()), p, compressed, num)
    {
      var dict := GetDictionary(received, num);
      dicts := dicts + {dict};
      if p.header.dictFp != suite.fingerprint(dict) {
        received := map[];
        resetRequests := resetRequests + 1;
        return;
      }
      var payload := suite.inflate(compressed, dict);
      if payload.None? {
        return;
      }
      StorePayload(num, payload.value);
    }

    method StorePayload(num: Seq24, payload: Bytes)
      modifies this`highest, this`received, this`delivered
      ensures State() == Store(old(State()), num, payload)
    {
      if num !in received {
        received := received[num := payload];
        delivered := delivered + [Delivery(num, payload)];
        var d := if highest.Some? then SeqDelta(highest.value, num) else 1;
        if 0 < d < HALF {
          highest := Some(num);
        }
        PruneReceived();
      }
    }

    method ProcessBufferedPackets()
      modifies this
      ensures State() == Settle(suite, old(State()))
    {
      var n := SeqNext(OrZero(highest));
      while n in buffer
        invariant Drain(suite, State(), n) == Drain(suite, old(State()), SeqNext(OrZero(old(highest))))
        decreases |buffer|
      {
        var p := buffer[n];
        ghost var before := State();
        buffer := buffer - {n};
        var dec := DecryptDataInOrder(p);
        if dec.Some? {
          ProcessDataPacket(p, dec.value, n);
        }
        assert State() == Pop(suite, before, n);
        n := SeqNext(n);
      }
    }

    method HandleData(p: DataPacket) returns (missing: seq<Seq24>)
      modifies this
      ensures State() == Receive(suite, old(State()), p)
      ensures missing == NackFor(old(State()), p.header.num, State())
    {
      var num := p.header.num;
      missing := [];
      var from := OrZero(highest);
      var ahead := if highest.Some? then SeqDelta(highest.value, num)
                   else if 1 <= num <= DICT_WINDOW then num else 1;
      if ahead == 0 || HALF <= ahead {
        return;
      }
      if ahead > 1 {
        buffer := buffer[num := p];
        missing := CollectMissing(from, ahead);
        return;
      }
      var dec := DecryptDataInOrder(p);
      if dec.Some? {
        ProcessDataPacket(p, dec.value, num);
        ProcessBufferedPackets();
      }
    }

    method CollectMissing(from: Seq24, ahead: nat) returns (missing: seq<Seq24>)
      requires 1 <= ahead
      ensures missing == Missing(State(), from, 1, ahead)
    {
      hide Wire;
      missing := [];
      var k := 1;
      while k < ahead
        invariant 1 <= k <= ahead
        invariant missing + Missing(State(), from, k, ahead) == Missing(State(), from, 1, ahead)
      {
        var i := Wire(from + k);
        ghost var done, rest := missing, Missing(State(), from, k + 1, ahead);
        if i !in buffer && i !in received {
          missing := missing + [i];
          assert done + ([i] + rest) == missing + rest;
        } else {
          assert done + ([] + rest) == missing + rest;
        }
        k := k + 1;
      }
    }

    /** A shared state replaces the stored one unconditionally. */
    method HandleChainShare(epoch: nat, c: ChainState)
      modifies this`chains
      ensures State() == LearnChain(old(State()), epoch, c)
    {
      chains := chains[epoch := c];
    }

    method HandleDictReset()
      modifies this`received
      ensures State() == Flush(old(State()))
    {
      received := map[];
    }
  }
}
