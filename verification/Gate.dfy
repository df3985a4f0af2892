/** The dictionary gate and what it guarantees about a receiver, whatever arrives
    and in whatever order. */
module Gate {
  import opened Primitives
  import opened Sequence
  import opened Dictionaries
  import opened Ratchet
  import opened Sender
  import opened SenderLedger
  import opened Receiver

  /** A DATA packet on the wire, with the message number it was sent for and the
      dictionary it was compressed against. */
  datatype Emission = Emission(u: int, dict: Bytes, packet: DataPacket)

  /** The packet is message `u` of the log, sealed with that message's own key. */
  ghost predicate EmissionOk(suite: Suite, l: Ledger, e: Emission) {
    && l.first <= e.u <= l.Top() && |l.uses| == |l.log|
    && e.packet == Encode(suite, Wire(e.u), l.log[e.u - l.first], e.dict,
                          SealKeyOf(suite, l.uses[e.u - l.first]), e.packet.header.nonce)
  }

  lemma PacketNumber(suite: Suite, l: Ledger, e: Emission)
    requires EmissionOk(suite, l, e)
    ensures e.packet.header.num == Wire(e.u)
  {
  }

  ghost function NetDicts(net: set<Emission>): set<Bytes> {
    set e | e in net :: e.dict
  }

  ghost predicate OnWire(net: set<Emission>, p: DataPacket) {
    exists e :: e in net && e.packet == p
  }

  /** `c` is a state of some chain the sender started for `epoch`. */
  ghost predicate OnMadeChain(suite: Suite, l: Ledger, epoch: nat, c: ChainState) {
    exists seed: Bytes :: (epoch, seed) in l.made && OnChain(suite, seed, c)
  }

  /** Some message with wire number `k` has payload `p`. */
  ghost predicate FromLog(l: Ledger, k: Seq24, p: Bytes) {
    exists u: int :: l.first <= u <= l.Top() && Wire(u) == k && l.log[u - l.first] == p
  }

  /** What holds of a receiver at every moment of every run. */
  ghost predicate Sound(suite: Suite, l: Ledger, net: set<Emission>, r: Inbound) {
    && Keyed(r)
    && (forall k :: k in r.buffer ==> OnWire(net, r.buffer[k]) || Unopenable(suite, r.buffer[k]))
    && SoundHistory(l, r)
  }

  /** Every chain state held is on a chain the sender started for that epoch. */
  ghost predicate SoundChains(suite: Suite, l: Ledger, r: Inbound) {
    forall e :: e in r.chains ==> OnMadeChain(suite, l, e, r.chains[e])
  }

  /** Packets are buffered under their own number. */
  ghost predicate Keyed(r: Inbound) {
    forall k :: k in r.buffer ==> r.buffer[k].header.num == k
  }

  /** Everything held and everything ever delivered is the sender's own. */
  ghost predicate SoundHistory(l: Ledger, r: Inbound) {
    && (forall k :: k in r.received ==> FromLog(l, k, r.received[k]))
    && (forall i :: 0 <= i < |r.delivered| ==> FromLog(l, r.delivered[i].num, r.delivered[i].payload))
  }

  /** The standing assumptions: the primitives' laws, a wire that carries only the
      sender's packets, and no fingerprint shared by two dictionaries of the run. */
  ghost predicate Setting(suite: Suite, l: Ledger, net: set<Emission>, ds: set<Bytes>) {
    && Lawful(suite) && CollisionFree(suite, ds) && NetDicts(net) <= ds
    && forall e :: e in net ==> EmissionOk(suite, l, e)
  }

  /** A packet that opens and whose fingerprint matches the receiver's dictionary
      inflates to exactly the payload the sender put under its number. */
  lemma GateAdmitsOnlyOriginal(suite: Suite, l: Ledger, e: Emission, r: Inbound, dict: Bytes, ds: set<Bytes>)
    requires Lawful(suite) && EmissionOk(suite, l, e) && Unseal(suite, r, e.packet).Some?
    requires e.packet.header.dictFp == suite.fingerprint(dict)
    requires CollisionFree(suite, ds) && dict in ds && e.dict in ds
    ensures suite.inflate(Unseal(suite, r, e.packet).value.compressed, dict) == Some(l.log[e.u - l.first])
  {
    var h := e.packet.header;
    var use := l.uses[e.u - l.first];
    var mk := MessageKeyAt(suite, use.seed, use.idx);
    var a := Advance(suite, r.chains[h.epoch], h.idx);
    var x := suite.deflate(l.log[e.u - l.first], e.dict);
    assert e.packet.body == suite.seal(mk, h, x);
    assert SealLaw(suite, mk, h, x, a.messageKey, h);
    assert NoClash(suite, dict, e.dict);
    assert DeflateLaw(suite, l.log[e.u - l.first], dict);
  }

  /** `p` is a packet of message `u`. */
  ghost predicate Carries(net: set<Emission>, p: DataPacket, u: int) {
    exists e :: e in net && e.packet == p && e.u == u
  }

  /** `p` is a packet of message `u`, compressed against `dict`. */
  ghost predicate CarriesWith(net: set<Emission>, p: DataPacket, u: int, dict: Bytes) {
    exists e :: e in net && e.packet == p && e.u == u && e.dict == dict
  }

  /** The two states agree on everything but chains and compared dictionaries. */
  ghost predicate SameShelf(r: Inbound, r': Inbound) {
    r' == r.(chains := r'.chains, dicts := r'.dicts, resetRequests := r'.resetRequests)
  }

  /** What a packet of message `n` inflates to, if it opens and passes the gate. */
  lemma AdmittedPayload(suite: Suite, l: Ledger, net: set<Emission>, ds: set<Bytes>, r: Inbound, p: DataPacket, n: int, dict: Bytes)
    requires Setting(suite, l, net, ds) && dict in ds
    requires Carries(net, p, n) && Unseal(suite, r, p).Some? && p.header.dictFp == suite.fingerprint(dict)
    ensures l.first <= n <= l.Top() && CarriesWith(net, p, n, dict) && p.header.num == Wire(n)
    ensures suite.inflate(Unseal(suite, r, p).value.compressed, dict) == Some(l.log[n - l.first])
  {
    var e :| e in net && e.packet == p && e.u == n;
    assert e.dict in NetDicts(net);
    GateAdmitsOnlyOriginal(suite, l, e, r, dict, ds);
    assert NoClash(suite, dict, e.dict);
  }

  lemma ProcessOutcome(suite: Suite, r: Inbound, p: DataPacket, compressed: Bytes, num: Seq24)
    ensures var dict := Dictionary(r.received, num);
            var r' := Process(suite, r, p, compressed, num);
            if p.header.dictFp != suite.fingerprint(dict) then SameShelf(r.(received := map[]), r')
            else if suite.inflate(compressed, dict).None? then SameShelf(r, r')
            else SameShelf(Store(r, num, suite.inflate(compressed, dict).value), r')
  {
  }

  /** The three things that can come of a packet of message `n`: it is refused and
      nothing moves; the gate refuses it and the history is flushed; or the gate
      admits it, its dictionary being the receiver's own, and the original payload
      is stored. */
  lemma AcceptOutcome(suite: Suite, l: Ledger, net: set<Emission>, ds: set<Bytes>, r: Inbound, p: DataPacket, n: int)
    requires Setting(suite, l, net, ds)
    requires Carries(net, p, n) || Unopenable(suite, p)
    requires Accept(suite, r, p, Wire(n)).dicts <= ds
    ensures var r' := Accept(suite, r, p, Wire(n));
            || SameShelf(r, r')
            || SameShelf(r.(received := map[]), r')
            || (l.first <= n <= l.Top() && CarriesWith(net, p, n, Dictionary(r.received, Wire(n)))
                && SameShelf(Store(r, Wire(n), l.log[n - l.first]), r'))
  {
    if Unseal(suite, r, p).Some? {
      var o := Unseal(suite, r, p).value;
      var dict := Dictionary(r.received, Wire(n));
      ProcessOutcome(suite, r.(chains := r.chains[p.header.epoch := o.chain]), p, o.compressed, Wire(n));
      if p.header.dictFp == suite.fingerprint(dict) {
        AdmittedPayload(suite, l, net, ds, r, p, n, dict);
      }
    }
  }

  lemma DictsGrow(suite: Suite, r: Inbound, p: DataPacket, num: Seq24)
    ensures r.dicts <= Accept(suite, r, p, num).dicts
  {
  }

  lemma {:induction false} DrainDictsGrow(suite: Suite, r: Inbound, n: Seq24)
    ensures r.dicts <= Drain(suite, r, n).dicts
    decreases |r.buffer|
  {
    if n in r.buffer {
      DrainDictsGrow(suite, Pop(suite, r, n), SeqNext(n));
    }
  }

  // ---- Chains: no packet, genuine or not, moves a receiver off the sender's chains ----

  lemma AcceptKeepsChains(suite: Suite, l: Ledger, r: Inbound, p: DataPacket, num: Seq24)
    requires SoundChains(suite, l, r)
    ensures SoundChains(suite, l, Accept(suite, r, p, num))
  {
    var epoch := p.header.epoch;
    if Unseal(suite, r, p).Some? {
      var c := r.chains[epoch];
      var seed: Bytes :| (epoch, seed) in l.made && OnChain(suite, seed, c);
      AdvanceStaysOnChain(suite, seed, c, p.header.idx);
      assert OnMadeChain(suite, l, epoch, Unseal(suite, r, p).value.chain);
    }
  }

  lemma {:induction false} DrainKeepsChains(suite: Suite, l: Ledger, r: Inbound, n: Seq24)
    requires SoundChains(suite, l, r)
    ensures SoundChains(suite, l, Drain(suite, r, n))
    decreases |r.buffer|
  {
    if n in r.buffer {
      AcceptKeepsChains(suite, l, r.(buffer := r.buffer - {n}), r.buffer[n], n);
      DrainKeepsChains(suite, l, Pop(suite, r, n), SeqNext(n));
    }
  }

  lemma ReceiveKeepsChains(suite: Suite, l: Ledger, r: Inbound, p: DataPacket)
    requires SoundChains(suite, l, r)
    ensures SoundChains(suite, l, Receive(suite, r, p))
  {
    var r' := Accept(suite, r, p, p.header.num);
    AcceptKeepsChains(suite, l, r, p, p.header.num);
    DrainKeepsChains(suite, l, r', SeqNext(OrZero(r'.highest)));
  }

  // ---- Histories ----

  lemma ProcessKeepsHistory(suite: Suite, l: Ledger, r: Inbound, p: DataPacket, compressed: Bytes, num: Seq24)
    requires SoundHistory(l, r)
    requires var dict := Dictionary(r.received, num);
             p.header.dictFp == suite.fingerprint(dict) && suite.inflate(compressed, dict).Some? ==>
               FromLog(l, num, suite.inflate(compressed, dict).value)
    ensures SoundHistory(l, Process(suite, r, p, compressed, num))
  {
  }

  lemma AcceptKeepsHistory(suite: Suite, l: Ledger, net: set<Emission>, ds: set<Bytes>, r: Inbound, p: DataPacket)
    requires Setting(suite, l, net, ds)
    requires SoundHistory(l, r) && OnWire(net, p) && Unseal(suite, r, p).Some?
    requires Accept(suite, r, p, p.header.num).dicts <= ds
    ensures SoundHistory(l, Accept(suite, r, p, p.header.num))
  {
    hide Wire, SeqDelta, Unseal, Dictionary, Pruned, EmissionOk, CollisionFree, Lawful;
    var o := Unseal(suite, r, p).value;
    var dict := Dictionary(r.received, p.header.num);
    assert dict in Accept(suite, r, p, p.header.num).dicts;
    if p.header.dictFp == suite.fingerprint(dict) {
      var e :| e in net && e.packet == p;
      AdmittedPayload(suite, l, net, ds, r, p, e.u, dict);
      assert FromLog(l, p.header.num, l.log[e.u - l.first]);
    }
    ProcessKeepsHistory(suite, l, r.(chains := r.chains[p.header.epoch := o.chain]), p, o.compressed, p.header.num);
  }

  lemma AcceptKeepsSound(suite: Suite, l: Ledger, net: set<Emission>, ds: set<Bytes>, r: Inbound, p: DataPacket)
    requires Setting(suite, l, net, ds)
    requires Sound(suite, l, net, r) && (OnWire(net, p) || Unopenable(suite, p))
    requires Accept(suite, r, p, p.header.num).dicts <= ds
    ensures Sound(suite, l, net, Accept(suite, r, p, p.header.num))
  {
    if Unseal(suite, r, p).Some? {
      AcceptKeepsHistory(suite, l, net, ds, r, p);
    }
  }

  lemma {:induction false} DrainKeepsSound(suite: Suite, l: Ledger, net: set<Emission>, ds: set<Bytes>, r: Inbound, n: Seq24)
    requires Setting(suite, l, net, ds)
    requires Sound(suite, l, net, r) && Drain(suite, r, n).dicts <= ds
    ensures Sound(suite, l, net, Drain(suite, r, n))
    decreases |r.buffer|
  {
    if n in r.buffer {
      DrainDictsGrow(suite, Pop(suite, r, n), SeqNext(n));
      AcceptKeepsSound(suite, l, net, ds, r.(buffer := r.buffer - {n}), r.buffer[n]);
      DrainKeepsSound(suite, l, net, ds, Pop(suite, r, n), SeqNext(n));
    }
  }

  lemma ReceiveKeepsSound(suite: Suite, l: Ledger, net: set<Emission>, ds: set<Bytes>, r: Inbound, p: DataPacket)
    requires Setting(suite, l, net, ds)
    requires Sound(suite, l, net, r) && (OnWire(net, p) || Unopenable(suite, p))
    requires Receive(suite, r, p).dicts <= ds
    ensures Sound(suite, l, net, Receive(suite, r, p))
  {
    var a := Ahead(r, p.header.num);
    if a == 1 && Unseal(suite, r, p).Some? {
      var r' := Accept(suite, r, p, p.header.num);
      DrainDictsGrow(suite, r', SeqNext(OrZero(r'.highest)));
      AcceptKeepsSound(suite, l, net, ds, r, p);
      DrainKeepsSound(suite, l, net, ds, r', SeqNext(OrZero(r'.highest)));
    }
  }
}
