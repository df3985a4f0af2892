/** Exactly what a receiver admits: which chain states open a message, which
    dictionaries pass the gate, and when that lets a message be skipped or refuses a
    retransmission. */
module Admission {
  import opened Primitives
  import opened Sequence
  import opened Dictionaries
  import opened Ratchet
  import opened Sender
  import opened SenderLedger
  import opened Receiver
  import opened Gate
  import opened Tracking
  import opened NoSkip
  import opened Network
  import opened Convergence

  // ---- Chain shares ----

  /** A share of the message's own chain makes it readable exactly if it is not past
      the message, whatever was stored before. */
  lemma ShareOpensIff(suite: Suite, l: Ledger, r: Inbound, e: Emission, c: ChainState)
    requires Lawful(suite) && EmissionOk(suite, l, e) && OnChain(suite, Use(l, e.u).seed, c)
    ensures Unseal(suite, LearnChain(r, Use(l, e.u).epoch, c), e.packet).Some? <==> c.index <= Use(l, e.u).idx
  {
    hide Wire, Iterate;
    var use := Use(l, e.u);
    if c.index <= use.idx {
      var mk := MessageKeyAt(suite, use.seed, use.idx);
      AdvanceFromAnywhere(suite, use.seed, c, use.idx);
      assert SealLaw(suite, mk, e.packet.header, suite.deflate(l.log[e.u - l.first], e.dict), mk, e.packet.header);
    }
  }

  /** The seed that a NACK makes the sender share again opens every message of the
      current epoch sealed since its chain began, and helps with no other epoch. */
  lemma ReshareRestores(suite: Suite, w: World, r: Inbound, e: Emission)
    requires Lawful(suite) && SenderOk(suite, w) && e in w.net && SeedShare(w.out).Some?
    ensures var s, use, now := SeedShare(w.out).value, Use(w.ledger, e.u), EpochOrOne(w.out.epoch);
            var r' := LearnChain(r, s.epoch, s.state);
            && now in w.ledger.seed
            && (use.epoch == now && use.seed == w.ledger.seed[now] ==> Unseal(suite, r', e.packet).Some?)
            && (use.epoch != now ==> Unseal(suite, r', e.packet) == Unseal(suite, r, e.packet))
  {
    hide Wire, Advance, Numbered, Bounded, Resealable, KeysUsedOnce;
    assert EmissionOk(suite, w.ledger, e);
    var s, use := SeedShare(w.out).value, Use(w.ledger, e.u);
    assert s.state == ChainState(w.ledger.seed[s.epoch], 0);
    if use.epoch == s.epoch && use.seed == w.ledger.seed[s.epoch] {
      ShareOpensIff(suite, w.ledger, r, e, s.state);
    }
  }

  // ---- The gate ----

  /** A readable packet of a message not yet held is taken if it was compressed
      against the receiver's own dictionary, and otherwise costs the history. */
  lemma AdmittedIff(suite: Suite, l: Ledger, r: Inbound, e: Emission)
    requires Lawful(suite) && EmissionOk(suite, l, e) && CanOpen(suite, l, r, e.u)
    requires NoClash(suite, Dictionary(r.received, Wire(e.u)), e.dict)
    ensures Unseal(suite, r, e.packet).Some?
    ensures var r' := Accept(suite, r, e.packet, Wire(e.u));
            if e.dict == Dictionary(r.received, Wire(e.u)) then r' == Take(suite, l, r, e.u)
            else SameShelf(r.(received := map[]), r') && r'.resetRequests == r.resetRequests + 1
  {
    hide Wire, SeqDelta, Iterate, Dictionary, Store;
    var use := Use(l, e.u);
    var payload := l.log[e.u - l.first];
    var mk := MessageKeyAt(suite, use.seed, use.idx);
    AdvanceFromAnywhere(suite, use.seed, r.chains[use.epoch], use.idx);
    assert SealLaw(suite, mk, e.packet.header, suite.deflate(payload, e.dict), mk, e.packet.header);
    assert DeflateLaw(suite, payload, e.dict);
  }

  /** When the gate lets a receiver jump ahead, whatever flush points it and the
      packet go by: a packet of a later message is delivered if and only if the
      messages the receiver holds spell what the sender compressed against.  If not,
      the history is dropped and nothing is delivered. */
  lemma JumpIff(suite: Suite, l: Ledger, r: Inbound, base: int, pos: int, b: int, e: Emission)
    requires Lawful(suite) && Proper(suite, l, b, e) && AtRest(l, r, base, pos) && pos < e.u < pos + HALF
    requires CanOpen(suite, l, r, e.u) && NoClash(suite, Dictionary(r.received, Wire(e.u)), e.dict)
    ensures var r' := Accept(suite, r, e.packet, Wire(e.u));
            if Span(l.log, l.first, Max(base, e.u - DICT_WINDOW), pos + 1) == Span(l.log, l.first, Max(b, e.u - DICT_WINDOW), e.u)
            then r' == Take(suite, l, r, e.u) && r'.delivered == r.delivered + [Delivery(Wire(e.u), l.log[e.u - l.first])]
            else r'.delivered == r.delivered && r'.highest == r.highest && r'.received == map[]
  {
    hide Wire, SeqDelta, Retains, Dictionary, Accept, Span;
    AdmittedIff(suite, l, r, e);
    DictionaryOfLog(r.received, l.log, l.first, Max(base, pos - RETAINED), pos, e.u);
    RetainsAt(r.received, l.log, l.first, Max(base, pos - RETAINED), pos, e.u);
  }

  /** A receiver whose history has been dropped delivers a later message if and only
      if that was compressed against nothing but empty messages. */
  lemma EmptiedTakesIff(suite: Suite, l: Ledger, r: Inbound, pos: int, b: int, e: Emission)
    requires Lawful(suite) && Proper(suite, l, b, e) && r.received == map[] && r.highest == Some(Wire(pos)) && pos < e.u < pos + HALF
    requires CanOpen(suite, l, r, e.u) && NoClash(suite, [], e.dict)
    ensures var r' := Accept(suite, r, e.packet, Wire(e.u));
            r'.delivered == if AllEmpty(l.log, l.first, Max(b, e.u - DICT_WINDOW), e.u)
                            then r.delivered + [Delivery(Wire(e.u), l.log[e.u - l.first])] else r.delivered
  {
    hide Wire, SeqDelta, Dictionary, Accept, Span;
    EmptyDictionaryAt(Wire(e.u));
    AdmittedIff(suite, l, r, e);
    SpanEmptyIff(l.log, l.first, Max(b, e.u - DICT_WINDOW), e.u);
  }

  /** The first message after `pos` that the window of `n` covers. */
  function Unheld(base: int, pos: int, n: int): int {
    Max(Max(base, n - DICT_WINDOW), pos + 1)
  }

  lemma GapSpanIff(l: Ledger, base: int, pos: int, n: int)
    requires l.first <= base <= pos + 1 && pos < n <= l.Top()
    ensures Span(l.log, l.first, Max(base, n - DICT_WINDOW), pos + 1) == Span(l.log, l.first, Max(base, n - DICT_WINDOW), n) <==>
            AllEmpty(l.log, l.first, Unheld(base, pos, n), n)
  {
    var a := Max(base, n - DICT_WINDOW);
    if a <= pos + 1 {
      SpanSplit(l.log, l.first, a, pos + 1, n);
      SpanEmptyIff(l.log, l.first, pos + 1, n);
    } else {
      SpanEmptyIff(l.log, l.first, a, n);
    }
  }

  /** With no flush between, a packet of a later message is delivered if and only if
      every message between, as far as its window reaches, is empty. */
  lemma SkipIff(suite: Suite, l: Ledger, r: Inbound, base: int, pos: int, e: Emission)
    requires Lawful(suite) && Proper(suite, l, base, e) && AtRest(l, r, base, pos) && pos < e.u < pos + HALF
    requires CanOpen(suite, l, r, e.u) && NoClash(suite, Dictionary(r.received, Wire(e.u)), e.dict)
    ensures var r' := Accept(suite, r, e.packet, Wire(e.u));
            if AllEmpty(l.log, l.first, Unheld(base, pos, e.u), e.u)
            then r' == Take(suite, l, r, e.u) && r'.delivered == r.delivered + [Delivery(Wire(e.u), l.log[e.u - l.first])]
            else r'.delivered == r.delivered && r'.highest == r.highest && r'.received == map[]
  {
    hide Wire, SeqDelta, Retains, Dictionary, Accept, Span;
    JumpIff(suite, l, r, base, pos, base, e);
    GapSpanIff(l, base, pos, e.u);
  }

  // ---- The drain past a failed packet ----

  /** Messages n+2, damaged, and n+3 are buffered when n+1 arrives: the drain throws
      n+2 away and delivers n+3, silently skipping n+2, if and only if n+2 is empty. */
  lemma DrainSkipsIff(suite: Suite, l: Ledger, r: Inbound, base: int, n: int, e1: Emission, p2: DataPacket, e3: Emission)
    requires Lawful(suite) && AtRest(l, r, base, n) && Ready(suite, l, r, n, n + 3)
    requires Proper(suite, l, base, e1) && e1.u == n + 1 && Proper(suite, l, base, e3) && e3.u == n + 3
    requires Unopenable(suite, p2) && r.buffer == map[Wire(n + 2) := p2, Wire(n + 3) := e3.packet]
    requires NoClash(suite, Dictionary(Take(suite, l, r, n + 1).received, Wire(n + 3)), e3.dict)
    ensures var first := r.delivered + [Delivery(Wire(n + 1), l.log[n + 1 - l.first])];
            Receive(suite, r, e1.packet).delivered ==
            if l.log[n + 2 - l.first] == [] then first + [Delivery(Wire(n + 3), l.log[n + 3 - l.first])] else first
  {
    hide Wire, SeqDelta, SeqNext, Retains, Dictionary, Drain, Ready, Take, Receive, CanOpen, Encode, Unopenable, Lawful, NoClash, Span;
    NextArrives(suite, l, r, base, n, n + 3, e1);
    DrainPastDamage(suite, l, Take(suite, l, r, n + 1), base, n + 1, p2, e3);
  }

  /** The next message arrives: it is taken and the drain goes on from there. */
  lemma NextArrives(suite: Suite, l: Ledger, r: Inbound, base: int, n: int, m: int, e: Emission)
    requires Lawful(suite) && AtRest(l, r, base, n) && Ready(suite, l, r, n, m) && n < m
    requires Proper(suite, l, base, e) && e.u == n + 1
    ensures var r' := Take(suite, l, r, n + 1);
            && Receive(suite, r, e.packet) == Drain(suite, r', Wire(n + 2))
            && AtRest(l, r', base, n + 1) && Ready(suite, l, r', n + 1, m)
            && r'.delivered == r.delivered + [Delivery(Wire(n + 1), l.log[n + 1 - l.first])]
  {
    hide Wire, SeqDelta, SeqNext, Retains, Dictionary, Accept, Unseal, Drain, Ready, Store, CanOpen, Encode;
    NextOfReady(suite, l, r, n, m);
    AcceptTakes(suite, l, r, base, n, e);
    PacketNumber(suite, l, e);
    WireDelta(n, n + 1);
    TakeRests(suite, l, r, base, n);
    TakeStaysReady(suite, l, r, n, m);
    WireNext(n + 1);
  }

  lemma NextOfReady(suite: Suite, l: Ledger, r: Inbound, n: int, m: int)
    requires Ready(suite, l, r, n, m) && n < m
    ensures CanOpen(suite, l, r, n + 1) && CanOpen(suite, l, r, m)
  {
  }

  lemma DrainPastDamage(suite: Suite, l: Ledger, r: Inbound, base: int, n: int, p: DataPacket, e: Emission)
    requires Lawful(suite) && AtRest(l, r, base, n) && base <= n && Ready(suite, l, r, n, n + 2)
    requires Proper(suite, l, base, e) && e.u == n + 2 && Unopenable(suite, p)
    requires r.buffer == map[Wire(n + 1) := p, Wire(n + 2) := e.packet]
    requires NoClash(suite, Dictionary(r.received, Wire(n + 2)), e.dict)
    ensures Drain(suite, r, Wire(n + 1)).delivered ==
            if l.log[n + 1 - l.first] == [] then r.delivered + [Delivery(Wire(n + 2), l.log[n + 2 - l.first])] else r.delivered
  {
    hide Wire, SeqDelta, SeqNext, Retains, Dictionary, Accept, Unseal, Ready, Drain;
    WireInjective(n + 1, n + 2);
    WireInjective(n + 3, n + 1);
    WireInjective(n + 3, n + 2);
    WireNext(n + 1);
    WireNext(n + 2);
    var r1 := r.(buffer := r.buffer - {Wire(n + 1)});
    var r2 := r1.(buffer := r1.buffer - {Wire(n + 2)});
    DamageAccepted(suite, r1, p, Wire(n + 1));
    DrainOne(suite, r, Wire(n + 1));
    DrainOne(suite, r1, Wire(n + 2));
    NextOfReady(suite, l, r, n, n + 2);
    SkipIff(suite, l, r2, base, n, e);
    DrainNone(suite, Accept(suite, r2, e.packet, Wire(n + 2)), Wire(n + 3));
  }

  /** Messages n+2 and n+3, both intact, are buffered when n+1 arrives, and the
      sender was flushed so that n+2 fails the gate.  That drops the history, and the
      drain then delivers n+3, silently skipping n+2 whatever it contains, if and only
      if n+3 was compressed against nothing but empty messages. */
  lemma ResetSkipsIff(suite: Suite, l: Ledger, r: Inbound, base: int, n: int, e1: Emission,
                      b2: int, e2: Emission, b3: int, e3: Emission)
    requires Lawful(suite) && AtRest(l, r, base, n) && Ready(suite, l, r, n, n + 3)
    requires Proper(suite, l, base, e1) && e1.u == n + 1
    requires Proper(suite, l, b2, e2) && e2.u == n + 2 && Proper(suite, l, b3, e3) && e3.u == n + 3
    requires r.buffer == map[Wire(n + 2) := e2.packet, Wire(n + 3) := e3.packet]
    requires Span(l.log, l.first, Max(base, n + 2 - DICT_WINDOW), n + 2) != e2.dict
    requires NoClash(suite, Dictionary(Take(suite, l, r, n + 1).received, Wire(n + 2)), e2.dict) && NoClash(suite, [], e3.dict)
    ensures var first := r.delivered + [Delivery(Wire(n + 1), l.log[n + 1 - l.first])];
            Receive(suite, r, e1.packet).delivered ==
            if AllEmpty(l.log, l.first, Max(b3, n + 3 - DICT_WINDOW), n + 3)
            then first + [Delivery(Wire(n + 3), l.log[n + 3 - l.first])] else first
  {
    hide Wire, SeqDelta, SeqNext, Retains, Dictionary, Drain, Ready, Take, Receive, CanOpen, Span;
    NextArrives(suite, l, r, base, n, n + 3, e1);
    DrainPastRefusal(suite, l, Take(suite, l, r, n + 1), base, n + 1, b2, e2, b3, e3);
  }

  lemma DrainPastRefusal(suite: Suite, l: Ledger, r: Inbound, base: int, n: int, b2: int, e2: Emission, b3: int, e3: Emission)
    requires Lawful(suite) && AtRest(l, r, base, n) && Ready(suite, l, r, n, n + 2)
    requires Proper(suite, l, b2, e2) && e2.u == n + 1 && Proper(suite, l, b3, e3) && e3.u == n + 2
    requires r.buffer == map[Wire(n + 1) := e2.packet, Wire(n + 2) := e3.packet]
    requires Span(l.log, l.first, Max(base, n + 1 - DICT_WINDOW), n + 1) != e2.dict
    requires NoClash(suite, Dictionary(r.received, Wire(n + 1)), e2.dict) && NoClash(suite, [], e3.dict)
    ensures Drain(suite, r, Wire(n + 1)).delivered ==
            if AllEmpty(l.log, l.first, Max(b3, n + 2 - DICT_WINDOW), n + 2)
            then r.delivered + [Delivery(Wire(n + 2), l.log[n + 2 - l.first])] else r.delivered
  {
    hide Wire, SeqDelta, SeqNext, Retains, Dictionary, Accept, Unseal, Ready, Drain, Span, CanOpen, Take, Encode, AllEmpty;
    WireInjective(n + 1, n + 2);
    WireInjective(n + 3, n + 2);
    WireNext(n + 1);
    WireNext(n + 2);
    var r1 := r.(buffer := r.buffer - {Wire(n + 1)});
    SameKeysReady(suite, l, r, r1, n, n + 2);
    NextOfReady(suite, l, r1, n, n + 2);
    var r2 := Accept(suite, r1, e2.packet, Wire(n + 1));
    JumpIff(suite, l, r1, base, n, b2, e2);
    DrainOne(suite, r, Wire(n + 1));
    DrainOne(suite, r2, Wire(n + 2));
    var r3 := r2.(buffer := r2.buffer - {Wire(n + 2)});
    assert CanOpen(suite, l, r3, n + 2) by { StillOpens(suite, l, r1, r3, e2, n); }
    EmptiedTakesIff(suite, l, r3, n, b3, e3);
    DrainNone(suite, Accept(suite, r3, e3.packet, Wire(n + 2)), Wire(n + 3));
  }

  lemma SameKeysReady(suite: Suite, l: Ledger, r: Inbound, r': Inbound, n: int, m: int)
    requires Ready(suite, l, r, n, m) && r'.chains == r.chains
    ensures Ready(suite, l, r', n, m)
  {
    forall u | n < u <= m ensures CanOpen(suite, l, r', u) { assert CanOpen(suite, l, r, u); }
  }

  /** A refused packet still moves the chain past itself, and no further. */
  lemma StillOpens(suite: Suite, l: Ledger, r: Inbound, r': Inbound, e: Emission, n: int)
    requires Lawful(suite) && EmissionOk(suite, l, e) && e.u == n + 1 && Ready(suite, l, r, n, n + 2)
    requires r'.chains == Accept(suite, r, e.packet, Wire(n + 1)).chains
    ensures CanOpen(suite, l, r', n + 2)
  {
    hide Wire, SeqDelta, Dictionary, Store, Iterate;
    var use, next := Use(l, n + 1), Use(l, n + 2);
    assert CanOpen(suite, l, r, n + 1) && CanOpen(suite, l, r, n + 2);
    AcceptChains(suite, r, e.packet, Wire(n + 1));
    AdvanceFromAnywhere(suite, use.seed, r.chains[use.epoch], use.idx);
  }

  lemma AcceptChains(suite: Suite, r: Inbound, p: DataPacket, num: Seq24)
    ensures Accept(suite, r, p, num).chains ==
            match Unseal(suite, r, p) case None => r.chains case Some(o) => r.chains[p.header.epoch := o.chain]
  {
    hide Dictionary, Unseal, Pruned, SeqDelta;
  }

  lemma DamageAccepted(suite: Suite, r: Inbound, p: DataPacket, num: Seq24)
    requires Unopenable(suite, p)
    ensures Accept(suite, r, p, num) == r
  {
  }

  lemma DrainOne(suite: Suite, r: Inbound, n: Seq24)
    requires n in r.buffer
    ensures Drain(suite, r, n) == Drain(suite, Accept(suite, r.(buffer := r.buffer - {n}), r.buffer[n], n), SeqNext(n))
  {
  }

  lemma DrainNone(suite: Suite, r: Inbound, n: Seq24)
    requires n !in r.buffer
    ensures Drain(suite, r, n) == r
  {
  }

  // ---- Retransmissions ----

  /** The messages that have dropped out of the window of `u` since it was sent. */
  ghost predicate DroppedEmpty(l: Ledger, u: int)
    requires l.first <= u <= l.Top() && |l.bases| == |l.log| && l.first <= l.bases[u - l.first] && l.Lo() <= u
  {
    AllEmpty(l.log, l.first, Max(l.bases[u - l.first], u - DICT_WINDOW), Max(l.Lo(), u - DICT_WINDOW))
  }

  /** A receiver waiting for message `u` with all it needs takes a retransmission of
      it if and only if nothing but empty messages has dropped out of its window at
      the sender.  If not, the retransmission costs the receiver its history. */
  lemma RetransmissionTakenIff(suite: Suite, o: Outbound, l: Ledger, r: Inbound, u: int, nonce: Bytes)
    requires Lawful(suite) && Inv(suite, o, l) && l.first <= u <= l.Top() && l.Lo() <= u
    requires AtRest(l, r, l.bases[u - l.first], u - 1) && CanOpen(suite, l, r, u)
    requires NoClash(suite, OriginalDict(l, u), RebuiltDict(l, u)) && Wire(u) !in r.buffer
    ensures Retransmit(suite, o, Wire(u), nonce).Some?
    ensures var p := Retransmit(suite, o, Wire(u), nonce).value;
            && p.header.num == Wire(u)
            && (DroppedEmpty(l, u) ==> Accept(suite, r, p, Wire(u)) == Take(suite, l, r, u))
            && (!DroppedEmpty(l, u) ==>
                  var r' := Receive(suite, r, p);
                  r'.delivered == r.delivered && r'.received == map[] && r'.resetRequests == r.resetRequests + 1)
  {
    hide Wire, SeqDelta, SeqNext, Retains, Dictionary, Accept, Encode, OwnChains, KeysUsedOnce, Resealable, Unseal, Drain;
    RetransmitReseals(suite, o, l, u, nonce);
    var p := Retransmit(suite, o, Wire(u), nonce).value;
    var e := Emission(u, RebuiltDict(l, u), p);
    AnswerEmission(suite, l, u, RebuiltDict(l, u), nonce);
    DictionaryOfLog(r.received, l.log, l.first, Max(l.bases[u - l.first], u - 1 - RETAINED), u - 1, u);
    AdmittedIff(suite, l, r, e);
    RetransmitFaithfulIff(suite, o, l, u);
    PacketNumber(suite, l, e);
    WireDelta(u - 1, u);
    WireNext(u - 1);
    DrainNone(suite, Accept(suite, r, p, Wire(u)), Wire(u));
  }

  lemma AnswerEmission(suite: Suite, l: Ledger, u: int, dict: Bytes, nonce: Bytes)
    requires l.first <= u <= l.Top() && |l.uses| == |l.log|
    ensures EmissionOk(suite, l, Emission(u, dict, Encode(suite, Wire(u), l.log[u - l.first], dict, SealKeyOf(suite, l.uses[u - l.first]), nonce)))
  {
  }

  // ---- The first message ----

  lemma {:induction false} DrainKeepsDelivered(suite: Suite, r: Inbound, n: Seq24)
    ensures r.delivered <= Drain(suite, r, n).delivered
    decreases |r.buffer|
  {
    hide SeqNext, Accept;
    if n in r.buffer {
      AcceptKeepsDelivered(suite, r.(buffer := r.buffer - {n}), r.buffer[n], n);
      DrainKeepsDelivered(suite, Pop(suite, r, n), SeqNext(n));
    }
  }

  lemma AcceptKeepsDelivered(suite: Suite, r: Inbound, p: DataPacket, num: Seq24)
    ensures r.delivered <= Accept(suite, r, p, num).delivered
  {
    hide Dictionary, SeqDelta, Unseal, Pruned;
  }

  /** A receiver that has delivered nothing and can read the first message delivers
      it on arrival if and only if its number is not one taken for a gap. */
  lemma FirstDeliveredIff(suite: Suite, l: Ledger, r: Inbound, e: Emission)
    requires Lawful(suite) && EmissionOk(suite, l, e) && e.u == l.first && e.dict == []
    requires Unstarted(r) && CanOpen(suite, l, r, l.first)
    ensures var r' := Receive(suite, r, e.packet);
            if TakenForGap(Wire(l.first)) then Unstarted(r') && Wire(l.first) in r'.buffer
            else r'.delivered != [] && r'.delivered[0] == Delivery(Wire(l.first), l.log[0])
  {
    hide Wire, SeqDelta, SeqNext, Accept, Unseal, Drain, Dictionary, Iterate;
    PacketNumber(suite, l, e);
    EmptyDictionaryAt(Wire(l.first));
    AdmittedIff(suite, l, r, e);
    var r' := Accept(suite, r, e.packet, Wire(l.first));
    DrainKeepsDelivered(suite, r', SeqNext(OrZero(r'.highest)));
  }

  lemma EmptyDictionaryAt(s: Seq24)
    ensures Dictionary(map[], s) == []
  {
    EmptyDictionary(s, DICT_WINDOW);
  }

  // ---- Resets ----

  /** A Dict-Reset brings both sides together again: when the sender and a receiver that
      has everything up to the newest message have both been flushed, the next message
      is delivered, whatever either side held before. */
  lemma ResetResynchronises(suite: Suite, o: Outbound, l: Ledger, r: Inbound, payload: Bytes, nonce: Bytes)
    requires Lawful(suite) && Inv(suite, o, l) && EpochOrOne(o.epoch) in o.chains && |l.log| > 0
    requires r.highest == Some(Wire(l.Top()))
    requires CanOpen(suite, AfterSend(Sender.Flush(o), AfterFlush(l), payload), r, l.Top() + 1)
    ensures var p := Send(suite, Sender.Flush(o), payload, nonce).packet;
            && p.Some?
            && var r' := Accept(suite, Receiver.Flush(r), p.value, Wire(l.Top() + 1));
               && r'.delivered == r.delivered + [Delivery(Wire(l.Top() + 1), payload)]
               && r'.highest == Some(Wire(l.Top() + 1)) && r'.received == map[Wire(l.Top() + 1) := payload]
  {
    hide Wire, SeqDelta, SeqNext, Dictionary, Encode, Advance, Retains, Resealable, KeysUsedOnce, Accept, Iterate, Pruned;
    var o', l' := Sender.Flush(o), AfterFlush(l);
    var u, after := l.Top() + 1, AfterSend(Sender.Flush(o), AfterFlush(l), payload);
    FlushKeepsInv(suite, o, l);
    SentPacketIsOriginal(suite, o', l', payload, nonce);
    var p := Send(suite, o', payload, nonce).packet.value;
    var e := Emission(u, [], p);
    assert OriginalDict(after, u) == [];
    AnswerEmission(suite, after, u, [], nonce);
    EmptyDictionaryAt(Wire(u));
    SameKeysOpen(suite, after, r, Receiver.Flush(r), u);
    AdmittedIff(suite, after, Receiver.Flush(r), e);
    WireDelta(l.Top(), u);
    StoredAlone(suite, after, Receiver.Flush(r), u);
  }

  lemma SameKeysOpen(suite: Suite, l: Ledger, r: Inbound, r': Inbound, u: int)
    requires l.first <= u <= l.Top() && |l.uses| == |l.log| && CanOpen(suite, l, r, u) && r'.chains == r.chains
    ensures CanOpen(suite, l, r', u)
  {
  }

  lemma StoredAlone(suite: Suite, l: Ledger, r: Inbound, u: int)
    requires l.first <= u <= l.Top() && |l.uses| == |l.log| && r.received == map[] && r.highest == Some(Wire(u - 1))
    ensures var r' := Take(suite, l, r, u);
            r'.received == map[Wire(u) := l.log[u - l.first]] && r'.highest == Some(Wire(u))
            && r'.delivered == r.delivered + [Delivery(Wire(u), l.log[u - l.first])]
  {
    hide Wire, Dictionary, Iterate;
    WireDelta(u - 1, u);
    WireDelta(u, u);
  }
}
