/** One sender, any number of receivers and a network that drops, repeats,
    reorders and damages packets, as a state machine over whole runs.

    Everything the sender ever put on the wire stays in `net` and `shares`, and a
    delivery picks any of it at any time; the relay, which only repeats packets,
    adds nothing to that. */
module Network {
  import opened Primitives
  import opened Sequence
  import opened Dictionaries
  import opened Ratchet
  import opened Sender
  import opened SenderLedger
  import Receiver
  import opened Gate

  datatype World = World(
    out: Outbound,
    ledger: Ledger,
    net: set<Emission>,
    shares: set<Share>,
    inbound: map<nat, Receiver.Inbound>
  )

  const Initial: World := World(Fresh, Blank, {}, {}, map[])

  datatype Event =
    | SendData(payload: Bytes, nonce: Bytes)
    | AnswerNack(num: Seq24, nonce: Bytes)
    | ReshareSeed
    | ShareChain(epoch: nat)
    | Adopt(epoch: nat, seed: Bytes)
    | ForgetSeed(epoch: nat)
    | FlushSender
    | HandleAck(r: nat, i: nat)
    | Join(r: nat)
    | Deliver(r: nat, e: Emission)
    | DeliverDamaged(r: nat, p: DataPacket)
    | DeliverShare(r: nat, s: Share)
    | FlushReceiver(r: nat)

  /** What may happen in `w`: the network delivers only what was sent or is
      damaged beyond opening, a receiver acknowledges only what it has delivered,
      and chain seeds are never drawn twice. */
  ghost predicate Enabled(suite: Suite, w: World, ev: Event) {
    match ev
    case Adopt(epoch, seed) => 1 <= epoch && forall m :: m in w.ledger.made ==> m.1 != seed
    case HandleAck(r, i) => r in w.inbound && i < |w.inbound[r].delivered|
    case Join(r) => r !in w.inbound
    case Deliver(r, e) => r in w.inbound && e in w.net
    case DeliverDamaged(r, p) => r in w.inbound && Unopenable(suite, p)
    case DeliverShare(r, s) => r in w.inbound && s in w.shares
    case FlushReceiver(r) => r in w.inbound
    case _ => true
  }

  ghost function Step(suite: Suite, w: World, ev: Event): World
    requires Enabled(suite, w, ev)
  {
    match ev
    case SendData(payload, nonce) => StepSend(suite, w, payload, nonce)
    case AnswerNack(num, nonce) => StepNack(suite, w, num, nonce)
    case ReshareSeed =>
      var s := SeedShare(w.out);
      if s.Some? then w.(shares := w.shares + {s.value}) else w
    case ShareChain(epoch) =>
      if epoch in w.out.chains then w.(shares := w.shares + {Share(epoch, w.out.chains[epoch])}) else w
    case Adopt(epoch, seed) =>
      w.(out := StartEpoch(w.out, epoch, seed), ledger := AfterStartEpoch(w.ledger, epoch, seed))
    case ForgetSeed(epoch) => w.(out := w.out.(seeds := w.out.seeds - {epoch}))
    case FlushSender => w.(out := Flush(w.out), ledger := AfterFlush(w.ledger))
    case HandleAck(r, i) => w.(out := RecordAck(w.out, w.inbound[r].delivered[i].num))
    case Join(r) => w.(inbound := w.inbound[r := Receiver.Newcomer])
    case Deliver(r, e) => w.(inbound := w.inbound[r := Receiver.Receive(suite, w.inbound[r], e.packet)])
    case DeliverDamaged(r, p) => w.(inbound := w.inbound[r := Receiver.Receive(suite, w.inbound[r], p)])
    case DeliverShare(r, s) => w.(inbound := w.inbound[r := Receiver.LearnChain(w.inbound[r], s.epoch, s.state)])
    case FlushReceiver(r) => w.(inbound := w.inbound[r := Receiver.Flush(w.inbound[r])])
  }

  /** What an event does to receiver `id`. */
  ghost function Effect(suite: Suite, r: Receiver.Inbound, ev: Event, id: nat): Receiver.Inbound {
    match ev
    case Deliver(r', e) => if r' == id then Receiver.Receive(suite, r, e.packet) else r
    case DeliverDamaged(r', p) => if r' == id then Receiver.Receive(suite, r, p) else r
    case DeliverShare(r', s) => if r' == id then Receiver.LearnChain(r, s.epoch, s.state) else r
    case FlushReceiver(r') => if r' == id then Receiver.Flush(r) else r
    case _ => r
  }

  lemma StepEffect(suite: Suite, w: World, ev: Event, id: nat)
    requires Enabled(suite, w, ev)
    ensures id in w.inbound ==>
              id in Step(suite, w, ev).inbound && Step(suite, w, ev).inbound[id] == Effect(suite, w.inbound[id], ev, id)
    ensures id !in w.inbound && id in Step(suite, w, ev).inbound ==> Step(suite, w, ev).inbound[id] == Receiver.Newcomer
  {
  }

  ghost function StepSend(suite: Suite, w: World, payload: Bytes, nonce: Bytes): World {
    var res := Send(suite, w.out, payload, nonce);
    var l := AfterSend(w.out, w.ledger, payload);
    World(res.state, l,
          if res.packet.Some?
          then w.net + {Emission(l.Top(), Dictionary(w.out.sent, w.out.nextSeq), res.packet.value)} else w.net,
          w.shares, w.inbound)
  }

  ghost function StepNack(suite: Suite, w: World, num: Seq24, nonce: Bytes): World {
    var p := Retransmit(suite, w.out, num, nonce);
    if p.Some? then
      w.(net := w.net + {Emission(Back(w.ledger.Top(), num), Dictionary(w.out.sent, num), p.value)})
    else w
  }

  // ---- Runs ----

  datatype Run = Start | After(prev: Run, ev: Event)

  /** Every step of the run was possible when it was taken. */
  ghost predicate Possible(suite: Suite, run: Run) {
    match run
    case Start => true
    case After(prev, ev) => Possible(suite, prev) && Enabled(suite, StateOf(suite, prev), ev)
  }

  ghost function StateOf(suite: Suite, run: Run): World {
    match run
    case Start => Initial
    case After(prev, ev) =>
      var w := StateOf(suite, prev);
      if Enabled(suite, w, ev) then Step(suite, w, ev) else w
  }

  /** `ds` has every dictionary the sender compressed against or a receiver compared. */
  ghost predicate DictsIn(w: World, ds: set<Bytes>) {
    NetDicts(w.net) <= ds && forall r :: r in w.inbound ==> w.inbound[r].dicts <= ds
  }

  // ---- The invariant of every reachable state ----

  ghost predicate SenderOk(suite: Suite, w: World) {
    && Inv(suite, w.out, w.ledger)
    && (forall e :: e in w.net ==> EmissionOk(suite, w.ledger, e))
    && (forall s :: s in w.shares ==> OnMadeChain(suite, w.ledger, s.epoch, s.state))
  }

  // ---- Growth: nothing the ledger or the wire says is ever taken back ----

  ghost predicate Grows(l: Ledger, l': Ledger) {
    && l.made <= l'.made
    && |l.uses| == |l.log| && |l'.uses| == |l'.log|
    && (l.log != [] ==> l'.first == l.first && |l.log| <= |l'.log|)
    && (forall i :: 0 <= i < |l.log| && i < |l'.log| ==> l'.log[i] == l.log[i] && l'.uses[i] == l.uses[i])
  }

  lemma EmissionStays(suite: Suite, l: Ledger, l': Ledger, e: Emission)
    requires Grows(l, l') && EmissionOk(suite, l, e)
    ensures EmissionOk(suite, l', e)
  {
  }

  lemma ChainStays(suite: Suite, l: Ledger, l': Ledger, epoch: nat, c: ChainState)
    requires Grows(l, l') && OnMadeChain(suite, l, epoch, c)
    ensures OnMadeChain(suite, l', epoch, c)
  {
  }

  lemma FromLogStays(l: Ledger, l': Ledger, k: Seq24, p: Bytes)
    requires Grows(l, l') && FromLog(l, k, p)
    ensures FromLog(l', k, p)
  {
  }

  lemma OnWireStays(net: set<Emission>, net': set<Emission>, p: DataPacket)
    requires net <= net' && OnWire(net, p)
    ensures OnWire(net', p)
  {
  }

  lemma SoundStays(suite: Suite, l: Ledger, l': Ledger, net: set<Emission>, net': set<Emission>, r: Receiver.Inbound)
    requires Grows(l, l') && net <= net' && Sound(suite, l, net, r)
    ensures Sound(suite, l', net', r)
  {
    forall k | k in r.buffer && OnWire(net, r.buffer[k]) ensures OnWire(net', r.buffer[k]) {
      OnWireStays(net, net', r.buffer[k]);
    }
    forall k | k in r.received ensures FromLog(l', k, r.received[k]) {
      FromLogStays(l, l', k, r.received[k]);
    }
    forall i | 0 <= i < |r.delivered| ensures FromLog(l', r.delivered[i].num, r.delivered[i].payload) {
      FromLogStays(l, l', r.delivered[i].num, r.delivered[i].payload);
    }
  }

  lemma SendGrows(o: Outbound, l: Ledger, payload: Bytes)
    requires Numbered(o, l) && (l.log != [] ==> EpochOrOne(o.epoch) in o.chains && EpochOrOne(o.epoch) in l.seed)
    ensures Grows(l, AfterSend(o, l, payload))
  {
  }

  // ---- The sender in every run ----

  lemma StepSendKeepsSender(suite: Suite, w: World, payload: Bytes, nonce: Bytes)
    requires SenderOk(suite, w)
    ensures SenderOk(suite, StepSend(suite, w, payload, nonce))
    ensures Grows(w.ledger, StepSend(suite, w, payload, nonce).ledger) && w.net <= StepSend(suite, w, payload, nonce).net
  {
    hide Wire, SeqDelta, SeqNext;
    var w' := StepSend(suite, w, payload, nonce);
    SendGrows(w.out, w.ledger, payload);
    SendKeepsInv(suite, w.out, w.ledger, payload, nonce);
    if EpochOrOne(w.out.epoch) in w.out.chains {
      SentPacketIsOriginal(suite, w.out, w.ledger, payload, nonce);
    }
    forall e | e in w'.net ensures EmissionOk(suite, w'.ledger, e) {
      if e in w.net { EmissionStays(suite, w.ledger, w'.ledger, e); }
    }
    forall s | s in w'.shares ensures OnMadeChain(suite, w'.ledger, s.epoch, s.state) {
      ChainStays(suite, w.ledger, w'.ledger, s.epoch, s.state);
    }
  }

  lemma AnswerIsEmission(suite: Suite, o: Outbound, l: Ledger, num: Seq24, nonce: Bytes)
    requires Numbered(o, l) && Bounded(o, l) && Resealable(suite, o, l) && Retransmit(suite, o, num, nonce).Some?
    ensures EmissionOk(suite, l, Emission(Back(l.Top(), num), Dictionary(o.sent, num), Retransmit(suite, o, num, nonce).value))
  {
    assert RetainsKey(o.sent, l.log, l.first, l.Lo(), l.Top(), num);
    assert ResealableKey(suite, o, l, num);
    BackRange(l.Top(), num);
  }

  lemma StepNackKeepsSender(suite: Suite, w: World, num: Seq24, nonce: Bytes)
    requires SenderOk(suite, w)
    ensures SenderOk(suite, StepNack(suite, w, num, nonce))
    ensures Grows(w.ledger, StepNack(suite, w, num, nonce).ledger) && w.net <= StepNack(suite, w, num, nonce).net
  {
    hide Wire, SeqDelta, Retransmit, EmissionOk, OnMadeChain, Dictionary;
    if Retransmit(suite, w.out, num, nonce).Some? {
      AnswerIsEmission(suite, w.out, w.ledger, num, nonce);
    }
  }

  lemma StepShareKeepsSender(suite: Suite, w: World, epoch: nat, c: ChainState)
    requires SenderOk(suite, w)
    requires epoch in w.ledger.seed && OnChain(suite, w.ledger.seed[epoch], c)
    ensures SenderOk(suite, w.(shares := w.shares + {Share(epoch, c)}))
  {
    assert epoch in w.out.chains;
    assert (epoch, w.ledger.seed[epoch]) in w.ledger.made;
    assert OnMadeChain(suite, w.ledger, epoch, c);
  }

  lemma StepReshareKeepsSender(suite: Suite, w: World)
    requires SenderOk(suite, w)
    ensures SenderOk(suite, Step(suite, w, ReshareSeed))
  {
    var e := EpochOrOne(w.out.epoch);
    if e in w.out.seeds {
      assert w.out.seeds[e] == ChainState(w.ledger.seed[e], 0);
      StepShareKeepsSender(suite, w, e, w.out.seeds[e]);
    }
  }

  lemma StepAdoptKeepsSender(suite: Suite, w: World, epoch: nat, seed: Bytes)
    requires SenderOk(suite, w) && Enabled(suite, w, Adopt(epoch, seed))
    ensures SenderOk(suite, Step(suite, w, Adopt(epoch, seed)))
    ensures Grows(w.ledger, Step(suite, w, Adopt(epoch, seed)).ledger)
  {
    var w' := Step(suite, w, Adopt(epoch, seed));
    StartEpochKeepsInv(suite, w.out, w.ledger, epoch, seed);
    forall e | e in w.net ensures EmissionOk(suite, w'.ledger, e) {
      EmissionStays(suite, w.ledger, w'.ledger, e);
    }
    forall s | s in w.shares ensures OnMadeChain(suite, w'.ledger, s.epoch, s.state) {
      ChainStays(suite, w.ledger, w'.ledger, s.epoch, s.state);
    }
  }

  lemma StepFlushKeepsSender(suite: Suite, w: World)
    requires SenderOk(suite, w)
    ensures SenderOk(suite, Step(suite, w, FlushSender))
    ensures Grows(w.ledger, Step(suite, w, FlushSender).ledger)
  {
    var w' := Step(suite, w, FlushSender);
    FlushKeepsInv(suite, w.out, w.ledger);
    forall e | e in w.net ensures EmissionOk(suite, w'.ledger, e) {
      EmissionStays(suite, w.ledger, w'.ledger, e);
    }
    forall s | s in w.shares ensures OnMadeChain(suite, w'.ledger, s.epoch, s.state) {
      ChainStays(suite, w.ledger, w'.ledger, s.epoch, s.state);
    }
  }

  lemma StepAckKeepsSender(suite: Suite, w: World, num: Seq24)
    requires SenderOk(suite, w)
    ensures SenderOk(suite, w.(out := RecordAck(w.out, num)))
  {
    RecordAckKeepsInv(suite, w.out, w.ledger, num);
  }

  lemma StepForgetKeepsSender(suite: Suite, w: World, epoch: nat)
    requires SenderOk(suite, w)
    ensures SenderOk(suite, w.(out := w.out.(seeds := w.out.seeds - {epoch})))
  {
    ForgetSeedKeepsInv(suite, w.out, w.ledger, epoch);
  }

  lemma StepChainKeepsSender(suite: Suite, w: World, epoch: nat)
    requires SenderOk(suite, w)
    ensures SenderOk(suite, Step(suite, w, ShareChain(epoch)))
  {
    if epoch in w.out.chains { StepShareKeepsSender(suite, w, epoch, w.out.chains[epoch]); }
  }

  lemma StepReceiverKeepsSender(suite: Suite, w: World, w': World)
    requires SenderOk(suite, w) && w' == w.(inbound := w'.inbound)
    ensures SenderOk(suite, w')
  {
  }

  lemma SameLedgerGrows(suite: Suite, w: World)
    requires SenderOk(suite, w)
    ensures Grows(w.ledger, w.ledger)
  {
  }

  lemma StepKeepsSender(suite: Suite, w: World, ev: Event)
    requires SenderOk(suite, w) && Enabled(suite, w, ev)
    ensures SenderOk(suite, Step(suite, w, ev))
    ensures Grows(w.ledger, Step(suite, w, ev).ledger) && w.net <= Step(suite, w, ev).net
  {
    hide SenderOk, Grows, StepSend, StepNack, Receiver.Receive, RecordAck, StartEpoch, AfterStartEpoch, Flush, AfterFlush;
    SameLedgerGrows(suite, w);
    match ev
    case SendData(payload, nonce) => StepSendKeepsSender(suite, w, payload, nonce);
    case AnswerNack(num, nonce) => StepNackKeepsSender(suite, w, num, nonce);
    case ReshareSeed => StepReshareKeepsSender(suite, w);
    case ShareChain(epoch) => StepChainKeepsSender(suite, w, epoch);
    case Adopt(epoch, seed) => StepAdoptKeepsSender(suite, w, epoch, seed);
    case FlushSender => StepFlushKeepsSender(suite, w);
    case HandleAck(r, i) => StepAckKeepsSender(suite, w, w.inbound[r].delivered[i].num);
    case ForgetSeed(epoch) => StepForgetKeepsSender(suite, w, epoch);
    case _ => StepReceiverKeepsSender(suite, w, Step(suite, w, ev));
  }

  /** In every run the sender's bounded, wrapped state stands for its unbounded
      history, and everything on the wire is a message under its own key. */
  lemma {:induction false} SenderRefinesLog(suite: Suite, run: Run)
    requires Possible(suite, run)
    ensures SenderOk(suite, StateOf(suite, run))
  {
    match run
    case Start => InvInit(suite);
    case After(prev, ev) =>
      SenderRefinesLog(suite, prev);
      StepKeepsSender(suite, StateOf(suite, prev), ev);
  }
}
