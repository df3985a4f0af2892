/** What holds in every run of the network: chain agreement, key-use discipline
    and end-to-end payload integrity. */
module Integrity {
  import opened Primitives
  import opened Sequence
  import opened Ratchet
  import opened Sender
  import opened SenderLedger
  import opened Gate
  import opened Network
  import Receiver

  // ---- Chains ----

  ghost predicate ChainsAgree(suite: Suite, w: World) {
    forall r :: r in w.inbound ==> SoundChains(suite, w.ledger, w.inbound[r])
  }

  lemma SoundChainsStay(suite: Suite, l: Ledger, l': Ledger, r: Receiver.Inbound)
    requires Grows(l, l') && SoundChains(suite, l, r)
    ensures SoundChains(suite, l', r)
  {
    forall e | e in r.chains ensures OnMadeChain(suite, l', e, r.chains[e]) {
      ChainStays(suite, l, l', e, r.chains[e]);
    }
  }

  lemma EffectKeepsChains(suite: Suite, l: Ledger, shares: set<Share>, r: Receiver.Inbound, ev: Event, id: nat)
    requires SoundChains(suite, l, r)
    requires forall s :: s in shares ==> OnMadeChain(suite, l, s.epoch, s.state)
    requires ev.DeliverShare? ==> ev.s in shares
    ensures SoundChains(suite, l, Effect(suite, r, ev, id))
  {
    match ev
    case Deliver(_, e) => ReceiveKeepsChains(suite, l, r, e.packet);
    case DeliverDamaged(_, p) => ReceiveKeepsChains(suite, l, r, p);
    case _ =>
  }

  lemma StepKeepsChains(suite: Suite, w: World, ev: Event)
    requires SenderOk(suite, w) && ChainsAgree(suite, w) && Enabled(suite, w, ev)
    ensures ChainsAgree(suite, Step(suite, w, ev))
  {
    var w' := Step(suite, w, ev);
    StepKeepsSender(suite, w, ev);
    forall r | r in w'.inbound ensures SoundChains(suite, w'.ledger, w'.inbound[r]) {
      StepEffect(suite, w, ev, r);
      if r in w.inbound {
        EffectKeepsChains(suite, w.ledger, w.shares, w.inbound[r], ev, r);
        SoundChainsStay(suite, w.ledger, w'.ledger, w'.inbound[r]);
      }
    }
  }

  /** In every run, under sends, decrypts, failed decrypts, stale, repeated and
      seed re-shares, every chain state a receiver holds for an epoch is an iterate
      of a seed the sender generated for that epoch. */
  lemma {:induction false} ChainAgreement(suite: Suite, run: Run)
    requires Possible(suite, run)
    ensures ChainsAgree(suite, StateOf(suite, run))
  {
    if run.After? {
      ChainAgreement(suite, run.prev);
      SenderRefinesLog(suite, run.prev);
      StepKeepsChains(suite, StateOf(suite, run.prev), run.ev);
    }
  }

  ghost predicate OneKeyPerMessage(l: Ledger, e: Emission, e': Emission)
    requires l.first <= e.u <= l.Top() && l.first <= e'.u <= l.Top() && |l.uses| == |l.log|
  {
    && (e.u == e'.u <==> SameKey(l.uses[e.u - l.first], l.uses[e'.u - l.first]))
    && (e.u == e'.u ==> e.packet.header.idx == e'.packet.header.idx && e.packet.header.epoch == e'.packet.header.epoch)
  }

  lemma UsesSeparateMessages(suite: Suite, o: Outbound, l: Ledger, e: Emission, e': Emission)
    requires KeysUsedOnce(o, l) && EmissionOk(suite, l, e) && EmissionOk(suite, l, e')
    ensures OneKeyPerMessage(l, e, e')
  {
    hide Wire;
    var i, j := e.u - l.first, e'.u - l.first;
    assert i < j ==> l.uses[i].seed == l.uses[j].seed ==> l.uses[i].idx < l.uses[j].idx;
    assert j < i ==> l.uses[j].seed == l.uses[i].seed ==> l.uses[j].idx < l.uses[i].idx;
  }

  /** In every run two packets carry the same message exactly if they were sealed
      at the same position of the same chain; a retransmission never strays from
      the key, index and epoch of the first sending. */
  lemma KeyUseDiscipline(suite: Suite, run: Run, e: Emission, e': Emission)
    requires Possible(suite, run)
    requires e in StateOf(suite, run).net && e' in StateOf(suite, run).net
    ensures EmissionOk(suite, StateOf(suite, run).ledger, e) && EmissionOk(suite, StateOf(suite, run).ledger, e')
    ensures OneKeyPerMessage(StateOf(suite, run).ledger, e, e')
  {
    SenderRefinesLog(suite, run);
    var w := StateOf(suite, run);
    UsesSeparateMessages(suite, w.out, w.ledger, e, e');
  }

  // ---- Payloads ----

  ghost predicate AllSound(suite: Suite, w: World) {
    forall r :: r in w.inbound ==> Sound(suite, w.ledger, w.net, w.inbound[r])
  }

  lemma {:induction false} ReceiveDictsGrow(suite: Suite, r: Receiver.Inbound, p: DataPacket)
    ensures r.dicts <= Receiver.Receive(suite, r, p).dicts
  {
    var r' := Receiver.Accept(suite, r, p, p.header.num);
    DictsGrow(suite, r, p, p.header.num);
    DrainDictsGrow(suite, r', SeqNext(Receiver.OrZero(r'.highest)));
  }

  lemma EffectDictsGrow(suite: Suite, r: Receiver.Inbound, ev: Event, id: nat)
    ensures r.dicts <= Effect(suite, r, ev, id).dicts
  {
    match ev
    case Deliver(_, e) => ReceiveDictsGrow(suite, r, e.packet);
    case DeliverDamaged(_, p) => ReceiveDictsGrow(suite, r, p);
    case _ =>
  }

  lemma StepDictsGrow(suite: Suite, w: World, ev: Event, ds: set<Bytes>)
    requires SenderOk(suite, w) && Enabled(suite, w, ev) && DictsIn(Step(suite, w, ev), ds)
    ensures DictsIn(w, ds)
  {
    StepKeepsSender(suite, w, ev);
    forall r | r in w.inbound ensures w.inbound[r].dicts <= ds {
      StepEffect(suite, w, ev, r);
      EffectDictsGrow(suite, w.inbound[r], ev, r);
    }
    assert NetDicts(w.net) <= NetDicts(Step(suite, w, ev).net);
  }

  lemma EffectKeepsSound(suite: Suite, l: Ledger, net: set<Emission>, ds: set<Bytes>, r: Receiver.Inbound, ev: Event, id: nat)
    requires Setting(suite, l, net, ds) && Sound(suite, l, net, r)
    requires ev.Deliver? ==> ev.e in net
    requires ev.DeliverDamaged? ==> Unopenable(suite, ev.p)
    requires Effect(suite, r, ev, id).dicts <= ds
    ensures Sound(suite, l, net, Effect(suite, r, ev, id))
  {
    match ev
    case Deliver(r', e) => if r' == id { ReceiveKeepsSound(suite, l, net, ds, r, e.packet); }
    case DeliverDamaged(r', p) => if r' == id { ReceiveKeepsSound(suite, l, net, ds, r, p); }
    case _ =>
  }

  lemma StepKeepsSound(suite: Suite, w: World, ev: Event, ds: set<Bytes>)
    requires Lawful(suite) && CollisionFree(suite, ds)
    requires SenderOk(suite, w) && AllSound(suite, w) && Enabled(suite, w, ev) && DictsIn(Step(suite, w, ev), ds)
    ensures AllSound(suite, Step(suite, w, ev))
  {
    var w' := Step(suite, w, ev);
    StepKeepsSender(suite, w, ev);
    StepDictsGrow(suite, w, ev, ds);
    forall r | r in w'.inbound ensures Sound(suite, w'.ledger, w'.net, w'.inbound[r]) {
      StepEffect(suite, w, ev, r);
      if r in w.inbound {
        EffectKeepsSound(suite, w.ledger, w.net, ds, w.inbound[r], ev, r);
        SoundStays(suite, w.ledger, w'.ledger, w.net, w'.net, w'.inbound[r]);
      }
    }
  }

  /** End-to-end integrity: in every run with drops, repeats, reordering, damage,
      retransmissions, Dict-Resets, late joins and re-keying, everything any
      receiver holds or ever delivered under a wire number is a payload the sender
      put under a message with that number, as long as no two dictionaries of the
      run share a fingerprint. */
  lemma {:induction false} PayloadIntegrity(suite: Suite, run: Run, ds: set<Bytes>)
    requires Lawful(suite) && Possible(suite, run)
    requires DictsIn(StateOf(suite, run), ds) && CollisionFree(suite, ds)
    ensures AllSound(suite, StateOf(suite, run))
  {
    if run.After? {
      SenderRefinesLog(suite, run.prev);
      StepDictsGrow(suite, StateOf(suite, run.prev), run.ev, ds);
      PayloadIntegrity(suite, run.prev, ds);
      StepKeepsSound(suite, StateOf(suite, run.prev), run.ev, ds);
    }
  }
}
