/** Gap-free delivery and what an acknowledgement means, over whole runs. */
module GaplessDelivery {
  import opened Primitives
  import opened Sequence
  import opened Dictionaries
  import opened Sender
  import opened SenderLedger
  import opened Receiver
  import opened Gate
  import opened Tracking
  import opened Network
  import opened Integrity
  import opened InOrderDelivery
  import opened NoSkip

  ghost predicate PrefixPlaced(l: Ledger, r: Inbound, place: Option<int>) {
    if place.Some? then PrefixAt(l, r, place.value) else Unstarted(r)
  }

  // ---- Earlier states meet the hypotheses of later ones ----

  lemma {:induction false} SpanAgrees(log: seq<Bytes>, log': seq<Bytes>, first: int, a: int, b: int)
    requires first <= a && b <= first + |log| && |log| <= |log'|
    requires forall i :: 0 <= i < |log| ==> log'[i] == log[i]
    ensures Span(log', first, a, b) == Span(log, first, a, b)
    decreases b - a
  {
    if a < b { SpanAgrees(log, log', first, a + 1, b); }
  }

  lemma FullWindowBefore(suite: Suite, l: Ledger, l': Ledger, net: set<Emission>, net': set<Emission>)
    requires Grows(l, l') && net <= net' && FullWindow(l', net')
    requires forall e :: e in net ==> EmissionOk(suite, l, e)
    ensures FullWindow(l, net)
  {
    hide Wire, Encode;
    forall e | e in net ensures HasFullDict(l, e) {
      assert EmissionOk(suite, l, e) && HasFullDict(l', e);
      SpanAgrees(l.log, l'.log, l.first, Max(l.first, e.u - DICT_WINDOW), e.u);
    }
  }

  lemma RetainsStays(h: History, log: seq<Bytes>, log': seq<Bytes>, first: int, lo: int, top: int)
    requires Retains(h, log, first, lo, top) && |log| <= |log'|
    requires forall i :: 0 <= i < |log| ==> log'[i] == log[i]
    ensures Retains(h, log', first, lo, top)
  {
    hide Wire, SeqDelta;
    forall k: Seq24 ensures RetainsKey(h, log', first, lo, top, k) {
      assert RetainsKey(h, log, first, lo, top, k);
      BackRange(top, k);
    }
  }

  lemma PrefixPlacedStays(l: Ledger, l': Ledger, r: Inbound, place: Option<int>)
    requires Grows(l, l') && PrefixPlaced(l, r, place)
    ensures PrefixPlaced(l', r, place)
  {
    hide Wire, SeqDelta, Retains;
    if place.Some? && r.received != map[] {
      RetainsStays(r.received, l.log, l'.log, l.first, Max(l.first, place.value - RETAINED), place.value);
    }
  }

  // ---- One step ----

  lemma ReceivePrefixPlaces(suite: Suite, l: Ledger, net: set<Emission>, ds: set<Bytes>, r: Inbound, place: Option<int>, e: Emission)
    requires Setting(suite, l, net, ds) && FullWindow(l, net) && e in net && PrefixPlaced(l, r, place) && Keyed(r)
    requires Near(Origin(place, e.u), e.u) && InPlay(suite, net, r, Origin(place, e.u))
    requires Receive(suite, r, e.packet).dicts <= ds
    ensures var r' := Receive(suite, r, e.packet); PrefixPlaced(l, r', Moved(place, e.u, r'.highest))
  {
    hide Wire, SeqDelta, SeqNext, Receive, Retains;
    if place.Some? {
      var pos' := ReceiveKeepsPrefix(suite, l, net, ds, r, place.value, e);
      WireDelta(place.value, pos');
    } else {
      var pos' := ReceiveFirst(suite, l, net, ds, r, e);
      WireDelta(e.u, pos');
    }
  }

  lemma UntouchedPrefixPlaced(l: Ledger, r: Inbound, r': Inbound, place: Option<int>)
    requires PrefixPlaced(l, r, place)
    requires r' == r.(buffer := r'.buffer, chains := r'.chains, received := r'.received)
    requires r'.received == r.received || r'.received == map[]
    requires Unstarted(r) ==> Unstarted(r')
    ensures PrefixPlaced(l, r', place)
  {
    hide Wire, Retains;
    if place.Some? { UnmovedPrefix(l, r, r'); }
  }

  lemma EffectKeepsPrefix(suite: Suite, w: World, ds: set<Bytes>, r: Inbound, ev: Event, id: nat, place: Option<int>)
    requires Setting(suite, w.ledger, w.net, ds) && FullWindow(w.ledger, w.net)
    requires Keyed(r) && PrefixPlaced(w.ledger, r, place)
    requires Enabled(suite, w, ev) && id in w.inbound && w.inbound[id] == r && TimelyStep(suite, w, place, ev, id)
    requires Effect(suite, r, ev, id).dicts <= ds
    ensures var r' := Effect(suite, r, ev, id); PrefixPlaced(w.ledger, r', PlaceAfter(place, r', ev, id))
  {
    hide Wire, SeqDelta, SeqNext, Receive, Retains, Prefix;
    match ev
    case Deliver(x, e) => if x == id { ReceivePrefixPlaces(suite, w.ledger, w.net, ds, r, place, e); }
    case DeliverDamaged(x, p) => if x == id {
        DamageTracksNothing(suite, r, p);
        UntouchedPrefixPlaced(w.ledger, r, Receive(suite, r, p), place);
      }
    case DeliverShare(x, s) => UntouchedPrefixPlaced(w.ledger, r, LearnChain(r, s.epoch, s.state), place);
    case FlushReceiver(x) => UntouchedPrefixPlaced(w.ledger, r, Receiver.Flush(r), place);
    case _ =>
  }

  // ---- Whole runs ----

  /** No silent skip: in every timely run whose payloads have content and whose
      packets carry full-window dictionaries, what a receiver has delivered is a
      prefix of the log, message by message from the very first. */
  lemma {:induction false} NoSilentSkip(suite: Suite, run: Run, ds: set<Bytes>, id: nat)
    requires Lawful(suite) && Possible(suite, run) && Timely(suite, run, id)
    requires DictsIn(StateOf(suite, run), ds) && CollisionFree(suite, ds)
    requires FullWindow(StateOf(suite, run).ledger, StateOf(suite, run).net)
    ensures id in StateOf(suite, run).inbound ==>
              PrefixPlaced(StateOf(suite, run).ledger, StateOf(suite, run).inbound[id], Place(suite, run, id))
    ensures id !in StateOf(suite, run).inbound ==> Place(suite, run, id) == None
  {
    if run.After? {
      var w, w' := StateOf(suite, run.prev), StateOf(suite, run);
      SenderRefinesLog(suite, run.prev);
      StepDictsGrow(suite, w, run.ev, ds);
      StepKeepsSender(suite, w, run.ev);
      FullWindowBefore(suite, w.ledger, w'.ledger, w.net, w'.net);
      NoSilentSkip(suite, run.prev, ds, id);
      PayloadIntegrity(suite, run.prev, ds);
      NoSkipStep(suite, run, ds, id);
    }
  }

  lemma NoSkipStep(suite: Suite, run: Run, ds: set<Bytes>, id: nat)
    requires run.After? && Possible(suite, run) && Timely(suite, run, id)
    requires var w := StateOf(suite, run.prev);
             && Setting(suite, w.ledger, w.net, ds) && FullWindow(w.ledger, w.net) && AllSound(suite, w)
             && Grows(w.ledger, StateOf(suite, run).ledger)
             && (id in w.inbound ==> PrefixPlaced(w.ledger, w.inbound[id], Place(suite, run.prev, id)))
             && (id !in w.inbound ==> Place(suite, run.prev, id) == None)
    requires DictsIn(StateOf(suite, run), ds)
    ensures id in StateOf(suite, run).inbound ==>
              PrefixPlaced(StateOf(suite, run).ledger, StateOf(suite, run).inbound[id], Place(suite, run, id))
    ensures id !in StateOf(suite, run).inbound ==> Place(suite, run, id) == None
  {
    hide Wire, SeqDelta, SeqNext, Prefix, Effect, Moved;
    var w, w' := StateOf(suite, run.prev), StateOf(suite, run);
    StepEffect(suite, w, run.ev, id);
    if id in w.inbound {
      EffectKeepsPrefix(suite, w, ds, w.inbound[id], run.ev, id, Place(suite, run.prev, id));
      PrefixPlacedStays(w.ledger, w'.ledger, w'.inbound[id], Place(suite, run, id));
    }
  }

  /** In every timely run, with resets, empty payloads and any retransmissions: an
      acknowledgement of the delivery of message `nums[i]` is recorded if and only if
      that message is a whole number of cycles behind the newest, or more than half
      the space past such a number, and otherwise changes nothing.  For the newest
      message itself what is recorded is the newest number sent. */
  lemma AckRecordedIff(suite: Suite, run: Run, ds: set<Bytes>, id: nat, i: nat) returns (nums: seq<int>)
    requires Lawful(suite) && Possible(suite, run) && Timely(suite, run, id)
    requires DictsIn(StateOf(suite, run), ds) && CollisionFree(suite, ds)
    requires id in StateOf(suite, run).inbound && i < |StateOf(suite, run).inbound[id].delivered|
    ensures var w, place := StateOf(suite, run), Place(suite, run, id);
            var num, top := w.inbound[id].delivered[i].num, w.ledger.Top();
            && place.Some? && Tracks(w.ledger, w.inbound[id], place.value, nums) && nums[i] <= top
            && var behind := (top - nums[i]) % SEQ_MOD;
            && RecordAck(w.out, num) == (if behind == 0 || behind > HALF then w.out.(acked := Some(num)) else w.out)
            && (nums[i] == top ==> num == w.out.highestSent)
  {
    hide Wire, SeqDelta, Possible, Timely, StateOf, Place, DictsIn, Bounded, Resealable, KeysUsedOnce, OwnChains;
    DeliveriesFollowLog(suite, run, ds, id);
    SenderRefinesLog(suite, run);
    var w := StateOf(suite, run);
    nums :| Tracks(w.ledger, w.inbound[id], Place(suite, run, id).value, nums);
    assert IsDelivery(w.ledger, w.inbound[id].delivered[i], nums[i]);
    BehindOnWire(w.ledger.Top(), nums[i]);
  }

  /** Cumulative acknowledgement: where nothing is skipped, an acknowledgement that
      is recorded means that the receiver has delivered the whole log. */
  lemma CumulativeAck(suite: Suite, run: Run, ds: set<Bytes>, id: nat, i: nat)
    requires Lawful(suite) && Possible(suite, run) && Timely(suite, run, id)
    requires DictsIn(StateOf(suite, run), ds) && CollisionFree(suite, ds)
    requires FullWindow(StateOf(suite, run).ledger, StateOf(suite, run).net)
    requires id in StateOf(suite, run).inbound && i < |StateOf(suite, run).inbound[id].delivered|
    requires |StateOf(suite, run).ledger.log| - 1 - i < HALF
    ensures var w := StateOf(suite, run);
            var r, num := w.inbound[id], w.inbound[id].delivered[i].num;
            && RecordAck(w.out, num) == (if i == |w.ledger.log| - 1 then w.out.(acked := Some(w.out.highestSent)) else w.out)
            && (i == |w.ledger.log| - 1 ==>
                  && |r.delivered| == |w.ledger.log|
                  && forall j :: 0 <= j < |r.delivered| ==> r.delivered[j].payload == w.ledger.log[j])
  {
    NoSilentSkip(suite, run, ds, id);
    SenderRefinesLog(suite, run);
    var w := StateOf(suite, run);
    AckOfDelivered(w.out, w.ledger, w.inbound[id], i);
  }

  lemma AckOfDelivered(o: Outbound, l: Ledger, r: Inbound, i: nat)
    requires Numbered(o, l) && Prefix(l, r) && i < |r.delivered| && |l.log| - 1 - i < HALF
    ensures var num := r.delivered[i].num;
            && RecordAck(o, num) == (if i == |l.log| - 1 then o.(acked := Some(o.highestSent)) else o)
            && (i == |l.log| - 1 ==> |r.delivered| == |l.log|)
  {
    WireDelta(l.Top(), l.first + i);
  }

  /** Every acknowledgement in the run is for a message at most half the space behind
      the newest when it is made. */
  ghost predicate PromptAcks(suite: Suite, run: Run) {
    run.After? ==> PromptAcks(suite, run.prev) && PromptAck(suite, run.prev, run.ev)
  }

  ghost predicate PromptAck(suite: Suite, run: Run, ev: Event) {
    var w := StateOf(suite, run);
    ev.HandleAck? && ev.r in w.inbound && ev.i < |w.inbound[ev.r].delivered| ==>
      && Timely(suite, run, ev.r)
      && forall nums: seq<int> :: DeliveredAs(suite, run, ev.r, nums) ==> w.ledger.Top() - nums[ev.i] <= HALF
  }

  /** `nums` are the true numbers of what receiver `id` has delivered. */
  ghost predicate DeliveredAs(suite: Suite, run: Run, id: nat, nums: seq<int>) {
    var w := StateOf(suite, run);
    && id in w.inbound && |nums| == |w.inbound[id].delivered|
    && Place(suite, run, id).Some? && Tracks(w.ledger, w.inbound[id], Place(suite, run, id).value, nums)
  }

  ghost predicate Begins(run: Run, whole: Run) {
    run == whole || (whole.After? && Begins(run, whole.prev))
  }

  /** What is recorded as acknowledged was the newest number sent at the moment it was
      recorded, in answer to a receiver that had delivered that very message. */
  lemma {:induction false} AckedWasNewest(suite: Suite, run: Run, ds: set<Bytes>) returns (at: Run)
    requires Lawful(suite) && Possible(suite, run) && PromptAcks(suite, run)
    requires DictsIn(StateOf(suite, run), ds) && CollisionFree(suite, ds)
    requires StateOf(suite, run).out.acked.Some?
    ensures at.After? && Begins(at, run) && at.ev.HandleAck?
    ensures var w, a := StateOf(suite, at.prev), StateOf(suite, run).out.acked;
            && a == Some(w.out.highestSent) && StateOf(suite, at).out.acked == a
            && at.ev.r in w.inbound && at.ev.i < |w.inbound[at.ev.r].delivered|
            && IsDelivery(w.ledger, w.inbound[at.ev.r].delivered[at.ev.i], w.ledger.Top())
    decreases run
  {
    hide Timely, Place, DictsIn, Step, Tracks, Lawful, CollisionFree, SenderOk, Numbered, IsDelivery;
    var w := StateOf(suite, run.prev);
    SenderRefinesLog(suite, run.prev);
    StepDictsGrow(suite, w, run.ev, ds);
    StepAcks(suite, w, run.ev);
    at := run;
    if run.ev.HandleAck? {
      var nums := AckRecordedIff(suite, run.prev, ds, run.ev.r, run.ev.i);
      TracksLength(w.ledger, w.inbound[run.ev.r], Place(suite, run.prev, run.ev.r).value, nums);
      assert DeliveredAs(suite, run.prev, run.ev.r, nums);
      NearBehind(w.ledger.Top(), nums[run.ev.i]);
      assert IsDelivery(w.ledger, w.inbound[run.ev.r].delivered[run.ev.i], nums[run.ev.i]);
      if nums[run.ev.i] != w.ledger.Top() {
        at := AckedWasNewest(suite, run.prev, ds);
      }
    } else {
      at := AckedWasNewest(suite, run.prev, ds);
    }
  }

  lemma TracksLength(l: Ledger, r: Inbound, pos: int, nums: seq<int>)
    requires Tracks(l, r, pos, nums)
    ensures |nums| == |r.delivered|
    ensures forall i :: 0 <= i < |nums| ==> IsDelivery(l, r.delivered[i], nums[i])
  {
  }

  lemma NearBehind(top: int, u: int)
    requires u <= top <= u + HALF
    ensures (top - u) % SEQ_MOD == top - u
  {
  }

  /** Only an acknowledgement changes what is recorded as acknowledged. */
  lemma StepAcks(suite: Suite, w: World, ev: Event)
    requires Enabled(suite, w, ev)
    ensures Step(suite, w, ev).out.acked ==
            if ev.HandleAck? then RecordAck(w.out, w.inbound[ev.r].delivered[ev.i].num).acked else w.out.acked
  {
    hide RecordAck, Dictionary, Pruned, Encode, Receive, Retransmit;
  }

  // ---- When packets carry full-window dictionaries ----

  /** Payloads have content, the sender is never flushed, and it is only asked
      again for messages inside the slack. */
  ghost predicate Gentle(w: World, ev: Event) {
    match ev
    case SendData(payload, nonce) => payload != []
    case AnswerNack(num, nonce) => w.ledger.Top() - Back(w.ledger.Top(), num) <= RETAINED - DICT_WINDOW
    case FlushSender => false
    case _ => true
  }

  ghost predicate GentleRun(suite: Suite, run: Run) {
    run.After? ==> GentleRun(suite, run.prev) && Gentle(StateOf(suite, run.prev), run.ev)
  }

  ghost predicate Windowed(w: World) {
    FullWindow(w.ledger, w.net) && w.ledger.base == w.ledger.first
  }

  lemma SendKeepsWindowed(suite: Suite, w: World, payload: Bytes, nonce: Bytes)
    requires SenderOk(suite, w) && Windowed(w) && payload != []
    ensures Windowed(StepSend(suite, w, payload, nonce))
  {
    hide Wire, SeqDelta, SeqNext, Dictionary, Encode, Resealable, KeysUsedOnce, Retains;
    var w' := StepSend(suite, w, payload, nonce);
    if EpochOrOne(w.out.epoch) in w.out.chains {
      SentPacketIsOriginal(suite, w.out, w.ledger, payload, nonce);
    }
    forall e | e in w'.net ensures HasFullDict(w'.ledger, e) {
      if e in w.net {
        assert HasFullDict(w.ledger, e) && EmissionOk(suite, w.ledger, e);
        SpanAgrees(w.ledger.log, w'.ledger.log, w.ledger.first, Max(w.ledger.first, e.u - DICT_WINDOW), e.u);
      }
    }
  }

  lemma NackKeepsWindowed(suite: Suite, w: World, num: Seq24, nonce: Bytes)
    requires SenderOk(suite, w) && Windowed(w) && Gentle(w, AnswerNack(num, nonce))
    ensures Windowed(StepNack(suite, w, num, nonce))
  {
    hide Wire, SeqDelta, Dictionary, Encode, KeysUsedOnce, EmissionOk;
    var l := w.ledger;
    if Retransmit(suite, w.out, num, nonce).Some? {
      assert RetainsKey(w.out.sent, l.log, l.first, l.Lo(), l.Top(), num);
      BackRange(l.Top(), num);
      DictionaryOfLog(w.out.sent, l.log, l.first, l.Lo(), l.Top(), Back(l.Top(), num));
    }
  }

  lemma UntouchedWindowed(w: World, w': World)
    requires Windowed(w) && w'.net == w.net && w'.ledger == w.ledger.(seed := w'.ledger.seed, made := w'.ledger.made)
    ensures Windowed(w')
  {
    forall e | e in w'.net ensures HasFullDict(w'.ledger, e) { assert HasFullDict(w.ledger, e); }
  }

  /** In a gentle run every packet ever put on the wire, retransmissions included,
      is compressed against its full window. */
  lemma {:induction false} GentleRunsAreWindowed(suite: Suite, run: Run)
    requires Possible(suite, run) && GentleRun(suite, run)
    ensures Windowed(StateOf(suite, run))
  {
    hide FullWindow, StepSend, StepNack, SenderOk;
    if run.After? {
      var w := StateOf(suite, run.prev);
      GentleRunsAreWindowed(suite, run.prev);
      SenderRefinesLog(suite, run.prev);
      match run.ev
      case SendData(payload, nonce) => SendKeepsWindowed(suite, w, payload, nonce);
      case AnswerNack(num, nonce) => NackKeepsWindowed(suite, w, num, nonce);
      case _ => UntouchedWindowed(w, StateOf(suite, run));
    } else {
      BlankIsWindowed();
    }
  }

  lemma BlankIsWindowed()
    ensures Windowed(Initial)
  {
  }

  /** So a gentle, timely run delivers each receiver a prefix of the log. */
  lemma GentleRunsSkipNothing(suite: Suite, run: Run, ds: set<Bytes>, id: nat)
    requires Lawful(suite) && Possible(suite, run) && Timely(suite, run, id) && GentleRun(suite, run)
    requires DictsIn(StateOf(suite, run), ds) && CollisionFree(suite, ds)
    requires id in StateOf(suite, run).inbound
    ensures var log, delivered := StateOf(suite, run).ledger.log, StateOf(suite, run).inbound[id].delivered;
            && |delivered| <= |log|
            && forall i :: 0 <= i < |delivered| ==>
                 delivered[i] == Delivery(Wire(StateOf(suite, run).ledger.first + i), log[i])
  {
    hide Wire, SeqDelta, Timely, Possible, StateOf, DictsIn, GentleRun, FullWindow, Shelf;
    GentleRunsAreWindowed(suite, run);
    NoSilentSkip(suite, run, ds, id);
  }

  // ---- A stream that never starts ----

  lemma ReceiveStaysUnstarted(suite: Suite, l: Ledger, net: set<Emission>, ds: set<Bytes>, r: Inbound, e: Emission)
    requires Setting(suite, l, net, ds) && FullWindow(l, net) && e in net && Unstarted(r)
    requires TakenForGap(Wire(l.first))
    requires Receive(suite, r, e.packet).dicts <= ds
    ensures Unstarted(Receive(suite, r, e.packet))
  {
    hide Wire, SeqDelta, SeqNext, Accept, Unseal, Drain, Retains, FullWindow, Encode;
    assert EmissionOk(suite, l, e);
    PacketNumber(suite, l, e);
    if Ahead(r, e.packet.header.num) == 1 && Unseal(suite, r, e.packet).Some? {
      var r' := Accept(suite, r, e.packet, Wire(e.u));
      DrainDictsGrow(suite, r', SeqNext(OrZero(r'.highest)));
      FirstAdmitted(suite, l, net, ds, r, e);
      UnstartedSettles(suite, r');
    }
  }

  lemma EffectStaysUnstarted(suite: Suite, w: World, ds: set<Bytes>, r: Inbound, ev: Event, id: nat)
    requires Setting(suite, w.ledger, w.net, ds) && FullWindow(w.ledger, w.net) && Unstarted(r)
    requires w.ledger.log != [] ==> TakenForGap(Wire(w.ledger.first))
    requires Enabled(suite, w, ev) && Effect(suite, r, ev, id).dicts <= ds
    ensures Unstarted(Effect(suite, r, ev, id))
  {
    hide Wire, SeqDelta, SeqNext, Receive, FullWindow;
    match ev
    case Deliver(x, e) => if x == id {
        assert EmissionOk(suite, w.ledger, e);
        ReceiveStaysUnstarted(suite, w.ledger, w.net, ds, r, e);
      }
    case DeliverDamaged(x, p) => DamageTracksNothing(suite, r, p);
    case _ =>
  }

  /** If numbers were used up before the first message, because the sender tried to
      send before it had joined, so that the stream begins with a number from 2 to
      200, then in a gentle run no receiver ever delivers any of it. */
  lemma {:induction false} LateStartStalls(suite: Suite, run: Run, ds: set<Bytes>, id: nat)
    requires Lawful(suite) && Possible(suite, run) && GentleRun(suite, run)
    requires DictsIn(StateOf(suite, run), ds) && CollisionFree(suite, ds)
    requires StateOf(suite, run).ledger.log != [] ==> TakenForGap(Wire(StateOf(suite, run).ledger.first))
    ensures id in StateOf(suite, run).inbound ==> Unstarted(StateOf(suite, run).inbound[id])
  {
    hide Wire, FullWindow, Effect, SenderOk, EmissionOk, Step, Gentle, TakenForGap, Unstarted, DictsIn;
    if run.After? {
      var w, w' := StateOf(suite, run.prev), StateOf(suite, run);
      SenderRefinesLog(suite, run.prev);
      StepKeepsSender(suite, w, run.ev);
      StepDictsGrow(suite, w, run.ev, ds);
      LateStartStalls(suite, run.prev, ds, id);
      GentleRunsAreWindowed(suite, run.prev);
      SettingOf(suite, w, ds);
      StepEffect(suite, w, run.ev, id);
      NewcomerUnstarted();
      if id in w.inbound {
        DictsOf(w', ds, id);
        EffectStaysUnstarted(suite, w, ds, w.inbound[id], run.ev, id);
      }
    }
  }

  lemma SettingOf(suite: Suite, w: World, ds: set<Bytes>)
    requires Lawful(suite) && SenderOk(suite, w) && DictsIn(w, ds) && CollisionFree(suite, ds)
    ensures Setting(suite, w.ledger, w.net, ds)
  {
  }

  lemma DictsOf(w: World, ds: set<Bytes>, id: nat)
    requires DictsIn(w, ds) && id in w.inbound
    ensures w.inbound[id].dicts <= ds
  {
  }

  lemma NewcomerUnstarted()
    ensures Unstarted(Newcomer)
  {
  }
}
