/** In-order delivery at true numbers, over whole runs. */
module InOrderDelivery {
  import opened Primitives
  import opened Sequence
  import opened Sender
  import opened SenderLedger
  import opened Receiver
  import opened Gate
  import opened Tracking
  import opened Network
  import opened Integrity

  /** Where a delivery is measured from: the receiver's position, or the packet's
      own number while the receiver has none. */
  function Origin(place: Option<int>, u: int): int {
    if place.Some? then place.value else u
  }

  /** The position after a delivery, read off the receiver's highest number. */
  function Moved(place: Option<int>, u: int, highest: Option<Seq24>): Option<int> {
    if highest.None? then place
    else Some(Origin(place, u) + SeqDelta(Wire(Origin(place, u)), highest.value))
  }

  /** The true position of receiver `id` after a run, once it has one. */
  ghost function Place(suite: Suite, run: Run, id: nat): Option<int> {
    match run
    case Start => None
    case After(prev, ev) =>
      var place := Place(suite, prev, id);
      if ev.Deliver? && ev.r == id && id in StateOf(suite, run).inbound then
        Moved(place, ev.e.u, StateOf(suite, run).inbound[id].highest)
      else place
  }

  /** Whenever a packet is delivered to `id`, neither it nor anything `id` has
      buffered is half the sequence space or more from its position. */
  ghost predicate Timely(suite: Suite, run: Run, id: nat) {
    match run
    case Start => true
    case After(prev, ev) =>
      Timely(suite, prev, id) && TimelyStep(suite, StateOf(suite, prev), Place(suite, prev, id), ev, id)
  }

  ghost predicate TimelyStep(suite: Suite, w: World, place: Option<int>, ev: Event, id: nat) {
    ev.Deliver? && ev.r == id && id in w.inbound ==>
      var from := Origin(place, ev.e.u);
      Near(from, ev.e.u) && InPlay(suite, w.net, w.inbound[id], from)
  }

  /** The receiver stands at `place` with everything it delivered in log order, or
      has delivered nothing. */
  ghost predicate Placed(l: Ledger, r: Inbound, place: Option<int>) {
    if place.Some? then exists nums: seq<int> :: Tracks(l, r, place.value, nums) else Unstarted(r)
  }

  lemma TracksStays(l: Ledger, l': Ledger, r: Inbound, pos: int, nums: seq<int>)
    requires Grows(l, l') && Tracks(l, r, pos, nums)
    ensures Tracks(l', r, pos, nums)
  {
    assert IsDelivery(l, r.delivered[0], nums[0]);
    forall i | 0 <= i < |nums| ensures IsDelivery(l', r.delivered[i], nums[i]) {
      assert IsDelivery(l, r.delivered[i], nums[i]);
    }
    forall k | k in r.received ensures HeldAt(l', r.received, pos, k) {
      assert HeldAt(l, r.received, pos, k);
    }
  }

  lemma PlacedStays(l: Ledger, l': Ledger, r: Inbound, place: Option<int>)
    requires Grows(l, l') && Placed(l, r, place)
    ensures Placed(l', r, place)
  {
    if place.Some? {
      var nums: seq<int> :| Tracks(l, r, place.value, nums);
      TracksStays(l, l', r, place.value, nums);
    }
  }

  lemma ReceivePlaces(suite: Suite, l: Ledger, net: set<Emission>, ds: set<Bytes>, r: Inbound, place: Option<int>, e: Emission)
    requires Setting(suite, l, net, ds) && e in net && Placed(l, r, place) && Keyed(r)
    requires Near(Origin(place, e.u), e.u) && InPlay(suite, net, r, Origin(place, e.u))
    requires Receive(suite, r, e.packet).dicts <= ds
    ensures var r' := Receive(suite, r, e.packet); Placed(l, r', Moved(place, e.u, r'.highest))
  {
    hide Wire, SeqDelta, SeqNext, Receive, Setting, InPlay, Keyed;
    if place.Some? {
      var nums: seq<int> :| Tracks(l, r, place.value, nums);
      var pos', nums' := ReceiveTracks(suite, l, net, ds, r, place.value, nums, e);
      WireDelta(place.value, pos');
    } else {
      var pos', nums' := ReceiveStarts(suite, l, net, ds, r, e);
      WireDelta(e.u, pos');
    }
  }

  /** A step that leaves a receiver's highest number and deliveries as they were,
      and its history too unless it empties it, leaves it in place. */
  lemma UntouchedPlaced(l: Ledger, r: Inbound, r': Inbound, place: Option<int>)
    requires Placed(l, r, place)
    requires r' == r.(buffer := r'.buffer, chains := r'.chains, received := r'.received)
    requires r'.received == r.received || r'.received == map[]
    requires Unstarted(r) ==> Unstarted(r')
    ensures Placed(l, r', place)
  {
    if place.Some? {
      var nums: seq<int> :| Tracks(l, r, place.value, nums);
      assert Tracks(l, r', place.value, nums);
    }
  }

  function PlaceAfter(place: Option<int>, r': Inbound, ev: Event, id: nat): Option<int> {
    if ev.Deliver? && ev.r == id then Moved(place, ev.e.u, r'.highest) else place
  }

  lemma EffectKeepsPlaced(suite: Suite, w: World, ds: set<Bytes>, r: Inbound, ev: Event, id: nat, place: Option<int>)
    requires Setting(suite, w.ledger, w.net, ds) && Keyed(r) && Placed(w.ledger, r, place)
    requires Enabled(suite, w, ev) && id in w.inbound && w.inbound[id] == r && TimelyStep(suite, w, place, ev, id)
    requires Effect(suite, r, ev, id).dicts <= ds
    ensures var r' := Effect(suite, r, ev, id); Placed(w.ledger, r', PlaceAfter(place, r', ev, id))
  {
    match ev
    case Deliver(x, e) => if x == id { ReceivePlaces(suite, w.ledger, w.net, ds, r, place, e); }
    case DeliverDamaged(x, p) => if x == id {
        DamageTracksNothing(suite, r, p);
        UntouchedPlaced(w.ledger, r, Receive(suite, r, p), place);
      }
    case DeliverShare(x, s) => UntouchedPlaced(w.ledger, r, LearnChain(r, s.epoch, s.state), place);
    case FlushReceiver(x) => UntouchedPlaced(w.ledger, r, Receiver.Flush(r), place);
    case _ =>
  }

  /** In every run that is timely for a receiver, what it has delivered is a
      strictly increasing selection of the sender's messages, each payload being
      the one sent under that unwrapped number, and what it holds under a wire
      number is the message that number stands for at its position. */
  lemma {:induction false} DeliveriesFollowLog(suite: Suite, run: Run, ds: set<Bytes>, id: nat)
    requires Lawful(suite) && Possible(suite, run) && Timely(suite, run, id)
    requires DictsIn(StateOf(suite, run), ds) && CollisionFree(suite, ds)
    ensures id in StateOf(suite, run).inbound ==>
              Placed(StateOf(suite, run).ledger, StateOf(suite, run).inbound[id], Place(suite, run, id))
    ensures id !in StateOf(suite, run).inbound ==> Place(suite, run, id) == None
  {
    if run.After? {
      var w := StateOf(suite, run.prev);
      SenderRefinesLog(suite, run.prev);
      StepDictsGrow(suite, w, run.ev, ds);
      DeliveriesFollowLog(suite, run.prev, ds, id);
      PayloadIntegrity(suite, run.prev, ds);
      if id in w.inbound {
        var w' := StateOf(suite, run);
        StepEffect(suite, w, run.ev, id);
        EffectKeepsPlaced(suite, w, ds, w.inbound[id], run.ev, id, Place(suite, run.prev, id));
        StepKeepsSender(suite, w, run.ev);
        PlacedStays(w.ledger, w'.ledger, w'.inbound[id], Place(suite, run, id));
      }
    }
  }
}
