/** What the command-line client's receiver delivers: as long as it gives nothing up it
    is the library client's receiver, and whatever it gives up, all it holds and ever
    delivered is what the sender sent. */
module LossyDelivery {
  import opened Primitives
  import opened Sequence
  import opened Dictionaries
  import opened Ratchet
  import opened Sender
  import opened SenderLedger
  import opened Receiver
  import opened Gate
  import opened Convergence
  import opened Admission
  import opened LossRecovery

  // ---- The gate ----

  /** Both gates do the same with a packet unless it passes the fingerprint test and
      then does not inflate; only this client then drops its history as well. */
  lemma GatesAgreeIff(suite: Suite, t: Tracker, p: DataPacket, compressed: Bytes, num: Seq24)
    ensures var dict := Dictionary(t.base.received, num);
            var strict, library := ProcessStrict(suite, t, p, compressed, num).base, Process(suite, t.base, p, compressed, num);
            if p.header.dictFp == suite.fingerprint(dict) && suite.inflate(compressed, dict).None?
            then strict == Desynced(library) else strict == library
  {
    hide Dictionary, SeqDelta, Pruned;
  }

  /** A packet that really came from the sender, or opens under no key. */
  ghost predicate Genuine(suite: Suite, net: set<Emission>, p: DataPacket) {
    OnWire(net, p) || Unopenable(suite, p)
  }

  lemma AcceptAgrees(suite: Suite, l: Ledger, net: set<Emission>, ds: set<Bytes>, t: Tracker, p: DataPacket)
    requires Setting(suite, l, net, ds) && Genuine(suite, net, p)
    requires Accept(suite, t.base, p, p.header.num).dicts <= ds
    ensures AcceptStrict(suite, t, p, p.header.num).base == Accept(suite, t.base, p, p.header.num)
  {
    hide Wire, SeqDelta, Dictionary, ProcessStrict, Store, EmissionOk, Unseal;
    if Unseal(suite, t.base, p).Some? {
      var num, o := p.header.num, Unseal(suite, t.base, p).value;
      var t' := t.(base := LearnChain(t.base, p.header.epoch, o.chain));
      var dict := Dictionary(t.base.received, num);
      GatesAgreeIff(suite, t', p, o.compressed, num);
      ComparedDict(suite, t'.base, p, o.compressed, num);
      if p.header.dictFp == suite.fingerprint(dict) {
        OpenedIsSent(suite, net, t.base, p);
        var e :| e in net && e.packet == p;
        AdmittedPayload(suite, l, net, ds, t.base, p, e.u, dict);
      }
    }
  }

  lemma ComparedDict(suite: Suite, r: Inbound, p: DataPacket, compressed: Bytes, num: Seq24)
    ensures Dictionary(r.received, num) in Process(suite, r, p, compressed, num).dicts
  {
    hide Dictionary, SeqDelta, Pruned;
  }

  lemma OpenedIsSent(suite: Suite, net: set<Emission>, r: Inbound, p: DataPacket)
    requires Genuine(suite, net, p) && Unseal(suite, r, p).Some?
    ensures OnWire(net, p)
  {
  }

  /** A readable packet of a message not yet held is taken, with the message's payload,
      if it was compressed against the receiver's own dictionary, and otherwise costs
      the history. */
  lemma StrictAdmittedIff(suite: Suite, l: Ledger, t: Tracker, e: Emission)
    requires Lawful(suite) && EmissionOk(suite, l, e) && CanOpen(suite, l, t.base, e.u)
    requires NoClash(suite, Dictionary(t.base.received, Wire(e.u)), e.dict)
    ensures var r' := AcceptStrict(suite, t, e.packet, Wire(e.u)).base;
            if e.dict == Dictionary(t.base.received, Wire(e.u)) then r' == Take(suite, l, t.base, e.u)
            else SameShelf(t.base.(received := map[]), r') && r'.resetRequests == t.base.resetRequests + 1
  {
    hide Wire, SeqDelta, Dictionary, ProcessStrict, Process, Store, Unseal, Take;
    AdmittedIff(suite, l, t.base, e);
    var o := Unseal(suite, t.base, e.packet).value;
    var t' := t.(base := LearnChain(t.base, e.packet.header.epoch, o.chain));
    GatesAgreeIff(suite, t', e.packet, o.compressed, Wire(e.u));
    Inflates(suite, l, t.base, e);
  }

  lemma Inflates(suite: Suite, l: Ledger, r: Inbound, e: Emission)
    requires Lawful(suite) && EmissionOk(suite, l, e) && Unseal(suite, r, e.packet).Some?
    requires NoClash(suite, Dictionary(r.received, Wire(e.u)), e.dict)
    ensures var dict := Dictionary(r.received, Wire(e.u));
            e.packet.header.dictFp == suite.fingerprint(dict) ==>
              suite.inflate(Unseal(suite, r, e.packet).value.compressed, dict) == Some(l.log[e.u - l.first])
  {
    hide Wire, Dictionary;
    var dict := Dictionary(r.received, Wire(e.u));
    if e.packet.header.dictFp == suite.fingerprint(dict) {
      GateAdmitsOnlyOriginal(suite, l, e, r, dict, {dict}) by { assert e.dict == dict; }
    }
  }

  // ---- Without losses: the library client ----

  lemma PopAgrees(suite: Suite, l: Ledger, net: set<Emission>, ds: set<Bytes>, t: Tracker, n: Seq24)
    requires Setting(suite, l, net, ds) && Sound(suite, l, net, t.base) && n in t.base.buffer
    requires Pop(suite, t.base, n).dicts <= ds
    ensures PopStrict(suite, t, n).base == Pop(suite, t.base, n)
  {
    hide Wire, SeqDelta, Accept, AcceptStrict, FromLog;
    var popped := t.(base := t.base.(buffer := t.base.buffer - {n}));
    AcceptAgrees(suite, l, net, ds, popped, t.base.buffer[n]);
  }

  lemma {:induction false} DrainAgrees(suite: Suite, l: Ledger, net: set<Emission>, ds: set<Bytes>, t: Tracker, n: Seq24)
    requires Setting(suite, l, net, ds) && Sound(suite, l, net, t.base)
    requires Drain(suite, t.base, n).dicts <= ds
    ensures DrainStrict(suite, t, n).base == Drain(suite, t.base, n)
    decreases |t.base.buffer|
  {
    hide Wire, SeqDelta, SeqNext, Pop, PopStrict, Setting;
    if n in t.base.buffer {
      var r' := Pop(suite, t.base, n);
      DrainDictsGrow(suite, r', SeqNext(n));
      PopAgrees(suite, l, net, ds, t, n);
      PopKeepsSound(suite, l, net, ds, t.base, n);
      DrainAgrees(suite, l, net, ds, PopStrict(suite, t, n), SeqNext(n));
    }
  }

  lemma PopKeepsSound(suite: Suite, l: Ledger, net: set<Emission>, ds: set<Bytes>, r: Inbound, n: Seq24)
    requires Setting(suite, l, net, ds) && Sound(suite, l, net, r) && n in r.buffer && Pop(suite, r, n).dicts <= ds
    ensures Sound(suite, l, net, Pop(suite, r, n))
  {
    hide Wire, SeqDelta, Accept, FromLog;
    AcceptKeepsSound(suite, l, net, ds, r.(buffer := r.buffer - {n}), r.buffer[n]);
  }

  /** A packet that makes nothing be given up does to this client exactly what it does
      to the library client, and makes it ask for the same numbers. */
  lemma DataAgrees(suite: Suite, l: Ledger, net: set<Emission>, ds: set<Bytes>, t: Tracker, p: DataPacket, now: nat)
    requires Setting(suite, l, net, ds) && Sound(suite, l, net, t.base) && Genuine(suite, net, p)
    requires OnData(suite, t, p, now).lost == [] && Receive(suite, t.base, p).dicts <= ds
    ensures var s := OnData(suite, t, p, now);
            s.state.base == Receive(suite, t.base, p) && s.missing == NackFor(t.base, p.header.num, s.state.base)
  {
    hide Wire, SeqDelta, SeqNext, ScanGap, Drain, DrainStrict, AcceptStrict, Accept, Unseal, Setting, Missing, SoundHistory;
    var num := p.header.num;
    var a := Ahead(t.base, num);
    if 1 < a < HALF {
      var held := t.(base := t.base.(buffer := t.base.buffer[num := p]));
      LossIffOverdue(Scan(held, [], []), OrZero(t.base.highest), now, 1, a - 1);
    } else if a == 1 && Unseal(suite, t.base, p).Some? {
      var r' := Accept(suite, t.base, p, num);
      DrainDictsGrow(suite, r', SeqNext(OrZero(r'.highest)));
      AcceptAgrees(suite, l, net, ds, t, p);
      AcceptKeepsSound(suite, l, net, ds, t.base, p);
      DrainAgrees(suite, l, net, ds, AcceptStrict(suite, t, p, num), SeqNext(OrZero(r'.highest)));
    }
  }

  /** The library client handling the same events; a probe changes nothing in it. */
  function Library(suite: Suite, r: Inbound, ev: Event): Inbound {
    match ev
    case Data(p, _) => Receive(suite, r, p)
    case Sync(_, _) => r
    case ChainShare(epoch, c) => LearnChain(r, epoch, c)
    case DictReset => Receiver.Flush(r)
  }

  function LibraryAt(suite: Suite, events: seq<Event>, n: nat): Inbound
    requires n <= |events|
  {
    if n == 0 then Newcomer else Library(suite, LibraryAt(suite, events, n - 1), events[n - 1])
  }

  ghost predicate AllGenuine(suite: Suite, net: set<Emission>, events: seq<Event>, n: nat)
    requires n <= |events|
  {
    forall i :: 0 <= i < n && events[i].Data? ==> Genuine(suite, net, events[i].p)
  }

  lemma EventAgrees(suite: Suite, l: Ledger, net: set<Emission>, ds: set<Bytes>, t: Tracker, ev: Event)
    requires Setting(suite, l, net, ds) && Sound(suite, l, net, t.base) && (ev.Data? ==> Genuine(suite, net, ev.p))
    requires Apply(suite, t, ev).lost == [] && Library(suite, t.base, ev).dicts <= ds
    ensures Apply(suite, t, ev).state.base == Library(suite, t.base, ev)
  {
    hide Wire, SeqDelta, ScanGap, Receive, OnData, Setting, Sound;
    match ev
    case Data(p, now) => DataAgrees(suite, l, net, ds, t, p, now);
    case Sync(num, now) =>
      var a := if t.base.highest.Some? then SeqDelta(t.base.highest.value, num) else num;
      if 0 < a < HALF { LossIffOverdue(Scan(t, [], []), OrZero(t.base.highest), now, 1, a); }
    case _ =>
  }

  // ---- With losses: soundness ----

  lemma {:induction false} ScanKeepsSound(suite: Suite, l: Ledger, net: set<Emission>, s: Scan, from: Seq24, now: nat, k: nat, limit: nat)
    requires Sound(suite, l, net, s.state.base)
    ensures var b := ScanGap(s, from, now, k, limit).state.base;
            Sound(suite, l, net, b) && b.delivered == s.state.base.delivered && b.dicts == s.state.base.dicts
    decreases limit + 1 - k
  {
    hide Wire, SeqDelta, FromLog, OnWire, Unopenable;
    if k <= limit { ScanKeepsSound(suite, l, net, Look(s, Wire(from + k), now), from, now, k + 1, limit); }
  }

  lemma StrictDictsGrow(suite: Suite, t: Tracker, p: DataPacket, num: Seq24)
    ensures t.base.dicts <= AcceptStrict(suite, t, p, num).base.dicts
    ensures AcceptStrict(suite, t, p, num).base.dicts == Accept(suite, t.base, p, num).dicts
  {
    hide Dictionary, SeqDelta, Unseal, Pruned;
  }

  lemma {:induction false} DrainDictsAgree(suite: Suite, l: Ledger, net: set<Emission>, ds: set<Bytes>, t: Tracker, n: Seq24)
    requires Setting(suite, l, net, ds) && Sound(suite, l, net, t.base) && DrainStrict(suite, t, n).base.dicts <= ds
    ensures Drain(suite, t.base, n).dicts <= ds && t.base.dicts <= ds
    decreases |t.base.buffer|
  {
    hide Wire, SeqDelta, SeqNext, AcceptStrict, Accept, Setting, Sound;
    if n in t.base.buffer {
      var popped := t.(base := t.base.(buffer := t.base.buffer - {n}));
      var t' := PopStrict(suite, t, n);
      StrictDictsGrow(suite, popped, t.base.buffer[n], n);
      StrictDrainGrows(suite, t', SeqNext(n));
      PopAgrees(suite, l, net, ds, t, n);
      PopKeepsSound(suite, l, net, ds, t.base, n);
      DrainDictsAgree(suite, l, net, ds, t', SeqNext(n));
    }
  }

  lemma {:induction false} StrictDrainGrows(suite: Suite, t: Tracker, n: Seq24)
    ensures t.base.dicts <= DrainStrict(suite, t, n).base.dicts
    decreases |t.base.buffer|
  {
    hide SeqNext, AcceptStrict;
    if n in t.base.buffer {
      StrictDictsGrow(suite, t.(base := t.base.(buffer := t.base.buffer - {n})), t.base.buffer[n], n);
      StrictDrainGrows(suite, PopStrict(suite, t, n), SeqNext(n));
    }
  }

  lemma NextKeepsSound(suite: Suite, l: Ledger, net: set<Emission>, ds: set<Bytes>, t: Tracker, p: DataPacket)
    requires Setting(suite, l, net, ds) && Sound(suite, l, net, t.base) && Genuine(suite, net, p)
    requires SettleStrict(suite, AcceptStrict(suite, t, p, p.header.num)).base.dicts <= ds
    ensures Sound(suite, l, net, SettleStrict(suite, AcceptStrict(suite, t, p, p.header.num)).base) && t.base.dicts <= ds
  {
    hide Wire, SeqDelta, SeqNext, AcceptStrict, Accept, Setting, Sound, Drain, DrainStrict;
    var t' := AcceptStrict(suite, t, p, p.header.num);
    var n := SeqNext(OrZero(t'.base.highest));
    StrictDictsGrow(suite, t, p, p.header.num);
    StrictDrainGrows(suite, t', n);
    AcceptAgrees(suite, l, net, ds, t, p);
    AcceptKeepsSound(suite, l, net, ds, t.base, p);
    DrainDictsAgree(suite, l, net, ds, t', n);
    DrainAgrees(suite, l, net, ds, t', n);
    DrainKeepsSound(suite, l, net, ds, t'.base, n);
  }

  lemma BufferingKeepsSound(suite: Suite, l: Ledger, net: set<Emission>, r: Inbound, p: DataPacket)
    requires Sound(suite, l, net, r) && Genuine(suite, net, p)
    ensures Sound(suite, l, net, r.(buffer := r.buffer[p.header.num := p]))
  {
    hide FromLog, OnWire, Unopenable;
  }

  lemma FlushKeepsSound(suite: Suite, l: Ledger, net: set<Emission>, r: Inbound, epoch: nat, c: ChainState)
    requires Sound(suite, l, net, r)
    ensures Sound(suite, l, net, Receiver.Flush(r)) && Sound(suite, l, net, LearnChain(r, epoch, c))
  {
    hide FromLog, OnWire, Unopenable;
  }

  lemma EventKeepsSound(suite: Suite, l: Ledger, net: set<Emission>, ds: set<Bytes>, t: Tracker, ev: Event)
    requires Setting(suite, l, net, ds) && Sound(suite, l, net, t.base) && (ev.Data? ==> Genuine(suite, net, ev.p))
    requires Apply(suite, t, ev).state.base.dicts <= ds
    ensures Sound(suite, l, net, Apply(suite, t, ev).state.base) && t.base.dicts <= ds
  {
    hide Wire, SeqDelta, ScanGap, SettleStrict, AcceptStrict, Unseal, Setting, Sound;
    match ev
    case Data(p, now) =>
      var a := Ahead(t.base, p.header.num);
      if 1 < a < HALF {
        var held := t.(base := t.base.(buffer := t.base.buffer[p.header.num := p]));
        BufferingKeepsSound(suite, l, net, t.base, p);
        ScanKeepsSound(suite, l, net, Scan(held, [], []), OrZero(t.base.highest), now, 1, a - 1);
      } else if a == 1 && Unseal(suite, t.base, p).Some? {
        NextKeepsSound(suite, l, net, ds, t, p);
      }
    case Sync(num, now) =>
      var a := if t.base.highest.Some? then SeqDelta(t.base.highest.value, num) else num;
      if 0 < a < HALF { ScanKeepsSound(suite, l, net, Scan(t, [], []), OrZero(t.base.highest), now, 1, a); }
    case ChainShare(epoch, c) => FlushKeepsSound(suite, l, net, t.base, epoch, c);
    case DictReset => FlushKeepsSound(suite, l, net, t.base, 0, ChainState([], 0));
  }

  /** In every run of this client, with losses given up, resets, repeats, reordering and
      damage: everything it holds or ever delivered under a wire number is a payload
      the sender put under a message with that number. */
  lemma {:induction false} LossyIntegrity(suite: Suite, l: Ledger, net: set<Emission>, ds: set<Bytes>, events: seq<Event>, n: nat)
    requires Setting(suite, l, net, ds) && n <= |events| && AllGenuine(suite, net, events, n)
    requires At(suite, events, n).base.dicts <= ds
    ensures Sound(suite, l, net, At(suite, events, n).base)
    decreases n
  {
    hide Setting, Sound, Apply, Genuine;
    if n > 0 {
      DictsSoFar(suite, l, net, ds, events, n);
      LossyIntegrity(suite, l, net, ds, events, n - 1);
      EventKeepsSound(suite, l, net, ds, At(suite, events, n - 1), events[n - 1]);
    } else {
      NewcomerSound(suite, l, net);
    }
  }

  lemma NewcomerSound(suite: Suite, l: Ledger, net: set<Emission>)
    ensures Sound(suite, l, net, Newcomer)
  {
  }

  lemma DictsSoFar(suite: Suite, l: Ledger, net: set<Emission>, ds: set<Bytes>, events: seq<Event>, n: nat)
    requires 0 < n <= |events| && At(suite, events, n).base.dicts <= ds
    ensures At(suite, events, n - 1).base.dicts <= ds
  {
    hide Apply;
    ApplyDictsGrow(suite, At(suite, events, n - 1), events[n - 1]);
  }

  lemma {:induction false} ScanKeepsDicts(s: Scan, from: Seq24, now: nat, k: nat, limit: nat)
    ensures ScanGap(s, from, now, k, limit).state.base.dicts == s.state.base.dicts
    decreases limit + 1 - k
  {
    hide Wire, SeqDelta;
    if k <= limit { ScanKeepsDicts(Look(s, Wire(from + k), now), from, now, k + 1, limit); }
  }

  lemma ApplyDictsGrow(suite: Suite, t: Tracker, ev: Event)
    ensures t.base.dicts <= Apply(suite, t, ev).state.base.dicts
  {
    hide Wire, SeqDelta, SeqNext, ScanGap, DrainStrict, AcceptStrict, Unseal;
    match ev
    case Data(p, now) =>
      var a := Ahead(t.base, p.header.num);
      if 1 < a < HALF {
        var held := t.(base := t.base.(buffer := t.base.buffer[p.header.num := p]));
        ScanKeepsDicts(Scan(held, [], []), OrZero(t.base.highest), now, 1, a - 1);
      } else if a == 1 {
        var t' := AcceptStrict(suite, t, p, p.header.num);
        StrictDictsGrow(suite, t, p, p.header.num);
        StrictDrainGrows(suite, t', SeqNext(OrZero(t'.base.highest)));
      }
    case Sync(num, now) =>
      var a := if t.base.highest.Some? then SeqDelta(t.base.highest.value, num) else num;
      if 0 < a < HALF { ScanKeepsDicts(Scan(t, [], []), OrZero(t.base.highest), now, 1, a); }
    case _ =>
  }

  /** Nothing is given up by the first `n` events. */
  ghost predicate LossFree(suite: Suite, events: seq<Event>, n: nat)
    requires n <= |events|
  {
    forall i :: 0 <= i < n ==> Apply(suite, At(suite, events, i), events[i]).lost == []
  }

  /** In every run in which nothing is given up, this client is in exactly the state the
      library client would be in. */
  lemma {:induction false} LossFreeRunsAgree(suite: Suite, l: Ledger, net: set<Emission>, ds: set<Bytes>, events: seq<Event>, n: nat)
    requires Setting(suite, l, net, ds) && n <= |events| && AllGenuine(suite, net, events, n) && LossFree(suite, events, n)
    requires LibraryAt(suite, events, n).dicts <= ds
    ensures At(suite, events, n).base == LibraryAt(suite, events, n)
    decreases n
  {
    hide Setting, Sound, Apply, Genuine, Library;
    if n > 0 {
      LibraryDictsGrow(suite, LibraryAt(suite, events, n - 1), events[n - 1]);
      LossFreeRunsAgree(suite, l, net, ds, events, n - 1);
      LossyIntegrity(suite, l, net, ds, events, n - 1);
      EventAgrees(suite, l, net, ds, At(suite, events, n - 1), events[n - 1]);
    }
  }

  lemma LibraryDictsGrow(suite: Suite, r: Inbound, ev: Event)
    ensures r.dicts <= Library(suite, r, ev).dicts
  {
    hide SeqNext, Accept, Drain, Unseal;
    if ev.Data? {
      var r' := Accept(suite, r, ev.p, ev.p.header.num);
      DictsGrow(suite, r, ev.p, ev.p.header.num);
      DrainDictsGrow(suite, r', SeqNext(OrZero(r'.highest)));
    }
  }

  // ---- What a probe asks for ----

  /** Unless something is given up, a probe for number `num` makes the receiver ask for
      exactly the numbers after its position up to and including `num` that it does
      not hold. */
  lemma SyncNackIff(t: Tracker, num: Seq24, now: nat, pos: int, i: Seq24)
    requires OrZero(t.base.highest) == Wire(pos) && (t.base.highest.None? ==> pos == 0) && OnSync(t, num, now).lost == []
    ensures var u := if t.base.highest.Some? then Forth(pos, num) else num;
            i in OnSync(t, num, now).missing <==> u < pos + HALF && pos < Forth(pos, i) <= u && Absent(t, i)
  {
    hide Wire, SeqDelta, ScanGap, Forth;
    var a := if t.base.highest.Some? then SeqDelta(t.base.highest.value, num) else num;
    ForthDistance(pos, num);
    ForthDistance(pos, i);
    if 0 < a < HALF {
      LossIffOverdue(Scan(t, [], []), Wire(pos), now, 1, a);
      MissingIff(t.base, pos, 1, a + 1, i);
    }
  }

  lemma ForthDistance(pos: int, k: Seq24)
    ensures Forth(pos, k) == pos + SeqDelta(Wire(pos), k)
  {
  }

  // ---- After a loss ----

  /** A receiver that has given up message `u` delivers the next one if and only if that
      was compressed against nothing but empty messages, as it is after the reset the
      receiver asked for. */
  lemma ResumesAfterLossIff(suite: Suite, l: Ledger, t: Tracker, q: int, u: int, b: int, e: Emission)
    requires Lawful(suite) && t.base.highest == Some(Wire(q)) && q < u < q + HALF
    requires Proper(suite, l, b, e) && e.u == u + 1 && CanOpen(suite, l, t.base, u + 1) && NoClash(suite, [], e.dict)
    ensures var t' := DeclareLoss(t, Wire(u));
            && t'.base.highest == Some(Wire(u)) && t'.base.resetRequests == t.base.resetRequests + 1
            && AcceptStrict(suite, t', e.packet, Wire(u + 1)).base.delivered ==
               if AllEmpty(l.log, l.first, Max(b, e.u - DICT_WINDOW), e.u)
               then t.base.delivered + [Delivery(Wire(u + 1), l.log[u + 1 - l.first])] else t.base.delivered
  {
    hide Wire, SeqDelta, Dictionary, AcceptStrict, Span, Pruned;
    var t' := DeclareLoss(t, Wire(u));
    WireDelta(q, u);
    WireDelta(u, u + 1);
    EmptyDictionaryAt(Wire(u + 1));
    StrictAdmittedIff(suite, l, t', e);
    SpanEmptyIff(l.log, l.first, Max(b, e.u - DICT_WINDOW), e.u);
  }
}
