/** No silent skip: with full-window dictionaries and non-empty payloads the gate
    refuses every jump, so a receiver delivers a prefix of the log even though the
    drain carries on past packets that fail. */
module NoSkip {
  import opened Primitives
  import opened Sequence
  import opened Dictionaries
  import opened Sender
  import opened SenderLedger
  import opened Receiver
  import opened Gate
  import opened Tracking

  /** All the predecessors of message `u` that a dictionary may hold. */
  function FullDict(l: Ledger, u: int): Bytes
    requires l.first <= u <= l.Top() + 1
  {
    Span(l.log, l.first, Max(l.first, u - DICT_WINDOW), u)
  }

  ghost predicate HasFullDict(l: Ledger, e: Emission) {
    l.first <= e.u <= l.Top() && e.dict == FullDict(l, e.u)
  }

  /** Every payload has content and every packet is compressed against its full window. */
  ghost predicate FullWindow(l: Ledger, net: set<Emission>) {
    && (forall i :: 0 <= i < |l.log| ==> l.log[i] != [])
    && (forall e :: e in net ==> HasFullDict(l, e))
  }

  function Pos(l: Ledger, r: Inbound): int {
    l.first + |r.delivered| - 1
  }

  /** The receiver has delivered the first messages of the log and nothing else. */
  ghost predicate Prefix(l: Ledger, r: Inbound) {
    && |r.delivered| <= |l.log|
    && (forall i :: 0 <= i < |r.delivered| ==> r.delivered[i] == Delivery(Wire(l.first + i), l.log[i]))
    && (if r.delivered == [] then Unstarted(r) else r.highest == Some(Wire(Pos(l, r))) && Shelf(l, r.received, Pos(l, r)))
  }

  /** What the receiver holds at `pos`: nothing, or all it is meant to. */
  ghost predicate Shelf(l: Ledger, h: History, pos: int) {
    h == map[] || Retains(h, l.log, l.first, Max(l.first, pos - RETAINED), pos)
  }

  lemma {:induction false} SpanContent(l: Ledger, a: int, b: int)
    requires l.first <= a < b <= l.Top() + 1
    requires forall i :: 0 <= i < |l.log| ==> l.log[i] != []
    ensures Span(l.log, l.first, a, b) != []
  {
    SpanEmptyIff(l.log, l.first, a, b);
    assert l.log[a - l.first] != [];
  }

  /** Content strictly inside a span makes it differ from a part that lacks it. */
  lemma LongerSpan(l: Ledger, a: int, b: int, c: int, n: int)
    requires l.first <= a <= b && l.first <= c < n <= l.Top() + 1 && a < n
    requires forall i :: 0 <= i < |l.log| ==> l.log[i] != []
    ensures Span(l.log, l.first, b, c) != Span(l.log, l.first, a, n)
  {
    SpanContent(l, a, n);
    if b < c {
      SpanSplit(l.log, l.first, a, b, n);
      SpanSplit(l.log, l.first, b, c, n);
      SpanContent(l, c, n);
    }
  }

  /** A dictionary built at `pos` equals the full one of a later message `n` only if
      `n` is the very next message. */
  lemma GapChangesDictionary(l: Ledger, h: History, pos: int, n: int)
    requires l.first <= pos < n <= l.Top() && n < pos + HALF && Shelf(l, h, pos)
    requires forall i :: 0 <= i < |l.log| ==> l.log[i] != []
    requires Dictionary(h, Wire(n)) == FullDict(l, n)
    ensures n == pos + 1 && h != map[]
  {
    if h == map[] {
      EmptyDictionary(Wire(n), DICT_WINDOW);
      SpanContent(l, Max(l.first, n - DICT_WINDOW), n);
    } else {
      var lo := Max(l.first, pos - RETAINED);
      DictionaryOfLog(h, l.log, l.first, lo, pos, n);
      if n > pos + 1 {
        LongerSpan(l, Max(l.first, n - DICT_WINDOW), Max(lo, n - DICT_WINDOW), pos + 1, n);
      }
    }
  }

  lemma {:induction false} EmptyDictionary(s: int, d: nat)
    ensures Window(map[], s, d) == []
  {
    if d > 0 { EmptyDictionary(s, d - 1); }
  }

  lemma StoreNextKeepsPrefix(l: Ledger, r: Inbound)
    requires Prefix(l, r) && r.delivered != [] && r.received != map[] && Pos(l, r) < l.Top()
    ensures var r' := Store(r, Wire(Pos(l, r) + 1), l.log[Pos(l, r) + 1 - l.first]);
            Prefix(l, r') && |r'.delivered| == |r.delivered| + 1
  {
    var pos := Pos(l, r);
    var lo := Max(l.first, pos - RETAINED);
    RetainsAt(r.received, l.log, l.first, lo, pos, pos + 1);
    RetainsNext(r.received, l.log, l.first, lo, pos);
    WireDelta(pos, pos + 1);
  }

  /** Accepting any packet ahead of the position extends the prefix by the next
      message or not at all. */
  lemma AcceptKeepsPrefix(suite: Suite, l: Ledger, net: set<Emission>, ds: set<Bytes>, r: Inbound, p: DataPacket, n: int)
    requires Setting(suite, l, net, ds) && FullWindow(l, net)
    requires Prefix(l, r) && r.delivered != [] && Pos(l, r) < n < Pos(l, r) + HALF
    requires Carries(net, p, n) || Unopenable(suite, p)
    requires Accept(suite, r, p, Wire(n)).dicts <= ds
    ensures var r' := Accept(suite, r, p, Wire(n));
            Prefix(l, r') && Pos(l, r) <= Pos(l, r') <= n
  {
    hide Wire, SeqDelta, Accept, Retains, EmissionOk, CarriesWith, Carries, Unopenable, HasFullDict;
    AcceptOutcome(suite, l, net, ds, r, p, n);
    var r' := Accept(suite, r, p, Wire(n));
    if SameShelf(r, r') || SameShelf(r.(received := map[]), r') {
      UnmovedPrefix(l, r, r');
    } else {
      AdmittedIsNext(l, net, r, p, n);
      StoreNextKeepsPrefix(l, r);
      UnmovedPrefix(l, Store(r, Wire(n), l.log[n - l.first]), r');
    }
  }

  lemma UnmovedPrefix(l: Ledger, r: Inbound, r': Inbound)
    requires Prefix(l, r) && r.delivered != []
    requires r'.highest == r.highest && r'.delivered == r.delivered && (r'.received == r.received || r'.received == map[])
    ensures Prefix(l, r')
  {
  }

  lemma AdmittedIsNext(l: Ledger, net: set<Emission>, r: Inbound, p: DataPacket, n: int)
    requires FullWindow(l, net) && Prefix(l, r) && r.delivered != [] && Pos(l, r) < n < Pos(l, r) + HALF
    requires CarriesWith(net, p, n, Dictionary(r.received, Wire(n)))
    ensures n == Pos(l, r) + 1 <= l.Top() && r.received != map[]
  {
    var e :| e in net && e.packet == p && e.u == n && e.dict == Dictionary(r.received, Wire(n));
    assert HasFullDict(l, e);
    GapChangesDictionary(l, r.received, Pos(l, r), n);
  }

  ghost predicate PrefixAt(l: Ledger, r: Inbound, pos: int) {
    Prefix(l, r) && r.delivered != [] && Pos(l, r) == pos
  }

  lemma PopKeepsPrefix(suite: Suite, l: Ledger, net: set<Emission>, ds: set<Bytes>, r: Inbound, pos: int, start: int, n: int)
    returns (pos': int)
    requires Setting(suite, l, net, ds) && FullWindow(l, net)
    requires PrefixAt(l, r, pos) && start <= pos < n <= start + HALF
    requires InPlay(suite, net, r, start) && Keyed(r) && Wire(n) in r.buffer
    requires Pop(suite, r, Wire(n)).dicts <= ds
    ensures PrefixAt(l, Pop(suite, r, Wire(n)), pos') && pos <= pos' <= n < start + HALF
  {
    hide Wire, SeqDelta, SeqNext, Accept, Retains, EmissionOk;
    var p := r.buffer[Wire(n)];
    var rest := r.(buffer := r.buffer - {Wire(n)});
    if !Unopenable(suite, p) { BufferedIsNext(suite, l, net, p, start, n); }
    UnmovedPrefix(l, r, rest);
    AcceptKeepsPrefix(suite, l, net, ds, rest, p, n);
    pos' := Pos(l, Pop(suite, r, Wire(n)));
  }

  lemma {:induction false} DrainKeepsPrefix(suite: Suite, l: Ledger, net: set<Emission>, ds: set<Bytes>,
                                            r: Inbound, pos: int, start: int, n: int)
    returns (pos': int)
    requires Setting(suite, l, net, ds) && FullWindow(l, net)
    requires PrefixAt(l, r, pos) && start <= pos < n <= start + HALF
    requires InPlay(suite, net, r, start) && Keyed(r)
    requires Drain(suite, r, Wire(n)).dicts <= ds
    ensures PrefixAt(l, Drain(suite, r, Wire(n)), pos') && pos <= pos' < start + HALF
    decreases |r.buffer|
  {
    hide Wire, SeqDelta, SeqNext;
    if Wire(n) in r.buffer {
      var r' := Pop(suite, r, Wire(n));
      WireNext(n);
      DrainDictsGrow(suite, r', Wire(n + 1));
      PopStaysInPlay(suite, net, r, start, Wire(n));
      pos' := PopKeepsPrefix(suite, l, net, ds, r, pos, start, n);
      pos' := DrainKeepsPrefix(suite, l, net, ds, r', pos', start, n + 1);
    } else {
      pos' := pos;
    }
  }

  lemma SettleKeepsPrefix(suite: Suite, l: Ledger, net: set<Emission>, ds: set<Bytes>, r: Inbound, pos: int, start: int)
    returns (pos': int)
    requires Setting(suite, l, net, ds) && FullWindow(l, net)
    requires PrefixAt(l, r, pos) && start <= pos < start + HALF
    requires InPlay(suite, net, r, start) && Keyed(r)
    requires Settle(suite, r).dicts <= ds
    ensures PrefixAt(l, Settle(suite, r), pos') && pos <= pos' < start + HALF
  {
    WireNext(pos);
    pos' := DrainKeepsPrefix(suite, l, net, ds, r, pos, start, pos + 1);
  }

  lemma TakeNextKeepsPrefix(suite: Suite, l: Ledger, net: set<Emission>, ds: set<Bytes>, r: Inbound, pos: int, e: Emission)
    returns (pos': int)
    requires Setting(suite, l, net, ds) && FullWindow(l, net) && e in net
    requires PrefixAt(l, r, pos) && e.u == pos + 1
    requires InPlay(suite, net, r, pos) && Keyed(r)
    requires TakeNext(suite, r, e.packet).dicts <= ds
    ensures PrefixAt(l, TakeNext(suite, r, e.packet), pos') && pos <= pos' < pos + HALF
  {
    pos' := pos;
    if Unseal(suite, r, e.packet).Some? {
      var r' := Accept(suite, r, e.packet, Wire(e.u));
      DrainDictsGrow(suite, r', SeqNext(OrZero(r'.highest)));
      assert Carries(net, e.packet, e.u);
      AcceptKeepsPrefix(suite, l, net, ds, r, e.packet, e.u);
      pos' := SettleKeepsPrefix(suite, l, net, ds, r', Pos(l, r'), pos);
    }
  }

  lemma ReceiveKeepsPrefix(suite: Suite, l: Ledger, net: set<Emission>, ds: set<Bytes>, r: Inbound, pos: int, e: Emission)
    returns (pos': int)
    requires Setting(suite, l, net, ds) && FullWindow(l, net) && e in net
    requires PrefixAt(l, r, pos) && Near(pos, e.u)
    requires InPlay(suite, net, r, pos) && Keyed(r)
    requires Receive(suite, r, e.packet).dicts <= ds
    ensures PrefixAt(l, Receive(suite, r, e.packet), pos') && pos <= pos' < pos + HALF
  {
    WireDelta(pos, e.u);
    if Ahead(r, e.packet.header.num) == 1 {
      pos' := TakeNextKeepsPrefix(suite, l, net, ds, r, pos, e);
    } else {
      UnmovedPrefix(l, r, Receive(suite, r, e.packet));
      pos' := pos;
    }
  }

  // ---- The first delivery ----

  /** An empty history admits only the first message of the log. */
  lemma FirstAdmitted(suite: Suite, l: Ledger, net: set<Emission>, ds: set<Bytes>, r: Inbound, e: Emission)
    requires Setting(suite, l, net, ds) && FullWindow(l, net) && e in net && Unstarted(r)
    requires Accept(suite, r, e.packet, Wire(e.u)).dicts <= ds
    ensures var r' := Accept(suite, r, e.packet, Wire(e.u));
            if r'.highest.None? then Unstarted(r') else Prefix(l, r') && |r'.delivered| == 1 && e.u == l.first
  {
    hide Wire, SeqDelta, SeqNext, Accept, Retains;
    assert Carries(net, e.packet, e.u);
    var r' := Accept(suite, r, e.packet, Wire(e.u));
    AcceptOutcome(suite, l, net, ds, r, e.packet, e.u);
    if !SameShelf(r, r') && !SameShelf(r.(received := map[]), r') {
      FirstIsFirst(l, net, r, e.packet, e.u);
      FirstStore(l, r);
    }
  }

  lemma FirstIsFirst(l: Ledger, net: set<Emission>, r: Inbound, p: DataPacket, n: int)
    requires FullWindow(l, net) && r.received == map[]
    requires CarriesWith(net, p, n, Dictionary(r.received, Wire(n)))
    ensures n == l.first
  {
    var e :| e in net && e.packet == p && e.u == n && e.dict == Dictionary(r.received, Wire(n));
    assert HasFullDict(l, e);
    EmptyDictionary(Wire(n), DICT_WINDOW);
    if n > l.first { SpanContent(l, Max(l.first, n - DICT_WINDOW), n); }
  }

  lemma FirstStore(l: Ledger, r: Inbound)
    requires Unstarted(r) && |l.log| > 0
    ensures var r' := Store(r, Wire(l.first), l.log[0]); Prefix(l, r') && |r'.delivered| == 1
  {
    var r' := Store(r, Wire(l.first), l.log[0]);
    forall k: Seq24 ensures RetainsKey(r'.received, l.log, l.first, l.first, l.first, k) {
      BackRange(l.first, k);
      BackIsUnique(l.first, k, l.first);
    }
  }

  lemma ReceiveFirst(suite: Suite, l: Ledger, net: set<Emission>, ds: set<Bytes>, r: Inbound, e: Emission)
    returns (pos': int)
    requires Setting(suite, l, net, ds) && FullWindow(l, net) && e in net && Unstarted(r)
    requires InPlay(suite, net, r, e.u) && Keyed(r)
    requires Receive(suite, r, e.packet).dicts <= ds
    ensures var r' := Receive(suite, r, e.packet);
            if r'.highest.None? then Unstarted(r') else PrefixAt(l, r', pos') && e.u <= pos' < e.u + HALF
  {
    hide Wire, SeqDelta, SeqNext, Accept, Unseal, Drain, Retains;
    pos' := e.u;
    if Ahead(r, e.packet.header.num) == 1 && Unseal(suite, r, e.packet).Some? {
      var r' := Accept(suite, r, e.packet, Wire(e.u));
      DrainDictsGrow(suite, r', SeqNext(OrZero(r'.highest)));
      FirstAdmitted(suite, l, net, ds, r, e);
      if r'.highest.None? {
        UnstartedSettles(suite, r');
      } else {
        pos' := SettleKeepsPrefix(suite, l, net, ds, r', e.u, e.u);
      }
    }
  }
}
