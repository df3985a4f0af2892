/** Runs that reach the states other modules speak about. */
module Scenarios {
  import opened Primitives
  import opened Sequence
  import opened Dictionaries
  import opened Ratchet
  import opened Sender
  import opened SenderLedger
  import opened Receiver
  import opened Gate
  import opened Network
  import opened Tracking
  import opened NoSkip
  import opened GaplessDelivery
  import opened Convergence
  import opened Admission

  // ---- Building runs ----

  /** A sender with one epoch, whose message number i+1 was sealed at position i. */
  ghost predicate Plain(suite: Suite, w: World, seed: Bytes) {
    && SenderOk(suite, w)
    && w.ledger.first == 1 && w.out.epoch == 1 && 1 in w.out.chains && 1 in w.ledger.seed && w.ledger.seed[1] == seed
    && w.out.chains[1].index == |w.ledger.log|
    && forall i :: 0 <= i < |w.ledger.uses| ==> w.ledger.uses[i] == KeyUse(seed, 1, i)
  }

  lemma Extends(suite: Suite, run: Run, ev: Event)
    requires Possible(suite, run) && Enabled(suite, StateOf(suite, run), ev)
    ensures Possible(suite, After(run, ev)) && StateOf(suite, After(run, ev)) == Step(suite, StateOf(suite, run), ev)
  {
    hide Step;
  }

  /** One epoch, and one receiver that has been sent the chain from its start. */
  function Opening(seed: Bytes): Run {
    After(After(After(After(Start, Adopt(1, seed)), ShareChain(1)), Join(0)), DeliverShare(0, Share(1, ChainState(seed, 0))))
  }

  lemma OpeningState(suite: Suite, seed: Bytes)
    ensures Possible(suite, Opening(seed))
    ensures var w := StateOf(suite, Opening(seed));
            && Plain(suite, w, seed) && w.ledger.log == [] && w.ledger.base == 1 && w.net == {}
            && w.inbound == map[0 := LearnChain(Newcomer, 1, ChainState(seed, 0))]
  {
    hide SenderOk, StepNack, StepSend, Receive, StateOf, Possible;
    StartState(suite);
    var r1 := After(Start, Adopt(1, seed));
    var r2 := After(r1, ShareChain(1));
    var r3 := After(r2, Join(0));
    Adopts(suite, seed);
    Extends(suite, Start, Adopt(1, seed));
    Extends(suite, r1, ShareChain(1));
    Extends(suite, r2, Join(0));
    Extends(suite, r3, DeliverShare(0, Share(1, ChainState(seed, 0))));
    SenderRefinesLog(suite, Opening(seed));
  }

  lemma StartState(suite: Suite)
    ensures Possible(suite, Start) && StateOf(suite, Start) == Initial
  {
  }

  lemma Adopts(suite: Suite, seed: Bytes)
    ensures Enabled(suite, Initial, Adopt(1, seed))
  {
  }

  /** Sending in a plain world: the packet, and what it is compressed against. */
  lemma PlainSend(suite: Suite, w: World, seed: Bytes, x: Bytes, nonce: Bytes) returns (e: Emission)
    requires Plain(suite, w, seed)
    ensures var w' := StepSend(suite, w, x, nonce);
            && Plain(suite, w', seed) && w'.inbound == w.inbound && w'.net == w.net + {e}
            && w'.ledger == w.ledger.(log := w.ledger.log + [x], bases := w.ledger.bases + [w.ledger.base], uses := w'.ledger.uses)
            && w.ledger.first == 1 && e.u == |w.ledger.log| + 1 && Proper(suite, w'.ledger, w.ledger.base, e) && Grows(w.ledger, w'.ledger)
  {
    hide Wire, SeqDelta, SeqNext, Dictionary, Retains, Bounded, Resealable, KeysUsedOnce, OwnChains, Span, OnMadeChain, StepSend;
    hide EmissionOk;
    var w' := StepSend(suite, w, x, nonce);
    StepSendKeepsSender(suite, w, x, nonce);
    e := SendEffect(suite, w, x, nonce);
    assert EmissionOk(suite, w'.ledger, e);
  }

  lemma SendEffect(suite: Suite, w: World, x: Bytes, nonce: Bytes) returns (e: Emission)
    requires Inv(suite, w.out, w.ledger) && w.out.epoch == 1 && 1 in w.out.chains && 1 in w.ledger.seed
    ensures var w' := StepSend(suite, w, x, nonce);
            && w'.inbound == w.inbound && w'.net == w.net + {e}
            && w'.ledger == w.ledger.(log := w.ledger.log + [x], bases := w.ledger.bases + [w.ledger.base],
                                      uses := w.ledger.uses + [KeyUse(w.ledger.seed[1], 1, w.out.chains[1].index)])
            && e.u == w'.ledger.Top()
            && e.dict == Span(w'.ledger.log, w'.ledger.first, Max(w.ledger.base, e.u - DICT_WINDOW), e.u)
            && w'.out.epoch == 1 && 1 in w'.out.chains && w'.out.chains[1].index == w.out.chains[1].index + 1
  {
    hide Wire, SeqDelta, SeqNext, Dictionary, Pruned, Encode, Advance, Retains, Resealable, KeysUsedOnce, Span;
    SentPacketIsOriginal(suite, w.out, w.ledger, x, nonce);
    AdvanceByOne(suite, w.out.chains[1]);
    var w' := StepSend(suite, w, x, nonce);
    e := Emission(w'.ledger.Top(), Dictionary(w.out.sent, w.out.nextSeq), Send(suite, w.out, x, nonce).packet.value);
  }

  lemma AdvanceByOne(suite: Suite, c: ChainState)
    ensures Advance(suite, c, c.index).state.index == c.index + 1
  {
  }

  lemma PlainFlush(suite: Suite, w: World, seed: Bytes)
    requires Plain(suite, w, seed)
    ensures var w' := Step(suite, w, FlushSender);
            && Plain(suite, w', seed) && w'.inbound == w.inbound && w'.net == w.net
            && w.ledger.first == 1 && w'.ledger == w.ledger.(base := |w.ledger.log| + 1)
  {
    hide SenderOk;
    StepFlushKeepsSender(suite, w);
  }

  lemma ProperStays(suite: Suite, l: Ledger, l': Ledger, b: int, e: Emission)
    requires Grows(l, l') && Proper(suite, l, b, e)
    ensures Proper(suite, l', b, e)
  {
    hide Wire, Encode;
    EmissionStays(suite, l, l', e);
    SpanAgrees(l.log, l'.log, l.first, Max(b, e.u - DICT_WINDOW), e.u);
  }

  lemma SameLedgerProper(suite: Suite, l: Ledger, l': Ledger, b: int, e: Emission)
    requires l' == l.(base := l'.base) && Proper(suite, l, b, e)
    ensures Proper(suite, l', b, e)
  {
  }

  // ---- A receiver that follows ----

  /** The receiver has taken everything up to `n` and nothing is buffered. */
  ghost predicate Following(suite: Suite, l: Ledger, r: Inbound, seed: Bytes, n: nat) {
    && r.buffer == map[] && 1 in r.chains && OnChain(suite, seed, r.chains[1]) && r.chains[1].index == n
    && (if n == 0 then Unstarted(r) else AtRest(l, r, 1, n))
  }

  lemma FollowingOpens(suite: Suite, w: World, r: Inbound, seed: Bytes, n: nat, m: int)
    requires Plain(suite, w, seed) && Following(suite, w.ledger, r, seed, n) && n <= m <= |w.ledger.log|
    ensures |w.ledger.uses| == |w.ledger.log| && Ready(suite, w.ledger, r, n, m)
  {
    hide Wire, SeqDelta, Retains, Bounded, Resealable, KeysUsedOnce, EmissionOk, OnMadeChain, Iterate;
    var l := w.ledger;
    forall u | n < u <= m ensures CanOpen(suite, l, r, u) {
      assert Use(l, u) == KeyUse(seed, 1, u - 1);
    }
  }

  /** The very first message of a stream that begins with number 1. */
  lemma FirstTaken(suite: Suite, w: World, r: Inbound, seed: Bytes, e: Emission)
    requires Lawful(suite) && Plain(suite, w, seed) && Following(suite, w.ledger, r, seed, 0) && |w.ledger.log| >= 1
    requires Proper(suite, w.ledger, 1, e) && e.u == 1
    ensures var r' := Receive(suite, r, e.packet);
            && Following(suite, w.ledger, r', seed, 1) && r'.delivered == [Delivery(1, w.ledger.log[0])]
  {
    hide SeqDelta, SeqNext, Accept, Unseal, Drain, Dictionary, Iterate, Retains, SenderOk, Pruned;
    var l := w.ledger;
    FollowingOpens(suite, w, r, seed, 0, 1);
    assert CanOpen(suite, l, r, 1);
    assert Wire(1) == 1;
    PacketNumber(suite, l, e);
    EmptyDictionaryAt(1);
    AdmittedIff(suite, l, r, e);
    var r' := Take(suite, l, r, 1);
    FirstRests(l, r.(chains := r'.chains, dicts := r'.dicts));
    DrainNone(suite, r', SeqNext(OrZero(r'.highest)));
  }

  lemma FirstRests(l: Ledger, r: Inbound)
    requires Unstarted(r) && l.first == 1 && |l.log| > 0
    ensures var r' := Store(r, 1, l.log[0]);
            AtRest(l, r', 1, 1) && r'.delivered == [Delivery(1, l.log[0])]
  {
    hide SeqDelta, Retains, Pruned;
    assert Wire(1) == 1;
    FirstStore(l, r);
    FirstKept(r, l.log[0]);
  }

  lemma FirstKept(r: Inbound, x: Bytes)
    requires Unstarted(r)
    ensures Store(r, 1, x).received != map[]
  {
    assert 1 in Store(r, 1, x).received;
  }

  /** Any later message, in order. */
  lemma NextTaken(suite: Suite, w: World, r: Inbound, seed: Bytes, n: nat, e: Emission)
    requires Lawful(suite) && Plain(suite, w, seed) && Following(suite, w.ledger, r, seed, n) && 1 <= n < |w.ledger.log|
    requires Proper(suite, w.ledger, 1, e) && e.u == n + 1
    ensures var r' := Receive(suite, r, e.packet);
            && Following(suite, w.ledger, r', seed, n + 1)
            && r'.delivered == r.delivered + [Delivery(Wire(n + 1), w.ledger.log[n])]
  {
    hide Wire, SeqDelta, SeqNext, Accept, Unseal, Drain, Dictionary, Iterate, Retains, SenderOk, Store;
    var l := w.ledger;
    FollowingOpens(suite, w, r, seed, n, n + 1);
    NextOfReady(suite, l, r, n, n + 1);
    PacketNumber(suite, l, e);
    WireDelta(n, n + 1);
    AcceptTakes(suite, l, r, 1, n, e);
    TakeRests(suite, l, r, 1, n);
    var r' := Take(suite, l, r, n + 1);
    DrainNone(suite, r', SeqNext(OrZero(r'.highest)));
    TakeChains(suite, l, r, n + 1);
  }

  lemma TakeChains(suite: Suite, l: Ledger, r: Inbound, u: int)
    requires l.first <= u <= l.Top() && |l.uses| == |l.log|
    ensures var use := Use(l, u);
            Take(suite, l, r, u).chains == r.chains[use.epoch := ChainState(Iterate(suite, use.seed, use.idx + 1), use.idx + 1)]
  {
    hide Iterate, Dictionary, Pruned;
  }

  lemma RestStays(l: Ledger, l': Ledger, r: Inbound, base: int, n: int)
    requires AtRest(l, r, base, n) && Grows(l, l') && l.log != []
    ensures AtRest(l', r, base, n)
  {
    hide Wire, Retains;
    RetainsStays(r.received, l.log, l'.log, l.first, Max(base, n - RETAINED), n);
  }

  lemma FollowingStays(suite: Suite, l: Ledger, l': Ledger, r: Inbound, seed: Bytes, n: nat)
    requires Following(suite, l, r, seed, n) && Grows(l, l') && (n > 0 ==> l.log != [])
    ensures Following(suite, l', r, seed, n)
  {
    hide AtRest, OnChain, Unstarted;
    if n > 0 { RestStays(l, l', r, 1, n); }
  }

  // ---- A retransmission one past the slack ----

  /** Every message is `x`, the sender was never flushed, and there is one receiver. */
  ghost predicate Repeating(w: World, x: Bytes, n: nat) {
    && |w.ledger.log| == n && w.ledger.base == 1 && (forall i :: 0 <= i < n ==> w.ledger.log[i] == x)
    && w.inbound.Keys == {0}
  }

  /** Messages 1..n are sent, and each is delivered at once. */
  lemma {:induction false} Follows(suite: Suite, x: Bytes, seed: Bytes, nonce: Bytes, n: nat) returns (run: Run)
    requires Lawful(suite)
    ensures Possible(suite, run)
    ensures var w := StateOf(suite, run);
            Plain(suite, w, seed) && Repeating(w, x, n) && Following(suite, w.ledger, w.inbound[0], seed, n)
  {
    hide Possible, StateOf, StepSend, Plain, AtRest, Proper, Receive, Unstarted;
    if n == 0 {
      run := Opening(seed);
      OpeningState(suite, seed);
      FreshFollows(suite, StateOf(suite, run).ledger, seed);
    } else {
      run := Follows(suite, x, seed, nonce, n - 1);
      var w := StateOf(suite, run);
      var e := PlainSend(suite, w, seed, x, nonce);
      Extends(suite, run, SendData(x, nonce));
      run := After(run, SendData(x, nonce));
      var w' := StateOf(suite, run);
      FollowingStays(suite, w.ledger, w'.ledger, w.inbound[0], seed, n - 1);
      if n == 1 { FirstTaken(suite, w', w'.inbound[0], seed, e); } else { NextTaken(suite, w', w'.inbound[0], seed, n - 1, e); }
      Extends(suite, run, Deliver(0, e));
      run := After(run, Deliver(0, e));
      PlainInbound(suite, w', StateOf(suite, run), seed);
    }
  }

  lemma FreshFollows(suite: Suite, l: Ledger, seed: Bytes)
    ensures Following(suite, l, LearnChain(Newcomer, 1, ChainState(seed, 0)), seed, 0)
  {
  }

  lemma PlainInbound(suite: Suite, w: World, w': World, seed: Bytes)
    requires Plain(suite, w, seed) && w' == w.(inbound := w'.inbound)
    ensures Plain(suite, w', seed)
  {
  }

  /** Messages n+1..m are sent and none arrives. */
  lemma {:induction false} SendsOn(suite: Suite, x: Bytes, seed: Bytes, nonce: Bytes, n: nat, m: nat) returns (run: Run)
    requires Lawful(suite) && 1 <= n <= m
    ensures Possible(suite, run)
    ensures var w := StateOf(suite, run);
            Plain(suite, w, seed) && Repeating(w, x, m) && Following(suite, w.ledger, w.inbound[0], seed, n)
    decreases m
  {
    hide Possible, StateOf, StepSend, Plain, AtRest, Proper, Unstarted;
    if n == m {
      run := Follows(suite, x, seed, nonce, n);
    } else {
      run := SendsOn(suite, x, seed, nonce, n, m - 1);
      var w := StateOf(suite, run);
      var e := PlainSend(suite, w, seed, x, nonce);
      Extends(suite, run, SendData(x, nonce));
      run := After(run, SendData(x, nonce));
      FollowingStays(suite, w.ledger, StateOf(suite, run).ledger, w.inbound[0], seed, n);
    }
  }

  function Times(x: Bytes, n: nat): Bytes {
    if n == 0 then [] else x + Times(x, n - 1)
  }

  lemma {:induction false} SpanOfSame(log: seq<Bytes>, x: Bytes, a: int, b: int)
    requires 1 <= a <= b <= 1 + |log| && forall i :: 0 <= i < |log| ==> log[i] == x
    ensures Span(log, 1, a, b) == Times(x, b - a)
    decreases b - a
  {
    if a < b { SpanOfSame(log, x, a + 1, b); }
  }

  /** After 218 non-empty messages, number 201 is 17 behind the newest and still
      held, yet a retransmission of it is compressed against another dictionary. */
  lemma BeyondTheSlack(suite: Suite, w: World, x: Bytes, seed: Bytes)
    requires Plain(suite, w, seed) && Repeating(w, x, 218) && x != []
    ensures var l := w.ledger;
            && Inv(suite, w.out, l) && l.Lo() == 2 && l.bases[200] == 1
            && OriginalDict(l, 201) == Times(x, 200) && RebuiltDict(l, 201) == Times(x, 199)
            && !DroppedEmpty(l, 201) && RebuiltDict(l, 201) != OriginalDict(l, 201)
  {
    hide Wire, Bounded, Resealable, KeysUsedOnce, OwnChains, EmissionOk, OnMadeChain, Span, Times;
    var l := w.ledger;
    assert l.bases[200] == 1 && l.Lo() == 2 && l.log[0] != [];
    SpanOfSame(l.log, x, 1, 201);
    SpanOfSame(l.log, x, 2, 201);
    RetransmitFaithfulIff(suite, w.out, l, 201);
  }

  /** A run that gets there with a receiver that has delivered 1..200: it asks for
      201, the sender answers, and the receiver refuses the answer and loses its
      history. */
  lemma LateRetransmissionRefused(suite: Suite, x: Bytes, seed: Bytes, nonce: Bytes) returns (before: Run, e: Emission)
    requires Lawful(suite) && x != [] && NoClash(suite, Times(x, 200), Times(x, 199))
    ensures var run := After(After(before, AnswerNack(201, nonce)), Deliver(0, e));
            && Possible(suite, run)
            && var w, w' := StateOf(suite, before), StateOf(suite, run);
               && Repeating(w, x, 218) && Repeating(w', x, 218) && e.u == 201
               && w.inbound[0].highest == Some(200) && w.inbound[0].received != map[]
               && w'.inbound[0].delivered == w.inbound[0].delivered && w'.inbound[0].received == map[]
  {
    hide Possible, StateOf, Plain, Repeating, Following, Receive, Retransmit, Times, Encode, OriginalDict, RebuiltDict, DroppedEmpty, Dictionary, Span;
    before := SendsOn(suite, x, seed, nonce, 200, 218);
    var w := StateOf(suite, before);
    e := RefusedAnswer(suite, w, x, seed, nonce);
    Extends(suite, before, AnswerNack(201, nonce));
    var asked := After(before, AnswerNack(201, nonce));
    Extends(suite, asked, Deliver(0, e));
    SameRepeating(w, StateOf(suite, After(asked, Deliver(0, e))), x);
  }

  lemma SameRepeating(w: World, w': World, x: Bytes)
    requires Repeating(w, x, 218) && w'.ledger == w.ledger && w'.inbound.Keys == w.inbound.Keys
    ensures Repeating(w', x, 218)
  {
  }

  lemma RefusedAnswer(suite: Suite, w: World, x: Bytes, seed: Bytes, nonce: Bytes) returns (e: Emission)
    requires Lawful(suite) && x != [] && NoClash(suite, Times(x, 200), Times(x, 199))
    requires Plain(suite, w, seed) && Repeating(w, x, 218) && Following(suite, w.ledger, w.inbound[0], seed, 200)
    ensures var w' := StepNack(suite, w, 201, nonce);
            && w' == w.(net := w'.net) && e in w'.net && e.u == 201 && w'.inbound.Keys == {0}
    ensures var r := w.inbound[0];
            var r' := Receive(suite, r, e.packet);
            && r.highest == Some(200) && r.received != map[]
            && r'.delivered == r.delivered && r'.received == map[]
  {
    hide SeqDelta, Retains, Times, Encode, Dictionary, Span, Receive, Retransmit, Bounded, Resealable, KeysUsedOnce, OwnChains;
    hide EmissionOk, OnMadeChain;
    var l, r := w.ledger, w.inbound[0];
    assert Wire(201) == 201 && Wire(200) == 200;
    BeyondTheSlack(suite, w, x, seed);
    FollowingOpens(suite, w, r, seed, 200, 201);
    NextOfReady(suite, l, r, 200, 201);
    RetransmissionTakenIff(suite, w.out, l, r, 201, nonce);
    BackIsUnique(l.Top(), 201, 201);
    RetainsAt(r.received, l.log, l.first, Max(1, 200 - RETAINED), 200, 200);
    e := Emission(Back(l.Top(), 201), Dictionary(w.out.sent, 201), Retransmit(suite, w.out, 201, nonce).value);
  }

  // ---- A message skipped across a reset ----

  /** The ledger after messages a and b, a flush, message c, a flush, and message d. */
  ghost predicate TwiceFlushed(l: Ledger, a: Bytes, b: Bytes, c: Bytes, d: Bytes) {
    l.first == 1 && l.log == [a, b, c, d]
  }

  lemma SendsAroundFlushes(suite: Suite, a: Bytes, b: Bytes, c: Bytes, d: Bytes, seed: Bytes, nonce: Bytes)
    returns (run: Run, e1: Emission, e2: Emission, e3: Emission, e4: Emission)
    ensures Possible(suite, run)
    ensures var w := StateOf(suite, run);
            && Plain(suite, w, seed) && TwiceFlushed(w.ledger, a, b, c, d) && w.net == {e1, e2, e3, e4}
            && w.inbound == map[0 := LearnChain(Newcomer, 1, ChainState(seed, 0))]
            && e1.u == 1 && e2.u == 2 && e3.u == 3 && e4.u == 4
            && Proper(suite, w.ledger, 1, e1) && Proper(suite, w.ledger, 1, e2)
            && Proper(suite, w.ledger, 3, e3) && Proper(suite, w.ledger, 4, e4)
  {
    hide Possible, StateOf, StepSend, Plain, Proper, Sender.Flush;
    run := Opening(seed);
    OpeningState(suite, seed);
    var w0 := StateOf(suite, run);
    e1 := PlainSend(suite, w0, seed, a, nonce);
    Extends(suite, run, SendData(a, nonce));
    run := After(run, SendData(a, nonce));
    var w1 := StateOf(suite, run);
    e2 := PlainSend(suite, w1, seed, b, nonce);
    Extends(suite, run, SendData(b, nonce));
    run := After(run, SendData(b, nonce));
    var w2 := StateOf(suite, run);
    PlainFlush(suite, w2, seed);
    Extends(suite, run, FlushSender);
    run := After(run, FlushSender);
    var w3 := StateOf(suite, run);
    e3 := PlainSend(suite, w3, seed, c, nonce);
    Extends(suite, run, SendData(c, nonce));
    run := After(run, SendData(c, nonce));
    var w4 := StateOf(suite, run);
    PlainFlush(suite, w4, seed);
    Extends(suite, run, FlushSender);
    run := After(run, FlushSender);
    var w5 := StateOf(suite, run);
    e4 := PlainSend(suite, w5, seed, d, nonce);
    Extends(suite, run, SendData(d, nonce));
    run := After(run, SendData(d, nonce));
    var w6 := StateOf(suite, run);
    LastsThrough(suite, w2.ledger, w3.ledger, w4.ledger, w5.ledger, w6.ledger, e3);
    ProperStays(suite, w1.ledger, w2.ledger, 1, e1);
    LastsLong(suite, w2.ledger, w3.ledger, w4.ledger, w5.ledger, w6.ledger, e1);
    LastsLong(suite, w2.ledger, w3.ledger, w4.ledger, w5.ledger, w6.ledger, e2);
  }

  lemma LastsLong(suite: Suite, l2: Ledger, l3: Ledger, l4: Ledger, l5: Ledger, l6: Ledger, e: Emission)
    requires Proper(suite, l2, 1, e) && l3 == l2.(base := l3.base) && Grows(l3, l4) && l5 == l4.(base := l5.base) && Grows(l5, l6)
    ensures Proper(suite, l6, 1, e)
  {
    hide Proper, Grows;
    SameLedgerProper(suite, l2, l3, 1, e);
    ProperStays(suite, l3, l4, 1, e);
    SameLedgerProper(suite, l4, l5, 1, e);
    ProperStays(suite, l5, l6, 1, e);
  }

  lemma LastsThrough(suite: Suite, l2: Ledger, l3: Ledger, l4: Ledger, l5: Ledger, l6: Ledger, e: Emission)
    requires Proper(suite, l4, 3, e) && l5 == l4.(base := l5.base) && Grows(l5, l6)
    ensures Proper(suite, l6, 3, e)
  {
    hide Proper, Grows;
    SameLedgerProper(suite, l4, l5, 3, e);
    ProperStays(suite, l5, l6, 3, e);
  }

  /** The receiver's part: 1 arrives, then 3 and 4, which wait, then 2.  Message 3
      fails the gate, which drops the history, and 4 passes it. */
  lemma SkipsThree(suite: Suite, w: World, a: Bytes, b: Bytes, c: Bytes, d: Bytes, seed: Bytes,
                   e1: Emission, e2: Emission, e3: Emission, e4: Emission)
    requires Lawful(suite) && a != [] && NoClash(suite, a + b, [])
    requires Plain(suite, w, seed) && TwiceFlushed(w.ledger, a, b, c, d)
    requires e1.u == 1 && e2.u == 2 && e3.u == 3 && e4.u == 4
    requires Proper(suite, w.ledger, 1, e1) && Proper(suite, w.ledger, 1, e2)
    requires Proper(suite, w.ledger, 3, e3) && Proper(suite, w.ledger, 4, e4)
    ensures var r0 := LearnChain(Newcomer, 1, ChainState(seed, 0));
            var r1 := Receive(suite, r0, e1.packet);
            var r3 := Receive(suite, Receive(suite, r1, e3.packet), e4.packet);
            Receive(suite, r3, e2.packet).delivered == [Delivery(1, a), Delivery(2, b), Delivery(4, d)]
  {
    hide SeqDelta, Receive, Retains, Dictionary, Plain, Ready, EmissionOk, Unstarted, Take;
    var l := w.ledger;
    var r0 := LearnChain(Newcomer, 1, ChainState(seed, 0));
    FreshFollows(suite, l, seed);
    FirstTaken(suite, w, r0, seed, e1);
    var r1 := Receive(suite, r0, e1.packet);
    assert Wire(1) == 1 && Wire(2) == 2 && Wire(3) == 3 && Wire(4) == 4;
    WaitsFor(suite, l, r1, e3);
    var r2 := r1.(buffer := map[3 := e3.packet]);
    WaitsFor(suite, l, r2, e4);
    var r3 := r2.(buffer := map[3 := e3.packet, 4 := e4.packet]);
    FollowingOpens(suite, w, r1, seed, 1, 4);
    SameKeysReady(suite, l, r1, r3, 1, 4);
    RestsWhileWaiting(l, r1, r3, 1, 1);
    assert Span(l.log, 1, 1, 3) == a + b;
    assert e3.dict == [] && e4.dict == [];
    TakenDictionary(suite, l, r3, a, b);
    ResetSkipsIff(suite, l, r3, 1, 1, e2, 3, e3, 4, e4);
  }

  lemma RestsWhileWaiting(l: Ledger, r: Inbound, r': Inbound, base: int, n: int)
    requires AtRest(l, r, base, n) && r' == r.(buffer := r'.buffer)
    ensures AtRest(l, r', base, n)
  {
  }

  lemma TakenDictionary(suite: Suite, l: Ledger, r: Inbound, a: Bytes, b: Bytes)
    requires AtRest(l, r, 1, 1) && l.first == 1 && |l.log| >= 3 && l.log[0] == a && l.log[1] == b && |l.uses| == |l.log|
    ensures Dictionary(Take(suite, l, r, 2).received, Wire(3)) == a + b
  {
    hide Wire, SeqDelta, Retains, Dictionary, Take;
    TakeRests(suite, l, r, 1, 1);
    DictionaryOfLog(Take(suite, l, r, 2).received, l.log, 1, 1, 2, 3);
    assert Span(l.log, 1, 1, 3) == a + b;
  }

  /** A packet two or three ahead of position 1 is buffered. */
  lemma WaitsFor(suite: Suite, l: Ledger, r: Inbound, e: Emission)
    requires EmissionOk(suite, l, e) && r.highest == Some(1) && 3 <= e.u <= 4
    ensures Receive(suite, r, e.packet) == r.(buffer := r.buffer[e.u := e.packet])
  {
    hide TakeNext;
    PacketNumber(suite, l, e);
  }

  /** A run in which the drain skips message 3, intact and whatever it contains. */
  lemma ResetSkips(suite: Suite, a: Bytes, b: Bytes, c: Bytes, d: Bytes, seed: Bytes, nonce: Bytes) returns (run: Run)
    requires Lawful(suite) && a != [] && NoClash(suite, a + b, [])
    ensures Possible(suite, run)
    ensures var w := StateOf(suite, run);
            && w.ledger.log == [a, b, c, d] && 0 in w.inbound
            && w.inbound[0].delivered == [Delivery(1, a), Delivery(2, b), Delivery(4, d)]
  {
    hide Possible, StateOf, Plain, Proper, Receive;
    var e1, e2, e3, e4;
    run, e1, e2, e3, e4 := SendsAroundFlushes(suite, a, b, c, d, seed, nonce);
    SkipsThree(suite, StateOf(suite, run), a, b, c, d, seed, e1, e2, e3, e4);
    Extends(suite, run, Deliver(0, e1));
    run := After(run, Deliver(0, e1));
    Extends(suite, run, Deliver(0, e3));
    run := After(run, Deliver(0, e3));
    Extends(suite, run, Deliver(0, e4));
    run := After(run, Deliver(0, e4));
    Extends(suite, run, Deliver(0, e2));
    run := After(run, Deliver(0, e2));
  }

  // ---- A stream that never starts ----

  /** A message before joining, then an epoch, and a receiver with the chain. */
  function Listening(x: Bytes, seed: Bytes, nonce: Bytes): Run {
    var joined := After(After(After(Start, SendData(x, nonce)), Adopt(1, seed)), ShareChain(1));
    After(After(joined, Join(0)), DeliverShare(0, Share(1, ChainState(seed, 0))))
  }

  /** Number 1 is used up for nothing. */
  lemma EarlySend(suite: Suite, x: Bytes, nonce: Bytes)
    ensures StepSend(suite, Initial, x, nonce) == World(Fresh.(nextSeq := 2), Blank.(first := 2, base := 2), {}, {}, map[])
  {
    hide Dictionary;
  }

  lemma ListeningState(suite: Suite, x: Bytes, seed: Bytes, nonce: Bytes)
    requires x != []
    ensures var run := Listening(x, seed, nonce);
            var w := StateOf(suite, run);
            && Possible(suite, run) && GentleRun(suite, run)
            && w.out == StartEpoch(Fresh.(nextSeq := 2), 1, seed)
            && w.ledger == AfterStartEpoch(Blank.(first := 2, base := 2), 1, seed)
            && w.net == {} && w.inbound == map[0 := LearnChain(Newcomer, 1, ChainState(seed, 0))]
  {
    hide StepSend, StepNack, Receive, StateOf, Possible;
    var r1 := After(Start, SendData(x, nonce));
    var r2 := After(r1, Adopt(1, seed));
    var r3 := After(r2, ShareChain(1));
    EarlySend(suite, x, nonce);
    StartState(suite);
    Extends(suite, Start, SendData(x, nonce));
    Extends(suite, r1, Adopt(1, seed));
    Extends(suite, r2, ShareChain(1));
    assert GentleRun(suite, Start) && GentleRun(suite, r1) && GentleRun(suite, r2) && GentleRun(suite, r3);
    ReceiverTold(suite, r3, seed);
  }

  /** A receiver joins and is given the chain. */
  lemma ReceiverTold(suite: Suite, run: Run, seed: Bytes)
    requires Possible(suite, run) && GentleRun(suite, run)
    requires StateOf(suite, run).inbound == map[] && Share(1, ChainState(seed, 0)) in StateOf(suite, run).shares
    ensures var run' := After(After(run, Join(0)), DeliverShare(0, Share(1, ChainState(seed, 0))));
            && Possible(suite, run') && GentleRun(suite, run')
            && StateOf(suite, run') == StateOf(suite, run).(inbound := map[0 := LearnChain(Newcomer, 1, ChainState(seed, 0))])
  {
    hide StepSend, StepNack, Receive, StateOf, Possible;
    Extends(suite, run, Join(0));
    Extends(suite, After(run, Join(0)), DeliverShare(0, Share(1, ChainState(seed, 0))));
    assert GentleRun(suite, After(run, Join(0)));
  }

  /** The first real message, as it goes out and is delivered to the receiver. */
  function LateStart(x: Bytes, seed: Bytes, nonce: Bytes, e: Emission): Run {
    After(After(Listening(x, seed, nonce), SendData(x, nonce)), Deliver(0, e))
  }

  function LatePacket(suite: Suite, x: Bytes, seed: Bytes, nonce: Bytes): Emission {
    Emission(2, [], Encode(suite, 2, x, [], SealKey(suite.messageKey(seed, 0), 0, 1), nonce))
  }

  lemma LateSend(suite: Suite, w: World, x: Bytes, seed: Bytes, nonce: Bytes)
    requires w.out == StartEpoch(Fresh.(nextSeq := 2), 1, seed)
    requires w.ledger == AfterStartEpoch(Blank.(first := 2, base := 2), 1, seed) && w.net == {}
    ensures var w' := StepSend(suite, w, x, nonce);
            && w'.net == {LatePacket(suite, x, seed, nonce)} && w'.inbound == w.inbound
            && w'.ledger.first == 2 && w'.ledger.log == [x] && w'.ledger.uses == [KeyUse(seed, 1, 0)]
  {
    hide Dictionary;
    EmptyDictionaryAt(2);
    assert Iterate(suite, seed, 0) == seed;
  }

  /** Such a run: number 1 was used up, the receiver could read number 2, and it
      waits for number 1. */
  lemma LateStartHappens(suite: Suite, x: Bytes, seed: Bytes, nonce: Bytes)
    requires x != []
    ensures var e := LatePacket(suite, x, seed, nonce);
            var run := LateStart(x, seed, nonce, e);
            var w := StateOf(suite, run);
            && Possible(suite, run) && GentleRun(suite, run)
            && w.ledger.first == 2 && w.ledger.log == [x] && |w.ledger.uses| == 1 && w.net == {e}
            && TakenForGap(Wire(w.ledger.first))
            && 0 in w.inbound && w.inbound[0].delivered == [] && 2 in w.inbound[0].buffer
            && CanOpen(suite, w.ledger, w.inbound[0], 2)
  {
    hide Listening, StepSend, Encode, StateOf, Possible;
    ListeningState(suite, x, seed, nonce);
    var run := Listening(x, seed, nonce);
    var w := StateOf(suite, run);
    LateSend(suite, w, x, seed, nonce);
    var e := LatePacket(suite, x, seed, nonce);
    Extends(suite, run, SendData(x, nonce));
    var sent := After(run, SendData(x, nonce));
    Extends(suite, sent, Deliver(0, e));
    assert GentleRun(suite, sent);
    NumberOfLate(suite, x, seed, nonce);
    var w' := StateOf(suite, After(sent, Deliver(0, e)));
    var r := LearnChain(Newcomer, 1, ChainState(seed, 0));
    assert w'.inbound == map[0 := r.(buffer := map[2 := e.packet])];
    assert Iterate(suite, seed, 0) == seed;
  }

  lemma NumberOfLate(suite: Suite, x: Bytes, seed: Bytes, nonce: Bytes)
    ensures LatePacket(suite, x, seed, nonce).packet.header.num == 2
  {
  }
}
