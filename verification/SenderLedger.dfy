/** What a sender has really done, kept without bounds or wraps, and the
    invariant that ties the sender's bounded state to it. */
module SenderLedger {
  import opened Primitives
  import opened Sequence
  import opened Dictionaries
  import opened Ratchet
  import opened Sender

  /** Chain and index that sealed a message. */
  datatype KeyUse = KeyUse(seed: Bytes, epoch: nat, idx: nat)

  datatype Ledger = Ledger(
    first: int,                  // number of the first message
    log: seq<Bytes>,             // every payload ever sent
    uses: seq<KeyUse>,           // what each message was sealed with
    bases: seq<int>,             // the flush point when each message was sent
    base: int,                   // messages before this number have been flushed
    seed: map<nat, Bytes>,       // latest seed of each epoch
    made: set<(nat, Bytes)>      // every (epoch, seed) ever generated
  ) {
    function Top(): int { first + |log| - 1 }
    function Lo(): int { Max(base, Top() - RETAINED) }
  }

  const Blank: Ledger := Ledger(1, [], [], [], 1, map[], {})

  function SealKeyOf(suite: Suite, use: KeyUse): SealKey {
    SealKey(MessageKeyAt(suite, use.seed, use.idx), use.idx, use.epoch)
  }

  // ---- How each step extends the ledger ----

  function AfterSend(o: Outbound, l: Ledger, payload: Bytes): Ledger {
    var e := EpochOrOne(o.epoch);
    if e in o.chains && e in l.seed then
      l.(log := l.log + [payload], bases := l.bases + [l.base],
         uses := l.uses + [KeyUse(l.seed[e], e, o.chains[e].index)])
    else
      l.(first := l.first + 1, base := l.base + 1)
  }

  function AfterStartEpoch(l: Ledger, epoch: nat, seed: Bytes): Ledger {
    l.(seed := l.seed[epoch := seed], made := l.made + {(epoch, seed)})
  }

  function AfterFlush(l: Ledger): Ledger {
    l.(base := l.Top() + 1)
  }

  // ---- The invariant ----

  ghost predicate Numbered(o: Outbound, l: Ledger) {
    && 1 <= l.first <= l.base <= l.Top() + 1
    && |l.uses| == |l.log| == |l.bases|
    && o.nextSeq == Wire(l.Top() + 1)
    && (l.log != [] ==> o.highestSent == Wire(l.Top()))
    && forall i :: 0 <= i < |l.bases| ==> l.first <= l.bases[i] <= l.base && l.bases[i] <= l.first + i
  }

  /** The bounded history is the last messages of the log since the flush point. */
  ghost predicate Bounded(o: Outbound, l: Ledger) {
    Retains(o.sent, l.log, l.first, l.Lo(), l.Top())
  }

  ghost predicate ResealableKey(suite: Suite, o: Outbound, l: Ledger, k: Seq24)
    requires k in o.sent
  {
    k in o.keys && 0 <= Back(l.Top(), k) - l.first < |l.uses| &&
    o.keys[k] == SealKeyOf(suite, l.uses[Back(l.Top(), k) - l.first])
  }

  /** Every retained message can be sealed again with its original key. */
  ghost predicate Resealable(suite: Suite, o: Outbound, l: Ledger) {
    forall k: Seq24 :: k in o.sent ==> ResealableKey(suite, o, l, k)
  }

  ghost predicate OwnChains(suite: Suite, o: Outbound, l: Ledger) {
    && o.chains.Keys == l.seed.Keys
    && (forall e :: e in o.chains ==> OnChain(suite, l.seed[e], o.chains[e]) && (e, l.seed[e]) in l.made)
    && (forall e :: e in o.seeds ==> e in l.seed && o.seeds[e] == ChainState(l.seed[e], 0))
    && (forall e, e' :: e in l.seed && e' in l.seed && l.seed[e] == l.seed[e'] ==> e == e')
    && (l.log != [] ==> EpochOrOne(o.epoch) in o.chains)
  }

  ghost predicate SameKey(a: KeyUse, b: KeyUse) {
    a.seed == b.seed && a.idx == b.idx
  }

  /** Later messages use later positions of a chain, so none has sealed two
      messages, and none that the chains in use have yet to reach has sealed any. */
  ghost predicate KeysUsedOnce(o: Outbound, l: Ledger) {
    && (forall i, j :: 0 <= i < j < |l.uses| && l.uses[i].seed == l.uses[j].seed ==> l.uses[i].idx < l.uses[j].idx)
    && (forall i :: 0 <= i < |l.uses| ==> (l.uses[i].epoch, l.uses[i].seed) in l.made)
    && (forall i, e :: 0 <= i < |l.uses| && e in l.seed && e in o.chains && l.uses[i].seed == l.seed[e] ==>
          l.uses[i].idx < o.chains[e].index)
  }

  ghost predicate Inv(suite: Suite, o: Outbound, l: Ledger) {
    Numbered(o, l) && Bounded(o, l) && Resealable(suite, o, l) && OwnChains(suite, o, l) && KeysUsedOnce(o, l)
  }

  lemma InvInit(suite: Suite)
    ensures Inv(suite, Fresh, Blank)
  {
    forall k: Seq24 ensures RetainsKey(map[], [], 1, 1, 0, k) {
      BackRange(0, k);
    }
  }

  // ---- Sending ----

  lemma SendKeepsBounded(suite: Suite, o: Outbound, l: Ledger, payload: Bytes, nonce: Bytes)
    requires Numbered(o, l) && Bounded(o, l) && EpochOrOne(o.epoch) in o.chains && EpochOrOne(o.epoch) in l.seed
    ensures Bounded(Send(suite, o, payload, nonce).state, AfterSend(o, l, payload))
  {
    RetainsAppend(o.sent, l.log, l.first, l.Lo(), l.Top(), payload);
    RetainsNext(o.sent, l.log + [payload], l.first, l.Lo(), l.Top());
  }

  lemma SendKeepsResealable(suite: Suite, o: Outbound, l: Ledger, payload: Bytes, nonce: Bytes)
    requires Numbered(o, l) && Bounded(o, l) && Resealable(suite, o, l) && OwnChains(suite, o, l)
    requires EpochOrOne(o.epoch) in o.chains
    ensures Resealable(suite, Send(suite, o, payload, nonce).state, AfterSend(o, l, payload))
  {
    var o' := Send(suite, o, payload, nonce).state;
    var l' := AfterSend(o, l, payload);
    var e := EpochOrOne(o.epoch);
    AdvanceFromAnywhere(suite, l.seed[e], o.chains[e], o.chains[e].index);
    forall k: Seq24 | k in o'.sent ensures ResealableKey(suite, o', l', k) {
      ResealableAfterSend(suite, o, l, payload, nonce, k);
    }
  }

  lemma ResealableAfterSend(suite: Suite, o: Outbound, l: Ledger, payload: Bytes, nonce: Bytes, k: Seq24)
    requires Numbered(o, l) && EpochOrOne(o.epoch) in o.chains && EpochOrOne(o.epoch) in l.seed
    requires k in Send(suite, o, payload, nonce).state.sent
    requires k in o.sent ==> ResealableKey(suite, o, l, k)
    requires var c := o.chains[EpochOrOne(o.epoch)];
             Advance(suite, c, c.index).messageKey == MessageKeyAt(suite, l.seed[EpochOrOne(o.epoch)], c.index)
    ensures ResealableKey(suite, Send(suite, o, payload, nonce).state, AfterSend(o, l, payload), k)
  {
    hide Wire, SeqDelta, Back, Encode, Dictionary, Advance, MessageKeyAt;
    BackStep(l.Top(), k);
  }

  lemma SendKeepsChains(suite: Suite, o: Outbound, l: Ledger, payload: Bytes, nonce: Bytes)
    requires OwnChains(suite, o, l) && EpochOrOne(o.epoch) in o.chains
    ensures OwnChains(suite, Send(suite, o, payload, nonce).state, AfterSend(o, l, payload))
  {
    var e := EpochOrOne(o.epoch);
    AdvanceStaysOnChain(suite, l.seed[e], o.chains[e], o.chains[e].index);
  }

  lemma {:induction false} SendUsesFreshKey(suite: Suite, o: Outbound, l: Ledger, payload: Bytes, nonce: Bytes)
    requires OwnChains(suite, o, l) && KeysUsedOnce(o, l) && EpochOrOne(o.epoch) in o.chains
    ensures KeysUsedOnce(Send(suite, o, payload, nonce).state, AfterSend(o, l, payload))
  {
    hide Dictionary, Pruned, Encode, OnChain, MessageKeyAt, Iterate;
    var e := EpochOrOne(o.epoch);
    var l' := AfterSend(o, l, payload);
    forall i, j | 0 <= i < j < |l'.uses| && l'.uses[i].seed == l'.uses[j].seed ensures l'.uses[i].idx < l'.uses[j].idx {
      assert l'.uses[i] == l.uses[i];
    }
  }

  lemma SendKeepsNumbered(suite: Suite, o: Outbound, l: Ledger, payload: Bytes, nonce: Bytes)
    requires Numbered(o, l) && EpochOrOne(o.epoch) in o.chains && EpochOrOne(o.epoch) in l.seed
    ensures Numbered(Send(suite, o, payload, nonce).state, AfterSend(o, l, payload))
  {
    WireNext(l.Top() + 1);
  }

  lemma SendKeepsInv(suite: Suite, o: Outbound, l: Ledger, payload: Bytes, nonce: Bytes)
    requires Inv(suite, o, l)
    ensures Inv(suite, Send(suite, o, payload, nonce).state, AfterSend(o, l, payload))
  {
    WireNext(l.Top() + 1);
    if EpochOrOne(o.epoch) in o.chains {
      SendKeepsNumbered(suite, o, l, payload, nonce);
      SendKeepsBounded(suite, o, l, payload, nonce);
      SendKeepsResealable(suite, o, l, payload, nonce);
      SendKeepsChains(suite, o, l, payload, nonce);
      SendUsesFreshKey(suite, o, l, payload, nonce);
    } else {
      NumberLost(suite, o, l, payload, nonce);
    }
  }

  /** A send before any chain exists uses up a number and nothing else. */
  lemma NumberLost(suite: Suite, o: Outbound, l: Ledger, payload: Bytes, nonce: Bytes)
    requires Inv(suite, o, l) && EpochOrOne(o.epoch) !in o.chains
    ensures var o' := Send(suite, o, payload, nonce).state;
            var l' := AfterSend(o, l, payload);
            Bounded(o', l') && Resealable(suite, o', l') && OwnChains(suite, o', l') && KeysUsedOnce(o', l')
  {
    assert l.log == [];
    forall k: Seq24 ensures k !in o.sent {
      assert RetainsKey(o.sent, l.log, l.first, l.Lo(), l.Top(), k);
      BackRange(l.Top(), k);
    }
    EmptyRetains(l.log, l.first + 1, l.Top() + 1);
  }

  lemma EmptyRetains(log: seq<Bytes>, first: int, top: int)
    requires first <= top + 1 <= first + |log|
    ensures Retains(map[], log, first, top + 1, top)
  {
    var lo := top + 1;
    forall k: Seq24 ensures RetainsKey(map[], log, first, lo, top, k) {
      BackRange(top, k);
    }
  }

  // ---- Flushing and re-keying ----

  lemma FlushKeepsInv(suite: Suite, o: Outbound, l: Ledger)
    requires Inv(suite, o, l)
    ensures Inv(suite, Flush(o), AfterFlush(l))
  {
    EmptyRetains(l.log, l.first, l.Top());
  }

  /** Re-keying needs only that the new seed was never generated before. */
  lemma {:induction false} StartEpochKeepsInv(suite: Suite, o: Outbound, l: Ledger, epoch: nat, seed: Bytes)
    requires Inv(suite, o, l) && 1 <= epoch
    requires forall m :: m in l.made ==> m.1 != seed
    ensures Inv(suite, StartEpoch(o, epoch, seed), AfterStartEpoch(l, epoch, seed))
  {
    StartEpochKeepsChains(suite, o, l, epoch, seed);
    StartEpochKeepsUses(o, l, epoch, seed);
    HistoryUntouched(suite, o, l, StartEpoch(o, epoch, seed), AfterStartEpoch(l, epoch, seed));
  }

  /** Steps that only touch epochs, chains and acknowledgements leave the history part alone. */
  lemma HistoryUntouched(suite: Suite, o: Outbound, l: Ledger, o': Outbound, l': Ledger)
    requires Numbered(o, l) && Bounded(o, l) && Resealable(suite, o, l)
    requires o' == o.(epoch := o'.epoch, chains := o'.chains, seeds := o'.seeds, acked := o'.acked)
    requires l' == l.(seed := l'.seed, made := l'.made)
    ensures Numbered(o', l') && Bounded(o', l') && Resealable(suite, o', l')
  {
    forall k: Seq24 | k in o'.sent ensures ResealableKey(suite, o', l', k) {
      assert ResealableKey(suite, o, l, k);
    }
  }

  lemma ForgetSeedKeepsInv(suite: Suite, o: Outbound, l: Ledger, epoch: nat)
    requires Inv(suite, o, l)
    ensures Inv(suite, o.(seeds := o.seeds - {epoch}), l)
  {
    HistoryUntouched(suite, o, l, o.(seeds := o.seeds - {epoch}), l);
  }

  lemma RecordAckKeepsInv(suite: Suite, o: Outbound, l: Ledger, num: Seq24)
    requires Inv(suite, o, l)
    ensures Inv(suite, RecordAck(o, num), l)
  {
    HistoryUntouched(suite, o, l, RecordAck(o, num), l);
  }

  lemma StartEpochKeepsChains(suite: Suite, o: Outbound, l: Ledger, epoch: nat, seed: Bytes)
    requires OwnChains(suite, o, l) && 1 <= epoch
    requires forall m :: m in l.made ==> m.1 != seed
    ensures OwnChains(suite, StartEpoch(o, epoch, seed), AfterStartEpoch(l, epoch, seed))
  {
    assert forall e :: e in l.seed ==> (e, l.seed[e]) in l.made;
  }

  lemma StartEpochKeepsUses(o: Outbound, l: Ledger, epoch: nat, seed: Bytes)
    requires KeysUsedOnce(o, l)
    requires forall m :: m in l.made ==> m.1 != seed
    ensures KeysUsedOnce(StartEpoch(o, epoch, seed), AfterStartEpoch(l, epoch, seed))
  {
    assert forall i :: 0 <= i < |l.uses| ==> (l.uses[i].epoch, l.uses[i].seed) in l.made;
  }

  /** The probe is silent exactly when the newest message falls on a wrap; if none
      has been acknowledged yet, it is then not armed again either. */
  lemma NoProbeAtWrap(o: Outbound, l: Ledger)
    requires Numbered(o, l) && l.log != []
    ensures !ProbeSends(o) <==> l.Top() % SEQ_MOD == 0
    ensures !ProbeSends(o) && o.acked == None ==> !ProbeRearms(o)
  {
    if o.acked == None { ProbeWithoutAck(o); }
  }

  /** With message `u` acknowledged, the probe is armed again exactly while the newest
      message is ahead of `u` by at most half the space, whole cycles aside. */
  lemma ProbeUntilAcked(o: Outbound, l: Ledger, u: int)
    requires Numbered(o, l) && l.log != [] && o.acked == Some(Wire(u))
    ensures ProbeRearms(o) <==> 1 <= (l.Top() - u) % SEQ_MOD <= HALF
  {
    hide Wire, SeqDelta;
    BehindOnWire(l.Top(), u);
  }

  /** The key of a message goes when the message goes, unless a flush took the message:
      its key then stays behind. */
  lemma KeysGoWithMessages(suite: Suite, o: Outbound, payload: Bytes, nonce: Bytes)
    requires o.keys.Keys == o.sent.Keys
    ensures var o' := Send(suite, o, payload, nonce).state; o'.keys.Keys == o'.sent.Keys
    ensures Flush(o).sent == map[] && Flush(o).keys == o.keys
  {
    hide SeqDelta, SeqNext, Dictionary, Advance, Encode;
  }

  // ---- Dictionaries and retransmission ----

  /** The dictionary message `u` deserves: its predecessors since the flush point
      in force when it was sent, at most DICT_WINDOW of them. */
  function OriginalDict(l: Ledger, u: int): Bytes
    requires l.first <= u <= l.Top() && |l.bases| == |l.log| && l.first <= l.bases[u - l.first]
  {
    Span(l.log, l.first, Max(l.bases[u - l.first], u - DICT_WINDOW), u)
  }

  /** The packet sent for a message carries the dictionary of the unbounded log,
      although it was built from the pruned history in the wrapped space. */
  lemma SentPacketIsOriginal(suite: Suite, o: Outbound, l: Ledger, payload: Bytes, nonce: Bytes)
    requires Inv(suite, o, l) && EpochOrOne(o.epoch) in o.chains
    ensures var l' := AfterSend(o, l, payload);
            var u := l'.Top();
            && Dictionary(o.sent, o.nextSeq) == OriginalDict(l', u)
            && Send(suite, o, payload, nonce).packet
               == Some(Encode(suite, Wire(u), payload, OriginalDict(l', u), SealKeyOf(suite, l'.uses[u - l'.first]), nonce))
  {
    hide Wire, SeqDelta, SeqNext, Retains, Pruned, Dictionary, Encode, Advance, MessageKeyAt, Resealable, KeysUsedOnce;
    var e := EpochOrOne(o.epoch);
    AdvanceFromAnywhere(suite, l.seed[e], o.chains[e], o.chains[e].index);
    DictionaryOfLog(o.sent, l.log, l.first, l.Lo(), l.Top(), l.Top() + 1);
    SpanAppend(l.log, l.first, Max(l.base, l.Top() + 1 - DICT_WINDOW), l.Top() + 1, payload);
  }

  /** What a retransmission of `u` is compressed against now. */
  function RebuiltDict(l: Ledger, u: int): Bytes
    requires l.first <= l.Lo() && l.first <= u <= l.Top() + 1
  {
    Span(l.log, l.first, Max(l.Lo(), u - DICT_WINDOW), u)
  }

  /** A NACK for a message is answered exactly while the message is retained, and
      the answer is sealed with the key, index and epoch of the first sending. */
  lemma RetransmitReseals(suite: Suite, o: Outbound, l: Ledger, u: int, nonce: Bytes)
    requires Inv(suite, o, l) && l.first <= u <= l.Top() && Near(l.Top(), u)
    ensures Retransmit(suite, o, Wire(u), nonce).Some? <==> l.Lo() <= u
    ensures l.Lo() <= u ==>
              Retransmit(suite, o, Wire(u), nonce)
              == Some(Encode(suite, Wire(u), l.log[u - l.first], RebuiltDict(l, u), SealKeyOf(suite, l.uses[u - l.first]), nonce))
  {
    hide Wire, SeqDelta, Retains, OwnChains, KeysUsedOnce, Encode, MessageKeyAt, Dictionary;
    RetainsAt(o.sent, l.log, l.first, l.Lo(), l.Top(), u);
    BackIsUnique(l.Top(), Wire(u), u);
    if l.Lo() <= u {
      assert ResealableKey(suite, o, l, Wire(u));
      DictionaryOfLog(o.sent, l.log, l.first, l.Lo(), l.Top(), u);
    }
  }

  /** Messages a..b-1 have no content. */
  predicate AllEmpty(log: seq<Bytes>, first: int, a: int, b: int)
    requires first <= a && b <= first + |log|
  {
    forall i :: a - first <= i < b - first ==> log[i] == []
  }

  /** A retransmission is compressed against the original dictionary if and only
      if every message that has since dropped out of its window was empty. */
  lemma RetransmitFaithfulIff(suite: Suite, o: Outbound, l: Ledger, u: int)
    requires Inv(suite, o, l) && l.first <= u <= l.Top() && l.Lo() <= u
    ensures RebuiltDict(l, u) == OriginalDict(l, u) <==>
            AllEmpty(l.log, l.first, Max(l.bases[u - l.first], u - DICT_WINDOW), Max(l.Lo(), u - DICT_WINDOW))
  {
    var a, b := Max(l.bases[u - l.first], u - DICT_WINDOW), Max(l.Lo(), u - DICT_WINDOW);
    SpanSplit(l.log, l.first, a, b, u);
    SpanEmptyIff(l.log, l.first, a, b);
  }

  /** Inside the slack nothing has dropped out: with no flush since, a message at
      most 16 behind the newest is retransmitted exactly as it was first sent. */
  lemma RetransmitWithinSlack(suite: Suite, o: Outbound, l: Ledger, u: int, nonce: Bytes)
    requires Inv(suite, o, l) && l.first <= u <= l.Top()
    requires l.Top() - u <= RETAINED - DICT_WINDOW && l.bases[u - l.first] == l.base
    ensures Retransmit(suite, o, Wire(u), nonce)
            == Some(Encode(suite, Wire(u), l.log[u - l.first], OriginalDict(l, u), SealKeyOf(suite, l.uses[u - l.first]), nonce))
  {
    RetransmitReseals(suite, o, l, u, nonce);
  }

  lemma {:induction false} SpanSplit(log: seq<Bytes>, first: int, a: int, b: int, c: int)
    requires first <= a <= b <= c <= first + |log|
    ensures Span(log, first, a, c) == Span(log, first, a, b) + Span(log, first, b, c)
    decreases b - a
  {
    if a < b {
      SpanSplit(log, first, a + 1, b, c);
      assert Span(log, first, a, c) == log[a - first] + Span(log, first, a + 1, c);
    }
  }

  lemma {:induction false} SpanEmptyIff(log: seq<Bytes>, first: int, a: int, b: int)
    requires first <= a && b <= first + |log|
    ensures Span(log, first, a, b) == [] <==> AllEmpty(log, first, a, b)
    decreases b - a
  {
    if a < b {
      SpanEmptyIff(log, first, a + 1, b);
      assert |Span(log, first, a, b)| == |log[a - first]| + |Span(log, first, a + 1, b)|;
    }
  }
}
