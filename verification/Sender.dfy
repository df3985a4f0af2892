/** The sending half of a client: numbering, history, dictionary, ratchet keys
    and retransmission. */
module Sender {
  import opened Primitives
  import opened Sequence
  import opened Dictionaries
  import opened Ratchet

  /** What a message was sealed with, kept for retransmission. */
  datatype SealKey = SealKey(key: Bytes, idx: nat, epoch: nat)

  datatype Outbound = Outbound(
    nextSeq: Seq24,
    highestSent: Seq24,
    sent: History,
    keys: map<Seq24, SealKey>,
    epoch: nat,                     // 0 while no epoch has been adopted
    chains: map<nat, ChainState>,   // own chain by epoch
    seeds: map<nat, ChainState>,    // its index-0 state by epoch
    acked: Option<Seq24>            // the last acknowledgement recorded
  )

  const Fresh: Outbound := Outbound(1, 0, map[], map[], 0, map[], map[], None)

  function EpochOrOne(e: nat): nat {
    if e == 0 then 1 else e
  }

  function Encode(suite: Suite, num: Seq24, payload: Bytes, dict: Bytes, key: SealKey, nonce: Bytes): DataPacket {
    var h := Header(num, nonce, key.epoch, suite.fingerprint(dict), key.idx);
    DataPacket(h, suite.seal(key.key, h, suite.deflate(payload, dict)))
  }

  /** A packet opens under its message key to the payload compressed against its
      dictionary, and its header, which is sealed with it, says the number, the epoch,
      the position in the chain, the dictionary's fingerprint and the nonce drawn. */
  lemma EncodedOpens(suite: Suite, num: Seq24, payload: Bytes, dict: Bytes, key: SealKey, nonce: Bytes)
    requires Lawful(suite)
    ensures var p := Encode(suite, num, payload, dict, key, nonce);
            var x := suite.open(key.key, p.header, p.body);
            && x.Some? && suite.inflate(x.value, dict) == Some(payload)
            && p.header == Header(num, nonce, key.epoch, suite.fingerprint(dict), key.idx)
  {
    var p := Encode(suite, num, payload, dict, key, nonce);
    assert SealLaw(suite, key.key, p.header, suite.deflate(payload, dict), key.key, p.header);
    assert DeflateLaw(suite, payload, dict);
  }

  datatype SendResult = SendResult(state: Outbound, packet: Option<DataPacket>)

  function Send(suite: Suite, o: Outbound, payload: Bytes, nonce: Bytes): SendResult {
    var num := o.nextSeq;
    var numbered := o.(nextSeq := SeqNext(num));
    var e := EpochOrOne(o.epoch);
    if e !in o.chains then
      SendResult(numbered, None)   // the number is used up all the same
    else
      var c := o.chains[e];
      var a := Advance(suite, c, c.index);
      var key := SealKey(a.messageKey, c.index, e);
      var history := o.sent[num := payload];
      var kept := Pruned(history, num);
      SendResult(
        numbered.(highestSent := num, sent := kept,
                  keys := o.keys[num := key] - (history.Keys - kept.Keys),
                  chains := o.chains[e := a.state]),
        Some(Encode(suite, num, payload, Dictionary(o.sent, num), key, nonce)))
  }

  /** The answer to a NACK for one number. */
  function Retransmit(suite: Suite, o: Outbound, num: Seq24, nonce: Bytes): Option<DataPacket> {
    if num in o.sent && num in o.keys then
      Some(Encode(suite, num, o.sent[num], Dictionary(o.sent, num), o.keys[num], nonce))
    else
      None
  }

  /** A chain state on its way to another member. */
  datatype Share = Share(epoch: nat, state: ChainState)

  /** A NACK also makes the sender share the seed of its current epoch again. */
  function SeedShare(o: Outbound): Option<Share> {
    var e := EpochOrOne(o.epoch);
    if e in o.seeds then Some(Share(e, o.seeds[e])) else None
  }

  /** Adopt `epoch` with a fresh chain seed. */
  function StartEpoch(o: Outbound, epoch: nat, seed: Bytes): Outbound {
    o.(epoch := epoch,
       chains := o.chains[epoch := ChainState(seed, 0)],
       seeds := o.seeds[epoch := ChainState(seed, 0)])
  }

  /** A Dict-Reset aimed at this sender flushes the history and nothing else. */
  function Flush(o: Outbound): Outbound {
    o.(sent := map[])
  }

  /** An acknowledgement counts only if it is not behind the newest number sent. */
  function RecordAck(o: Outbound, num: Seq24): Outbound {
    if SeqDelta(o.highestSent, num) < HALF then o.(acked := Some(num)) else o
  }

  /** The probe is armed again while the recorded acknowledgement, or 0 when there
      is none, is behind the newest number sent. */
  predicate ProbeRearms(o: Outbound) {
    SeqDelta(o.highestSent, if o.acked.Some? then o.acked.value else 0) >= HALF
  }

  /** Before any acknowledgement the newest message is unacknowledged, yet the
      probe keeps going exactly while its number is in the lower half of the space. */
  lemma ProbeWithoutAck(o: Outbound)
    requires o.acked == None
    ensures ProbeRearms(o) <==> 1 <= o.highestSent <= HALF
  {
  }

  /** The probe sends nothing while the newest number sent is 0, which is also what
      it is before anything has been sent. */
  predicate ProbeSends(o: Outbound) {
    o.highestSent != 0
  }

  class DartSender {
    const suite: Suite
    var nextSeq: Seq24
    var highestSent: Seq24
    var sent: History
    var keys: map<Seq24, SealKey>
    var epoch: nat
    var chains: map<nat, ChainState>
    var seeds: map<nat, ChainState>
    var acked: Option<Seq24>

    ghost function State(): Outbound
      reads this
    {
      Outbound(nextSeq, highestSent, sent, keys, epoch, chains, seeds, acked)
    }

    constructor (suite: Suite)
      ensures State() == Fresh && this.suite == suite
    {
      this.suite := suite;
      nextSeq, highestSent, sent, keys := 1, 0, map[], map[];
      epoch, chains, seeds, acked := 0, map[], map[], None;
    }

    method PruneSent()
      modifies this`sent, this`keys
      ensures sent == Pruned(old(sent), highestSent)
      ensures keys == old(keys) - (old(sent).Keys - sent.Keys)
    {
      var todo := sent.Keys;
      while todo != {}
        invariant todo <= sent.Keys <= old(sent).Keys
        invariant forall k :: k in old(sent) ==> (k in sent <==> k in todo || SeqDelta(k, highestSent) <= RETAINED)
        invariant forall k :: k in sent ==> sent[k] == old(sent)[k]
        invariant keys == old(keys) - (old(sent).Keys - sent.Keys)
        decreases |todo|
      {
        var k :| k in todo;
        if SeqDelta(k, highestSent) > RETAINED {
          ghost var was := sent.Keys;
          sent := sent - {k};
          keys := keys - {k};
          assert old(sent).Keys - sent.Keys == (old(sent).Keys - was) + {k};
        }
        todo := todo - {k};
      }
    }

    method SendData(payload: Bytes, nonce: Bytes) returns (out: Option<DataPacket>)
      modifies this
      ensures SendResult(State(), out) == Send(suite, old(State()), payload, nonce)
    {
      var num := nextSeq;
      nextSeq := SeqNext(nextSeq);
      var dict := GetDictionary(sent, num);
      var e := EpochOrOne(epoch);
      if e !in chains {
        return None;
      }
      var c := chains[e];
      var a := AdvanceChain(suite, c, c.index);
      chains := chains[e := a.state];
      highestSent := num;
      sent := sent[num := payload];
      var key := SealKey(a.messageKey, c.index, e);
      keys := keys[num := key];
      PruneSent();
      out := Some(Encode(suite, num, payload, dict, key, nonce));
    }

    /** Answers a NACK: one packet for every requested number that is still held. */
    method HandleNack(missing: seq<Seq24>, nonces: seq<Bytes>)
      returns (out: seq<DataPacket>, share: Option<Share>)
      requires |nonces| == |missing|
      ensures out == Answers(suite, State(), missing, nonces, |missing|)
      ensures share == SeedShare(State())
    {
      out := [];
      for i := 0 to |missing|
        invariant out == Answers(suite, State(), missing, nonces, i)
      {
        var num := missing[i];
        if num in sent && num in keys {
          var dict := GetDictionary(sent, num);
          out := out + [Encode(suite, num, sent[num], dict, keys[num], nonces[i])];
        }
      }
      var e := EpochOrOne(epoch);
      share := if e in seeds then Some(Share(e, seeds[e])) else None;
    }

    method InitOwnChain(e: nat, seed: Bytes)
      modifies this`epoch, this`chains, this`seeds
      ensures State() == StartEpoch(old(State()), e, seed)
    {
      epoch := e;
      chains := chains[e := ChainState(seed, 0)];
      seeds := seeds[e := ChainState(seed, 0)];
    }

    method HandleAck(num: Seq24)
      modifies this`acked
      ensures State() == RecordAck(old(State()), num)
    {
      if SeqDelta(highestSent, num) < HALF {
        acked := Some(num);
      }
    }

    method HandleDictReset()
      modifies this`sent
      ensures State() == Flush(old(State()))
    {
      sent := map[];
    }
  }

  /** The packets sent for the first `n` requested numbers. */
  function Answers(suite: Suite, o: Outbound, missing: seq<Seq24>, nonces: seq<Bytes>, n: nat): seq<DataPacket>
    requires n <= |missing| == |nonces|
  {
    if n == 0 then []
    else
      var r := Retransmit(suite, o, missing[n - 1], nonces[n - 1]);
      Answers(suite, o, missing, nonces, n - 1) + (if r.Some? then [r.value] else [])
  }

  /** How many of the first `n` requested numbers are still held. */
  function HeldOf(o: Outbound, missing: seq<Seq24>, n: nat): nat
    requires n <= |missing|
  {
    if n == 0 then 0 else HeldOf(o, missing, n - 1) + (if missing[n - 1] in o.sent && missing[n - 1] in o.keys then 1 else 0)
  }

  /** A NACK is answered by as many packets as it asks for messages still held. */
  lemma {:induction false} AnswerCount(suite: Suite, o: Outbound, missing: seq<Seq24>, nonces: seq<Bytes>, n: nat)
    requires n <= |missing| == |nonces|
    ensures |Answers(suite, o, missing, nonces, n)| == HeldOf(o, missing, n)
  {
    hide Retransmit;
    if n > 0 {
      AnswerCount(suite, o, missing, nonces, n - 1);
      RetransmitsHeld(suite, o, missing[n - 1], nonces[n - 1]);
    }
  }

  lemma RetransmitsHeld(suite: Suite, o: Outbound, num: Seq24, nonce: Bytes)
    ensures Retransmit(suite, o, num, nonce).Some? <==> num in o.sent && num in o.keys
  {
  }

  /** Each request for a held message is answered, in its turn, by its own
      retransmission. */
  lemma {:induction false} EachIsAnswered(suite: Suite, o: Outbound, missing: seq<Seq24>, nonces: seq<Bytes>, n: nat, i: nat)
    requires i < n <= |missing| == |nonces| && missing[i] in o.sent && missing[i] in o.keys
    ensures var out := Answers(suite, o, missing, nonces, n);
            && HeldOf(o, missing, i) < |out|
            && Some(out[HeldOf(o, missing, i)]) == Retransmit(suite, o, missing[i], nonces[i])
            && out[HeldOf(o, missing, i)].header.num == missing[i]
    decreases n
  {
    hide Retransmit;
    AnswerCount(suite, o, missing, nonces, n - 1);
    RetransmitsHeld(suite, o, missing[i], nonces[i]);
    RetransmitNumber(suite, o, missing[i], nonces[i]);
    if i < n - 1 { EachIsAnswered(suite, o, missing, nonces, n - 1, i); }
  }

  lemma RetransmitNumber(suite: Suite, o: Outbound, num: Seq24, nonce: Bytes)
    ensures Retransmit(suite, o, num, nonce).Some? ==> Retransmit(suite, o, num, nonce).value.header.num == num
  {
  }
}
