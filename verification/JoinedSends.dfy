/** A whole client: its keys and its sending half, which share the epoch, the own
    chains and their seeds. */
module JoinedSends {
  import opened Primitives
  import opened Sequence
  import opened Ratchet
  import opened Sender
  import Keys = GroupKeys

  datatype Client = Client(ring: Keys.KeyRing, out: Outbound)

  /** The two halves see the same epoch, chains and seeds. */
  ghost predicate Agree(c: Client) {
    c.out.epoch == c.ring.current && c.out.chains == c.ring.chains && c.out.seeds == c.ring.seeds
  }

  /** A message goes through the sending half; anything else changes the keys, and
      the sending half finds them changed. */
  function Next(suite: Suite, c: Client, ev: Keys.Event): Client {
    var ring := Keys.Step(suite, c.ring, ev);
    Client(ring,
           if ev.SendData? then Send(suite, c.out, ev.payload, ev.nonce).state
           else c.out.(epoch := ring.current, chains := ring.chains, seeds := ring.seeds))
  }

  function At(suite: Suite, self: Keys.MemberId, events: seq<Keys.Event>, n: nat): Client
    requires n <= |events|
  {
    if n == 0 then Client(Keys.Newcomer(self), Fresh)
    else Next(suite, At(suite, self, events, n - 1), events[n - 1])
  }

  /** What event `n` puts on the wire. */
  function PacketOf(suite: Suite, self: Keys.MemberId, events: seq<Keys.Event>, n: nat): Option<DataPacket>
    requires n < |events|
  {
    match events[n]
    case SendData(payload, nonce) => Send(suite, At(suite, self, events, n).out, payload, nonce).packet
    case _ => None
  }

  lemma NextAgrees(suite: Suite, c: Client, ev: Keys.Event)
    requires Agree(c)
    ensures Agree(Next(suite, c, ev))
  {
    hide Advance, Dictionaries.Dictionary, Dictionaries.Pruned, Keys.AfterMemberInfo, Keys.AfterKeyShare, Keys.Rekeyed;
  }

  lemma {:induction false} AlwaysAgree(suite: Suite, self: Keys.MemberId, events: seq<Keys.Event>, n: nat)
    requires n <= |events|
    ensures Agree(At(suite, self, events, n)) && At(suite, self, events, n).ring == Keys.After(suite, self, events, n)
  {
    hide Keys.Step, Send;
    if n > 0 {
      AlwaysAgree(suite, self, events, n - 1);
      NextAgrees(suite, At(suite, self, events, n - 1), events[n - 1]);
    }
  }

  /** The messages sent by events m..n-1. */
  function Sends(events: seq<Keys.Event>, m: nat, n: nat): nat
    requires m <= n <= |events|
    decreases n
  {
    if m == n then 0 else Sends(events, m, n - 1) + (if events[n - 1].SendData? then 1 else 0)
  }

  lemma {:induction false} NumbersFollow(suite: Suite, self: Keys.MemberId, events: seq<Keys.Event>, m: nat, n: nat)
    requires m <= n <= |events|
    ensures At(suite, self, events, n).out.nextSeq == Wire(At(suite, self, events, m).out.nextSeq + Sends(events, m, n))
    decreases n
  {
    hide Keys.Step, Wire, SeqNext;
    var start := At(suite, self, events, m).out.nextSeq;
    if m == n {
      SmallWire(start);
    } else {
      NumbersFollow(suite, self, events, m, n - 1);
      WireNext(start + Sends(events, m, n - 1));
      NextNumber(suite, At(suite, self, events, n - 1), events[n - 1]);
    }
  }

  lemma SmallWire(s: Seq24)
    ensures Wire(s) == s
  {
  }

  lemma NextNumber(suite: Suite, c: Client, ev: Keys.Event)
    ensures Next(suite, c, ev).out.nextSeq == if ev.SendData? then SeqNext(c.out.nextSeq) else c.out.nextSeq
  {
    hide Keys.Step, SeqNext;
  }

  /** Once a client has joined, in every later state every message it sends goes out
      under the epoch then current, and these messages are numbered one after the
      other without a gap, across rotations and roster updates. */
  lemma JoinedSendsAreConsecutive(suite: Suite, self: Keys.MemberId, events: seq<Keys.Event>, m: nat, n: nat)
    requires m <= n < |events| && Keys.HasJoined(Keys.After(suite, self, events, m)) && events[n].SendData?
    ensures var p := PacketOf(suite, self, events, n);
            && p.Some?
            && p.value.header.num == Wire(At(suite, self, events, m).out.nextSeq + Sends(events, m, n))
            && p.value.header.epoch == Keys.After(suite, self, events, n).current
  {
    hide Keys.Step, Wire, SeqNext, Advance, Dictionaries.Dictionary;
    Keys.KeysStayAvailable(suite, self, events, m, n);
    AlwaysAgree(suite, self, events, n);
    NumbersFollow(suite, self, events, m, n);
  }
}
