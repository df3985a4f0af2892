/** Whether the members that a client has flagged as served have really been sent
    its current group key and a state of its current chain. */
module ShareCoverage {
  import opened Primitives
  import opened Ratchet
  import opened Sender
  import opened GroupKeys

  /** Own chains belong to epochs so far, and the current one is on its seed's chain. */
  ghost predicate OwnChain(suite: Suite, k: KeyRing) {
    && (forall e :: e in k.chains ==> e <= k.current)
    && (k.current in k.chains ==> k.current in k.seeds && OnChain(suite, k.seeds[k.current].key, k.chains[k.current]))
  }

  /** Nothing on record is from a later adoption. */
  ghost predicate LogsOk(k: KeyRing) {
    (forall x :: x in k.keyLog ==> x.era <= k.era) && (forall x :: x in k.chainLog ==> x.era <= k.era)
  }

  /** Since the current group key was adopted, member `m` was sent that key at the
      current epoch under public key `pub`. */
  ghost predicate SentKey(k: KeyRing, m: MemberId, pub: Bytes) {
    CurrentKey(k).Some? && Logged(k.era, KeyShareMsg(m, pub, EpochOrOne(k.current), CurrentKey(k).value)) in k.keyLog
  }

  /** Since then, member `m` was sent under `pub` a state of the current own chain
      that is not past the position of the chain now. */
  ghost predicate SentChain(suite: Suite, k: KeyRing, m: MemberId, pub: Bytes) {
    && k.current in k.seeds && k.current in k.chains
    && exists c: ChainState :: Logged(k.era, ChainShareMsg(m, pub, k.current, c)) in k.chainLog && Usable(suite, k, c)
  }

  ghost predicate Usable(suite: Suite, k: KeyRing, c: ChainState)
    requires k.current in k.seeds && k.current in k.chains
  {
    OnChain(suite, k.seeds[k.current].key, c) && c.index <= k.chains[k.current].index
  }

  /** Some state of the own chain was sent to `m` under `pub` since then. */
  ghost predicate OnRecord(k: KeyRing, m: MemberId, pub: Bytes) {
    exists x :: x in k.chainLog && x.era == k.era && x.msg.target == m && x.msg.pub == pub
  }

  predicate Lists(k: KeyRing, m: MemberId, pub: Bytes) {
    k.roster.Some? && m in k.roster.value && k.roster.value[m] == pub
  }

  /** Every flagged member of the roster was sent what its flag says, under the
      public key it has in the roster. */
  ghost predicate Covered(suite: Suite, k: KeyRing) {
    forall m, pub :: Lists(k, m, pub) ==> CoveredMember(suite, k, m, pub)
  }

  ghost predicate CoveredMember(suite: Suite, k: KeyRing, m: MemberId, pub: Bytes) {
    (m in k.keyDone ==> SentKey(k, m, pub)) && (m in k.chainDone ==> SentChain(suite, k, m, pub))
  }

  // ---- What each operation sends ----

  lemma KeySharedSent(k: KeyRing, m: MemberId, pub: Bytes)
    ensures SentKey(KeyShared(k), m, pub) <==>
            SentKey(k, m, pub) || (CurrentKey(k).Some? && Lists(k, m, pub) && m != k.self && m !in k.keyDone)
  {
    if CurrentKey(k).Some? && k.roster.Some? {
      var ids := Unserved(k.roster.value, k.self, k.keyDone);
      var x := Logged(k.era, KeyShareMsg(m, pub, EpochOrOne(k.current), CurrentKey(k).value));
      assert x in KeyShares(ids, k.roster.value, EpochOrOne(k.current), CurrentKey(k).value, k.era) <==>
             m in ids && k.roster.value[m] == pub;
    }
  }

  lemma ChainSharedSent(suite: Suite, k: KeyRing, m: MemberId, pub: Bytes)
    requires OwnChain(suite, k) && k.current in k.chains
    ensures SentChain(suite, ChainShared(k, k.current), m, pub) <==>
            SentChain(suite, k, m, pub) || (Lists(k, m, pub) && m != k.self && m !in k.chainDone)
  {
    hide OnChain;
    var k' := ChainShared(k, k.current);
    if k.roster.Some? {
      var ids := Unserved(k.roster.value, k.self, k.chainDone);
      var now := ChainShares(ids, k.roster.value, k.current, k.chains[k.current], k.era);
      assert forall c :: Logged(k.era, ChainShareMsg(m, pub, k.current, c)) in now ==> m in ids && k.roster.value[m] == pub;
      if SentChain(suite, k, m, pub) { SameChainSent(suite, k, k', m, pub); }
      if m in ids && k.roster.value[m] == pub {
        var c := k.chains[k.current];
        assert Logged(k.era, ChainShareMsg(m, pub, k.current, c)) in now;
        assert Logged(k'.era, ChainShareMsg(m, pub, k'.current, c)) in k'.chainLog && Usable(suite, k', c);
      }
      if SentChain(suite, k', m, pub) && !(m in ids && k.roster.value[m] == pub) {
        var c: ChainState :| Logged(k'.era, ChainShareMsg(m, pub, k'.current, c)) in k'.chainLog && Usable(suite, k', c);
        assert Logged(k.era, ChainShareMsg(m, pub, k.current, c)) in k.chainLog && Usable(suite, k, c);
      }
    }
  }

  lemma ChainSharedRecord(k: KeyRing, epoch: nat, m: MemberId, pub: Bytes)
    requires OnRecord(ChainShared(k, epoch), m, pub)
    ensures OnRecord(k, m, pub) || (Lists(k, m, pub) && m != k.self && m !in k.chainDone)
  {
  }

  /** What was sent stays sent while the adopted key and chain are the same. */
  lemma SameChainSent(suite: Suite, k: KeyRing, k': KeyRing, m: MemberId, pub: Bytes)
    requires SentChain(suite, k, m, pub) && k.chainLog <= k'.chainLog && k'.current == k.current && k'.era == k.era
    requires k.current in k'.seeds && k'.seeds[k.current] == k.seeds[k.current]
    requires k.current in k'.chains && k.chains[k.current].index <= k'.chains[k.current].index
    ensures SentChain(suite, k', m, pub)
  {
    var c: ChainState :| Logged(k.era, ChainShareMsg(m, pub, k.current, c)) in k.chainLog && Usable(suite, k, c);
    assert Logged(k'.era, ChainShareMsg(m, pub, k'.current, c)) in k'.chainLog && Usable(suite, k', c);
  }

  /** The ring right after a key is adopted, before anything is shared. */
  function Blank(k: KeyRing, epoch: nat, key: Bytes): KeyRing {
    k.(keys := k.keys[epoch := key], current := epoch, adopted := epoch, keyDone := {}, era := k.era + 1)
  }

  function Restarted(k: KeyRing, epoch: nat, seed: Bytes): KeyRing {
    k.(chains := k.chains[epoch := ChainState(seed, 0)], seeds := k.seeds[epoch := ChainState(seed, 0)], chainDone := {})
  }

  lemma AdoptedParts(k: KeyRing, epoch: nat, key: Bytes, seed: Bytes)
    ensures Adopted(k, epoch, key, seed) == ChainShared(Restarted(KeyShared(Blank(k, epoch, key)), epoch, seed), epoch)
  {
    hide KeyShared, ChainShared;
  }

  lemma BlankSent(k: KeyRing, epoch: nat, key: Bytes, m: MemberId, pub: Bytes)
    requires Inv(k) && LogsOk(k) && k.current <= epoch
    ensures var k' := KeyShared(Blank(k, epoch, key));
            && (SentKey(k', m, pub) <==> 0 < epoch && Lists(k, m, pub) && m != k.self)
            && (m in k'.keyDone <==> 0 < epoch && k.roster.Some? && m in k.roster.value && m != k.self)
            && k' == Blank(k, epoch, key).(keyDone := k'.keyDone, keyLog := k'.keyLog)
  {
    hide KeyShares;
    KeySharedSent(Blank(k, epoch, key), m, pub);
  }

  lemma RestartedSent(suite: Suite, k: KeyRing, epoch: nat, seed: Bytes, m: MemberId, pub: Bytes)
    requires k.current == epoch && !OnRecord(k, m, pub) && forall e :: e in k.chains ==> e <= epoch
    ensures var k' := ChainShared(Restarted(k, epoch, seed), epoch);
            && (SentChain(suite, k', m, pub) <==> Lists(k, m, pub) && m != k.self)
            && (OnRecord(k', m, pub) ==> Lists(k, m, pub))
            && (m in k'.chainDone <==> k.roster.Some? && m in k.roster.value && m != k.self)
            && OwnChain(suite, k') && k'.keyDone == k.keyDone
            && (SentKey(k', m, pub) <==> SentKey(k, m, pub))
  {
    hide ChainShares, Usable;
    var started := Restarted(k, epoch, seed);
    assert Iterate(suite, seed, 0) == seed;
    SameRecord(k, started, m, pub);
    ChainRecorded(suite, started, m, pub);
    ChainSharedSent(suite, started, m, pub);
    if OnRecord(ChainShared(started, epoch), m, pub) { ChainSharedRecord(started, epoch, m, pub); }
  }

  /** Adoption serves the whole roster with the new key and chain and nobody else. */
  lemma AdoptedSent(suite: Suite, k: KeyRing, epoch: nat, key: Bytes, seed: Bytes, m: MemberId, pub: Bytes)
    requires Inv(k) && OwnChain(suite, k) && LogsOk(k) && k.current <= epoch
    ensures var k' := Adopted(k, epoch, key, seed);
            && (SentKey(k', m, pub) <==> 0 < epoch && Lists(k, m, pub) && m != k.self)
            && (SentChain(suite, k', m, pub) <==> Lists(k, m, pub) && m != k.self)
            && (OnRecord(k', m, pub) ==> Lists(k, m, pub))
            && (m in k'.keyDone <==> 0 < epoch && k.roster.Some? && m in k.roster.value && m != k.self)
            && (m in k'.chainDone <==> k.roster.Some? && m in k.roster.value && m != k.self)
            && OwnChain(suite, k')
  {
    hide Adopted, KeyShared, ChainShared, SentKey, SentChain, OnChain;
    AdoptedParts(k, epoch, key, seed);
    BlankSent(k, epoch, key, m, pub);
    var served := KeyShared(Blank(k, epoch, key));
    assert !OnRecord(served, m, pub);
    RestartedSent(suite, served, epoch, seed, m, pub);
  }

  lemma AdoptedLogs(k: KeyRing, epoch: nat, key: Bytes, seed: Bytes)
    requires LogsOk(k)
    ensures LogsOk(Adopted(k, epoch, key, seed)) && Adopted(k, epoch, key, seed).era == k.era + 1
  {
    hide Unserved;
  }

  // ---- One member and one public key ----

  /** How member `m` under key `pub` stands, given whether a roster has listed it so
      since the current key was adopted. */
  ghost predicate PairOk(suite: Suite, k: KeyRing, m: MemberId, pub: Bytes, listed: bool) {
    && (listed && m in k.keyDone ==> SentKey(k, m, pub))
    && (listed && m in k.chainDone ==> SentChain(suite, k, m, pub))
    && (listed && m != k.self && k.current > 0 ==> m in k.keyDone && m in k.chainDone)
    && (SentKey(k, m, pub) || OnRecord(k, m, pub) ==> listed)
    && (m in k.keyDone || m in k.chainDone ==> m != k.self)
  }

  lemma AdoptPair(suite: Suite, k: KeyRing, epoch: nat, key: Bytes, seed: Bytes, m: MemberId, pub: Bytes)
    requires Inv(k) && OwnChain(suite, k) && LogsOk(k) && k.current <= epoch
    ensures PairOk(suite, Adopted(k, epoch, key, seed), m, pub, Lists(k, m, pub))
  {
    hide Adopted, SentKey, SentChain, OnRecord;
    AdoptedSent(suite, k, epoch, key, seed, m, pub);
    AdoptKeepsInv(k, epoch, key, seed);
  }

  lemma PrunePair(suite: Suite, k: KeyRing, m: MemberId, pub: Bytes, listed: bool)
    requires Inv(k) && OwnChain(suite, k) && 0 < k.current && PairOk(suite, k, m, pub, listed)
    ensures PairOk(suite, PruneOldEpochs(k), m, pub, listed) && OwnChain(suite, PruneOldEpochs(k))
  {
    hide Usable, OnChain;
    var k' := PruneOldEpochs(k);
    assert SentChain(suite, k', m, pub) <==> SentChain(suite, k, m, pub) by {
      if SentChain(suite, k, m, pub) { SameChainSent(suite, k, k', m, pub); }
      if SentChain(suite, k', m, pub) { SameChainSent(suite, k', k, m, pub); }
    }
  }

  lemma RekeyPair(suite: Suite, k: KeyRing, key: Bytes, seed: Bytes, m: MemberId, pub: Bytes)
    requires Inv(k) && OwnChain(suite, k) && LogsOk(k) && k.isCreator
    ensures var k' := Rekeyed(k, key, seed);
            PairOk(suite, k', m, pub, Lists(k, m, pub)) && OwnChain(suite, k') && LogsOk(k') && k'.era == k.era + 1
  {
    hide Adopted, PairOk, OwnChain;
    var epoch := EpochOrOne(k.current) + 1;
    AdoptPair(suite, k, epoch, key, seed, m, pub);
    AdoptedSent(suite, k, epoch, key, seed, m, pub);
    AdoptedLogs(k, epoch, key, seed);
    AdoptKeepsInv(k, epoch, key, seed);
    PrunePair(suite, Adopted(k, epoch, key, seed), m, pub, Lists(k, m, pub));
  }

  /** Serving the chain to a roster whose members are on record changes nothing. */
  lemma ChainSharedPair(suite: Suite, k: KeyRing, m: MemberId, pub: Bytes, listed: bool)
    requires Inv(k) && OwnChain(suite, k) && 0 < k.current && PairOk(suite, k, m, pub, listed)
    requires Lists(k, m, pub) ==> listed
    ensures PairOk(suite, ChainShared(k, k.current), m, pub, listed) && OwnChain(suite, ChainShared(k, k.current))
  {
    hide SentChain, OnChain, ChainShares, OnRecord;
    ChainSharedSent(suite, k, m, pub);
    if OnRecord(ChainShared(k, k.current), m, pub) { ChainSharedRecord(k, k.current, m, pub); }
    ChainSharedKey(k, m, pub);
  }

  lemma SharedLogs(k: KeyRing, epoch: nat)
    requires LogsOk(k)
    ensures LogsOk(KeyShared(k)) && LogsOk(ChainShared(k, epoch))
  {
    hide Unserved;
  }

  /** A flagged member that is away. */
  predicate FlaggedAway(k: KeyRing, m: MemberId) {
    (m in k.keyDone || m in k.chainDone) && (k.roster.None? || m !in k.roster.value)
  }

  /** A roster update without adoption keeps the account of a pair, unless it brings
      back a flagged member under a key it has not been listed under. */
  lemma QuietPair(suite: Suite, k: KeyRing, roster: Roster, creator: bool, key: Bytes, seed: Bytes, m: MemberId, pub: Bytes, listed: bool)
    requires Inv(k) && OwnChain(suite, k) && !Rotates(k, creator) && PairOk(suite, k, m, pub, listed)
    requires Lists(k, m, pub) ==> listed
    requires m in roster && roster[m] == pub && FlaggedAway(k, m) ==> listed
    ensures var k' := AfterMemberInfo(k, roster, creator, key, seed);
            PairOk(suite, k', m, pub, listed || Lists(k', m, pub))
  {
    hide Adopted, Rekeyed, KeyShares, ChainShares, SentKey, SentChain, OnChain, OnRecord;
    var seen := AcceptRoster(k, roster, creator);
    SeenSent(suite, k, seen, m, pub);
    if k.adopted != 0 {
      var keyed := KeyShared(seen);
      KeySharedSent(seen, m, pub);
      KeySharedChain(suite, seen, m, pub);
      ChainSharedSent(suite, keyed, m, pub);
      ChainSharedKey(keyed, m, pub);
      if OnRecord(ChainShared(keyed, keyed.current), m, pub) { ChainSharedRecord(keyed, keyed.current, m, pub); }
      SameRecord(k, keyed, m, pub);
    }
    SameRecord(k, seen, m, pub);
  }

  lemma SameRecord(k: KeyRing, k': KeyRing, m: MemberId, pub: Bytes)
    requires k'.chainLog == k.chainLog && k'.era == k.era
    ensures OnRecord(k', m, pub) <==> OnRecord(k, m, pub)
  {
  }

  lemma SeenSent(suite: Suite, k: KeyRing, seen: KeyRing, m: MemberId, pub: Bytes)
    requires seen == k.(roster := seen.roster, isCreator := seen.isCreator, keyDone := seen.keyDone, chainDone := seen.chainDone)
    ensures SentKey(seen, m, pub) <==> SentKey(k, m, pub)
    ensures SentChain(suite, seen, m, pub) <==> SentChain(suite, k, m, pub)
  {
    if SentChain(suite, k, m, pub) { SameChainSent(suite, k, seen, m, pub); }
    if SentChain(suite, seen, m, pub) { SameChainSent(suite, seen, k, m, pub); }
  }

  lemma KeySharedChain(suite: Suite, k: KeyRing, m: MemberId, pub: Bytes)
    ensures SentChain(suite, KeyShared(k), m, pub) <==> SentChain(suite, k, m, pub)
  {
    hide Unserved, KeyShares;
    var k' := KeyShared(k);
    if SentChain(suite, k, m, pub) { SameChainSent(suite, k, k', m, pub); }
    if SentChain(suite, k', m, pub) { SameChainSent(suite, k', k, m, pub); }
  }

  lemma ChainSharedKey(k: KeyRing, m: MemberId, pub: Bytes)
    ensures SentKey(ChainShared(k, k.current), m, pub) <==> SentKey(k, m, pub)
  {
    hide Unserved, ChainShares;
  }

  lemma SendPair(suite: Suite, k: KeyRing, m: MemberId, pub: Bytes, listed: bool)
    requires Inv(k) && OwnChain(suite, k) && PairOk(suite, k, m, pub, listed)
    ensures PairOk(suite, AfterSend(suite, k), m, pub, listed) && OwnChain(suite, AfterSend(suite, k))
  {
    hide Advance, Iterate;
    var k' := AfterSend(suite, k);
    if k' != k {
      var c := k.chains[k.current];
      AdvanceStaysOnChain(suite, k.seeds[k.current].key, c, c.index);
      AdvanceIndex(suite, c);
      if SentChain(suite, k, m, pub) { SameChainSent(suite, k, k', m, pub); }
      SameRecord(k, k', m, pub);
    }
  }

  lemma AdvanceIndex(suite: Suite, c: ChainState)
    ensures c.index <= Advance(suite, c, c.index).state.index
  {
  }

  // ---- Whole runs ----

  lemma StepKeepsChain(suite: Suite, k: KeyRing, ev: Event)
    requires Inv(k) && OwnChain(suite, k) && LogsOk(k)
    ensures OwnChain(suite, Step(suite, k, ev)) && LogsOk(Step(suite, k, ev))
  {
    hide Adopted, AfterSend, PairOk, OnChain, AfterMemberInfo, Rekeyed;
    match ev
    case MemberInfo(roster, creator, key, seed) => MemberInfoKeepsChain(suite, k, roster, creator, key, seed);
    case KeyShare(sharer, epoch, key, seed) =>
      if k.current <= epoch {
        AdoptedSent(suite, k, epoch, key, seed, 0, []);
        AdoptedLogs(k, epoch, key, seed);
      }
    case RekeyTimer(key, seed) => RekeyKeepsChain(suite, k, key, seed);
    case SendData(_, _) => SendKeepsChain(suite, k);
  }

  lemma RekeyKeepsChain(suite: Suite, k: KeyRing, key: Bytes, seed: Bytes)
    requires Inv(k) && OwnChain(suite, k) && LogsOk(k)
    ensures OwnChain(suite, Rekeyed(k, key, seed)) && LogsOk(Rekeyed(k, key, seed))
  {
    if k.isCreator { RekeyPair(suite, k, key, seed, 0, []); }
  }

  lemma SendKeepsChain(suite: Suite, k: KeyRing)
    requires Inv(k) && OwnChain(suite, k) && LogsOk(k)
    ensures OwnChain(suite, AfterSend(suite, k)) && LogsOk(AfterSend(suite, k))
  {
    hide Advance, Iterate;
    var e := EpochOrOne(k.current);
    if e in k.chains {
      AdvanceStaysOnChain(suite, k.seeds[k.current].key, k.chains[e], k.chains[e].index);
    }
  }

  lemma MemberInfoKeepsChain(suite: Suite, k: KeyRing, roster: Roster, creator: bool, key: Bytes, seed: Bytes)
    requires Inv(k) && OwnChain(suite, k) && LogsOk(k)
    ensures var k' := AfterMemberInfo(k, roster, creator, key, seed); OwnChain(suite, k') && LogsOk(k')
  {
    hide Adopted, Rekeyed, OnChain, Unserved, KeyShares, ChainShares, LogsOk, Changed;
    var seen := AcceptRoster(k, roster, creator);
    assert LogsOk(seen) by { SameLogs(k, seen); }
    if creator && k.adopted == 0 {
      AdoptedSent(suite, seen, 1, key, seed, 0, []);
      AdoptedLogs(seen, 1, key, seed);
    } else if k.adopted != 0 {
      SharedLogs(seen, 0);
      RekeyKeepsChain(suite, KeyShared(seen), key, seed);
    }
    var served := RosterServed(seen, creator, k.isCreator, key, seed);
    SharedLogs(served, EpochOrOne(served.current));
  }

  lemma SameLogs(k: KeyRing, k': KeyRing)
    requires LogsOk(k) && k'.keyLog == k.keyLog && k'.chainLog == k.chainLog && k'.era == k.era
    ensures LogsOk(k')
  {
  }

  lemma {:induction false} ChainAlways(suite: Suite, self: MemberId, events: seq<Event>, n: nat)
    requires n <= |events|
    ensures OwnChain(suite, After(suite, self, events, n)) && LogsOk(After(suite, self, events, n))
  {
    hide Step;
    if n > 0 {
      ChainAlways(suite, self, events, n - 1);
      InvAlways(suite, self, events, n - 1);
      StepKeepsChain(suite, After(suite, self, events, n - 1), events[n - 1]);
    }
  }

  /** Some roster since the current key was adopted lists member `m` under `pub`. */
  function Listed(suite: Suite, self: MemberId, events: seq<Event>, n: nat, m: MemberId, pub: Bytes): bool
    requires n <= |events|
  {
    Lists(After(suite, self, events, n), m, pub)
    || (n > 0 && Listed(suite, self, events, n - 1, m, pub)
        && After(suite, self, events, n).era == After(suite, self, events, n - 1).era)
  }

  /** Event `i` is not a roster update that brings back a flagged member under a key
      it has not been listed under since the current group key was adopted. */
  ghost predicate SteadyEvent(suite: Suite, self: MemberId, events: seq<Event>, i: nat)
    requires i < |events|
  {
    var k, ev := After(suite, self, events, i), events[i];
    ev.MemberInfo? && !Rotates(k, ev.creator) ==>
      forall m :: m in ev.roster && FlaggedAway(k, m) ==> Listed(suite, self, events, i, m, ev.roster[m])
  }

  ghost predicate Steady(suite: Suite, self: MemberId, events: seq<Event>, n: nat)
    requires n <= |events|
  {
    forall i :: 0 <= i < n ==> SteadyEvent(suite, self, events, i)
  }

  /** The account of a pair after one event. */
  lemma StepPair(suite: Suite, k: KeyRing, ev: Event, m: MemberId, pub: Bytes, listed: bool)
    requires Inv(k) && OwnChain(suite, k) && LogsOk(k) && PairOk(suite, k, m, pub, listed)
    requires Lists(k, m, pub) ==> listed
    requires ev.MemberInfo? && !Rotates(k, ev.creator) && m in ev.roster && ev.roster[m] == pub && FlaggedAway(k, m) ==> listed
    ensures var k' := Step(suite, k, ev);
            PairOk(suite, k', m, pub, Lists(k', m, pub) || (listed && k'.era == k.era))
  {
    hide Adopted, AfterMemberInfo, AfterSend, PairOk, OwnChain, LogsOk, Rekeyed;
    match ev
    case MemberInfo(roster, creator, key, seed) => MemberInfoPair(suite, k, roster, creator, key, seed, m, pub, listed);
    case KeyShare(sharer, epoch, key, seed) =>
      if k.current <= epoch {
        AdoptPair(suite, k, epoch, key, seed, m, pub);
        AdoptedLogs(k, epoch, key, seed);
        AdoptKeepsInv(k, epoch, key, seed);
      }
    case RekeyTimer(key, seed) =>
      if k.isCreator {
        RekeyPair(suite, k, key, seed, m, pub);
        RekeyKeepsInv(k, key, seed);
      } else {
        NotCreator(k, key, seed);
      }
    case SendData(_, _) =>
      SendPair(suite, k, m, pub, listed);
      SendKeepsRoster(suite, k);
  }

  lemma NotCreator(k: KeyRing, key: Bytes, seed: Bytes)
    requires !k.isCreator
    ensures Rekeyed(k, key, seed) == k
  {
  }

  lemma SendKeepsRoster(suite: Suite, k: KeyRing)
    ensures AfterSend(suite, k).roster == k.roster && AfterSend(suite, k).era == k.era
  {
  }

  lemma MemberInfoPair(suite: Suite, k: KeyRing, roster: Roster, creator: bool, key: Bytes, seed: Bytes, m: MemberId, pub: Bytes, listed: bool)
    requires Inv(k) && OwnChain(suite, k) && LogsOk(k) && PairOk(suite, k, m, pub, listed)
    requires Lists(k, m, pub) ==> listed
    requires !Rotates(k, creator) && m in roster && roster[m] == pub && FlaggedAway(k, m) ==> listed
    ensures var k' := AfterMemberInfo(k, roster, creator, key, seed);
            PairOk(suite, k', m, pub, Lists(k', m, pub) || (listed && k'.era == k.era))
  {
    hide Adopted, PairOk, OwnChain, LogsOk, Rekeyed, Changed, Unserved, KeyShares, ChainShares, OnChain;
    if !Rotates(k, creator) {
      QuietPair(suite, k, roster, creator, key, seed, m, pub, listed);
      QuietEra(k, roster, creator, key, seed);
    } else {
      var seen := AcceptRoster(k, roster, creator);
      assert LogsOk(seen) by { SameLogs(k, seen); }
      assert OwnChain(suite, seen) by { SameChains(suite, k, seen); }
      if k.adopted == 0 {
        AdoptPair(suite, seen, 1, key, seed, m, pub);
        AdoptedSent(suite, seen, 1, key, seed, m, pub);
        AdoptedLogs(seen, 1, key, seed);
        AdoptKeepsInv(seen, 1, key, seed);
        ChainSharedPair(suite, Adopted(seen, 1, key, seed), m, pub, Lists(seen, m, pub));
      } else {
        var keyed := KeyShared(seen);
        SharedLogs(seen, 0);
        assert OwnChain(suite, keyed) by { SameChains(suite, seen, keyed); }
        RekeyPair(suite, keyed, key, seed, m, pub);
        RekeyKeepsInv(keyed, key, seed);
        ChainSharedPair(suite, Rekeyed(keyed, key, seed), m, pub, Lists(seen, m, pub));
      }
    }
  }

  lemma SameChains(suite: Suite, k: KeyRing, k': KeyRing)
    requires OwnChain(suite, k) && k'.chains == k.chains && k'.seeds == k.seeds && k'.current == k.current
    ensures OwnChain(suite, k')
  {
  }

  lemma QuietEra(k: KeyRing, roster: Roster, creator: bool, key: Bytes, seed: Bytes)
    requires Inv(k) && !Rotates(k, creator)
    ensures AfterMemberInfo(k, roster, creator, key, seed).era == k.era
  {
    hide Adopted, Rekeyed, Unserved, KeyShares, ChainShares, Changed;
  }

  lemma {:induction false} PairAlways(suite: Suite, self: MemberId, events: seq<Event>, n: nat, m: MemberId, pub: Bytes)
    requires n <= |events| && Steady(suite, self, events, n)
    ensures PairOk(suite, After(suite, self, events, n), m, pub, Listed(suite, self, events, n, m, pub))
  {
    hide Step, PairOk, OwnChain, LogsOk;
    if n > 0 {
      PairAlways(suite, self, events, n - 1, m, pub);
      InvAlways(suite, self, events, n - 1);
      ChainAlways(suite, self, events, n - 1);
      assert SteadyEvent(suite, self, events, n - 1);
      StepPair(suite, After(suite, self, events, n - 1), events[n - 1], m, pub, Listed(suite, self, events, n - 1, m, pub));
    } else {
      NewcomerPair(suite, self, m, pub);
    }
  }

  lemma NewcomerPair(suite: Suite, self: MemberId, m: MemberId, pub: Bytes)
    ensures PairOk(suite, Newcomer(self), m, pub, false)
  {
  }

  /** In every steady run every flagged member of the roster has been sent the current
      group key at the current epoch, and a state of the current own chain, under its
      current public key. */
  lemma SteadyRunsCover(suite: Suite, self: MemberId, events: seq<Event>, n: nat)
    requires n <= |events| && Steady(suite, self, events, n)
    ensures Covered(suite, After(suite, self, events, n))
  {
    hide SentKey, SentChain, OnRecord;
    var k := After(suite, self, events, n);
    forall m, pub | Lists(k, m, pub) ensures CoveredMember(suite, k, m, pub) {
      PairAlways(suite, self, events, n, m, pub);
    }
  }

  /** If the next roster update leaves everybody covered, it brings no flagged member
      back under a key it has not been listed under. */
  lemma CoveredReturner(suite: Suite, k: KeyRing, roster: Roster, creator: bool, key: Bytes, seed: Bytes, m: MemberId, listed: bool)
    requires Inv(k) && OwnChain(suite, k) && !Rotates(k, creator) && m in roster && FlaggedAway(k, m)
    requires PairOk(suite, k, m, roster[m], listed)
    requires Covered(suite, AfterMemberInfo(k, roster, creator, key, seed))
    ensures listed
  {
    hide Adopted, Rekeyed, KeyShares, ChainShares, SentKey, SentChain, OnChain, OnRecord;
    var pub := roster[m];
    var seen := AcceptRoster(k, roster, creator);
    var k' := AfterMemberInfo(k, roster, creator, key, seed);
    assert Lists(k', m, pub) && CoveredMember(suite, k', m, pub);
    SeenSent(suite, k, seen, m, pub);
    ChainRecorded(suite, k, m, pub);
    if k.adopted != 0 {
      var keyed := KeyShared(seen);
      KeySharedSent(seen, m, pub);
      KeySharedChain(suite, seen, m, pub);
      ChainSharedSent(suite, keyed, m, pub);
      ChainSharedKey(keyed, m, pub);
    }
  }

  lemma ChainRecorded(suite: Suite, k: KeyRing, m: MemberId, pub: Bytes)
    ensures SentChain(suite, k, m, pub) ==> OnRecord(k, m, pub)
  {
  }

  ghost predicate CoveredThrough(suite: Suite, self: MemberId, events: seq<Event>, n: nat)
    requires n <= |events|
  {
    forall i :: 0 <= i <= n ==> Covered(suite, After(suite, self, events, i))
  }

  /** Exactly the steady runs are covered throughout: flagged members have been sent
      the current key and chain under their current public key in every state if and
      only if no roster update brings a flagged member back under a public key that
      no roster has listed it under since the current group key was adopted. */
  lemma {:induction false} CoverageIff(suite: Suite, self: MemberId, events: seq<Event>, n: nat)
    requires n <= |events|
    ensures CoveredThrough(suite, self, events, n) <==> Steady(suite, self, events, n)
  {
    hide After, Covered, SteadyEvent;
    if Steady(suite, self, events, n) {
      forall i | 0 <= i <= n ensures Covered(suite, After(suite, self, events, i)) {
        SteadyRunsCover(suite, self, events, i);
      }
    }
    if n > 0 && CoveredThrough(suite, self, events, n) {
      CoverageIff(suite, self, events, n - 1);
      assert CoveredThrough(suite, self, events, n - 1) && Covered(suite, After(suite, self, events, n));
      LastEventSteady(suite, self, events, n - 1);
    }
  }

  lemma LastEventSteady(suite: Suite, self: MemberId, events: seq<Event>, n: nat)
    requires n < |events| && Steady(suite, self, events, n) && Covered(suite, After(suite, self, events, n + 1))
    ensures SteadyEvent(suite, self, events, n)
  {
    hide PairOk, Covered, Listed, FlaggedAway, Rotates, AfterMemberInfo;
    var k, ev := After(suite, self, events, n), events[n];
    if ev.MemberInfo? && !Rotates(k, ev.creator) {
      InvAlways(suite, self, events, n);
      ChainAlways(suite, self, events, n);
      forall m | m in ev.roster && FlaggedAway(k, m) ensures Listed(suite, self, events, n, m, ev.roster[m]) {
        var listed := Listed(suite, self, events, n, m, ev.roster[m]);
        PairAlways(suite, self, events, n, m, ev.roster[m]);
        CoveredReturner(suite, k, ev.roster, ev.creator, ev.key, ev.seed, m, listed);
      }
    }
  }

  // ---- Flags ----

  /** Everyone but oneself is flagged. */
  ghost predicate AllFlagged(k: KeyRing) {
    k.roster.Some? ==> k.roster.value.Keys - {k.self} <= k.keyDone && k.roster.value.Keys - {k.self} <= k.chainDone
  }

  lemma AdoptFlags(k: KeyRing, epoch: nat, key: Bytes, seed: Bytes)
    requires 0 < epoch
    ensures AllFlagged(Adopted(k, epoch, key, seed))
  {
    hide KeyShares, ChainShares;
  }

  lemma RekeyFlags(k: KeyRing, key: Bytes, seed: Bytes)
    requires k.isCreator
    ensures AllFlagged(Rekeyed(k, key, seed))
  {
    hide Adopted;
    AdoptFlags(k, EpochOrOne(k.current) + 1, key, seed);
  }

  lemma ChainSharedFlags(k: KeyRing, epoch: nat)
    ensures AllFlagged(k) ==> AllFlagged(ChainShared(k, epoch))
  {
    hide ChainShares;
  }

  /** After every roster update every other member is flagged once a key is held,
      whoever came or went and under whatever keys. */
  lemma MemberInfoFlags(k: KeyRing, roster: Roster, creator: bool, key: Bytes, seed: Bytes)
    requires Inv(k)
    ensures var k' := AfterMemberInfo(k, roster, creator, key, seed);
            k'.roster == Some(roster) && (CurrentKey(k').Some? ==> AllFlagged(k'))
  {
    hide Adopted, Rekeyed, KeyShares, ChainShares, Changed;
    RotatesIff(k, roster, creator, key, seed);
    var seen := AcceptRoster(k, roster, creator);
    var served := RosterServed(seen, creator, k.isCreator, key, seed);
    if creator && k.adopted == 0 {
      AdoptFlags(seen, 1, key, seed);
      ChainSharedFlags(served, EpochOrOne(served.current));
    } else if creator && !k.isCreator {
      RekeyFlags(KeyShared(seen), key, seed);
      ChainSharedFlags(served, EpochOrOne(served.current));
    }
  }

  // ---- A member that is not served ----

  /** What happens otherwise: member 2, served under key `b`, is away from the next
      roster and then returns under key `c`; it stays flagged and unserved. */
  function ReturnScenario(a: Bytes, b: Bytes, c: Bytes, key: Bytes, seed: Bytes): seq<Event> {
    [MemberInfo(map[1 := a, 2 := b], true, key, seed),
     MemberInfo(map[1 := a], true, key, seed),
     MemberInfo(map[1 := a, 2 := c], true, key, seed)]
  }

  lemma ReturnerIsNotServed(suite: Suite, a: Bytes, b: Bytes, c: Bytes, key: Bytes, seed: Bytes)
    requires b != c
    ensures var events := ReturnScenario(a, b, c, key, seed);
            var k := After(suite, 1, events, 3);
            && Covered(suite, After(suite, 1, events, 2))
            && k.roster == Some(map[1 := a, 2 := c]) && 2 in k.keyDone && !SentKey(k, 2, c) && !Covered(suite, k)
  {
    hide AfterMemberInfo, Covered, Changed;
    var events := ReturnScenario(a, b, c, key, seed);
    var k0, k1 := After(suite, 1, events, 0), After(suite, 1, events, 1);
    var k2, k3 := After(suite, 1, events, 2), After(suite, 1, events, 3);
    assert k1 == Step(suite, k0, events[0]) && k2 == Step(suite, k1, events[1]) && k3 == Step(suite, k2, events[2]);
    FirstRoster(a, b, key, seed);
    NoneChanged(a, b, c);
    NothingToServe(a, c);
    QuietRoster(k1, map[1 := a], key, seed);
    QuietRoster(k2, map[1 := a, 2 := c], key, seed);
    ReturnerUncovered(suite, k3, a, b, c);
    LonerCovered(suite, k2, a);
  }

  lemma LonerCovered(suite: Suite, k: KeyRing, a: Bytes)
    requires k.roster == Some(map[1 := a]) && k.keyDone == {2} == k.chainDone
    ensures Covered(suite, k)
  {
  }

  lemma ReturnerUncovered(suite: Suite, k: KeyRing, a: Bytes, b: Bytes, c: Bytes)
    requires b != c && k.roster == Some(map[1 := a, 2 := c]) && 2 in k.keyDone
    requires forall x :: x in k.keyLog ==> x.msg.pub == b
    ensures !SentKey(k, 2, c) && !Covered(suite, k)
  {
    var roster := k.roster.value;
    assert 2 in roster && roster[2] == c;
    assert Lists(k, 2, c);
    if Covered(suite, k) { assert CoveredMember(suite, k, 2, c); }
  }

  lemma NoneChanged(a: Bytes, b: Bytes, c: Bytes)
    ensures Changed(Some(map[1 := a, 2 := b]), map[1 := a]) == {}
    ensures Changed(Some(map[1 := a]), map[1 := a, 2 := c]) == {}
  {
  }

  lemma NothingToServe(a: Bytes, c: Bytes)
    ensures Unserved(map[1 := a], 1, {2}) == {} && Unserved(map[1 := a, 2 := c], 1, {2}) == {}
  {
  }

  lemma FirstRoster(a: Bytes, b: Bytes, key: Bytes, seed: Bytes)
    ensures var k := AfterMemberInfo(Newcomer(1), map[1 := a, 2 := b], true, key, seed);
            && k.keyDone == {2} == k.chainDone && k.isCreator && k.self == 1
            && k.adopted == 1 == k.current && 1 in k.keys && 1 in k.chains && k.roster == Some(map[1 := a, 2 := b])
            && forall x :: x in k.keyLog ==> x.msg.pub == b
  {
    var roster: Roster := map[1 := a, 2 := b];
    assert Unserved(roster, 1, {}) == {2};
    assert Unserved(roster, 1, {2}) == {};
    assert roster[2] == b;
  }

  /** A roster update with no change of keys or creatorship and nobody unserved does
      nothing else. */
  lemma QuietRoster(k: KeyRing, roster: Roster, key: Bytes, seed: Bytes)
    requires k.isCreator && k.adopted == k.current == 1 && 1 in k.keys && 1 in k.chains && Changed(k.roster, roster) == {}
    requires Unserved(roster, k.self, k.keyDone) == {} && Unserved(roster, k.self, k.chainDone) == {}
    ensures AfterMemberInfo(k, roster, true, key, seed) == k.(roster := Some(roster))
  {
    hide Adopted, Rekeyed, Changed, Unserved;
    assert KeyShares({}, roster, 1, k.keys[1], k.era) == {} && ChainShares({}, roster, 1, k.chains[1], k.era) == {};
    assert k.keyDone - {} == k.keyDone && k.chainDone - {} == k.chainDone;
  }
}
