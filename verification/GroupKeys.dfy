/** A client's group keys and epochs: adoption, rotation, pruning, and sharing the
    key and the ratchet chain with the roster. */
module GroupKeys {
  import opened Primitives
  import opened Ratchet
  import opened Sender

  type MemberId = nat
  type Roster = map<MemberId, Bytes>   // public keys

  /** A KEY_SHARE or CHAIN_SHARE addressed to one member under its public key. */
  datatype KeyShareMsg = KeyShareMsg(target: MemberId, pub: Bytes, epoch: nat, key: Bytes)
  datatype ChainShareMsg = ChainShareMsg(target: MemberId, pub: Bytes, epoch: nat, state: ChainState)

  /** A share on record, with the number of adoptions made when it was sent. */
  datatype Logged<T> = Logged(era: nat, msg: T)

  datatype KeyRing = KeyRing(
    self: MemberId,
    roster: Option<Roster>,
    isCreator: bool,
    current: nat,                    // 0 while no epoch has been adopted
    adopted: nat,
    keys: map<nat, Bytes>,           // group keys by epoch
    chains: map<nat, ChainState>,    // own chain by epoch
    seeds: map<nat, ChainState>,
    keyDone: set<MemberId>,          // flagged as served with the current group key
    chainDone: set<MemberId>,        // flagged as served with the current own chain
    era: nat,                        // how many keys have been adopted so far
    keyLog: set<Logged<KeyShareMsg>>,       // every share ever sent
    chainLog: set<Logged<ChainShareMsg>>
  )

  function Newcomer(self: MemberId): KeyRing {
    KeyRing(self, None, false, 0, 0, map[], map[], map[], {}, {}, 0, {}, {})
  }

  function CurrentKey(k: KeyRing): Option<Bytes> {
    var e := EpochOrOne(k.current);
    if e in k.keys then Some(k.keys[e]) else None
  }

  predicate HasJoined(k: KeyRing) {
    CurrentKey(k).Some? && k.roster.Some?
  }

  // ---- Sharing ----

  /** Every member of the roster but oneself and those already flagged. */
  function Unserved(roster: Roster, self: MemberId, done: set<MemberId>): set<MemberId> {
    roster.Keys - {self} - done
  }

  function KeyShares(ids: set<MemberId>, roster: Roster, epoch: nat, key: Bytes, era: nat): set<Logged<KeyShareMsg>>
    requires ids <= roster.Keys
  {
    set m | m in ids :: Logged(era, KeyShareMsg(m, roster[m], epoch, key))
  }

  function ChainShares(ids: set<MemberId>, roster: Roster, epoch: nat, c: ChainState, era: nat): set<Logged<ChainShareMsg>>
    requires ids <= roster.Keys
  {
    set m | m in ids :: Logged(era, ChainShareMsg(m, roster[m], epoch, c))
  }

  function KeyShared(k: KeyRing): KeyRing {
    if CurrentKey(k).None? || k.roster.None? then k
    else
      var ids := Unserved(k.roster.value, k.self, k.keyDone);
      k.(keyDone := k.keyDone + ids,
         keyLog := k.keyLog + KeyShares(ids, k.roster.value, EpochOrOne(k.current), CurrentKey(k).value, k.era))
  }

  function ChainShared(k: KeyRing, epoch: nat): KeyRing {
    if epoch !in k.chains || k.roster.None? then k
    else
      var ids := Unserved(k.roster.value, k.self, k.chainDone);
      k.(chainDone := k.chainDone + ids,
         chainLog := k.chainLog + ChainShares(ids, k.roster.value, epoch, k.chains[epoch], k.era))
  }

  function ChainStarted(k: KeyRing, epoch: nat, seed: Bytes): KeyRing {
    ChainShared(
      k.(chains := k.chains[epoch := ChainState(seed, 0)], seeds := k.seeds[epoch := ChainState(seed, 0)],
         chainDone := {}),
      epoch)
  }

  // ---- Adoption and rotation ----

  function Adopted(k: KeyRing, epoch: nat, key: Bytes, seed: Bytes): KeyRing {
    var adopted := k.(keys := k.keys[epoch := key], current := epoch, adopted := epoch, keyDone := {}, era := k.era + 1);
    ChainStarted(KeyShared(adopted), epoch, seed)
  }

  predicate Expired(epoch: nat, current: nat) {
    epoch + 4 < current
  }

  function PruneOldEpochs(k: KeyRing): KeyRing {
    var expired := set e | e in k.keys && Expired(e, k.current);
    k.(keys := k.keys - expired, seeds := k.seeds - expired)
  }

  /** Rotation, by the creator only. */
  function Rekeyed(k: KeyRing, key: Bytes, seed: Bytes): KeyRing {
    if !k.isCreator then k
    else PruneOldEpochs(Adopted(k, EpochOrOne(k.current) + 1, key, seed))
  }

  /** Members whose public key differs from the one in the previous roster. */
  function Changed(prev: Option<Roster>, roster: Roster): set<MemberId> {
    if prev.None? then {} else set m | m in roster && m in prev.value && prev.value[m] != roster[m]
  }

  /** The roster is replaced and members with a new key lose their flags. */
  function AcceptRoster(k: KeyRing, roster: Roster, creator: bool): KeyRing {
    var changed := Changed(k.roster, roster);
    k.(roster := Some(roster), isCreator := creator, keyDone := k.keyDone - changed, chainDone := k.chainDone - changed)
  }

  /** A roster update makes the client adopt epoch 1 (a new room's creator), or
      rotate (it just became creator), or just serve the new members. */
  function AfterMemberInfo(k: KeyRing, roster: Roster, creator: bool, key: Bytes, seed: Bytes): KeyRing {
    var served := RosterServed(AcceptRoster(k, roster, creator), creator, k.isCreator, key, seed);
    ChainShared(served, EpochOrOne(served.current))
  }

  function RosterServed(k: KeyRing, creator: bool, prevCreator: bool, key: Bytes, seed: Bytes): KeyRing {
    var keyed := if creator && k.adopted == 0 then Adopted(k, 1, key, seed)
                 else if k.adopted != 0 then KeyShared(k) else k;
    if creator && !prevCreator && k.adopted != 0 then Rekeyed(keyed, key, seed) else keyed
  }

  /** A share from a known member is adopted on first join, for a newer epoch, or
      for the same epoch with a different key. */
  function AfterKeyShare(k: KeyRing, sharer: MemberId, epoch: nat, key: Bytes, seed: Bytes): KeyRing {
    if k.roster.None? || sharer !in k.roster.value then k
    else if k.adopted == 0 || epoch > k.adopted || (epoch == k.adopted && CurrentKey(k).Some? && CurrentKey(k).value != key)
    then Adopted(k, epoch, key, seed)
    else k
  }

  /** Sending a message advances the own chain of the current epoch. */
  function AfterSend(suite: Suite, k: KeyRing): KeyRing {
    var e := EpochOrOne(k.current);
    if e !in k.chains then k
    else k.(chains := k.chains[e := Advance(suite, k.chains[e], k.chains[e].index).state])
  }

  datatype Event =
    | MemberInfo(roster: Roster, creator: bool, key: Bytes, seed: Bytes)
    | KeyShare(sharer: MemberId, epoch: nat, key: Bytes, seed: Bytes)
    | RekeyTimer(key: Bytes, seed: Bytes)
    | SendData(payload: Bytes, nonce: Bytes)

  function Step(suite: Suite, k: KeyRing, ev: Event): KeyRing {
    match ev
    case MemberInfo(roster, creator, key, seed) => AfterMemberInfo(k, roster, creator, key, seed)
    case KeyShare(sharer, epoch, key, seed) => AfterKeyShare(k, sharer, epoch, key, seed)
    case RekeyTimer(key, seed) => Rekeyed(k, key, seed)
    case SendData(payload, nonce) => AfterSend(suite, k)
  }

  // ---- Epochs and key availability ----

  ghost predicate Inv(k: KeyRing) {
    && k.current == k.adopted
    && (forall e :: e in k.keys ==> e <= k.current)
    && (k.current > 0 ==> k.current in k.keys && k.current in k.chains && k.current in k.seeds && k.seeds[k.current].index == 0)
  }

  lemma AdoptKeepsInv(k: KeyRing, epoch: nat, key: Bytes, seed: Bytes)
    requires Inv(k) && k.current <= epoch
    ensures var k' := Adopted(k, epoch, key, seed);
            Inv(k') && k'.current == epoch && k'.roster == k.roster && k'.isCreator == k.isCreator && k'.self == k.self
  {
    hide KeyShares, ChainShares, Unserved;
  }

  /** What adoption leaves: the key as the key of its epoch, a chain and a seed that
      start with the drawn seed, and everything of other epochs as it was. */
  lemma AdoptionOutcome(k: KeyRing, epoch: nat, key: Bytes, seed: Bytes)
    ensures var k' := Adopted(k, epoch, key, seed);
            && k'.keys == k.keys[epoch := key] && k'.chains == k.chains[epoch := ChainState(seed, 0)]
            && k'.seeds == k.seeds[epoch := ChainState(seed, 0)]
            && (0 < epoch ==> CurrentKey(k') == Some(key))
  {
    hide KeyShares, ChainShares, Unserved;
  }

  lemma RekeyKeepsInv(k: KeyRing, key: Bytes, seed: Bytes)
    requires Inv(k)
    ensures var k' := Rekeyed(k, key, seed);
            && Inv(k') && k.current <= k'.current && k'.roster == k.roster
            && (k.isCreator ==> k.current < k'.current && forall e :: e in k'.keys ==> k'.current - 4 <= e <= k'.current)
  {
    hide Adopted;
    AdoptKeepsInv(k, EpochOrOne(k.current) + 1, key, seed);
  }

  /** A rotation moves on by one epoch, with the new key and chain, and afterwards holds
      exactly the keys at most four epochs old, each as it was, the seeds of dropped
      keys going with them; a client that is not the creator does nothing. */
  lemma RotationOutcome(k: KeyRing, key: Bytes, seed: Bytes)
    requires Inv(k)
    ensures var k', next := Rekeyed(k, key, seed), EpochOrOne(k.current) + 1;
            if !k.isCreator then k' == k
            else
              && k'.current == next && CurrentKey(k') == Some(key)
              && k'.chains == k.chains[next := ChainState(seed, 0)]
              && next in k'.seeds && k'.seeds[next] == ChainState(seed, 0)
              && (forall e :: e in k'.seeds <==> e == next || (e in k.seeds && !(e in k.keys && e < next - 4)))
              && (forall e :: e in k'.keys <==> e == next || (e in k.keys && next - 4 <= e))
              && (forall e :: e in k'.keys && e != next ==> k'.keys[e] == k.keys[e])
  {
    hide Adopted;
    var next := EpochOrOne(k.current) + 1;
    AdoptKeepsInv(k, next, key, seed);
    AdoptionOutcome(k, next, key, seed);
  }

  /** A share is worth adopting before joining, for a later epoch, or if it says
      something else about the current epoch. */
  predicate News(k: KeyRing, epoch: nat, key: Bytes) {
    k.current == 0 || epoch > k.current || (epoch == k.current && CurrentKey(k) != Some(key))
  }

  /** A share from a listed member that is news makes its epoch and key the current
      ones, with a fresh own chain; any other share changes nothing at all. */
  lemma ShareOutcome(k: KeyRing, sharer: MemberId, epoch: nat, key: Bytes, seed: Bytes)
    requires Inv(k) && 0 < epoch
    ensures var k' := AfterKeyShare(k, sharer, epoch, key, seed);
            if k.roster.Some? && sharer in k.roster.value && News(k, epoch, key)
            then
              && k'.current == epoch && CurrentKey(k') == Some(key) && k'.roster == k.roster && k'.isCreator == k.isCreator
              && k'.keys == k.keys[epoch := key] && k'.chains == k.chains[epoch := ChainState(seed, 0)]
            else k' == k
  {
    hide Adopted;
    AdoptionOutcome(k, epoch, key, seed);
    if k.current <= epoch { AdoptKeepsInv(k, epoch, key, seed); }
  }

  /** A share of epoch 0, which no client sends, is stored without making the client
      joined. */
  lemma EpochZeroShare(k: KeyRing, sharer: MemberId, key: Bytes, seed: Bytes)
    requires Inv(k)
    ensures var k' := AfterKeyShare(k, sharer, 0, key, seed);
            k'.current == k.current && CurrentKey(k') == CurrentKey(k)
  {
    hide Adopted;
    AdoptionOutcome(k, 0, key, seed);
    if k.current == 0 { AdoptKeepsInv(k, 0, key, seed); }
  }

  lemma SameClient(k: KeyRing, key: Bytes, seed: Bytes)
    ensures Rekeyed(k, key, seed).isCreator == k.isCreator && Rekeyed(k, key, seed).self == k.self
  {
    hide KeyShares, ChainShares, Unserved;
  }

  /** The client becomes creator, or is the creator of a room without a key. */
  predicate Rotates(k: KeyRing, creator: bool) {
    creator && (k.adopted == 0 || !k.isCreator)
  }

  /** A roster update starts a new epoch if and only if the client has just become
      creator; who left or joined has no part in it. */
  lemma RotatesIff(k: KeyRing, roster: Roster, creator: bool, key: Bytes, seed: Bytes)
    requires Inv(k)
    ensures var k' := AfterMemberInfo(k, roster, creator, key, seed);
            && Inv(k') && k.current <= k'.current && k'.roster == Some(roster)
            && (k'.current != k.current <==> Rotates(k, creator))
            && (k'.current == k.current ==> k'.keys == k.keys && k'.chains == k.chains && k'.seeds == k.seeds)
            && k'.isCreator == creator && k'.self == k.self
            && (Rotates(k, creator) ==> k'.current == k.current + 1 && CurrentKey(k') == Some(key))
  {
    hide Adopted, Rekeyed, Unserved, KeyShares, ChainShares, Changed;
    var seen := AcceptRoster(k, roster, creator);
    if creator && k.adopted == 0 {
      AdoptKeepsInv(seen, 1, key, seed);
      AdoptionOutcome(seen, 1, key, seed);
    } else if creator && !k.isCreator && k.adopted != 0 {
      RekeyKeepsInv(KeyShared(seen), key, seed);
      RotationOutcome(KeyShared(seen), key, seed);
      SameClient(KeyShared(seen), key, seed);
    }
  }

  /** So a member's departure alone leaves the departed member's key in use. */
  lemma DepartureKeepsKey(k: KeyRing, gone: MemberId, key: Bytes, seed: Bytes)
    requires Inv(k) && HasJoined(k) && gone in k.roster.value && gone != k.self
    ensures var k' := AfterMemberInfo(k, k.roster.value - {gone}, k.isCreator, key, seed);
            CurrentKey(k') == CurrentKey(k) && k'.current == k.current && k'.roster.Some? && gone !in k'.roster.value
  {
    hide AfterMemberInfo;
    RotatesIff(k, k.roster.value - {gone}, k.isCreator, key, seed);
  }

  /** Every step keeps the invariant, never lowers the epoch, and never undoes a join. */
  lemma StepKeepsInv(suite: Suite, k: KeyRing, ev: Event)
    requires Inv(k)
    ensures var k' := Step(suite, k, ev);
            Inv(k') && k.current <= k'.current && (HasJoined(k) ==> HasJoined(k'))
  {
    hide Adopted, Rekeyed, AfterMemberInfo, Advance;
    match ev
    case MemberInfo(roster, creator, key, seed) => RotatesIff(k, roster, creator, key, seed);
    case KeyShare(sharer, epoch, key, seed) =>
      if k.current <= epoch { AdoptKeepsInv(k, epoch, key, seed); }
    case RekeyTimer(key, seed) => RekeyKeepsInv(k, key, seed);
    case SendData(_, _) =>
  }

  /** The ring after the first `n` events. */
  function After(suite: Suite, self: MemberId, events: seq<Event>, n: nat): KeyRing
    requires n <= |events|
  {
    if n == 0 then Newcomer(self) else Step(suite, After(suite, self, events, n - 1), events[n - 1])
  }

  lemma {:induction false} InvAlways(suite: Suite, self: MemberId, events: seq<Event>, n: nat)
    requires n <= |events|
    ensures Inv(After(suite, self, events, n))
  {
    if n > 0 {
      InvAlways(suite, self, events, n - 1);
      StepKeepsInv(suite, After(suite, self, events, n - 1), events[n - 1]);
    }
  }

  /** In every run the epoch never decreases, and once joined the client holds the
      current group key, its own chain and the chain's seed in every later state. */
  lemma {:induction false} KeysStayAvailable(suite: Suite, self: MemberId, events: seq<Event>, m: nat, n: nat)
    requires m <= n <= |events|
    ensures After(suite, self, events, m).current <= After(suite, self, events, n).current
    ensures HasJoined(After(suite, self, events, m)) ==>
              var k := After(suite, self, events, n);
              HasJoined(k) && 0 < k.current && k.current in k.keys && k.current in k.chains &&
              k.current in k.seeds && k.seeds[k.current].index == 0
  {
    hide Step;
    InvAlways(suite, self, events, n);
    if m < n {
      KeysStayAvailable(suite, self, events, m, n - 1);
      InvAlways(suite, self, events, n - 1);
      StepKeepsInv(suite, After(suite, self, events, n - 1), events[n - 1]);
    }
  }

  /** Only rotation prunes: adopting another member's share drops no key. */
  lemma SharesNeverPrune(k: KeyRing, sharer: MemberId, epoch: nat, key: Bytes, seed: Bytes)
    ensures k.keys.Keys <= AfterKeyShare(k, sharer, epoch, key, seed).keys.Keys
  {
  }

  // ---- The client ----

  ghost function Elements<T>(s: seq<T>): set<T> {
    set x | x in s
  }

  ghost function Stamped<T>(era: nat, s: seq<T>): set<Logged<T>> {
    set x | x in s :: Logged(era, x)
  }

  /** What went out, whenever it did. */
  ghost function Messages<T>(log: set<Logged<T>>): set<T> {
    set x | x in log :: x.msg
  }

  class GroupKeyClient {
    const self: MemberId
    var roster: Option<Roster>
    var isCreator: bool
    var current: nat
    var adopted: nat
    var keys: map<nat, Bytes>
    var chains: map<nat, ChainState>
    var seeds: map<nat, ChainState>
    var keyDone: set<MemberId>
    var chainDone: set<MemberId>
    ghost var era: nat
    ghost var keyLog: set<Logged<KeyShareMsg>>
    ghost var chainLog: set<Logged<ChainShareMsg>>

    ghost function State(): KeyRing
      reads this
    {
      KeyRing(self, roster, isCreator, current, adopted, keys, chains, seeds, keyDone, chainDone,
              era, keyLog, chainLog)
    }

    constructor (self: MemberId)
      ensures State() == Newcomer(self)
    {
      this.self := self;
      roster, isCreator, current, adopted := None, false, 0, 0;
      keys, chains, seeds, keyDone, chainDone := map[], map[], map[], {}, {};
      era, keyLog, chainLog := 0, {}, {};
    }

    /** The members still to be served, each once, and the flags after serving them. */
    method Targets(members: Roster, done: set<MemberId>) returns (targets: seq<MemberId>, flagged: set<MemberId>)
      ensures Elements(targets) == Unserved(members, self, done) && flagged == done + Elements(targets) && Distinct(targets)
    {
      hide Elements, Distinct, Picked;
      targets, flagged := [], done;
      NoElements<MemberId>();
      var todo := members.Keys;
      NonePicked(members, self, done);
      while todo != {}
        invariant todo <= members.Keys
        invariant Picked(members, self, done, todo, Elements(targets)) && flagged == done + Elements(targets)
        invariant Distinct(targets)
        decreases |todo|
      {
        var m :| m in todo;
        PickOneMore(members, self, done, todo, Elements(targets), m);
        if m != self && m !in flagged {
          Appended(targets, m);
          targets := targets + [m];
          flagged := flagged + {m};
        }
        todo := todo - {m};
      }
      AllPicked(members, self, done, Elements(targets));
    }

    /** Sends the current group key to each member not yet served, once. */
    method ShareWithNewMembers() returns (out: seq<KeyShareMsg>)
      modifies this`keyDone, this`keyLog
      ensures State() == KeyShared(old(State())) && Messages(keyLog) == Messages(old(keyLog)) + Elements(out)
      ensures forall i, j :: 0 <= i < j < |out| ==> out[i].target != out[j].target
    {
      hide Unserved;
      out := [];
      var e := EpochOrOne(current);
      if e !in keys || roster.None? { return; }
      var targets, flagged := Targets(roster.value, keyDone);
      UnservedListed(roster.value, self, keyDone);
      ElementsIn(targets, roster.value.Keys);
      for i := 0 to |targets|
        invariant |out| == i
        invariant forall j :: 0 <= j < i ==> out[j] == KeyShareMsg(targets[j], roster.value[targets[j]], e, keys[e])
      {
        out := out + [KeyShareMsg(targets[i], roster.value[targets[i]], e, keys[e])];
      }
      KeySharesListed(targets, roster.value, e, keys[e], era, out);
      LogGrows(keyLog, era, out);
      keyLog := keyLog + Stamped(era, out);
      keyDone := flagged;
    }

    /** Sends the own chain state to each member not yet served, once. */
    method ShareChainWithMembers(epoch: nat) returns (out: seq<ChainShareMsg>)
      modifies this`chainDone, this`chainLog
      ensures State() == ChainShared(old(State()), epoch) && Messages(chainLog) == Messages(old(chainLog)) + Elements(out)
      ensures forall i, j :: 0 <= i < j < |out| ==> out[i].target != out[j].target
    {
      hide Unserved;
      out := [];
      if epoch !in chains || roster.None? { return; }
      var targets, flagged := Targets(roster.value, chainDone);
      UnservedListed(roster.value, self, chainDone);
      ElementsIn(targets, roster.value.Keys);
      for i := 0 to |targets|
        invariant |out| == i
        invariant forall j :: 0 <= j < i ==> out[j] == ChainShareMsg(targets[j], roster.value[targets[j]], epoch, chains[epoch])
      {
        out := out + [ChainShareMsg(targets[i], roster.value[targets[i]], epoch, chains[epoch])];
      }
      ChainSharesListed(targets, roster.value, epoch, chains[epoch], era, out);
      LogGrows(chainLog, era, out);
      chainLog := chainLog + Stamped(era, out);
      chainDone := flagged;
    }

    method InitOwnChain(epoch: nat, seed: Bytes) returns (out: seq<ChainShareMsg>)
      modifies this`chains, this`seeds, this`chainDone, this`chainLog
      ensures State() == ChainStarted(old(State()), epoch, seed) && Messages(chainLog) == Messages(old(chainLog)) + Elements(out)
    {
      hide Unserved, ChainShares;
      chains := chains[epoch := ChainState(seed, 0)];
      seeds := seeds[epoch := ChainState(seed, 0)];
      chainDone := {};
      out := ShareChainWithMembers(epoch);
    }

    /** Adopts a key; `keyOut` and `chainOut` are the shares that go out for it. */
    method AdoptKey(epoch: nat, key: Bytes, seed: Bytes) returns (keyOut: seq<KeyShareMsg>, chainOut: seq<ChainShareMsg>)
      modifies this
      ensures State() == Adopted(old(State()), epoch, key, seed)
      ensures Messages(keyLog) == Messages(old(keyLog)) + Elements(keyOut) && Messages(chainLog) == Messages(old(chainLog)) + Elements(chainOut)
    {
      hide KeyShared, ChainStarted, Elements, Messages;
      keys := keys[epoch := key];
      current, adopted := epoch, epoch;
      keyDone, era := {}, era + 1;
      keyOut := ShareWithNewMembers();
      chainOut := InitOwnChain(epoch, seed);
    }

    method PruneEpochs()
      modifies this`keys, this`seeds
      ensures State() == PruneOldEpochs(old(State()))
    {
      var todo := keys.Keys;
      ghost var gone: set<nat> := {};
      while todo != {}
        invariant todo <= old(keys).Keys && keys == old(keys) - gone && seeds == old(seeds) - gone
        invariant forall e :: e in gone <==> e in old(keys) && e !in todo && Expired(e, current)
        decreases |todo|
      {
        var e :| e in todo;
        if Expired(e, current) {
          keys := keys - {e};
          seeds := seeds - {e};
          gone := gone + {e};
        }
        todo := todo - {e};
      }
      assert gone == set e | e in old(keys) && Expired(e, current);
    }

    method Rekey(key: Bytes, seed: Bytes) returns (keyOut: seq<KeyShareMsg>, chainOut: seq<ChainShareMsg>)
      modifies this
      ensures State() == Rekeyed(old(State()), key, seed)
      ensures Messages(keyLog) == Messages(old(keyLog)) + Elements(keyOut) && Messages(chainLog) == Messages(old(chainLog)) + Elements(chainOut)
    {
      hide Adopted, Messages;
      keyOut, chainOut := [], [];
      if !isCreator { return; }
      keyOut, chainOut := AdoptKey(EpochOrOne(current) + 1, key, seed);
      PruneEpochs();
    }

    /** The members of both rosters whose public key changed. */
    method ChangedMembers(members: Roster) returns (changed: set<MemberId>)
      ensures changed == Changed(roster, members)
    {
      changed := {};
      if roster.None? { return; }
      var todo := members.Keys;
      while todo != {}
        invariant todo <= members.Keys
        invariant forall m :: m in changed <==>
                    m in members && m !in todo && m in roster.value && roster.value[m] != members[m]
        decreases |todo|
      {
        var m :| m in todo;
        if m in roster.value && roster.value[m] != members[m] {
          changed := changed + {m};
        }
        todo := todo - {m};
      }
    }

    /** The roster part: members whose key changed lose their flags. */
    method TakeRoster(members: Roster, creator: bool)
      modifies this`roster, this`isCreator, this`keyDone, this`chainDone
      ensures State() == AcceptRoster(old(State()), members, creator)
    {
      hide Changed;
      var changed := ChangedMembers(members);
      roster := Some(members);
      keyDone, chainDone := keyDone - changed, chainDone - changed;
      isCreator := creator;
    }

    /** The key part: adopt in a new room, or serve who is new, and rotate on takeover. */
    method ServeRoster(creator: bool, prevCreator: bool, key: Bytes, seed: Bytes)
      returns (keyOut: seq<KeyShareMsg>, chainOut: seq<ChainShareMsg>)
      modifies this
      ensures State() == RosterServed(old(State()), creator, prevCreator, key, seed)
      ensures Messages(keyLog) == Messages(old(keyLog)) + Elements(keyOut)
      ensures Messages(chainLog) == Messages(old(chainLog)) + Elements(chainOut)
    {
      hide Adopted, Rekeyed, KeyShared, Elements, Messages;
      NoElements<KeyShareMsg>();
      NoElements<ChainShareMsg>();
      keyOut, chainOut := [], [];
      var myEpoch := adopted;
      if creator && myEpoch == 0 {
        keyOut, chainOut := AdoptKey(1, key, seed);
      } else if myEpoch != 0 {
        keyOut := ShareWithNewMembers();
      }
      if creator && !prevCreator && myEpoch != 0 {
        var moreKeys, chainsOut := Rekey(key, seed);
        ElementsAppend(keyOut, moreKeys);
        keyOut, chainOut := keyOut + moreKeys, chainsOut;
      }
    }

    /** A roster update; `keyOut` and `chainOut` are all the shares that go out for it. */
    method HandleMemberInfo(members: Roster, creator: bool, key: Bytes, seed: Bytes)
      returns (keyOut: seq<KeyShareMsg>, chainOut: seq<ChainShareMsg>)
      modifies this
      ensures State() == AfterMemberInfo(old(State()), members, creator, key, seed)
      ensures Messages(keyLog) == Messages(old(keyLog)) + Elements(keyOut)
      ensures Messages(chainLog) == Messages(old(chainLog)) + Elements(chainOut)
    {
      hide RosterServed, ChainShared, EpochOrOne, Changed, Elements, Messages;
      var prevCreator := isCreator;
      TakeRoster(members, creator);
      keyOut, chainOut := ServeRoster(creator, prevCreator, key, seed);
      var moreChains := ShareChainWithMembers(EpochOrOne(current));
      ElementsAppend(chainOut, moreChains);
      chainOut := chainOut + moreChains;
    }

    method HandleKeyShare(sharer: MemberId, epoch: nat, key: Bytes, seed: Bytes)
      returns (keyOut: seq<KeyShareMsg>, chainOut: seq<ChainShareMsg>)
      modifies this
      ensures State() == AfterKeyShare(old(State()), sharer, epoch, key, seed)
      ensures Messages(keyLog) == Messages(old(keyLog)) + Elements(keyOut) && Messages(chainLog) == Messages(old(chainLog)) + Elements(chainOut)
    {
      hide Adopted;
      keyOut, chainOut := [], [];
      if roster.None? || sharer !in roster.value { return; }
      var e := EpochOrOne(current);
      if adopted == 0 || epoch > adopted || (epoch == adopted && e in keys && keys[e] != key) {
        keyOut, chainOut := AdoptKey(epoch, key, seed);
      }
    }
  }

  /** `taken` are the members to be served among those no longer to do. */
  ghost predicate Picked(members: Roster, self: MemberId, done: set<MemberId>, todo: set<MemberId>, taken: set<MemberId>) {
    forall m :: m in taken <==> m in members && m !in todo && m != self && m !in done
  }

  lemma NonePicked(members: Roster, self: MemberId, done: set<MemberId>)
    ensures Picked(members, self, done, members.Keys, {})
  {
  }

  lemma PickOneMore(members: Roster, self: MemberId, done: set<MemberId>, todo: set<MemberId>, taken: set<MemberId>, m: MemberId)
    requires Picked(members, self, done, todo, taken) && m in todo && todo <= members.Keys
    ensures Picked(members, self, done, todo - {m}, if m != self && m !in done + taken then taken + {m} else taken)
  {
  }

  lemma AllPicked(members: Roster, self: MemberId, done: set<MemberId>, taken: set<MemberId>)
    requires Picked(members, self, done, {}, taken)
    ensures taken == Unserved(members, self, done)
  {
  }

  ghost predicate Distinct<T>(s: seq<T>) {
    forall i, j :: 0 <= i < j < |s| ==> s[i] != s[j]
  }

  lemma NoElements<T>()
    ensures Elements<T>([]) == {} && Distinct<T>([])
  {
  }

  lemma Appended<T>(s: seq<T>, x: T)
    requires Distinct(s) && x !in Elements(s)
    ensures Distinct(s + [x]) && Elements(s + [x]) == Elements(s) + {x}
  {
    forall i | 0 <= i < |s| ensures s[i] != x { assert s[i] in Elements(s); }
  }

  lemma UnservedListed(roster: Roster, self: MemberId, done: set<MemberId>)
    ensures Unserved(roster, self, done) <= roster.Keys
  {
  }

  lemma ElementsIn<T>(s: seq<T>, all: set<T>)
    requires Elements(s) <= all
    ensures forall i :: 0 <= i < |s| ==> s[i] in all
  {
    forall i | 0 <= i < |s| ensures s[i] in all { assert s[i] in Elements(s); }
  }

  lemma ElementsAppend<T>(a: seq<T>, b: seq<T>)
    ensures Elements(a + b) == Elements(a) + Elements(b)
  {
  }

  lemma LogGrows<T>(log: set<Logged<T>>, era: nat, out: seq<T>)
    ensures Messages(log + Stamped(era, out)) == Messages(log) + Elements(out)
  {
    forall x | x in Elements(out) ensures x in Messages(log + Stamped(era, out)) {
      assert Logged(era, x) in Stamped(era, out);
    }
    forall x | x in Messages(log) ensures x in Messages(log + Stamped(era, out)) {
      var y :| y in log && y.msg == x;
      assert y in log + Stamped(era, out);
    }
  }

  lemma KeySharesListed(targets: seq<MemberId>, roster: Roster, epoch: nat, key: Bytes, era: nat, out: seq<KeyShareMsg>)
    requires Elements(targets) <= roster.Keys && |out| == |targets|
    requires forall j :: 0 <= j < |targets| ==> targets[j] in roster && out[j] == KeyShareMsg(targets[j], roster[targets[j]], epoch, key)
    ensures Stamped(era, out) == KeyShares(Elements(targets), roster, epoch, key, era)
  {
    forall x | x in KeyShares(Elements(targets), roster, epoch, key, era) ensures x in Stamped(era, out) {
      assert x.msg.target in targets;
      var j :| 0 <= j < |targets| && targets[j] == x.msg.target;
      assert out[j] == x.msg;
    }
    forall x | x in Stamped(era, out) ensures x in KeyShares(Elements(targets), roster, epoch, key, era) {
      var j :| 0 <= j < |out| && out[j] == x.msg;
      assert targets[j] in Elements(targets);
    }
  }

  lemma ChainSharesListed(targets: seq<MemberId>, roster: Roster, epoch: nat, c: ChainState, era: nat, out: seq<ChainShareMsg>)
    requires Elements(targets) <= roster.Keys && |out| == |targets|
    requires forall j :: 0 <= j < |targets| ==> targets[j] in roster && out[j] == ChainShareMsg(targets[j], roster[targets[j]], epoch, c)
    ensures Stamped(era, out) == ChainShares(Elements(targets), roster, epoch, c, era)
  {
    forall x | x in ChainShares(Elements(targets), roster, epoch, c, era) ensures x in Stamped(era, out) {
      assert x.msg.target in targets;
      var j :| 0 <= j < |targets| && targets[j] == x.msg.target;
      assert out[j] == x.msg;
    }
    forall x | x in Stamped(era, out) ensures x in ChainShares(Elements(targets), roster, epoch, c, era) {
      var j :| 0 <= j < |out| && out[j] == x.msg;
      assert targets[j] in Elements(targets);
    }
  }
}
