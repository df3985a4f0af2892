/** The clients of one room together: whatever order shares arrive in, members of the
    same epoch hold the same group key as long as one client at a time makes keys. */
module KeyAgreement {
  import opened Primitives
  import opened Ratchet
  import opened Sender
  import Keys = GroupKeys

  type MemberId = Keys.MemberId

  /** The clients' key rings, and every group key ever made, by epoch. */
  datatype Room = Room(rings: map<MemberId, Keys.KeyRing>, made: map<nat, Bytes>)

  const Empty: Room := Room(map[], map[])

  function Ring(w: Room, id: MemberId): Keys.KeyRing {
    if id in w.rings then w.rings[id] else Keys.Newcomer(id)
  }

  datatype Event = Event(id: MemberId, what: Keys.Event)

  /** A share reaches a client only if another client sent it; the network may repeat
      it and deliver it at any later time. */
  ghost predicate Enabled(w: Room, ev: Event) {
    ev.what.KeyShare? ==> Shared(w, ev.what.sharer, ev.id, ev.what.epoch, ev.what.key)
  }

  ghost predicate Shared(w: Room, sharer: MemberId, target: MemberId, epoch: nat, key: Bytes) {
    exists x :: x in Ring(w, sharer).keyLog && x.msg.target == target && x.msg.epoch == epoch && x.msg.key == key
  }

  /** The client makes a key of its own in this step. */
  predicate Makes(w: Room, ev: Event) {
    match ev.what
    case MemberInfo(_, creator, _, _) => Keys.Rotates(Ring(w, ev.id), creator)
    case RekeyTimer(_, _) => Ring(w, ev.id).isCreator
    case _ => false
  }

  function Step(suite: Suite, w: Room, ev: Event): Room {
    var ring := Keys.Step(suite, Ring(w, ev.id), ev.what);
    var key := Keys.CurrentKey(ring);
    Room(w.rings[ev.id := ring], if Makes(w, ev) && key.Some? then w.made[ring.current := key.value] else w.made)
  }

  function At(suite: Suite, events: seq<Event>, n: nat): Room
    requires n <= |events|
  {
    if n == 0 then Empty else Step(suite, At(suite, events, n - 1), events[n - 1])
  }

  ghost predicate Possible(suite: Suite, events: seq<Event>, n: nat)
    requires n <= |events|
  {
    forall i :: 0 <= i < n ==> Enabled(At(suite, events, i), events[i])
  }

  /** Only `boss` makes keys. */
  ghost predicate OneMaker(suite: Suite, events: seq<Event>, n: nat, boss: MemberId)
    requires n <= |events|
  {
    forall i :: 0 <= i < n && Makes(At(suite, events, i), events[i]) ==> events[i].id == boss
  }

  // ---- The invariant ----

  /** Everything a client holds or has sent is a key that was made for that epoch, and
      no epoch is ahead of the boss. */
  ghost predicate Honest(w: Room, boss: MemberId, id: MemberId) {
    var k := Ring(w, id);
    && Keys.Inv(k) && k.self == id && k.current <= Ring(w, boss).current
    && (forall e :: e in k.keys ==> e in w.made && w.made[e] == k.keys[e])
    && (forall x :: x in k.keyLog ==> Real(w, x))
  }

  ghost predicate Real(w: Room, x: Keys.Logged<Keys.KeyShareMsg>) {
    0 < x.msg.epoch && x.msg.epoch in w.made && w.made[x.msg.epoch] == x.msg.key
  }

  ghost predicate Inv(w: Room, boss: MemberId) {
    && (forall e :: e in w.made ==> 0 < e <= Ring(w, boss).current)
    && (forall id :: Honest(w, boss, id))
  }

  // ---- What a step sends ----

  /** Every share on record before and after a step of one client is old, or carries the
      group key current before or after it. */
  ghost predicate Sends(k: Keys.KeyRing, k': Keys.KeyRing) {
    forall x :: x in k'.keyLog ==> x in k.keyLog || Carries(k, x.msg) || Carries(k', x.msg)
  }

  ghost predicate Carries(k: Keys.KeyRing, m: Keys.KeyShareMsg) {
    0 < m.epoch == EpochOrOne(k.current) && Keys.CurrentKey(k) == Some(m.key)
  }

  lemma SharedSends(k: Keys.KeyRing)
    ensures Sends(k, Keys.KeyShared(k)) && Keys.KeyShared(k) == k.(keyDone := Keys.KeyShared(k).keyDone, keyLog := Keys.KeyShared(k).keyLog)
  {
    hide Keys.Unserved;
  }

  lemma ChainSharedSends(k: Keys.KeyRing, epoch: nat)
    ensures Keys.ChainShared(k, epoch).keyLog == k.keyLog && Keys.ChainShared(k, epoch).keys == k.keys
  {
    hide Keys.Unserved, Keys.ChainShares;
  }

  lemma AdoptedSends(k: Keys.KeyRing, epoch: nat, key: Bytes, seed: Bytes)
    requires 0 < epoch
    ensures Sends(k, Keys.Adopted(k, epoch, key, seed))
  {
    hide Keys.KeyShared, Keys.ChainShared, Keys.Unserved;
    var blank := k.(keys := k.keys[epoch := key], current := epoch, adopted := epoch, keyDone := {}, era := k.era + 1);
    SharedSends(blank);
    var served := Keys.KeyShared(blank);
    ChainSharedSends(served.(chains := k.chains[epoch := ChainState(seed, 0)], seeds := k.seeds[epoch := ChainState(seed, 0)],
                             chainDone := {}), epoch);
    Keys.AdoptionOutcome(k, epoch, key, seed);
    AdoptedCurrent(k, epoch, key, seed);
  }

  lemma AdoptedCurrent(k: Keys.KeyRing, epoch: nat, key: Bytes, seed: Bytes)
    ensures Keys.Adopted(k, epoch, key, seed).current == epoch
  {
    hide Keys.KeyShares, Keys.ChainShares, Keys.Unserved;
  }

  lemma RekeySends(k: Keys.KeyRing, key: Bytes, seed: Bytes)
    requires Keys.Inv(k)
    ensures Sends(k, Keys.Rekeyed(k, key, seed))
  {
    hide Keys.Adopted, Carries;
    if k.isCreator {
      var next := EpochOrOne(k.current) + 1;
      AdoptedSends(k, next, key, seed);
      Keys.RotationOutcome(k, key, seed);
      Keys.AdoptionOutcome(k, next, key, seed);
      AdoptedCurrent(k, next, key, seed);
      SameCurrent(Keys.Adopted(k, next, key, seed), Keys.Rekeyed(k, key, seed));
    }
  }

  lemma SameCurrent(k: Keys.KeyRing, k': Keys.KeyRing)
    requires k.current == k'.current && Keys.CurrentKey(k) == Keys.CurrentKey(k')
    ensures forall m :: Carries(k, m) <==> Carries(k', m)
  {
  }

  /** The client makes a key of its own when it handles `what`. */
  predicate MakesOwn(k: Keys.KeyRing, what: Keys.Event) {
    (what.MemberInfo? && Keys.Rotates(k, what.creator)) || (what.RekeyTimer? && k.isCreator)
  }

  /** What any step does to a ring: all keys but perhaps the current one were there
      before, and only a key made or a share adopted changes the current one. */
  ghost predicate Outcome(k: Keys.KeyRing, what: Keys.Event, k': Keys.KeyRing) {
    && Keys.Inv(k') && k.current <= k'.current && k'.self == k.self && Sends(k, k')
    && (forall e :: e in k'.keys && (e != k'.current || k'.current == k.current) ==> Kept(k, what, k', e))
    && (if MakesOwn(k, what) then k.current < k'.current && Keys.CurrentKey(k').Some?
        else if what.KeyShare? then k' == k || (k'.current == what.epoch && Keys.CurrentKey(k') == Some(what.key))
        else k'.current == k.current && k'.keys == k.keys)
  }

  ghost predicate Kept(k: Keys.KeyRing, what: Keys.Event, k': Keys.KeyRing, e: nat)
    requires e in k'.keys
  {
    (e in k.keys && k'.keys[e] == k.keys[e]) || (what.KeyShare? && e == what.epoch && k'.keys[e] == what.key)
  }

  lemma ShareHasOutcome(k: Keys.KeyRing, sharer: MemberId, epoch: nat, key: Bytes, seed: Bytes)
    requires Keys.Inv(k) && 0 < epoch
    ensures Outcome(k, Keys.KeyShare(sharer, epoch, key, seed), Keys.AfterKeyShare(k, sharer, epoch, key, seed))
  {
    hide Keys.Adopted, Carries;
    Keys.ShareOutcome(k, sharer, epoch, key, seed);
    AdoptedSends(k, epoch, key, seed);
    if k.current <= epoch { Keys.AdoptKeepsInv(k, epoch, key, seed); }
  }

  lemma RekeyHasOutcome(k: Keys.KeyRing, key: Bytes, seed: Bytes)
    requires Keys.Inv(k)
    ensures Outcome(k, Keys.RekeyTimer(key, seed), Keys.Rekeyed(k, key, seed))
  {
    hide Keys.Rekeyed, Carries;
    Keys.RekeyKeepsInv(k, key, seed);
    Keys.RotationOutcome(k, key, seed);
    Keys.SameClient(k, key, seed);
    RekeySends(k, key, seed);
  }

  lemma MemberInfoHasOutcome(k: Keys.KeyRing, roster: Keys.Roster, creator: bool, key: Bytes, seed: Bytes)
    requires Keys.Inv(k)
    ensures Outcome(k, Keys.MemberInfo(roster, creator, key, seed), Keys.AfterMemberInfo(k, roster, creator, key, seed))
  {
    hide Keys.AfterMemberInfo, Carries;
    Keys.RotatesIff(k, roster, creator, key, seed);
    MemberInfoSends(k, roster, creator, key, seed);
    MemberInfoKeys(k, roster, creator, key, seed);
  }

  lemma MemberInfoKeys(k: Keys.KeyRing, roster: Keys.Roster, creator: bool, key: Bytes, seed: Bytes)
    requires Keys.Inv(k)
    ensures var k' := Keys.AfterMemberInfo(k, roster, creator, key, seed);
            forall e :: e in k'.keys && e != k'.current ==> e in k.keys && k'.keys[e] == k.keys[e]
  {
    hide Keys.Adopted, Keys.Rekeyed, Keys.Unserved, Keys.KeyShares, Keys.ChainShares, Keys.Changed;
    hide Keys.CurrentKey;
    var seen := Keys.AcceptRoster(k, roster, creator);
    Keys.AdoptionOutcome(seen, 1, key, seed);
    AdoptedCurrent(seen, 1, key, seed);
    SharedSends(seen);
    Keys.RotationOutcome(Keys.KeyShared(seen), key, seed);
  }

  lemma MemberInfoSends(k: Keys.KeyRing, roster: Keys.Roster, creator: bool, key: Bytes, seed: Bytes)
    requires Keys.Inv(k)
    ensures Sends(k, Keys.AfterMemberInfo(k, roster, creator, key, seed))
  {
    hide Keys.Adopted, Keys.Rekeyed, Keys.KeyShared, Keys.ChainShared, Keys.Changed, Carries;
    var seen := Keys.AcceptRoster(k, roster, creator);
    var served := Keys.RosterServed(seen, creator, k.isCreator, key, seed);
    ServedSends(seen, creator, k.isCreator, key, seed);
    ChainSharedSends(served, EpochOrOne(served.current));
    ChainSharedSame(served, EpochOrOne(served.current));
    SameCurrent(k, seen);
    SameCurrent(served, Keys.ChainShared(served, EpochOrOne(served.current)));
  }

  lemma ChainSharedSame(k: Keys.KeyRing, epoch: nat)
    ensures Keys.ChainShared(k, epoch).current == k.current && Keys.CurrentKey(Keys.ChainShared(k, epoch)) == Keys.CurrentKey(k)
  {
    hide Keys.Unserved, Keys.ChainShares;
  }

  lemma ServedSends(k: Keys.KeyRing, creator: bool, prev: bool, key: Bytes, seed: Bytes)
    requires Keys.Inv(k)
    ensures Sends(k, Keys.RosterServed(k, creator, prev, key, seed))
  {
    hide Keys.Adopted, Keys.Rekeyed, Keys.KeyShared, Carries;
    SharedSends(k);
    AdoptedSends(k, 1, key, seed);
    var keyed := Keys.KeyShared(k);
    SameCurrent(k, keyed);
    RekeySends(keyed, key, seed);
  }

  lemma StepHasOutcome(suite: Suite, k: Keys.KeyRing, what: Keys.Event)
    requires Keys.Inv(k) && (what.KeyShare? ==> 0 < what.epoch)
    ensures Outcome(k, what, Keys.Step(suite, k, what))
  {
    hide Keys.AfterMemberInfo, Keys.AfterKeyShare, Keys.Rekeyed, Outcome, Advance;
    match what
    case MemberInfo(roster, creator, key, seed) => MemberInfoHasOutcome(k, roster, creator, key, seed);
    case KeyShare(sharer, epoch, key, seed) => ShareHasOutcome(k, sharer, epoch, key, seed);
    case RekeyTimer(key, seed) => RekeyHasOutcome(k, key, seed);
    case SendData(_, _) => SendHasOutcome(suite, k, what);
  }

  lemma SendHasOutcome(suite: Suite, k: Keys.KeyRing, what: Keys.Event)
    requires Keys.Inv(k) && what.SendData?
    ensures Outcome(k, what, Keys.AfterSend(suite, k))
  {
    hide Advance;
  }

  // ---- Whole runs ----

  lemma SharedIsReal(w: Room, boss: MemberId, sharer: MemberId, target: MemberId, epoch: nat, key: Bytes)
    requires Inv(w, boss) && Shared(w, sharer, target, epoch, key)
    ensures 0 < epoch && epoch in w.made && w.made[epoch] == key
  {
    assert Honest(w, boss, sharer);
  }

  /** The acting client stays honest, and what was made only grows at the top. */
  lemma ActorStaysHonest(suite: Suite, w: Room, ev: Event, boss: MemberId)
    requires Inv(w, boss) && Enabled(w, ev) && (Makes(w, ev) ==> ev.id == boss)
    ensures var w' := Step(suite, w, ev);
            && Honest(w', boss, ev.id)
            && Ring(w, boss).current <= Ring(w', boss).current
            && (forall e :: e in w'.made ==> 0 < e <= Ring(w', boss).current)
            && (forall e :: e in w.made ==> e in w'.made && w'.made[e] == w.made[e])
  {
    hide Keys.Step, Sends, Keys.Inv, Keys.CurrentKey, Shared, Real;
    var k, w' := Ring(w, ev.id), Step(suite, w, ev);
    var k' := Ring(w', ev.id);
    assert Honest(w, boss, ev.id) && Honest(w, boss, boss);
    if ev.what.KeyShare? { SharedIsReal(w, boss, ev.what.sharer, ev.id, ev.what.epoch, ev.what.key); }
    StepHasOutcome(suite, k, ev.what);
    CurrentHeld(k);
    CurrentHeld(k');
    forall e | e in k'.keys ensures e in w'.made && w'.made[e] == k'.keys[e] {
      assert e != k'.current || k'.current == k.current ==> Kept(k, ev.what, k', e);
    }
    forall x | x in k'.keyLog ensures Real(w', x) {
      SentIsReal(w, w', k, k', x);
    }
  }

  lemma CurrentHeld(k: Keys.KeyRing)
    requires Keys.Inv(k)
    ensures Keys.CurrentKey(k).Some? <==> 0 < k.current
    ensures 0 < k.current ==> k.current in k.keys && Keys.CurrentKey(k) == Some(k.keys[k.current])
    ensures forall e :: e in k.keys ==> e <= k.current
  {
  }

  lemma SentIsReal(w: Room, w': Room, k: Keys.KeyRing, k': Keys.KeyRing, x: Keys.Logged<Keys.KeyShareMsg>)
    requires Keys.Inv(k) && Keys.Inv(k') && Sends(k, k') && x in k'.keyLog
    requires forall y :: y in k.keyLog ==> Real(w, y)
    requires forall e :: e in w.made ==> e in w'.made && w'.made[e] == w.made[e]
    requires forall e :: e in k.keys ==> e in w.made && w.made[e] == k.keys[e]
    requires forall e :: e in k'.keys ==> e in w'.made && w'.made[e] == k'.keys[e]
    ensures Real(w', x)
  {
    CurrentHeld(k);
    CurrentHeld(k');
    assert x in k.keyLog || Carries(k, x.msg) || Carries(k', x.msg);
  }

  lemma StepKeepsInv(suite: Suite, w: Room, ev: Event, boss: MemberId)
    requires Inv(w, boss) && Enabled(w, ev) && (Makes(w, ev) ==> ev.id == boss)
    ensures Inv(Step(suite, w, ev), boss)
  {
    hide Keys.Inv, Keys.Step;
    var w' := Step(suite, w, ev);
    ActorStaysHonest(suite, w, ev, boss);
    forall id ensures Honest(w', boss, id) {
      assert Honest(w, boss, id);
      if id != ev.id {
        assert Ring(w', id) == Ring(w, id);
        forall x | x in Ring(w, id).keyLog ensures Real(w', x) { assert Real(w, x); }
      }
    }
  }

  lemma {:induction false} AlwaysHonest(suite: Suite, events: seq<Event>, n: nat, boss: MemberId)
    requires n <= |events| && Possible(suite, events, n) && OneMaker(suite, events, n, boss)
    ensures Inv(At(suite, events, n), boss)
  {
    hide Step, Inv, Enabled, Makes;
    if n > 0 {
      AlwaysHonest(suite, events, n - 1, boss);
      StepKeepsInv(suite, At(suite, events, n - 1), events[n - 1], boss);
    } else {
      EmptyIsHonest(boss);
    }
  }

  lemma EmptyIsHonest(boss: MemberId)
    ensures Inv(Empty, boss)
  {
    forall id ensures Honest(Empty, boss, id) {}
  }

  /** In every run in which one client makes the keys, whatever is lost, repeated or
      reordered: any two clients of the same epoch hold the same group key, and nobody
      is ahead of the client that makes them. */
  lemma SameEpochSameKey(suite: Suite, events: seq<Event>, n: nat, boss: MemberId, a: MemberId, b: MemberId)
    requires n <= |events| && Possible(suite, events, n) && OneMaker(suite, events, n, boss)
    ensures var w := At(suite, events, n);
            && Ring(w, a).current <= Ring(w, boss).current
            && (Ring(w, a).current == Ring(w, b).current ==> Keys.CurrentKey(Ring(w, a)) == Keys.CurrentKey(Ring(w, b)))
  {
    hide At, Keys.Inv, Real;
    AlwaysHonest(suite, events, n, boss);
    var w := At(suite, events, n);
    assert Honest(w, boss, a) && Honest(w, boss, b);
    CurrentHeld(Ring(w, a));
    CurrentHeld(Ring(w, b));
  }

  /** And once a client has been given, by a listed member, a share of the epoch that
      the maker is in, it holds the maker's key. */
  lemma ShareBringsAgreement(suite: Suite, events: seq<Event>, n: nat, boss: MemberId)
    requires n < |events| && Possible(suite, events, n + 1) && OneMaker(suite, events, n + 1, boss)
    requires var w, ev := At(suite, events, n), events[n];
             && ev.what.KeyShare? && ev.what.epoch == Ring(w, boss).current
             && Ring(w, ev.id).roster.Some? && ev.what.sharer in Ring(w, ev.id).roster.value
    ensures var w', id := At(suite, events, n + 1), events[n].id;
            && Ring(w', id).current == Ring(w', boss).current
            && Keys.CurrentKey(Ring(w', id)) == Keys.CurrentKey(Ring(w', boss))
            && Keys.CurrentKey(Ring(w', id)).Some?
  {
    hide Keys.Inv, Keys.AfterKeyShare, Real, Keys.CurrentKey;
    var w, ev := At(suite, events, n), events[n];
    var w' := At(suite, events, n + 1);
    AlwaysHonest(suite, events, n, boss);
    AlwaysHonest(suite, events, n + 1, boss);
    assert Enabled(w, ev);
    SharedIsReal(w, boss, ev.what.sharer, ev.id, ev.what.epoch, ev.what.key);
    assert Honest(w, boss, ev.id) && Honest(w, boss, boss);
    CurrentHeld(Ring(w, ev.id));
    CurrentHeld(Ring(w, boss));
    Keys.ShareOutcome(Ring(w, ev.id), ev.what.sharer, ev.what.epoch, ev.what.key, ev.what.seed);
    assert w' == Step(suite, w, ev);
    SameEpochSameKey(suite, events, n + 1, boss, ev.id, boss);
    assert Honest(w', boss, ev.id);
    CurrentHeld(Ring(w', ev.id));
  }

  // ---- Two makers ----

  /** Two clients that each take themselves for the creator of a new room, and then get
      each other's share. */
  function TwoMakers(a: Bytes, b: Bytes, x: Bytes, y: Bytes, seed: Bytes): seq<Event> {
    var roster: Keys.Roster := map[1 := a, 2 := b];
    [Event(1, Keys.MemberInfo(roster, true, x, seed)), Event(2, Keys.MemberInfo(roster, true, y, seed)),
     Event(1, Keys.KeyShare(2, 1, y, seed)), Event(2, Keys.KeyShare(1, 1, x, seed))]
  }

  lemma MakerServes(id: MemberId, other: MemberId, roster: Keys.Roster, key: Bytes, seed: Bytes)
    requires id in roster && other in roster && id != other
    ensures var k := Keys.AfterMemberInfo(Keys.Newcomer(id), roster, true, key, seed);
            && Keys.Inv(k) && k.current == 1 && Keys.CurrentKey(k) == Some(key) && k.roster == Some(roster)
            && Keys.Logged(1, Keys.KeyShareMsg(other, roster[other], 1, key)) in k.keyLog
  {
    hide Keys.ChainShares;
    Keys.RotatesIff(Keys.Newcomer(id), roster, true, key, seed);
    var ids := Keys.Unserved(roster, id, {});
    assert Keys.Logged(1, Keys.KeyShareMsg(other, roster[other], 1, key)) in Keys.KeyShares(ids, roster, 1, key, 1);
  }

  lemma ShareKeepsLog(k: Keys.KeyRing, sharer: MemberId, epoch: nat, key: Bytes, seed: Bytes)
    ensures k.keyLog <= Keys.AfterKeyShare(k, sharer, epoch, key, seed).keyLog
  {
    hide Keys.Unserved, Keys.KeyShares, Keys.ChainShares;
  }

  lemma MakersStart(suite: Suite, a: Bytes, b: Bytes, x: Bytes, y: Bytes, seed: Bytes)
    ensures var events := TwoMakers(a, b, x, y, seed);
            var roster: Keys.Roster := map[1 := a, 2 := b];
            var w := At(suite, events, 2);
            && Ring(w, 1) == Keys.AfterMemberInfo(Keys.Newcomer(1), roster, true, x, seed)
            && Ring(w, 2) == Keys.AfterMemberInfo(Keys.Newcomer(2), roster, true, y, seed)
  {
    hide Keys.AfterMemberInfo, Keys.CurrentKey;
    var events := TwoMakers(a, b, x, y, seed);
    assert At(suite, events, 0) == Empty;
    assert At(suite, events, 1) == Step(suite, Empty, events[0]);
    assert At(suite, events, 2) == Step(suite, At(suite, events, 1), events[1]);
  }

  /** They end up with each other's key: each gives up its own for the other's. */
  lemma MakersSwapKeys(suite: Suite, a: Bytes, b: Bytes, x: Bytes, y: Bytes, seed: Bytes)
    requires x != y
    ensures var events := TwoMakers(a, b, x, y, seed);
            var w := At(suite, events, 4);
            && Possible(suite, events, 4)
            && Ring(w, 1).current == 1 == Ring(w, 2).current
            && Keys.CurrentKey(Ring(w, 1)) == Some(y) && Keys.CurrentKey(Ring(w, 2)) == Some(x)
  {
    hide Keys.AfterMemberInfo, Keys.AfterKeyShare, Keys.CurrentKey, Keys.Inv, Makes;
    var events := TwoMakers(a, b, x, y, seed);
    var roster: Keys.Roster := map[1 := a, 2 := b];
    var w2, w3, w4 := At(suite, events, 2), At(suite, events, 3), At(suite, events, 4);
    assert w3 == Step(suite, w2, events[2]) && w4 == Step(suite, w3, events[3]);
    MakersStart(suite, a, b, x, y, seed);
    MakerServes(1, 2, roster, x, seed);
    MakerServes(2, 1, roster, y, seed);
    SharedBy(w2, 2, Keys.Logged(1, Keys.KeyShareMsg(1, a, 1, y)));
    Keys.ShareOutcome(Ring(w2, 1), 2, 1, y, seed);
    ShareKeepsLog(Ring(w2, 1), 2, 1, y, seed);
    SharedBy(w3, 1, Keys.Logged(1, Keys.KeyShareMsg(2, b, 1, x)));
    Keys.ShareOutcome(Ring(w3, 2), 1, 1, x, seed);
  }

  lemma SharedBy(w: Room, sharer: MemberId, x: Keys.Logged<Keys.KeyShareMsg>)
    requires x in Ring(w, sharer).keyLog
    ensures Shared(w, sharer, x.msg.target, x.msg.epoch, x.msg.key)
  {
  }
}
