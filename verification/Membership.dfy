/** The relay's rooms: transport groups, routing, registered members, creators and
    successor election. */
module Membership {
  import opened Primitives

  type ConvId = nat
  type SenderId = nat
  type PeerId = nat   // a transport connection

  datatype Rooms = Rooms(
    groups: map<ConvId, seq<PeerId>>,
    routes: map<ConvId, map<SenderId, PeerId>>,   // never pruned
    members: map<ConvId, map<SenderId, Bytes>>,   // public keys
    creator: map<ConvId, SenderId>,
    identity: map<PeerId, SenderId>               // learned from control packets
  )

  const NoRooms: Rooms := Rooms(map[], map[], map[], map[], map[])

  // ---- Steps ----

  function GroupOf(s: Rooms, c: ConvId): seq<PeerId> {
    if c in s.groups then s.groups[c] else []
  }

  /** Any packet puts its peer into the conversation's group. */
  function JoinGroup(s: Rooms, c: ConvId, p: PeerId): Rooms {
    var g := GroupOf(s, c);
    s.(groups := s.groups[c := if p in g then g else g + [p]])
  }

  /** A control packet also teaches the relay who is behind the peer. */
  function Learn(s: Rooms, c: ConvId, p: PeerId, id: SenderId): Rooms {
    var r := if c in s.routes then s.routes[c] else map[];
    JoinGroup(s, c, p).(identity := s.identity[p := id], routes := s.routes[c := r[id := p]])
  }

  /** Registration: the first member of a room is its creator; a creator without a
      route would be replaced; the latest key of a member wins. */
  function Register(s: Rooms, c: ConvId, id: SenderId, key: Bytes): Rooms {
    var room := if c !in s.members then s.(members := s.members[c := map[]], creator := s.creator[c := id]) else s;
    var led := if c !in room.creator || c !in room.routes || room.creator[c] !in room.routes[c]
               then room.(creator := room.creator[c := id]) else room;
    var roster: map<SenderId, Bytes> := led.members[c][id := key];
    led.(members := led.members[c := roster])
  }

  function KeyReq(s: Rooms, c: ConvId, p: PeerId, id: SenderId, key: Bytes): Rooms {
    Register(Learn(s, c, p, id), c, id, key)
  }

  function Without(g: seq<PeerId>, p: PeerId): seq<PeerId> {
    if g == [] then []
    else Without(g[..|g| - 1], p) + (if g[|g| - 1] == p then [] else [g[|g| - 1]])
  }

  /** The rooms whose group the peer was in. */
  function Rooming(s: Rooms, p: PeerId): set<ConvId> {
    set c | c in s.groups && p in s.groups[c]
  }

  predicate IsLeast(x: SenderId, ids: set<SenderId>) {
    x in ids && forall y :: y in ids ==> x <= y
  }

  /** One member out of one room: the creator is replaced by the smallest remaining
      id, and an empty room is dropped with its creator. */
  ghost predicate Departed(s: Rooms, s': Rooms, c: ConvId, id: SenderId) {
    if c !in s.members then
      (c in s'.members <==> c in s.members) && (c in s'.creator <==> c in s.creator) &&
      (c in s.creator ==> s'.creator[c] == s.creator[c])
    else
      var rest := s.members[c] - {id};
      && (c in s'.members <==> rest != map[])
      && (rest != map[] ==> s'.members[c] == rest)
      && (if c in s.creator && s.creator[c] == id then
            if rest == map[] then c !in s'.creator else c in s'.creator && IsLeast(s'.creator[c], rest.Keys)
          else (c in s'.creator <==> c in s.creator) && (c in s.creator ==> s'.creator[c] == s.creator[c]))
  }

  ghost predicate Untouched(s: Rooms, s': Rooms, c: ConvId) {
    && (c in s'.members <==> c in s.members) && (c in s.members ==> s'.members[c] == s.members[c])
    && (c in s'.creator <==> c in s.creator) && (c in s.creator ==> s'.creator[c] == s.creator[c])
  }

  /** The peer's connection closes and the departure reaches the rooms in `done`. */
  ghost predicate Closed(s: Rooms, s': Rooms, p: PeerId, done: set<ConvId>) {
    && done <= Rooming(s, p)
    && s'.groups.Keys == s.groups.Keys && (forall c :: c in s.groups ==> s'.groups[c] == Without(s.groups[c], p))
    && s'.routes == s.routes && s'.identity == s.identity
    && (if p in s.identity then Leaving(s, s', s.identity[p], done) else forall c :: Untouched(s, s', c))
  }

  // ---- The invariant ----

  ghost predicate RoomOk(s: Rooms, c: ConvId) {
    && (c in s.members <==> c in s.creator)
    && (c in s.members ==>
          && s.members[c] != map[]
          && s.creator[c] in s.members[c]
          && c in s.routes && s.members[c].Keys <= s.routes[c].Keys)
  }

  ghost predicate Inv(s: Rooms) {
    forall c :: RoomOk(s, c)
  }

  lemma LearnKeeps(s: Rooms, c: ConvId, p: PeerId, id: SenderId)
    requires Inv(s)
    ensures Inv(Learn(s, c, p, id))
  {
    forall d ensures RoomOk(Learn(s, c, p, id), d) { assert RoomOk(s, d); }
  }

  lemma JoinKeeps(s: Rooms, c: ConvId, p: PeerId)
    requires Inv(s)
    ensures Inv(JoinGroup(s, c, p))
  {
    forall d ensures RoomOk(JoinGroup(s, c, p), d) { assert RoomOk(s, d); }
  }

  /** A recorded creator always has a route, because routes are never pruned: the
      replacement of an unreachable creator cannot happen. */
  lemma CreatorIsRouted(s: Rooms, c: ConvId, p: PeerId, id: SenderId, key: Bytes)
    requires Inv(s)
    ensures c in s.members ==> KeyReq(s, c, p, id, key).creator == s.creator
    ensures c !in s.members ==> KeyReq(s, c, p, id, key).creator == s.creator[c := id]
  {
    assert RoomOk(s, c);
  }

  lemma KeyReqKeeps(s: Rooms, c: ConvId, p: PeerId, id: SenderId, key: Bytes)
    requires Inv(s)
    ensures Inv(KeyReq(s, c, p, id, key))
  {
    CreatorIsRouted(s, c, p, id, key);
    var s' := KeyReq(s, c, p, id, key);
    forall d ensures RoomOk(s', d) {
      assert RoomOk(s, d);
      assert RoomOk(s, c);
      if d == c { assert id in s'.members[c]; }
    }
  }

  lemma ClosedKeeps(s: Rooms, s': Rooms, p: PeerId, done: set<ConvId>)
    requires Inv(s) && Closed(s, s', p, done)
    ensures Inv(s')
  {
    forall c ensures RoomOk(s', c) {
      assert RoomOk(s, c);
      assert if p in s.identity && c in done then Departed(s, s', c, s.identity[p]) else Untouched(s, s', c);
      if p in s.identity && c in done && c in s.members {
        var id := s.identity[p];
        if s.creator[c] != id { assert s.creator[c] in s.members[c] - {id}; }
      }
    }
  }

  /** When the creator leaves a room that others remain in, the smallest of them
      takes over. */
  lemma SuccessorIsSmallest(s: Rooms, s': Rooms, p: PeerId, done: set<ConvId>, c: ConvId)
    requires Inv(s) && Closed(s, s', p, done) && p in s.identity && c in done && c in s.creator && c in s.members
    requires s.creator[c] == s.identity[p] && s.members[c].Keys != {s.identity[p]}
    ensures c in s'.members && c in s'.creator && IsLeast(s'.creator[c], s'.members[c].Keys)
    ensures s'.members[c].Keys == s.members[c].Keys - {s.identity[p]}
  {
    assert RoomOk(s, c);
    var id := s.identity[p];
    assert Departed(s, s', c, id);
    assert s.members[c].Keys - {id} != {};
    assert (s.members[c] - {id}).Keys == s.members[c].Keys - {id};
  }

  // ---- Whole runs ----

  datatype Event =
    | Data(c: ConvId, p: PeerId)
    | Control(c: ConvId, p: PeerId, id: SenderId)
    | Request(c: ConvId, p: PeerId, id: SenderId, key: Bytes)
    | Close(p: PeerId, done: set<ConvId>)

  /** One step; a departure reaches all the rooms it should unless a key is invalid. */
  ghost predicate Next(valid: Bytes -> bool, s: Rooms, s': Rooms, ev: Event) {
    match ev
    case Data(c, p) => s' == JoinGroup(s, c, p)
    case Control(c, p, id) => s' == Learn(s, c, p, id)
    case Request(c, p, id, key) => s' == KeyReq(s, c, p, id, key)
    case Close(p, done) =>
      Closed(s, s', p, done) && (p in s.identity && (forall c :: RoomKeysValid(valid, s, c)) ==> done == Rooming(s, p))
  }

  ghost predicate IsRun(valid: Bytes -> bool, states: seq<Rooms>, events: seq<Event>) {
    && |states| == |events| + 1 && states[0] == NoRooms
    && forall i :: 0 <= i < |events| ==> Next(valid, states[i], states[i + 1], events[i])
  }

  /** In every reachable state rooms with members are the rooms with a creator, no
      room is empty, the creator is a member and every member has a route. */
  lemma {:induction false} RoomsStayConsistent(valid: Bytes -> bool, states: seq<Rooms>, events: seq<Event>, n: nat)
    requires IsRun(valid, states, events) && n < |states|
    ensures Inv(states[n])
  {
    if n > 0 {
      RoomsStayConsistent(valid, states, events, n - 1);
      var s, s', ev := states[n - 1], states[n], events[n - 1];
      assert Next(valid, s, s', ev);
      match ev
      case Data(c, p) => JoinKeeps(s, c, p);
      case Control(c, p, id) => LearnKeeps(s, c, p, id);
      case Request(c, p, id, key) => KeyReqKeeps(s, c, p, id, key);
      case Close(p, done) => ClosedKeeps(s, s', p, done);
    }
  }

  // ---- Who is where, from the packets alone ----

  /** Peer `p` has sent a packet for conversation `c` since it last closed. */
  predicate Spoke(events: seq<Event>, n: nat, p: PeerId, c: ConvId)
    requires n <= |events|
  {
    n > 0 &&
    match events[n - 1]
    case Close(q, _) => q != p && Spoke(events, n - 1, p, c)
    case Data(d, q) => (q == p && d == c) || Spoke(events, n - 1, p, c)
    case Control(d, q, _) => (q == p && d == c) || Spoke(events, n - 1, p, c)
    case Request(d, q, _, _) => (q == p && d == c) || Spoke(events, n - 1, p, c)
  }

  /** The id peer `p` last gave in a control packet. */
  function LastId(events: seq<Event>, n: nat, p: PeerId): Option<SenderId>
    requires n <= |events|
  {
    if n == 0 then None
    else
      match events[n - 1]
      case Control(_, q, id) => if q == p then Some(id) else LastId(events, n - 1, p)
      case Request(_, q, id, _) => if q == p then Some(id) else LastId(events, n - 1, p)
      case _ => LastId(events, n - 1, p)
  }

  /** The peer that last gave id `id` in a control packet for `c`. */
  function LastPeer(events: seq<Event>, n: nat, c: ConvId, id: SenderId): Option<PeerId>
    requires n <= |events|
  {
    if n == 0 then None
    else
      match events[n - 1]
      case Control(d, q, x) => if d == c && x == id then Some(q) else LastPeer(events, n - 1, c, id)
      case Request(d, q, x, _) => if d == c && x == id then Some(q) else LastPeer(events, n - 1, c, id)
      case _ => LastPeer(events, n - 1, c, id)
  }

  /** The key under which `id` is registered in `c`: that of its last registration,
      unless a peer that went by `id` and had spoken in `c` has closed since. */
  function Registered(events: seq<Event>, n: nat, c: ConvId, id: SenderId): Option<Bytes>
    requires n <= |events|
  {
    if n == 0 then None
    else
      match events[n - 1]
      case Request(d, _, x, key) => if d == c && x == id then Some(key) else Registered(events, n - 1, c, id)
      case Close(q, _) =>
        if LastId(events, n - 1, q) == Some(id) && Spoke(events, n - 1, q, c) then None else Registered(events, n - 1, c, id)
      case _ => Registered(events, n - 1, c, id)
  }

  /** How often `p` stands in `g`. */
  function Count(g: seq<PeerId>, p: PeerId): nat {
    if g == [] then 0 else Count(g[..|g| - 1], p) + (if g[|g| - 1] == p then 1 else 0)
  }

  lemma {:induction false} CountIsIn(g: seq<PeerId>, p: PeerId)
    ensures p in g <==> Count(g, p) > 0
  {
    if g != [] {
      CountIsIn(g[..|g| - 1], p);
      assert g == g[..|g| - 1] + [g[|g| - 1]];
    }
  }

  lemma CountAppend(g: seq<PeerId>, x: PeerId, p: PeerId)
    ensures Count(g + [x], p) == Count(g, p) + (if x == p then 1 else 0)
  {
    assert (g + [x])[..|g|] == g;
  }

  lemma {:induction false} WithoutCounts(g: seq<PeerId>, p: PeerId, q: PeerId)
    ensures Count(Without(g, p), q) == if q == p then 0 else Count(g, q)
  {
    if g != [] {
      var n := |g| - 1;
      WithoutCounts(g[..n], p, q);
      var rest := Without(g[..n], p);
      CountAppend(rest, g[n], q);
      assert Without(g, p) == if g[n] == p then rest else rest + [g[n]];
    }
  }

  lemma JoinCounts(s: Rooms, c: ConvId, p: PeerId, d: ConvId, q: PeerId)
    requires Count(GroupOf(s, c), p) <= 1
    ensures Count(GroupOf(JoinGroup(s, c, p), d), q) == if d == c && q == p then 1 else Count(GroupOf(s, d), q)
  {
    var g := GroupOf(s, c);
    hide Count;
    CountIsIn(g, p);
    CountAppend(g, p, q);
  }

  /** A peer is in a conversation's group, and then once, exactly if it has sent a packet
      for it since it last closed. */
  lemma {:induction false} GroupIff(valid: Bytes -> bool, states: seq<Rooms>, events: seq<Event>, n: nat, p: PeerId, c: ConvId)
    requires IsRun(valid, states, events) && n < |states|
    ensures Count(GroupOf(states[n], c), p) == if Spoke(events, n, p, c) then 1 else 0
  {
    hide Without, KeyReq, Learn, JoinGroup, Closed;
    if n > 0 {
      var s, s', ev := states[n - 1], states[n], events[n - 1];
      assert Next(valid, s, s', ev);
      GroupIff(valid, states, events, n - 1, p, c);
      if ev.Close? {
        CloseCounts(s, s', ev.p, ev.done, p, c);
      } else {
        GroupIff(valid, states, events, n - 1, ev.p, ev.c);
        JoinCounts(s, ev.c, ev.p, c, p);
        LearnGroups(s, ev, c);
      }
    }
  }

  lemma CloseCounts(s: Rooms, s': Rooms, q: PeerId, done: set<ConvId>, p: PeerId, c: ConvId)
    requires Closed(s, s', q, done)
    ensures Count(GroupOf(s', c), p) == if p == q then 0 else Count(GroupOf(s, c), p)
  {
    hide Without, Leaving, Untouched;
    WithoutCounts(GroupOf(s, c), q, p);
    if c !in s.groups { assert GroupOf(s', c) == []; }
  }

  lemma LearnGroups(s: Rooms, ev: Event, c: ConvId)
    requires !ev.Close?
    ensures ev.Control? ==> GroupOf(Learn(s, ev.c, ev.p, ev.id), c) == GroupOf(JoinGroup(s, ev.c, ev.p), c)
    ensures ev.Request? ==> GroupOf(KeyReq(s, ev.c, ev.p, ev.id, ev.key), c) == GroupOf(JoinGroup(s, ev.c, ev.p), c)
  {
  }

  function Lookup<K, V>(m: map<K, V>, k: K): Option<V> {
    if k in m then Some(m[k]) else None
  }

  function RouteOf(s: Rooms, c: ConvId, id: SenderId): Option<PeerId> {
    if c in s.routes then Lookup(s.routes[c], id) else None
  }

  function KeyOf(s: Rooms, c: ConvId, id: SenderId): Option<Bytes> {
    if c in s.members then Lookup(s.members[c], id) else None
  }

  /** The latest control packet decides who is behind a peer and where a member is
      reached; neither is ever forgotten. */
  lemma {:induction false} LatestWins(valid: Bytes -> bool, states: seq<Rooms>, events: seq<Event>, n: nat, p: PeerId, c: ConvId, id: SenderId)
    requires IsRun(valid, states, events) && n < |states|
    ensures Lookup(states[n].identity, p) == LastId(events, n, p)
    ensures RouteOf(states[n], c, id) == LastPeer(events, n, c, id)
  {
    hide Closed, KeyReq, Learn, JoinGroup, RoomKeysValid;
    if n > 0 {
      var s, s', ev := states[n - 1], states[n], events[n - 1];
      LatestWins(valid, states, events, n - 1, p, c, id);
      assert Next(valid, s, s', ev);
      if ev.Close? {
        CloseForgetsNothing(s, s', ev.p, ev.done, c, id);
      } else {
        LearnsLatest(s, ev, p, c, id);
      }
    }
  }

  lemma CloseForgetsNothing(s: Rooms, s': Rooms, q: PeerId, done: set<ConvId>, c: ConvId, id: SenderId)
    requires Closed(s, s', q, done)
    ensures s'.identity == s.identity && RouteOf(s', c, id) == RouteOf(s, c, id)
  {
    hide Without, Leaving, Untouched;
  }

  lemma LearnsLatest(s: Rooms, ev: Event, p: PeerId, c: ConvId, id: SenderId)
    requires !ev.Close?
    ensures var s' := JoinGroup(s, ev.c, ev.p); s'.identity == s.identity && RouteOf(s', c, id) == RouteOf(s, c, id)
    ensures ev.Control? ==> Learned(s, Learn(s, ev.c, ev.p, ev.id), ev.c, ev.p, ev.id, p, c, id)
    ensures ev.Request? ==> Learned(s, KeyReq(s, ev.c, ev.p, ev.id, ev.key), ev.c, ev.p, ev.id, p, c, id)
  {
  }

  /** The packet for `d` from peer `q` under id `x` is the latest word on both. */
  predicate Learned(s: Rooms, s': Rooms, d: ConvId, q: PeerId, x: SenderId, p: PeerId, c: ConvId, id: SenderId) {
    && Lookup(s'.identity, p) == (if p == q then Some(x) else Lookup(s.identity, p))
    && RouteOf(s', c, id) == (if c == d && id == x then Some(q) else RouteOf(s, c, id))
  }

  lemma {:induction false} KeysAlwaysValid(valid: Bytes -> bool, states: seq<Rooms>, events: seq<Event>, n: nat)
    requires IsRun(valid, states, events) && n < |states|
    requires forall i :: 0 <= i < n && events[i].Request? ==> valid(events[i].key)
    ensures forall c :: RoomKeysValid(valid, states[n], c)
  {
    hide RoomKeysValid, Closed, KeyReq, Learn, JoinGroup;
    if n > 0 {
      KeysAlwaysValid(valid, states, events, n - 1);
      var s, s', ev := states[n - 1], states[n], events[n - 1];
      assert Next(valid, s, s', ev);
      forall c ensures RoomKeysValid(valid, s', c) { NextKeysValid(valid, s, s', ev, c); }
    } else {
      NoKeys(valid);
    }
  }

  lemma NoKeys(valid: Bytes -> bool)
    ensures forall c :: RoomKeysValid(valid, NoRooms, c)
  {
  }

  lemma NextKeysValid(valid: Bytes -> bool, s: Rooms, s': Rooms, ev: Event, c: ConvId)
    requires Next(valid, s, s', ev) && RoomKeysValid(valid, s, c) && (ev.Request? ==> valid(ev.key))
    ensures RoomKeysValid(valid, s', c)
  {
    hide Without, KeyReq, Learn, JoinGroup, Departed;
    if ev.Close? {
      if ev.p in s.identity {
        KeysStayValid(valid, s, s', s.identity[ev.p], ev.done, c);
      } else {
        assert Untouched(s, s', c);
      }
    } else {
      RegisterKeysValid(valid, s, ev, c);
    }
  }

  lemma RegisterKeysValid(valid: Bytes -> bool, s: Rooms, ev: Event, c: ConvId)
    requires !ev.Close? && RoomKeysValid(valid, s, c) && (ev.Request? ==> valid(ev.key))
    ensures RoomKeysValid(valid, JoinGroup(s, ev.c, ev.p), c)
    ensures ev.Control? ==> RoomKeysValid(valid, Learn(s, ev.c, ev.p, ev.id), c)
    ensures ev.Request? ==> RoomKeysValid(valid, KeyReq(s, ev.c, ev.p, ev.id, ev.key), c)
  {
  }

  /** With valid keys, the roster of every room is what the packets say: `id` is in it,
      under the key of its last registration, unless a peer that last went by `id` and
      had spoken in the room has closed since. */
  lemma {:induction false} MemberIff(valid: Bytes -> bool, states: seq<Rooms>, events: seq<Event>, n: nat, c: ConvId, id: SenderId)
    requires IsRun(valid, states, events) && n < |states|
    requires forall i :: 0 <= i < n && events[i].Request? ==> valid(events[i].key)
    ensures KeyOf(states[n], c, id) == Registered(events, n, c, id)
  {
    hide Closed, KeyReq, Learn, JoinGroup, Spoke, LastId, RoomKeysValid;
    if n > 0 {
      var s, s', ev := states[n - 1], states[n], events[n - 1];
      assert Next(valid, s, s', ev);
      MemberIff(valid, states, events, n - 1, c, id);
      if ev.Close? {
        KeysAlwaysValid(valid, states, events, n - 1);
        GroupIff(valid, states, events, n - 1, ev.p, c);
        LatestWins(valid, states, events, n - 1, ev.p, c, id);
        CloseMembers(s, s', ev.p, ev.done, c, id);
      } else {
        LearnMembers(s, ev, c, id);
      }
    }
  }

  /** So when a peer closes, the member it last went by is gone from every room it had
      spoken in, and nobody else is gone from any room. */
  lemma CloseEndsMembership(valid: Bytes -> bool, states: seq<Rooms>, events: seq<Event>, n: nat, c: ConvId, id: SenderId)
    requires IsRun(valid, states, events) && n < |events| && events[n].Close?
    requires forall i :: 0 <= i < n && events[i].Request? ==> valid(events[i].key)
    ensures KeyOf(states[n + 1], c, id) ==
            if LastId(events, n, events[n].p) == Some(id) && Spoke(events, n, events[n].p, c) then None
            else KeyOf(states[n], c, id)
  {
    hide Next, LastId, Spoke;
    MemberIff(valid, states, events, n, c, id);
    MemberIff(valid, states, events, n + 1, c, id);
  }

  lemma LearnMembers(s: Rooms, ev: Event, c: ConvId, id: SenderId)
    requires !ev.Close?
    ensures KeyOf(JoinGroup(s, ev.c, ev.p), c, id) == KeyOf(s, c, id)
    ensures ev.Control? ==> KeyOf(Learn(s, ev.c, ev.p, ev.id), c, id) == KeyOf(s, c, id)
    ensures ev.Request? ==> KeyOf(KeyReq(s, ev.c, ev.p, ev.id, ev.key), c, id) ==
                            if c == ev.c && id == ev.id then Some(ev.key) else KeyOf(s, c, id)
  {
  }

  lemma CloseMembers(s: Rooms, s': Rooms, p: PeerId, done: set<ConvId>, c: ConvId, id: SenderId)
    requires Closed(s, s', p, done) && (p in s.identity ==> done == Rooming(s, p))
    ensures KeyOf(s', c, id) ==
            if Lookup(s.identity, p) == Some(id) && Count(GroupOf(s, c), p) > 0 then None else KeyOf(s, c, id)
  {
    hide Without;
    CountIsIn(GroupOf(s, c), p);
    assert c in Rooming(s, p) <==> p in GroupOf(s, c);
    assert if p in s.identity && c in done then Departed(s, s', c, s.identity[p]) else Untouched(s, s', c);
    if p in s.identity && c in done && c in s.members {
      var rest := s.members[c] - {s.identity[p]};
      assert id in rest <==> id in s.members[c] && id != s.identity[p];
      assert id in rest ==> rest != map[];
    }
  }

  // ---- Roster broadcasts ----

  /** A MEMBER_INFO for one member. */
  datatype Info = Info(to: PeerId, id: SenderId, creator: bool, roster: map<SenderId, Bytes>)

  ghost predicate InfoFor(s: Rooms, c: ConvId, info: Info) {
    && c in s.members && c in s.routes && info.id in s.members[c] && info.id in s.routes[c]
    && info == Info(s.routes[c][info.id], info.id, c in s.creator && s.creator[c] == info.id, s.members[c])
  }

  /** `infos` is one correct MEMBER_INFO for each routed member in `told`. */
  ghost predicate Informs(s: Rooms, c: ConvId, infos: seq<Info>, told: set<SenderId>) {
    && (forall i :: 0 <= i < |infos| ==> infos[i].id in told && InfoFor(s, c, infos[i]))
    && (forall i, j :: 0 <= i < j < |infos| ==> infos[i].id != infos[j].id)
    && (forall id :: id in told && c in s.routes && id in s.routes[c] ==> Told(infos, id))
  }

  ghost predicate Told(infos: seq<Info>, id: SenderId) {
    exists i :: 0 <= i < |infos| && infos[i].id == id
  }

  /** A complete broadcast marks exactly one member as creator: the recorded one. */
  lemma OneCreatorMarked(s: Rooms, c: ConvId, infos: seq<Info>) returns (i: nat)
    requires Inv(s) && c in s.members && Informs(s, c, infos, s.members[c].Keys)
    ensures i < |infos| && infos[i].creator && infos[i].id == s.creator[c]
    ensures forall j :: 0 <= j < |infos| && infos[j].creator ==> j == i
    ensures |infos| == |s.members[c]|
  {
    assert RoomOk(s, c);
    assert Told(infos, s.creator[c]);
    i :| 0 <= i < |infos| && infos[i].id == s.creator[c];
    forall j | 0 <= j < |infos| && infos[j].creator ensures j == i {
      assert InfoFor(s, c, infos[j]);
    }
    assert forall id :: id in s.members[c].Keys ==> Told(infos, id);
    CountTold(infos, s.members[c].Keys);
  }

  lemma {:induction false} CountTold(infos: seq<Info>, ids: set<SenderId>)
    requires forall i :: 0 <= i < |infos| ==> infos[i].id in ids
    requires forall i, j :: 0 <= i < j < |infos| ==> infos[i].id != infos[j].id
    requires forall id :: id in ids ==> Told(infos, id)
    ensures |infos| == |ids|
  {
    if infos == [] {
      assert forall id :: id in ids ==> Told(infos, id);
      assert forall id :: Told(infos, id) ==> |infos| > 0;
    } else {
      var n := |infos| - 1;
      var rest, id := infos[..n], infos[n].id;
      forall x | x in ids - {id} ensures Told(rest, x) {
        assert Told(infos, x);
        var i :| 0 <= i < |infos| && infos[i].id == x;
        assert rest[i].id == x;
      }
      CountTold(rest, ids - {id});
    }
  }

  ghost predicate RoomKeysValid(valid: Bytes -> bool, s: Rooms, c: ConvId) {
    c in s.members ==> forall id :: id in s.members[c] ==> valid(s.members[c][id])
  }

  /** `infos` is the broadcast to room `c`: complete if all its keys are valid, and
      nothing for a room that is gone. */
  ghost predicate Announced(valid: Bytes -> bool, s: Rooms, c: ConvId, infos: seq<Info>) {
    && (c !in s.members ==> infos == [])
    && (c in s.members && RoomKeysValid(valid, s, c) ==> Informs(s, c, infos, s.members[c].Keys))
  }

  lemma AnnouncedStays(valid: Bytes -> bool, s: Rooms, s': Rooms, c: ConvId, infos: seq<Info>)
    requires Announced(valid, s, c, infos) && Untouched(s, s', c) && s'.routes == s.routes
    ensures Announced(valid, s', c, infos)
  {
    if c in s'.members && RoomKeysValid(valid, s', c) {
      forall i | 0 <= i < |infos| ensures InfoFor(s', c, infos[i]) { assert InfoFor(s, c, infos[i]); }
    }
  }

  ghost predicate AllAnnounced(valid: Bytes -> bool, s: Rooms, infos: map<ConvId, seq<Info>>) {
    forall c :: c in infos ==> Announced(valid, s, c, infos[c])
  }

  lemma NoneAnnounced(valid: Bytes -> bool, s: Rooms)
    ensures AllAnnounced(valid, s, map[])
  {
  }

  lemma AnnouncedOneMore(valid: Bytes -> bool, s: Rooms, s': Rooms, infos: map<ConvId, seq<Info>>, c: ConvId, part: seq<Info>)
    requires AllAnnounced(valid, s, infos) && Announced(valid, s', c, part) && s'.routes == s.routes
    requires forall d :: d != c ==> Untouched(s, s', d)
    ensures AllAnnounced(valid, s', infos[c := part])
  {
    hide Announced, Untouched;
    forall d | d in infos && d != c ensures Announced(valid, s', d, infos[d]) {
      AnnouncedStays(valid, s, s', d, infos[d]);
    }
  }

  /** After a creator's departure the broadcast to those who remain marks exactly one
      of them as creator, and that is the smallest. */
  lemma SuccessorAnnounced(valid: Bytes -> bool, s: Rooms, s': Rooms, p: PeerId, done: set<ConvId>, c: ConvId, infos: seq<Info>)
    returns (i: nat)
    requires Inv(s) && Closed(s, s', p, done) && p in s.identity && c in done && c in s.creator && c in s.members
    requires s.creator[c] == s.identity[p] && s.members[c].Keys != {s.identity[p]}
    requires RoomKeysValid(valid, s', c) && Announced(valid, s', c, infos)
    ensures i < |infos| && infos[i].creator && IsLeast(infos[i].id, s.members[c].Keys - {s.identity[p]})
    ensures forall j :: 0 <= j < |infos| && infos[j].creator ==> j == i
    ensures forall j :: 0 <= j < |infos| ==> infos[j].roster == s.members[c] - {s.identity[p]}
    ensures |infos| == |s.members[c].Keys - {s.identity[p]}|
  {
    SuccessorIsSmallest(s, s', p, done, c);
    ClosedKeeps(s, s', p, done);
    i := OneCreatorMarked(s', c, infos);
    assert Departed(s, s', c, s.identity[p]);
    forall j | 0 <= j < |infos| ensures infos[j].roster == s.members[c] - {s.identity[p]} { assert InfoFor(s', c, infos[j]); }
  }

  /** Partway through a departure: the rooms in `done` have seen it, no other has. */
  ghost predicate Leaving(s: Rooms, s': Rooms, id: SenderId, done: set<ConvId>) {
    forall c :: if c in done then Departed(s, s', c, id) else Untouched(s, s', c)
  }

  lemma LeavesOneMore(s: Rooms, s': Rooms, s'': Rooms, id: SenderId, done: set<ConvId>, c: ConvId)
    requires Leaving(s, s', id, done) && c !in done && Departed(s', s'', c, id)
    requires forall d :: d != c ==> Untouched(s', s'', d)
    ensures Leaving(s, s'', id, done + {c})
  {
    var done' := done + {c};
    forall d ensures if d in done' then Departed(s, s'', d, id) else Untouched(s, s'', d) {
      assert if d in done then Departed(s, s', d, id) else Untouched(s, s', d);
      assert d != c ==> Untouched(s', s'', d);
    }
  }

  lemma KeysStayValid(valid: Bytes -> bool, s: Rooms, s': Rooms, id: SenderId, done: set<ConvId>, c: ConvId)
    requires Leaving(s, s', id, done) && RoomKeysValid(valid, s, c)
    ensures RoomKeysValid(valid, s', c)
  {
    assert if c in done then Departed(s, s', c, id) else Untouched(s, s', c);
  }

  class GroupServer {
    const valid: Bytes -> bool   // which public keys the key agreement accepts
    var groups: map<ConvId, seq<PeerId>>
    var routes: map<ConvId, map<SenderId, PeerId>>
    var members: map<ConvId, map<SenderId, Bytes>>
    var creator: map<ConvId, SenderId>
    var identity: map<PeerId, SenderId>

    ghost function State(): Rooms
      reads this
    {
      Rooms(groups, routes, members, creator, identity)
    }

    constructor (valid: Bytes -> bool)
      ensures State() == NoRooms && this.valid == valid
    {
      this.valid := valid;
      groups, routes, members, creator, identity := map[], map[], map[], map[], map[];
    }

    ghost predicate KeysValid(c: ConvId)
      reads this
    {
      RoomKeysValid(valid, State(), c)
    }

    method HandlePacket(c: ConvId, p: PeerId)
      modifies this`groups
      ensures State() == JoinGroup(old(State()), c, p)
    {
      var g := if c in groups then groups[c] else [];
      if p !in g { g := g + [p]; }
      groups := groups[c := g];
    }

    method HandleControl(c: ConvId, p: PeerId, id: SenderId)
      modifies this
      ensures State() == Learn(old(State()), c, p, id)
    {
      HandlePacket(c, p);
      identity := identity[p := id];
      var known: map<SenderId, PeerId> := if c in routes then routes[c] else map[];
      known := known[id := p];
      routes := routes[c := known];
    }

    /** A broadcast stops at the first key that key agreement rejects, so it reaches
        every member exactly if all their keys are valid. */
    method NotifyMembers(c: ConvId) returns (infos: seq<Info>, ok: bool, ghost told: set<SenderId>)
      ensures c !in members ==> infos == [] && ok
      ensures c in members ==> told <= members[c].Keys && Informs(State(), c, infos, told)
      ensures c in members ==> (ok <==> told == members[c].Keys)
      ensures ok <==> KeysValid(c)
    {
      infos, ok, told := [], true, {};
      if c !in members { return; }
      var todo := members[c].Keys;
      while todo != {}
        invariant todo <= members[c].Keys && told == members[c].Keys - todo
        invariant Informs(State(), c, infos, told)
        invariant forall id :: id in told ==> valid(members[c][id])
        decreases |todo|
      {
        var id :| id in todo;
        if !valid(members[c][id]) {
          ok := false;
          return;
        }
        ghost var before, was := infos, told;
        if c in routes && id in routes[c] {
          infos := infos + [Info(routes[c][id], id, c in creator && creator[c] == id, members[c])];
        }
        todo := todo - {id};
        told := told + {id};
        ToldMore(State(), c, before, was, infos, id);
      }
    }

    method HandleKeyReq(c: ConvId, p: PeerId, id: SenderId, key: Bytes)
      returns (infos: seq<Info>, ok: bool, ghost told: set<SenderId>)
      modifies this
      ensures State() == KeyReq(old(State()), c, p, id, key)
      ensures told <= members[c].Keys && Informs(State(), c, infos, told)
      ensures (ok <==> told == members[c].Keys) && (ok <==> KeysValid(c))
    {
      HandleControl(c, p, id);
      if c !in members {
        members := members[c := map[]];
        creator := creator[c := id];
      }
      if c !in creator || c !in routes || creator[c] !in routes[c] {
        creator := creator[c := id];
      }
      var roster: map<SenderId, Bytes> := members[c][id := key];
      members := members[c := roster];
      infos, ok, told := NotifyMembers(c);
    }

    /** Takes one member out of a room, electing the smallest remaining id if the
        creator left and dropping the room if nobody remains. */
    method DropMember(c: ConvId, id: SenderId)
      requires c in members
      modifies this`members, this`creator
      ensures Departed(old(State()), State(), c, id)
      ensures forall d :: d != c ==> Untouched(old(State()), State(), d)
    {
      var rest := members[c] - {id};
      members := members[c := rest];
      if c in creator && creator[c] == id {
        if rest == map[] {
          creator := creator - {c};
        } else {
          var successor := Smallest(rest.Keys);
          creator := creator[c := successor];
        }
      }
      if rest == map[] {
        members := members - {c};
      }
    }

    method Smallest(ids: set<SenderId>) returns (least: SenderId)
      requires ids != {}
      ensures IsLeast(least, ids)
    {
      least :| least in ids;
      var todo := ids;
      while todo != {}
        invariant todo <= ids && least in ids
        invariant forall x :: x in ids && x !in todo ==> least <= x
        decreases |todo|
      {
        var x :| x in todo;
        if x < least { least := x; }
        todo := todo - {x};
      }
    }

    method LeaveGroups(p: PeerId) returns (left: set<ConvId>)
      modifies this`groups
      ensures left == Rooming(old(State()), p)
      ensures groups.Keys == old(groups).Keys
      ensures forall c :: c in groups ==> groups[c] == Without(old(groups)[c], p)
    {
      hide Without;
      left := {};
      var todo := groups.Keys;
      while todo != {}
        invariant todo <= groups.Keys == old(groups).Keys
        invariant forall c :: c in groups ==> groups[c] == if c in todo then old(groups)[c] else Without(old(groups)[c], p)
        invariant forall c :: c in left <==> c in old(groups) && c !in todo && p in old(groups)[c]
        decreases |todo|
      {
        var c :| c in todo;
        var kept := Filter(groups[c], p);
        FilterDrops(groups[c], p);
        if |kept| != |groups[c]| { left := left + {c}; }
        groups := groups[c := kept];
        todo := todo - {c};
      }
    }

    method Filter(g: seq<PeerId>, p: PeerId) returns (kept: seq<PeerId>)
      ensures kept == Without(g, p)
    {
      kept := [];
      for i := 0 to |g|
        invariant kept == Without(g[..i], p)
      {
        assert g[..i + 1][..i] == g[..i];
        if g[i] != p { kept := kept + [g[i]]; }
      }
      assert g[..|g|] == g;
    }

    /** One room of a departure: the member goes, and those who remain are told. */
    method LeaveRoom(c: ConvId, id: SenderId) returns (infos: seq<Info>, ok: bool)
      modifies this`members, this`creator
      ensures Departed(old(State()), State(), c, id)
      ensures forall d :: d != c ==> Untouched(old(State()), State(), d)
      ensures Announced(valid, State(), c, infos) && (ok <==> KeysValid(c))
    {
      hide Informs, RoomKeysValid;
      if c in members { DropMember(c, id); }
      ghost var told;
      infos, ok, told := NotifyMembers(c);
      BroadcastAnnounced(valid, State(), c, infos, ok, told);
    }

    /** Takes the member out of every room in `left`.  A rejected key during one
        room's broadcast ends the handler before the rooms that follow. */
    method LeaveRooms(id: SenderId, left: set<ConvId>) returns (infos: map<ConvId, seq<Info>>, ghost done: set<ConvId>)
      modifies this`members, this`creator
      ensures infos.Keys == done && AllAnnounced(valid, State(), infos)
      ensures done <= left && Leaving(old(State()), State(), id, done)
      ensures (forall c :: RoomKeysValid(valid, old(State()), c)) ==> done == left
    {
      hide Departed, Untouched, RoomKeysValid, Announced, AllAnnounced, Leaving;
      infos, done := map[], {};
      StayPut(old(State()), State());
      NoneAnnounced(valid, State());
      var todo := left;
      while todo != {}
        invariant todo <= left && done == left - todo && infos.Keys == done
        invariant AllAnnounced(valid, State(), infos)
        invariant Leaving(old(State()), State(), id, done)
        decreases |todo|
      {
        var c :| c in todo;
        ghost var before := State();
        var part, ok := LeaveRoom(c, id);
        LeavesOneMore(old(State()), before, State(), id, done, c);
        AnnouncedOneMore(valid, before, State(), infos, c, part);
        infos := infos[c := part];
        todo := todo - {c};
        done := done + {c};
        if !ok {
          if RoomKeysValid(valid, old(State()), c) { KeysStayValid(valid, old(State()), State(), id, done, c); }
          return;
        }
      }
    }

    /** A closed connection: out of the groups, then out of the rooms. */
    method RemovePeer(p: PeerId) returns (infos: map<ConvId, seq<Info>>, ghost done: set<ConvId>)
      modifies this
      ensures infos.Keys == done && AllAnnounced(valid, State(), infos)
      ensures Closed(old(State()), State(), p, done) && Next(valid, old(State()), State(), Close(p, done))
      ensures p in old(identity) && (forall c :: RoomKeysValid(valid, old(State()), c)) ==> done == Rooming(old(State()), p)
    {
      hide Departed, Without, Rooming, AllAnnounced;
      infos, done := map[], {};
      var left := LeaveGroups(p);
      NoneAnnounced(valid, State());
      if p in identity {
        ghost var before := State();
        assert forall c :: RoomKeysValid(valid, old(State()), c) ==> RoomKeysValid(valid, before, c);
        infos, done := LeaveRooms(identity[p], left);
        assert Leaving(old(State()), State(), identity[p], done) by {
          SameRooms(old(State()), before, State(), identity[p], done);
        }
      }
    }
  }

  lemma BroadcastAnnounced(valid: Bytes -> bool, s: Rooms, c: ConvId, infos: seq<Info>, ok: bool, told: set<SenderId>)
    requires c !in s.members ==> infos == []
    requires c in s.members ==> Informs(s, c, infos, told) && (ok <==> told == s.members[c].Keys)
    requires ok <==> RoomKeysValid(valid, s, c)
    ensures Announced(valid, s, c, infos)
  {
  }

  lemma SameRooms(s: Rooms, s0: Rooms, s': Rooms, id: SenderId, done: set<ConvId>)
    requires s0.members == s.members && s0.creator == s.creator && Leaving(s0, s', id, done)
    ensures Leaving(s, s', id, done)
  {
    forall c ensures if c in done then Departed(s, s', c, id) else Untouched(s, s', c) {
      assert if c in done then Departed(s0, s', c, id) else Untouched(s0, s', c);
    }
  }

  lemma StayPut(s: Rooms, s': Rooms)
    requires s'.members == s.members && s'.creator == s.creator
    ensures forall id :: Leaving(s, s', id, {})
  {
  }

  lemma ToldMore(s: Rooms, c: ConvId, before: seq<Info>, told: set<SenderId>, infos: seq<Info>, id: SenderId)
    requires Informs(s, c, before, told) && id !in told && c in s.members && id in s.members[c]
    requires if c in s.routes && id in s.routes[c]
             then |infos| == |before| + 1 && infos[..|before|] == before && infos[|before|].id == id && InfoFor(s, c, infos[|before|])
             else infos == before
    ensures Informs(s, c, infos, told + {id})
  {
    assert forall i :: 0 <= i < |before| ==> infos[i] == before[i];
    forall x | x in told + {id} && c in s.routes && x in s.routes[c] ensures Told(infos, x) {
      if x == id {
        assert infos[|before|].id == id;
      } else {
        assert Told(before, x);
        var i :| 0 <= i < |before| && before[i].id == x;
        assert infos[i].id == x;
      }
    }
  }

  lemma {:induction false} FilterDrops(g: seq<PeerId>, p: PeerId)
    ensures |Without(g, p)| <= |g|
    ensures |Without(g, p)| == |g| <==> p !in g
  {
    if g != [] {
      var n := |g| - 1;
      FilterDrops(g[..n], p);
      assert g == g[..n] + [g[n]];
    }
  }
}
