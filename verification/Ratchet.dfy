/** The per-sender message ratchet.  A chain state is the chain key for the next
    message together with that message's index. */
module Ratchet {
  import opened Primitives

  datatype ChainState = ChainState(key: Bytes, index: nat)

  /** The chain key reached from `key` after `n` messages. */
  function Iterate(suite: Suite, key: Bytes, n: nat): Bytes {
    if n == 0 then key else suite.nextKey(Iterate(suite, key, n - 1))
  }

  function MessageKeyAt(suite: Suite, seed: Bytes, i: nat): Bytes {
    suite.messageKey(Iterate(suite, seed, i), i)
  }

  datatype Advanced = Advanced(messageKey: Bytes, state: ChainState)

  /** Skip to `target` (not at all when it is already behind), take that
      message's key and step past it. */
  function Advance(suite: Suite, s: ChainState, target: nat): Advanced {
    var n := if s.index < target then target - s.index else 0;
    var key := Iterate(suite, s.key, n);
    Advanced(suite.messageKey(key, s.index + n), ChainState(suite.nextKey(key), s.index + n + 1))
  }

  method AdvanceChain(suite: Suite, s: ChainState, target: nat) returns (a: Advanced)
    ensures a == Advance(suite, s, target)
  {
    var key, index := s.key, s.index;
    while index < target
      invariant s.index <= index
      invariant index <= target || index == s.index
      invariant key == Iterate(suite, s.key, index - s.index)
    {
      key := suite.nextKey(key);
      index := index + 1;
    }
    a := Advanced(suite.messageKey(key, index), ChainState(suite.nextKey(key), index + 1));
  }

  /** `c` is the state `c.index` messages after the seed. */
  ghost predicate OnChain(suite: Suite, seed: Bytes, c: ChainState) {
    c.key == Iterate(suite, seed, c.index)
  }

  lemma {:induction false} IterateComposes(suite: Suite, seed: Bytes, a: nat, b: nat)
    ensures Iterate(suite, Iterate(suite, seed, a), b) == Iterate(suite, seed, a + b)
  {
    if b > 0 {
      IterateComposes(suite, seed, a, b - 1);
    }
  }

  /** Path independence: from any state on the chain that is not past `target`,
      the message key and the next state depend on the seed and `target` alone. */
  lemma AdvanceFromAnywhere(suite: Suite, seed: Bytes, c: ChainState, target: nat)
    requires OnChain(suite, seed, c) && c.index <= target
    ensures Advance(suite, c, target)
            == Advanced(MessageKeyAt(suite, seed, target), ChainState(Iterate(suite, seed, target + 1), target + 1))
  {
    IterateComposes(suite, seed, c.index, target - c.index);
  }

  /** Even a state past `target` stays on the chain. */
  lemma AdvanceStaysOnChain(suite: Suite, seed: Bytes, c: ChainState, target: nat)
    requires OnChain(suite, seed, c)
    ensures OnChain(suite, seed, Advance(suite, c, target).state)
  {
    AdvanceFromAnywhere(suite, seed, c, if c.index < target then target else c.index);
  }

  /** Advancing to `i` and then to `j` is advancing to `j`. */
  lemma AdvanceComposes(suite: Suite, c: ChainState, i: nat, j: nat)
    requires c.index <= i < j
    ensures Advance(suite, Advance(suite, c, i).state, j) == Advance(suite, c, j)
  {
    var n := i - c.index;
    assert Advance(suite, c, i).state.key == Iterate(suite, c.key, n + 1);
    IterateComposes(suite, c.key, n + 1, j - i - 1);
  }
}
