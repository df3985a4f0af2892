/** The wrapping 24-bit sequence space.

    The wire carries `Wire(u)` for the sender's unbounded message number `u`.
    The code only ever sees wire numbers and compares them by modular distance. */
module Sequence {

  const SEQ_MOD: int := 0x100_0000
  const HALF: int := 0x80_0000

  type Seq24 = s: int | 0 <= s < 0x100_0000

  /** Steps from `from` to `to`; the source masks the difference with 0xFFFFFF. */
  function SeqDelta(from: int, to: int): Seq24 {
    (to - from) % SEQ_MOD
  }

  function SeqNext(s: int): Seq24 {
    (s + 1) % SEQ_MOD
  }

  function Wire(u: int): Seq24 {
    u % SEQ_MOD
  }

  /** `u` is less than half the space away from `pos`. */
  predicate Near(pos: int, u: int) {
    -HALF < u - pos < HALF
  }

  /** The modular distance recovers the true distance across any number of wraps. */
  lemma WireDelta(a: int, b: int)
    ensures 0 <= b - a < SEQ_MOD ==> SeqDelta(Wire(a), Wire(b)) == b - a
    ensures -SEQ_MOD <= b - a < 0 ==> SeqDelta(Wire(a), Wire(b)) == SEQ_MOD + (b - a)
  {
  }

  lemma WireNext(u: int)
    ensures SeqNext(Wire(u)) == Wire(u + 1)
    ensures Wire(Wire(u) + 1) == Wire(u + 1)
  {
  }

  lemma WireShift(u: int, k: int)
    ensures Wire(Wire(u) + k) == Wire(u + k)
  {
  }

  lemma CycleBefore(u: int)
    ensures Wire(u - SEQ_MOD) == Wire(u)
  {
  }

  lemma WireBack(n: int, d: int)
    ensures Wire(Wire(n) - d) == Wire(n - d)
  {
  }

  lemma DistanceOf(s: int, d: int)
    requires 0 <= d < SEQ_MOD
    ensures SeqDelta(Wire(s - d), s) == d
  {
  }

  /** The number whose wire form is `k` that is at or less than a cycle before `top`. */
  function Back(top: int, k: Seq24): int {
    top - SeqDelta(k, Wire(top))
  }

  lemma BackIsUnique(top: int, k: Seq24, u: int)
    requires top - SEQ_MOD < u <= top
    ensures Wire(u) == k <==> Back(top, k) == u
  {
  }

  lemma BackRange(top: int, k: Seq24)
    ensures top - SEQ_MOD < Back(top, k) <= top
    ensures Wire(Back(top, k)) == k
  {
  }

  lemma BackStep(top: int, k: Seq24)
    ensures k != Wire(top + 1) ==> Back(top + 1, k) == Back(top, k)
    ensures k == Wire(top + 1) ==> Back(top + 1, k) == top + 1 && Back(top, k) == top + 1 - SEQ_MOD
  {
  }

  /** The number whose wire form is `k` that is at or less than a cycle after `n`. */
  function Forth(n: int, k: Seq24): int {
    n + SeqDelta(Wire(n), k)
  }

  lemma ForthIsUnique(n: int, k: Seq24, u: int)
    requires n <= u < n + SEQ_MOD
    ensures Wire(u) == k <==> Forth(n, k) == u
  {
  }

  /** The number with wire form `k` nearest to `pos`, before or after it. */
  function Nearest(pos: int, k: Seq24): int {
    var d := SeqDelta(Wire(pos), k);
    if d < HALF then pos + d else pos + d - SEQ_MOD
  }

  lemma NearestIsUnique(pos: int, k: Seq24, u: int)
    requires -HALF <= u - pos < HALF
    ensures Wire(u) == k <==> Nearest(pos, k) == u
  {
  }

  lemma NearestWires(pos: int, k: Seq24)
    ensures Wire(Nearest(pos, k)) == k
  {
  }

  /** Moving on by less than half the space: distances back grow by the move. */
  lemma BackMoves(pos: int, n: int, k: Seq24)
    requires pos < n < pos + HALF && pos - HALF < Back(pos, k)
    ensures Back(n, k) == Back(pos, k)
    ensures k != Wire(n)
  {
    BackRange(pos, k);
    BackIsUnique(n, k, Back(pos, k));
    WireInjective(n, Back(pos, k));
  }

  /** Seen from the newest number, an older one is ahead on the wire exactly if it is
      behind by more than half the space, whole cycles aside. */
  lemma BehindOnWire(top: int, u: int)
    ensures var behind := (top - u) % SEQ_MOD;
            SeqDelta(Wire(top), Wire(u)) == if behind == 0 then 0 else SEQ_MOD - behind
  {
    var d := SeqDelta(Wire(top), Wire(u));
    var behind := (top - u) % SEQ_MOD;
    assert (d + behind) % SEQ_MOD == 0;
  }

  /** Two numbers closer than a whole cycle with the same wire form are equal. */
  lemma WireInjective(a: int, b: int)
    requires -SEQ_MOD < a - b < SEQ_MOD
    ensures Wire(a) == Wire(b) <==> a == b
  {
    WireDelta(a, b);
  }

  /** The three-way test (0: duplicate, below half: newer, otherwise: stale) tells
      the true order of two message numbers exactly when they are within half the
      space of each other. */
  lemma GapTestExact(pos: int, u: int)
    requires -SEQ_MOD < u - pos < SEQ_MOD
    ensures var d := SeqDelta(Wire(pos), Wire(u));
            ((d == 0 <==> u == pos) && (0 < d < HALF <==> pos < u) && (HALF <= d <==> u < pos))
            <==> -HALF <= u - pos < HALF
  {
    WireDelta(pos, u);
  }
}
