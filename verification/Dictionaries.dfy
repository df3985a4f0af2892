/** The compression dictionary: the payloads of the last DICT_WINDOW messages of
    one sender, oldest first, selected by modular distance. */
module Dictionaries {
  import opened Primitives
  import opened Sequence

  const DICT_WINDOW: int := 200
  const RETAINED: int := 216   // DICT_WINDOW plus 16 of slack

  /** Retained messages by wire number. */
  type History = map<Seq24, Bytes>

  /** A message picked for the dictionary, by its distance before the packet. */
  datatype Pick = Pick(dist: int, payload: Bytes)

  function Entry(h: History, k: Seq24): Bytes {
    if k in h then h[k] else []
  }

  /** The payload `d` steps before `maxSeq`, if it is there. */
  function Before(h: History, maxSeq: int, d: int): Bytes {
    Entry(h, Wire(maxSeq - d))
  }

  /** The payloads at distances d, d-1, ..., 1 before `maxSeq`. */
  function Window(h: History, maxSeq: int, d: nat): Bytes {
    if d == 0 then [] else Before(h, maxSeq, d) + Window(h, maxSeq, d - 1)
  }

  function Dictionary(h: History, maxSeq: int): Bytes {
    Window(h, maxSeq, DICT_WINDOW)
  }

  /** The entries at most DICT_WINDOW plus slack behind `highest`. */
  function Pruned(h: History, highest: Seq24): History {
    h - (set k | k in h && SeqDelta(k, highest) > RETAINED)
  }

  /** Pruning to `num` after inserting message `num` itself does not change the
      dictionary for `num`, so it may be built before or after. */
  lemma PruneKeepsDictionary(h: History, num: Seq24, payload: Bytes)
    ensures Dictionary(Pruned(h[num := payload], num), num) == Dictionary(h, num)
  {
    forall i | 1 <= i <= DICT_WINDOW
      ensures Before(Pruned(h[num := payload], num), num, i) == Before(h, num, i)
    {
      DistanceOf(num, i);
    }
    WindowAgreement(Pruned(h[num := payload], num), h, num, DICT_WINDOW);
  }

  // ---- Building it: collect, sort, concatenate ----

  /** The sort order of the source: largest distance first. */
  ghost predicate OldestFirst(l: seq<Pick>) {
    forall i, j :: 0 <= i < j < |l| ==> l[j].dist < l[i].dist
  }

  /** `l` lists the entries of `h` that the window covers, in whatever order. */
  ghost predicate Lists(l: seq<Pick>, h: History, maxSeq: int) {
    forall x: Pick :: x in l <==> PickedFrom(h, maxSeq, x)
  }

  /** `x` is the entry of `h` at its distance, which is one the window covers. */
  ghost predicate PickedFrom(h: History, maxSeq: int, x: Pick) {
    1 <= x.dist <= DICT_WINDOW && Wire(maxSeq - x.dist) in h && x.payload == h[Wire(maxSeq - x.dist)]
  }

  /** The payloads from position `i` on, one after the other. */
  function Payloads(l: seq<Pick>, i: nat := 0): Bytes
    requires i <= |l|
    decreases |l| - i
  {
    if i == |l| then [] else l[i].payload + Payloads(l, i + 1)
  }

  /** Determinism: however the messages were inserted or collected, listing the
      window oldest first spells exactly the dictionary. */
  lemma {:induction false} ListingIsWindow(h: History, maxSeq: int, d: nat, l: seq<Pick>, i: nat)
    requires i <= |l| && OldestFirst(l) && Lists(l, h, maxSeq) && d <= DICT_WINDOW
    requires forall j :: 0 <= j < |l| ==> (i <= j <==> l[j].dist <= d)
    ensures Payloads(l, i) == Window(h, maxSeq, d)
    decreases d
  {
    hide Wire;
    if d == 0 {
      assert i == |l| by { assert forall j :: 0 <= j < |l| ==> l[j] in l; }
    } else if Wire(maxSeq - d) in h {
      assert Pick(d, h[Wire(maxSeq - d)]) in l;
      assert l[i].dist == d && l[i] in l;
      ListingIsWindow(h, maxSeq, d - 1, l, i + 1);
    } else {
      assert forall j :: i <= j < |l| ==> l[j] in l;
      ListingIsWindow(h, maxSeq, d - 1, l, i);
    }
  }

  method SortOldestFirst(l: seq<Pick>) returns (s: seq<Pick>)
    requires forall i, j :: 0 <= i < j < |l| ==> l[i].dist != l[j].dist
    ensures OldestFirst(s)
    ensures forall x :: x in s <==> x in l
  {
    s := [];
    for i := 0 to |l|
      invariant OldestFirst(s)
      invariant forall x :: x in s <==> x in l[..i]
    {
      assert forall j :: 0 <= j < |s| ==> s[j] in l[..i];
      s := InsertOldestFirst(s, l[i]);
      assert l[..i + 1] == l[..i] + [l[i]];
    }
    assert l[..|l|] == l;
  }

  method InsertOldestFirst(s: seq<Pick>, x: Pick) returns (r: seq<Pick>)
    requires OldestFirst(s)
    requires forall j :: 0 <= j < |s| ==> s[j].dist != x.dist
    ensures OldestFirst(r)
    ensures forall y :: y in r <==> y in s || y == x
  {
    var p := 0;
    while p < |s| && x.dist < s[p].dist
      invariant 0 <= p <= |s|
      invariant forall j :: 0 <= j < p ==> x.dist < s[j].dist
    {
      p := p + 1;
    }
    r := s[..p] + [x] + s[p..];
    InsertedAt(s, x, p, r);
  }

  lemma InsertedAt(s: seq<Pick>, x: Pick, p: nat, r: seq<Pick>)
    requires p <= |s| && r == s[..p] + [x] + s[p..]
    requires OldestFirst(s)
    requires forall j :: 0 <= j < p ==> x.dist < s[j].dist
    requires p < |s| ==> s[p].dist < x.dist
    ensures OldestFirst(r)
    ensures forall y :: y in r <==> y in s || y == x
  {
    assert |r| == |s| + 1 && r[p] == x;
    forall j | 0 <= j < p ensures r[j] == s[j] {}
    forall j | p <= j < |s| ensures r[j + 1] == s[j] {}
    forall j | p < j < |r| ensures r[j] == s[j - 1] {}
    forall y | y in s ensures y in r {
      var j :| 0 <= j < |s| && s[j] == y;
      assert if j < p then r[j] == y else r[j + 1] == y;
    }
  }

  method GetDictionary(h: History, maxSeq: Seq24) returns (dict: Bytes)
    ensures dict == Dictionary(h, maxSeq)
  {
    var picked: seq<Pick> := [];
    var todo := h.Keys;
    while todo != {}
      invariant todo <= h.Keys
      invariant forall i, j :: 0 <= i < j < |picked| ==> picked[i].dist != picked[j].dist
      invariant Lists(picked, h - todo, maxSeq)
      decreases |todo|
    {
      var k :| k in todo;
      var dist := SeqDelta(k, maxSeq);
      if 1 <= dist <= DICT_WINDOW {
        CollectOne(picked, h, todo, k, maxSeq);
        picked := picked + [Pick(dist, h[k])];
      } else {
        SkipOne(picked, h, todo, k, maxSeq);
      }
      todo := todo - {k};
    }
    assert h - {} == h;
    var sorted := SortOldestFirst(picked);
    assert Lists(sorted, h, maxSeq);
    dict := ConcatPayloads(sorted);
    assert forall j :: 0 <= j < |sorted| ==> sorted[j] in sorted;
    ListingIsWindow(h, maxSeq, DICT_WINDOW, sorted, 0);
  }

  method ConcatPayloads(l: seq<Pick>) returns (b: Bytes)
    ensures b == Payloads(l, 0)
  {
    b := [];
    for i := 0 to |l|
      invariant b + Payloads(l, i) == Payloads(l, 0)
    {
      b := b + l[i].payload;
    }
  }

  lemma CollectOne(picked: seq<Pick>, h: History, todo: set<Seq24>, k: Seq24, maxSeq: Seq24)
    requires k in todo && todo <= h.Keys && Lists(picked, h - todo, maxSeq)
    requires 1 <= SeqDelta(k, maxSeq) <= DICT_WINDOW
    ensures Lists(picked + [Pick(SeqDelta(k, maxSeq), h[k])], h - (todo - {k}), maxSeq)
    ensures forall i :: 0 <= i < |picked| ==> picked[i].dist != SeqDelta(k, maxSeq)
  {
    hide Wire, SeqDelta;
    var d := SeqDelta(k, maxSeq);
    var picked', h' := picked + [Pick(d, h[k])], h - (todo - {k});
    forall x: Pick ensures x in picked' <==> PickedFrom(h', maxSeq, x) {
      AtDistance(maxSeq, x.dist, k);
      assert x in picked <==> PickedFrom(h - todo, maxSeq, x);
    }
    forall i | 0 <= i < |picked| ensures picked[i].dist != d {
      AtDistance(maxSeq, picked[i].dist, k);
      assert picked[i] in picked;
    }
  }

  /** Only `k` itself is as far before `maxSeq` as `k` is. */
  lemma AtDistance(maxSeq: Seq24, d: int, k: Seq24)
    ensures 1 <= d <= DICT_WINDOW ==> (Wire(maxSeq - d) == k <==> d == SeqDelta(k, maxSeq))
  {
  }

  lemma SkipOne(picked: seq<Pick>, h: History, todo: set<Seq24>, k: Seq24, maxSeq: Seq24)
    requires k in todo && todo <= h.Keys && Lists(picked, h - todo, maxSeq)
    requires !(1 <= SeqDelta(k, maxSeq) <= DICT_WINDOW)
    ensures Lists(picked, h - (todo - {k}), maxSeq)
  {
    hide Wire, SeqDelta;
    var h' := h - (todo - {k});
    forall x: Pick ensures x in picked <==> PickedFrom(h', maxSeq, x) {
      AtDistance(maxSeq, x.dist, k);
      assert x in picked <==> PickedFrom(h - todo, maxSeq, x);
    }
  }

  /** Only the window matters: histories that agree on the numbers up to `d`
      before `maxSeq` give the same dictionary. */
  lemma {:induction false} WindowAgreement(h: History, h': History, maxSeq: int, d: nat)
    requires forall i :: 1 <= i <= d ==> Before(h, maxSeq, i) == Before(h', maxSeq, i)
    ensures Window(h, maxSeq, d) == Window(h', maxSeq, d)
  {
    if d > 0 {
      WindowAgreement(h, h', maxSeq, d - 1);
    }
  }

  // ---- Its relation to the unbounded log ----

  /** The payloads of messages a..b-1 of a log whose first message has number `first`. */
  function Span(log: seq<Bytes>, first: int, a: int, b: int): Bytes
    requires first <= a && b <= first + |log|
    decreases b - a
  {
    if a < b then log[a - first] + Span(log, first, a + 1, b) else []
  }

  function Max(a: int, b: int): int { if a < b then b else a }
  function Min(a: int, b: int): int { if a < b then a else b }

  /** Wire number `k` is retained exactly if it stands for one of messages lo..top,
      with that message's payload. */
  ghost predicate RetainsKey(h: History, log: seq<Bytes>, first: int, lo: int, top: int, k: Seq24)
    requires first <= lo && top < first + |log|
  {
    && (k in h <==> lo <= Back(top, k))
    && (k in h ==> h[k] == log[Back(top, k) - first])
  }

  /** `h` holds exactly messages lo..top of the log under their wire numbers. */
  ghost predicate Retains(h: History, log: seq<Bytes>, first: int, lo: int, top: int) {
    && first <= lo <= top + 1 <= first + |log|
    && top - lo <= RETAINED
    && forall k: Seq24 :: RetainsKey(h, log, first, lo, top, k)
  }

  lemma RetainsAt(h: History, log: seq<Bytes>, first: int, lo: int, top: int, u: int)
    requires Retains(h, log, first, lo, top)
    requires top - SEQ_MOD < u < top + SEQ_MOD - RETAINED
    ensures Wire(u) in h <==> lo <= u <= top
    ensures lo <= u <= top ==> h[Wire(u)] == log[u - first]
  {
    assert RetainsKey(h, log, first, lo, top, Wire(u));
    if u <= top {
      BackIsUnique(top, Wire(u), u);
    } else {
      BackIsUnique(top, Wire(u), u - SEQ_MOD);
    }
  }

  /** Storing the next message and pruning moves the retained range on by one. */
  lemma RetainsNext(h: History, log: seq<Bytes>, first: int, lo: int, top: int)
    requires Retains(h, log, first, lo, top) && top + 1 < first + |log|
    ensures var s := Wire(top + 1);
            Retains(Pruned(h[s := log[top + 1 - first]], s), log, first, Max(lo, top + 1 - RETAINED), top + 1)
  {
    var s := Wire(top + 1);
    var h' := Pruned(h[s := log[top + 1 - first]], s);
    var lo', top' := Max(lo, top + 1 - RETAINED), top + 1;
    forall k: Seq24 ensures RetainsKey(h', log, first, lo', top', k) {
      assert RetainsKey(h, log, first, lo, top, k);
      BackStep(top, k);
    }
  }

  lemma RetainsAppend(h: History, log: seq<Bytes>, first: int, lo: int, top: int, x: Bytes)
    requires Retains(h, log, first, lo, top)
    ensures Retains(h, log + [x], first, lo, top)
  {
    var log' := log + [x];
    forall k: Seq24 ensures RetainsKey(h, log', first, lo, top, k) {
      assert RetainsKey(h, log, first, lo, top, k);
      BackRange(top, k);
    }
  }

  lemma {:induction false} SpanAppend(log: seq<Bytes>, first: int, a: int, b: int, x: Bytes)
    requires first <= a && b <= first + |log|
    ensures Span(log + [x], first, a, b) == Span(log, first, a, b)
    decreases b - a
  {
    if a < b {
      SpanAppend(log, first, a + 1, b, x);
    }
  }

  lemma BeforeInLog(h: History, log: seq<Bytes>, first: int, lo: int, top: int, n: int, d: int)
    requires Retains(h, log, first, lo, top)
    requires Near(top, n) && 0 < d <= DICT_WINDOW
    ensures Before(h, Wire(n), d) == LogEntry(log, first, lo, top, n - d)
  {
    WireBack(n, d);
    RetainsAt(h, log, first, lo, top, n - d);
  }

  function LogEntry(log: seq<Bytes>, first: int, lo: int, top: int, u: int): Bytes
    requires first <= lo && top < first + |log|
  {
    if lo <= u <= top then log[u - first] else []
  }

  lemma {:induction false} WindowSpellsSpan(h: History, s: Seq24, log: seq<Bytes>, first: int, lo: int, top: int, n: int, d: nat)
    requires first <= lo <= top + 1 <= first + |log|
    requires forall i :: 1 <= i <= d ==> Before(h, s, i) == LogEntry(log, first, lo, top, n - i)
    ensures Window(h, s, d) == Span(log, first, Max(lo, n - d), Min(n, top + 1))
  {
    if d > 0 {
      WindowSpellsSpan(h, s, log, first, lo, top, n, d - 1);
    }
  }

  /** The dictionary for message `n` built from a history that retains messages
      lo..top is the log from lo or n-200, whichever is later, up to n-1 or top. */
  lemma DictionaryOfLog(h: History, log: seq<Bytes>, first: int, lo: int, top: int, n: int)
    requires Retains(h, log, first, lo, top) && Near(top, n)
    ensures Dictionary(h, Wire(n)) == Span(log, first, Max(lo, n - DICT_WINDOW), Min(n, top + 1))
  {
    forall i | 1 <= i <= DICT_WINDOW
      ensures Before(h, Wire(n), i) == LogEntry(log, first, lo, top, n - i)
    {
      BeforeInLog(h, log, first, lo, top, n, i);
    }
    WindowSpellsSpan(h, Wire(n), log, first, lo, top, n, DICT_WINDOW);
  }
}
