/** Length-prefixed frames over a byte stream: two bytes of length, then the frame. */
module Framing {

  type Octet = x: int | 0 <= x < 0x100
  type Data = seq<Octet>

  const MAX_FRAME: int := 0xFFFF

  function BigEndian16(n: nat): Data
    requires n <= 0xFFFF
  {
    [n / 0x100, n % 0x100]
  }

  function Read16(b: Data, off: nat): nat
    requires off + 2 <= |b|
  {
    var high: int := b[off];
    high * 0x100 + b[off + 1]
  }

  function Framed(frame: Data): Data
    requires |frame| <= MAX_FRAME
  {
    BigEndian16(|frame|) + frame
  }

  ghost predicate Sendable(frames: seq<Data>) {
    forall i :: 0 <= i < |frames| ==> |frames[i]| <= MAX_FRAME
  }

  /** What a writer puts on the stream for these frames. */
  ghost function Stream(frames: seq<Data>): Data
    requires Sendable(frames)
  {
    if frames == [] then [] else Framed(frames[0]) + Stream(frames[1..])
  }

  /** A whole frame stands at the front of the buffer. */
  predicate Complete(b: Data) {
    |b| >= 2 && |b| >= 2 + Read16(b, 0)
  }

  datatype Cut = Cut(frames: seq<Data>, rest: Data)

  /** Take whole frames off the front as long as there are any. */
  ghost function Deframe(b: Data): Cut {
    if !Complete(b) then Cut([], b)
    else
      var len := Read16(b, 0);
      var more := Deframe(b[2 + len..]);
      Cut([b[2..2 + len]] + more.frames, more.rest)
  }

  // ---- The reader ----

  class Deframer {
    var buffer: Data

    constructor ()
      ensures buffer == []
    {
      buffer := [];
    }

    method OnData(chunk: Data) returns (frames: seq<Data>)
      modifies this
      ensures Cut(frames, buffer) == Deframe(old(buffer) + chunk)
    {
      hide Deframe, Read16;
      buffer := buffer + chunk;
      frames := [];
      while |buffer| >= 2
        invariant Cut(frames + Deframe(buffer).frames, Deframe(buffer).rest) == Deframe(old(buffer) + chunk)
        decreases |buffer|
      {
        var len := Read16(buffer, 0);
        if |buffer| >= 2 + len {
          FrontComesOff(buffer);
          Associates(frames, [buffer[2..2 + len]], Deframe(buffer[2 + len..]).frames);
          frames := frames + [buffer[2..2 + len]];
          buffer := buffer[2 + len..];
        } else {
          break;
        }
      }
      Unfinished(buffer);
    }
  }

  // ---- Chunks do not matter ----

  /** Frames already whole are not affected by what arrives later. */
  lemma {:induction false} DeframeAppend(b: Data, c: Data)
    ensures var first := Deframe(b);
            var second := Deframe(first.rest + c);
            Deframe(b + c) == Cut(first.frames + second.frames, second.rest)
    decreases |b|
  {
    if Complete(b) {
      var len := Read16(b, 0);
      var tail := b[2 + len..];
      assert (b + c)[2..2 + len] == b[2..2 + len];
      assert (b + c)[2 + len..] == tail + c;
      DeframeAppend(tail, c);
      var first := Deframe(tail);
      var second := Deframe(first.rest + c);
      assert [b[2..2 + len]] + (first.frames + second.frames) == ([b[2..2 + len]] + first.frames) + second.frames;
    }
  }

  ghost function Joined(chunks: seq<Data>, n: nat): Data
    requires n <= |chunks|
  {
    if n == 0 then [] else Joined(chunks, n - 1) + chunks[n - 1]
  }

  /** The reader after its first `n` chunks: all frames so far, and its buffer. */
  ghost function Fed(chunks: seq<Data>, n: nat): Cut
    requires n <= |chunks|
  {
    if n == 0 then Cut([], [])
    else
      var before := Fed(chunks, n - 1);
      var now := Deframe(before.rest + chunks[n - 1]);
      Cut(before.frames + now.frames, now.rest)
  }

  lemma {:induction false} ChunksDoNotMatter(chunks: seq<Data>, n: nat)
    requires n <= |chunks|
    ensures Fed(chunks, n) == Deframe(Joined(chunks, n))
  {
    if n > 0 {
      ChunksDoNotMatter(chunks, n - 1);
      DeframeAppend(Joined(chunks, n - 1), chunks[n - 1]);
    }
  }

  // ---- Framing and deframing undo each other ----

  lemma Length16(n: nat, rest: Data)
    requires n <= 0xFFFF
    ensures Read16(BigEndian16(n) + rest, 0) == n
  {
  }

  /** On the wire a frame is its length, high byte first, and then its bytes. */
  lemma FrameLayout(frame: Data)
    requires |frame| <= MAX_FRAME
    ensures var b := Framed(frame);
            |b| == 2 + |frame| && 256 * b[0] as int + b[1] as int == |frame| && b[2..] == frame
  {
  }

  lemma Bytes16(b: Data)
    requires |b| >= 2
    ensures Read16(b, 0) <= 0xFFFF && BigEndian16(Read16(b, 0)) == b[..2]
  {
  }

  /** One whole frame at the front comes off first. */
  lemma FrontFrame(frame: Data, more: Data)
    requires |frame| <= MAX_FRAME
    ensures var c := Deframe(more); Deframe(Framed(frame) + more) == Cut([frame] + c.frames, c.rest)
  {
    hide Read16, BigEndian16;
    var b := Framed(frame) + more;
    assert b == BigEndian16(|frame|) + (frame + more);
    Length16(|frame|, frame + more);
    assert |BigEndian16(|frame|)| == 2 by { Size16(|frame|); }
    assert b[2..2 + |frame|] == frame && b[2 + |frame|..] == more;
  }

  lemma Size16(n: nat)
    requires n <= 0xFFFF
    ensures |BigEndian16(n)| == 2
  {
  }

  lemma {:induction false} DeframeInverts(frames: seq<Data>, tail: Data)
    requires Sendable(frames) && !Complete(tail)
    ensures Deframe(Stream(frames) + tail) == Cut(frames, tail)
    decreases |frames|
  {
    hide Framed, Complete;
    if frames == [] {
      assert Stream(frames) + tail == tail;
      Unfinished(tail);
    } else {
      var more := Stream(frames[1..]) + tail;
      assert Stream(frames) + tail == Framed(frames[0]) + more;
      FrontFrame(frames[0], more);
      DeframeInverts(frames[1..], tail);
      assert [frames[0]] + frames[1..] == frames;
    }
  }

  lemma Unfinished(tail: Data)
    requires !Complete(tail)
    ensures Deframe(tail) == Cut([], tail)
  {
  }

  /** Nothing is lost or invented: for any bytes at all, the frames taken and the
      leftover spell them, and the leftover begins with no whole frame. */
  lemma {:induction false} DeframeConserves(b: Data)
    ensures var c := Deframe(b);
            Sendable(c.frames) && Stream(c.frames) + c.rest == b && !Complete(c.rest)
    decreases |b|
  {
    hide Framed, Deframe, Stream;
    if Complete(b) {
      var len := Read16(b, 0);
      var frame, tail := b[2..2 + len], b[2 + len..];
      FrontComesOff(b);
      FrameAtFront(b);
      DeframeConserves(tail);
      var c := Deframe(tail);
      StreamFront(frame, c.frames);
      Associates(Framed(frame), Stream(c.frames), c.rest);
    } else {
      Unfinished(b);
      EmptyStream(b);
    }
  }

  lemma EmptyStream(b: Data)
    ensures Sendable([]) && Stream([]) + b == b
  {
  }

  lemma FrontComesOff(b: Data)
    requires Complete(b)
    ensures var len := Read16(b, 0);
            var c := Deframe(b[2 + len..]);
            Deframe(b) == Cut([b[2..2 + len]] + c.frames, c.rest)
  {
  }

  lemma Associates<T>(x: seq<T>, y: seq<T>, z: seq<T>)
    ensures (x + y) + z == x + (y + z)
  {
  }

  lemma FrameAtFront(b: Data)
    requires Complete(b)
    ensures var len := Read16(b, 0); len <= MAX_FRAME && Framed(b[2..2 + len]) + b[2 + len..] == b
  {
    hide Read16, BigEndian16;
    Bytes16(b);
    var len := Read16(b, 0);
    assert b == b[..2] + b[2..2 + len] + b[2 + len..];
  }

  lemma StreamFront(frame: Data, more: seq<Data>)
    requires |frame| <= MAX_FRAME && Sendable(more)
    ensures Sendable([frame] + more) && Stream([frame] + more) == Framed(frame) + Stream(more)
  {
    assert ([frame] + more)[1..] == more;
  }

  /** However the stream is split into chunks, the reader has emitted exactly the
      frames that were sent whole, in order, and keeps exactly the unfinished rest. */
  lemma StreamIsRead(frames: seq<Data>, tail: Data, chunks: seq<Data>)
    requires Sendable(frames) && !Complete(tail) && Joined(chunks, |chunks|) == Stream(frames) + tail
    ensures Fed(chunks, |chunks|) == Cut(frames, tail)
  {
    ChunksDoNotMatter(chunks, |chunks|);
    DeframeInverts(frames, tail);
  }
}
