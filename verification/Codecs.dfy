/** Wire codecs: constant-time comparison, signed control frames, the NACK and the
    MEMBER_INFO messages.  The cipher and the MACs are arbitrary functions. */
module Codecs {
  import opened Primitives
  import opened Sequence
  import opened Framing

  /** The cryptographic functions the codecs call. */
  datatype Sealing = Sealing(
    hmac: (Data, Data) -> Data,                        // key, frame
    gcmTag: (Data, Data, Data) -> Data,                // key, nonce, authenticated data
    encrypt: (Data, Data, Data, Data) -> Data,         // key, nonce, authenticated data, plaintext
    decrypt: (Data, Data, Data, Data) -> Option<Data>  // key, nonce, authenticated data, ciphertext and tag
  )

  ghost predicate Sizes(c: Sealing) {
    && (forall k, f :: |c.hmac(k, f)| == MAC_LEN)
    && (forall k, n, a :: |c.gcmTag(k, n, a)| == TAG_LEN)
    && (forall k, n, a, p :: |c.encrypt(k, n, a, p)| == |p| + TAG_LEN)
  }

  ghost predicate Decrypts(c: Sealing) {
    forall k, n, a, p :: c.decrypt(k, n, a, c.encrypt(k, n, a, p)) == Some(p)
  }

  const MAC_LEN: int := 32
  const TAG_LEN: int := 16
  const NONCE_LEN: int := 12
  const PUBKEY_LEN: int := 65

  // ---- Comparison ----

  /** Differences are collected in one byte; the result does not depend on where they are. */
  method SafeEqual(a: Bytes, b: Bytes) returns (same: bool)
    ensures same <==> a == b
  {
    if |a| != |b| {
      return false;
    }
    var diff: bv8 := 0;
    for i := 0 to |a|
      invariant diff == 0 <==> a[..i] == b[..i]
    {
      OrOfXor(diff, a[i], b[i]);
      assert a[..i + 1] == a[..i] + [a[i]] && b[..i + 1] == b[..i] + [b[i]];
      diff := diff | (a[i] ^ b[i]);
    }
    assert a[..|a|] == a && b[..|b|] == b;
    same := diff == 0;
  }

  lemma OrOfXor(d: bv8, x: bv8, y: bv8)
    ensures d | (x ^ y) == 0 <==> d == 0 && x == y
  {
  }

  // ---- Signed control frames ----

  function SignControlFrame(c: Sealing, frame: Data, key: Data): Data {
    frame + c.hmac(key, frame)
  }

  function StripControlFrame(frame: Data): Option<Data> {
    if |frame| < MAC_LEN then None else Some(frame[..|frame| - MAC_LEN])
  }

  function VerifyControlFrame(c: Sealing, frame: Data, key: Data): Option<Data> {
    if |frame| < MAC_LEN then None
    else
      var payload, mac := frame[..|frame| - MAC_LEN], frame[|frame| - MAC_LEN..];
      if c.hmac(key, payload) != mac then None else Some(payload)
  }

  /** Exactly the signed frames verify, and what comes back is what was signed. */
  lemma VerifyIffSigned(c: Sealing, frame: Data, key: Data, payload: Data)
    requires Sizes(c)
    ensures VerifyControlFrame(c, frame, key) == Some(payload) <==> frame == SignControlFrame(c, payload, key)
    ensures StripControlFrame(SignControlFrame(c, payload, key)) == Some(payload)
  {
    assert |c.hmac(key, payload)| == MAC_LEN;
    var signed := payload + c.hmac(key, payload);
    assert signed[..|signed| - MAC_LEN] == payload && signed[|signed| - MAC_LEN..] == c.hmac(key, payload);
    if |frame| >= MAC_LEN {
      assert frame == frame[..|frame| - MAC_LEN] + frame[|frame| - MAC_LEN..];
    }
  }

  // ---- Numbers ----

  function BigEndian24(n: Seq24): Data {
    [n / 0x1_0000, n / 0x100 % 0x100, n % 0x100]
  }

  function Read24(b: Data, off: nat): Seq24
    requires off + 3 <= |b|
  {
    var x: int := b[off];
    var y: int := b[off + 1];
    x * 0x1_0000 + y * 0x100 + b[off + 2]
  }

  lemma Number24(n: Seq24, b: Data, off: nat)
    requires off + 3 <= |b|
    ensures Read24(b, off) == n <==> b[off..off + 3] == BigEndian24(n)
  {
    var x: int, y: int, z: int := b[off], b[off + 1], b[off + 2];
    Digits24(n, x, y, z);
    assert b[off..off + 3] == [b[off], b[off + 1], b[off + 2]];
    assert b[off..off + 3][0] == b[off] && b[off..off + 3][1] == b[off + 1] && b[off..off + 3][2] == b[off + 2];
  }

  lemma Digits24(n: int, x: int, y: int, z: int)
    requires 0 <= n < 0x100_0000 && 0 <= x < 0x100 && 0 <= y < 0x100 && 0 <= z < 0x100
    ensures x * 0x1_0000 + y * 0x100 + z == n <==> x == n / 0x1_0000 && y == n / 0x100 % 0x100 && z == n % 0x100
  {
    var high := n / 0x100;
    assert n == high * 0x100 + n % 0x100 && high / 0x100 == n / 0x1_0000;
    assert high == (high / 0x100) * 0x100 + high % 0x100;
  }

  lemma Number16(n: nat, b: Data, off: nat)
    requires n <= 0xFFFF && off + 2 <= |b|
    ensures Read16(b, off) == n <==> b[off..off + 2] == BigEndian16(n)
  {
    var x: int, y: int := b[off], b[off + 1];
    assert x * 0x100 + y == n <==> x == n / 0x100 && y == n % 0x100;
    assert b[off..off + 2] == [b[off], b[off + 1]];
    assert b[off..off + 2][0] == b[off] && b[off..off + 2][1] == b[off + 1];
  }

  // ---- NACK ----

  type Word = n: int | 0 <= n <= 0xFFFF

  datatype Nack = Nack(kind: Octet, convId: Word, senderId: Word, targetId: Word, missing: seq<Seq24>)

  const NACK_FIXED: int := 21

  function Numbers(ms: seq<Seq24>, n: nat): (d: Data)
    requires n <= |ms|
    ensures |d| == 3 * n
  {
    if n == 0 then [] else Numbers(ms, n - 1) + BigEndian24(ms[n - 1])
  }

  function NackFixed(m: Nack, nonce: Data): Data
    requires |m.missing| <= 0xFFFF
  {
    [m.kind] + BigEndian16(m.convId) + BigEndian16(m.senderId) + BigEndian16(m.targetId) + nonce + BigEndian16(|m.missing|)
  }

  /** The cleartext prefix, all of which the tag authenticates. */
  function NackHeader(m: Nack, nonce: Data): Data
    requires |m.missing| <= 0xFFFF
  {
    NackFixed(m, nonce) + Numbers(m.missing, |m.missing|)
  }

  function EncodeNack(c: Sealing, m: Nack, convKey: Data, nonce: Data): Data
    requires |m.missing| <= 0xFFFF
  {
    NackHeader(m, nonce) + c.gcmTag(convKey, nonce, NackHeader(m, nonce))
  }

  function ReadNumbers(b: Data, n: nat): (ms: seq<Seq24>)
    requires NACK_FIXED + 3 * n <= |b|
    ensures |ms| == n
  {
    if n == 0 then [] else ReadNumbers(b, n - 1) + [Read24(b, NACK_FIXED + 3 * (n - 1))]
  }

  /** The relay's view: no key, no check of the tag. */
  function ParseNack(b: Data): Option<Nack> {
    if |b| < NACK_FIXED then None
    else
      var count := Read16(b, 19);
      if |b| < NACK_FIXED + 3 * count then None
      else Some(Nack(b[0], Word16(b, 1), Word16(b, 3), Word16(b, 5), ReadNumbers(b, count)))
  }

  function Word16(b: Data, off: nat): Word
    requires off + 2 <= |b|
  {
    Read16(b, off)
  }

  function DecodeNack(c: Sealing, b: Data, convKey: Data): Option<Nack> {
    match ParseNack(b)
    case None => None
    case Some(m) =>
      var len := NACK_FIXED + 3 * |m.missing|;
      if |b| < len + TAG_LEN then None
      else if b[len..len + TAG_LEN] != c.gcmTag(convKey, b[7..19], b[..len]) then None
      else Some(m)
  }

  /** A number list reads back as itself, and only from the bytes that spell it. */
  lemma {:induction false} NumbersRead(ms: seq<Seq24>, n: nat, b: Data)
    requires n <= |ms| && NACK_FIXED + 3 * n <= |b|
    ensures ReadNumbers(b, n) == ms[..n] <==> b[NACK_FIXED..NACK_FIXED + 3 * n] == Numbers(ms, n)
  {
    hide Read24, BigEndian24;
    if n > 0 {
      var off := NACK_FIXED + 3 * (n - 1);
      NumbersRead(ms, n - 1, b);
      Number24(ms[n - 1], b, off);
      assert |BigEndian24(ms[n - 1])| == 3 by { Size24(ms[n - 1]); }
      assert b[NACK_FIXED..off + 3] == b[NACK_FIXED..off] + b[off..off + 3];
      SplitEqual(b[NACK_FIXED..off], b[off..off + 3], Numbers(ms, n - 1), BigEndian24(ms[n - 1]));
      assert ms[..n] == ms[..n - 1] + [ms[n - 1]];
      SplitEqual(ReadNumbers(b, n - 1), [Read24(b, off)], ms[..n - 1], [ms[n - 1]]);
    }
  }

  lemma Size24(n: Seq24)
    ensures |BigEndian24(n)| == 3
  {
  }

  lemma SplitEqual<T>(a: seq<T>, b: seq<T>, c: seq<T>, d: seq<T>)
    requires |a| == |c|
    ensures a + b == c + d <==> a == c && b == d
  {
    if a + b == c + d {
      assert a == (a + b)[..|a|] && c == (c + d)[..|a|];
      assert b == (a + b)[|a|..] && d == (c + d)[|a|..];
    }
  }

  /** The fixed fields of `b` are those of `m` and its nonce. */
  ghost predicate FixedFields(m: Nack, b: Data, nonce: Data)
    requires |b| >= NACK_FIXED
  {
    && b[0] == m.kind && Read16(b, 1) == m.convId && Read16(b, 3) == m.senderId && Read16(b, 5) == m.targetId
    && b[7..19] == nonce && Read16(b, 19) == |m.missing|
  }

  lemma FixedFieldsRead(m: Nack, b: Data, nonce: Data)
    requires |m.missing| <= 0xFFFF && |nonce| == NONCE_LEN && |b| >= NACK_FIXED
    ensures FixedFields(m, b, nonce) <==> b[..NACK_FIXED] == NackFixed(m, nonce)
  {
    hide Read16, BigEndian16;
    Number16(m.convId, b, 1);
    Number16(m.senderId, b, 3);
    Number16(m.targetId, b, 5);
    Number16(|m.missing|, b, 19);
    Size16(m.convId);
    Size16(m.senderId);
    Size16(m.targetId);
    Size16(|m.missing|);
    assert b[..21] == [b[0]] + b[1..3] + b[3..5] + b[5..7] + b[7..19] + b[19..21];
    SixPieces([b[0]], b[1..3], b[3..5], b[5..7], b[7..19], b[19..21],
              [m.kind], BigEndian16(m.convId), BigEndian16(m.senderId), BigEndian16(m.targetId), nonce, BigEndian16(|m.missing|));
  }

  lemma SixPieces<T>(a: seq<T>, b: seq<T>, c: seq<T>, d: seq<T>, e: seq<T>, f: seq<T>,
                     a': seq<T>, b': seq<T>, c': seq<T>, d': seq<T>, e': seq<T>, f': seq<T>)
    requires |a| == |a'| && |b| == |b'| && |c| == |c'| && |d| == |d'| && |e| == |e'|
    ensures a + b + c + d + e + f == a' + b' + c' + d' + e' + f' <==>
            a == a' && b == b' && c == c' && d == d' && e == e' && f == f'
  {
    SplitEqual(a + b + c + d + e, f, a' + b' + c' + d' + e', f');
    SplitEqual(a + b + c + d, e, a' + b' + c' + d', e');
    SplitEqual(a + b + c, d, a' + b' + c', d');
    SplitEqual(a + b, c, a' + b', c');
    SplitEqual(a, b, a', b');
  }

  lemma HeaderSize(m: Nack, nonce: Data)
    requires |m.missing| <= 0xFFFF && |nonce| == NONCE_LEN
    ensures |NackHeader(m, nonce)| == NACK_FIXED + 3 * |m.missing|
  {
  }

  /** Bytes parse to `m` exactly if they begin with its header under some nonce. */
  lemma ParseIffHeader(m: Nack, b: Data)
    requires |m.missing| <= 0xFFFF && |b| >= NACK_FIXED + 3 * |m.missing|
    ensures ParseNack(b) == Some(m) <==> b[..NACK_FIXED + 3 * |m.missing|] == NackHeader(m, b[7..19])
  {
    hide Read16, BigEndian16, Numbers, ReadNumbers, NackFixed;
    var n := |m.missing|;
    var len := NACK_FIXED + 3 * n;
    FixedFieldsRead(m, b, b[7..19]);
    NumbersRead(m.missing, n, b);
    assert m.missing[..n] == m.missing;
    assert b[..len] == b[..NACK_FIXED] + b[NACK_FIXED..len];
    FixedSize(m, b[7..19]);
    SplitEqual(b[..NACK_FIXED], b[NACK_FIXED..len], NackFixed(m, b[7..19]), Numbers(m.missing, n));
  }

  lemma FixedSize(m: Nack, nonce: Data)
    requires |m.missing| <= 0xFFFF && |nonce| == NONCE_LEN
    ensures |NackFixed(m, nonce)| == NACK_FIXED
  {
  }

  /** Every NACK, whatever follows it, parses back to itself. */
  lemma ParseNackInverts(m: Nack, nonce: Data, tail: Data)
    requires |m.missing| <= 0xFFFF && |nonce| == NONCE_LEN
    ensures ParseNack(NackHeader(m, nonce) + tail) == Some(m)
  {
    hide Numbers, NackFixed, ParseNack;
    var header := NackHeader(m, nonce);
    var b := header + tail;
    HeaderSize(m, nonce);
    assert b[..|header|] == header;
    NonceAt(m, nonce);
    assert b[7..19] == header[7..19];
    ParseIffHeader(m, b);
  }

  lemma NonceAt(m: Nack, nonce: Data)
    requires |m.missing| <= 0xFFFF && |nonce| == NONCE_LEN
    ensures |NackHeader(m, nonce)| >= NACK_FIXED && NackHeader(m, nonce)[7..19] == nonce
  {
    hide Numbers;
    FixedSize(m, nonce);
    assert NackHeader(m, nonce)[7..19] == NackFixed(m, nonce)[7..19];
  }

  /** Parse, blind parse after sign and strip, and authenticated decode after
      verification all return the NACK that was encoded. */
  lemma NackRoundTrips(c: Sealing, m: Nack, convKey: Data, macKey: Data, nonce: Data)
    requires Sizes(c) && |m.missing| <= 0xFFFF && |nonce| == NONCE_LEN
    ensures var b := EncodeNack(c, m, convKey, nonce);
            var signed := SignControlFrame(c, b, macKey);
            && ParseNack(b) == Some(m)
            && ParseNack(signed) == Some(m)
            && StripControlFrame(signed) == Some(b)
            && VerifyControlFrame(c, signed, macKey) == Some(b)
            && DecodeNack(c, b, convKey) == Some(m)
  {
    hide Numbers, NackFixed, ParseNack, NackHeader;
    var header := NackHeader(m, nonce);
    var b := EncodeNack(c, m, convKey, nonce);
    var signed := SignControlFrame(c, b, macKey);
    VerifyIffSigned(c, signed, macKey, b);
    ParseNackInverts(m, nonce, c.gcmTag(convKey, nonce, header));
    assert signed == header + (c.gcmTag(convKey, nonce, header) + c.hmac(macKey, b));
    ParseNackInverts(m, nonce, c.gcmTag(convKey, nonce, header) + c.hmac(macKey, b));
    HeaderSize(m, nonce);
    NonceAt(m, nonce);
    assert |c.gcmTag(convKey, nonce, header)| == TAG_LEN;
    assert b[..|header|] == header && b[7..19] == header[7..19];
    assert b[|header|..|header| + TAG_LEN] == c.gcmTag(convKey, nonce, header);
  }

  /** Conversely, whatever decodes to `m` begins with the one encoding of `m` under
      the nonce it carries. */
  lemma DecodeNackIff(c: Sealing, b: Data, convKey: Data, m: Nack)
    requires Sizes(c) && |m.missing| <= 0xFFFF
    ensures DecodeNack(c, b, convKey) == Some(m) <==> |b| >= NACK_FIXED && EncodeNack(c, m, convKey, b[7..19]) <= b
  {
    hide Numbers, NackFixed, ParseNack, NackHeader;
    var len := NACK_FIXED + 3 * |m.missing|;
    if |b| >= len + TAG_LEN {
      var nonce := b[7..19];
      var header := NackHeader(m, nonce);
      var tag := c.gcmTag(convKey, nonce, header);
      HeaderSize(m, nonce);
      assert |tag| == TAG_LEN;
      ParseIffHeader(m, b);
      assert b[..len + TAG_LEN] == b[..len] + b[len..len + TAG_LEN];
      SplitEqual(b[..len], b[len..len + TAG_LEN], header, tag);
    } else if |b| >= NACK_FIXED {
      HeaderSize(m, b[7..19]);
      assert |c.gcmTag(convKey, b[7..19], NackHeader(m, b[7..19]))| == TAG_LEN;
    } else {
      ShortNack(b);
    }
  }

  lemma ShortNack(b: Data)
    requires |b| < NACK_FIXED
    ensures ParseNack(b) == None
  {
  }

  /** Where every byte of a NACK is: the type, three 16-bit fields high byte first, the
      nonce, a 16-bit count, the 24-bit numbers in order, and a 16-byte tag over all of
      that. */
  lemma NackLayout(c: Sealing, m: Nack, convKey: Data, nonce: Data)
    requires Sizes(c) && |m.missing| <= 0xFFFF && |nonce| == NONCE_LEN
    ensures var b := EncodeNack(c, m, convKey, nonce);
            var len := 21 + 3 * |m.missing|;
            && |b| == len + 16 && b[0] == m.kind
            && At16(b, 1, m.convId) && At16(b, 3, m.senderId) && At16(b, 5, m.targetId)
            && b[7..19] == nonce && At16(b, 19, |m.missing|)
            && (forall i :: 0 <= i < |m.missing| ==> At24(b, 21 + 3 * i, m.missing[i]))
            && b[len..] == c.gcmTag(convKey, nonce, b[..len])
  {
    hide Numbers, NackFixed, NackHeader;
    var header := NackHeader(m, nonce);
    var b := EncodeNack(c, m, convKey, nonce);
    HeaderSize(m, nonce);
    assert |c.gcmTag(convKey, nonce, header)| == TAG_LEN;
    assert b[..|header|] == header && b[|header|..] == c.gcmTag(convKey, nonce, header);
    HeaderLayout(m, nonce);
    assert b[7..19] == header[7..19];
    forall i | 0 <= i < |m.missing| ensures At24(b, 21 + 3 * i, m.missing[i]) {
      assert At24(header, 21 + 3 * i, m.missing[i]);
    }
  }

  /** The 16-bit number `n` stands at `off`, high byte first. */
  predicate At16(b: Data, off: nat, n: int) {
    off + 2 <= |b| && 256 * b[off] as int + b[off + 1] as int == n
  }

  predicate At24(b: Data, off: nat, n: int) {
    off + 3 <= |b| && 65536 * b[off] as int + 256 * b[off + 1] as int + b[off + 2] as int == n
  }

  lemma HeaderLayout(m: Nack, nonce: Data)
    requires |m.missing| <= 0xFFFF && |nonce| == NONCE_LEN
    ensures var h := NackHeader(m, nonce);
            && |h| == 21 + 3 * |m.missing| && h[0] == m.kind
            && At16(h, 1, m.convId) && At16(h, 3, m.senderId) && At16(h, 5, m.targetId)
            && h[7..19] == nonce && At16(h, 19, |m.missing|)
            && forall i :: 0 <= i < |m.missing| ==> At24(h, 21 + 3 * i, m.missing[i])
  {
    hide Numbers;
    var h, f := NackHeader(m, nonce), NackFixed(m, nonce);
    FixedSize(m, nonce);
    FixedLayout(m, nonce);
    assert h[..21] == f && h[7..19] == f[7..19];
    forall i | 0 <= i < |m.missing| ensures At24(h, 21 + 3 * i, m.missing[i]) {
      var off := 21 + 3 * i;
      var at := 3 * i;
      NumberLayout(m.missing, |m.missing|, i);
      assert h[off] == Numbers(m.missing, |m.missing|)[at];
    }
  }

  lemma FixedLayout(m: Nack, nonce: Data)
    requires |m.missing| <= 0xFFFF && |nonce| == NONCE_LEN
    ensures var f := NackFixed(m, nonce);
            && |f| == 21 && f[0] == m.kind && At16(f, 1, m.convId) && At16(f, 3, m.senderId) && At16(f, 5, m.targetId)
            && f[7..19] == nonce && At16(f, 19, |m.missing|)
  {
  }

  lemma {:induction false} NumberLayout(ms: seq<Seq24>, n: nat, i: nat)
    requires i < n <= |ms|
    ensures At24(Numbers(ms, n), 3 * i, ms[i])
    decreases n
  {
    if i < n - 1 { NumberLayout(ms, n - 1, i); } else { Digits(ms[i]); }
  }

  lemma Digits(n: Seq24)
    ensures At24(BigEndian24(n), 0, n)
  {
  }

  // ---- Writing and reading the NACK in place ----

  method Put(a: array<Octet>, off: nat, d: Data)
    requires off + |d| <= a.Length
    modifies a
    ensures a[..off + |d|] == old(a[..off]) + d
  {
    for i := 0 to |d|
      invariant a[..off] == old(a[..off]) && a[off..off + i] == d[..i]
    {
      a[off + i] := d[i];
      assert a[off..off + i + 1] == a[off..off + i] + [d[i]];
    }
    assert a[..off + |d|] == a[..off] + a[off..off + |d|];
  }

  method WriteNackFixed(header: array<Octet>, m: Nack, nonce: Data)
    requires |m.missing| <= 0xFFFF && |nonce| == NONCE_LEN && header.Length >= NACK_FIXED
    modifies header
    ensures header[..NACK_FIXED] == NackFixed(m, nonce)
  {
    hide BigEndian16;
    Size16(m.convId);
    Size16(m.senderId);
    Size16(m.targetId);
    Size16(|m.missing|);
    Put(header, 0, [m.kind]);
    assert header[..1] == [m.kind];
    Put(header, 1, BigEndian16(m.convId));
    Put(header, 3, BigEndian16(m.senderId));
    Put(header, 5, BigEndian16(m.targetId));
    Put(header, 7, nonce);
    Put(header, 19, BigEndian16(|m.missing|));
  }

  method WriteNackHeader(m: Nack, nonce: Data) returns (header: array<Octet>)
    requires |m.missing| <= 0xFFFF && |nonce| == NONCE_LEN
    ensures header[..] == NackHeader(m, nonce)
  {
    hide BigEndian24, NackFixed;
    var count := |m.missing|;
    header := new Octet[NACK_FIXED + 3 * count];
    WriteNackFixed(header, m, nonce);
    for i := 0 to count
      invariant header[..NACK_FIXED + 3 * i] == NackFixed(m, nonce) + Numbers(m.missing, i)
    {
      Size24(m.missing[i]);
      Put(header, NACK_FIXED + 3 * i, BigEndian24(m.missing[i]));
    }
    assert header[..] == header[..NACK_FIXED + 3 * count];
  }

  method ReadNack(b: Data) returns (nack: Option<Nack>)
    ensures nack == ParseNack(b)
  {
    hide Read16, Read24;
    if |b| < NACK_FIXED {
      return None;
    }
    var count := Read16(b, 19);
    if |b| < NACK_FIXED + 3 * count {
      return None;
    }
    var missing: seq<Seq24> := [];
    for i := 0 to count
      invariant missing == ReadNumbers(b, i)
    {
      missing := missing + [Read24(b, NACK_FIXED + 3 * i)];
    }
    nack := Some(Nack(b[0], Word16(b, 1), Word16(b, 3), Word16(b, 5), missing));
  }

  // ---- MEMBER_INFO ----

  datatype Member = Member(id: Word, pubKey: Data)

  datatype MemberInfo =
    MemberInfo(kind: Octet, convId: Word, senderId: Word, serverPubKey: Data, creator: bool, members: seq<Member>)

  const SLOT: int := 67
  const INFO_MIN: int := 98

  /** A roster the wire format has room for: 65-byte keys, a 16-bit count. */
  ghost predicate Fits(info: MemberInfo) {
    && |info.serverPubKey| == PUBKEY_LEN && |info.members| <= 0xFFFF
    && forall i :: 0 <= i < |info.members| ==> |info.members[i].pubKey| == PUBKEY_LEN
  }

  function Slots(ms: seq<Member>, n: nat): Data
    requires n <= |ms|
  {
    if n == 0 then [] else Slots(ms, n - 1) + (BigEndian16(ms[n - 1].id) + ms[n - 1].pubKey)
  }

  function InfoPayload(info: MemberInfo): Data
    requires |info.members| <= 0xFFFF
  {
    [if info.creator then 1 else 0] + BigEndian16(|info.members|) + Slots(info.members, |info.members|)
  }

  function InfoHeader(info: MemberInfo): Data {
    [info.kind] + BigEndian16(info.convId) + BigEndian16(info.senderId)
  }

  function EncodeMemberInfo(c: Sealing, info: MemberInfo, key: Data, nonce: Data): Data
    requires |info.members| <= 0xFFFF
  {
    var aad := InfoHeader(info) + info.serverPubKey + nonce;
    aad + c.encrypt(key, nonce, aad, InfoPayload(info))
  }

  function Clamp(n: int, limit: nat): nat
    requires 0 <= n
  {
    if n < limit then n else limit
  }

  /** A read past the end fails; a slice past the end is cut short. */
  function ReadSlots(p: Data, n: nat): Option<seq<Member>> {
    if n == 0 then Some([])
    else
      var off := 3 + SLOT * (n - 1);
      match ReadSlots(p, n - 1)
      case None => None
      case Some(ms) =>
        if |p| < off + 2 then None
        else Some(ms + [Member(Word16(p, off), p[Clamp(off + 2, |p|)..Clamp(off + SLOT, |p|)])])
  }

  function DecodeMemberInfo(c: Sealing, b: Data, key: Data): Option<MemberInfo> {
    if |b| < INFO_MIN then None
    else
      match c.decrypt(key, b[70..82], b[..5] + b[5..70] + b[70..82], b[82..])
      case None => None
      case Some(p) =>
        if |p| < 3 then None
        else
          match ReadSlots(p, Read16(p, 1))
          case None => None
          case Some(ms) => Some(MemberInfo(b[0], Word16(b, 1), Word16(b, 3), b[5..70], p[0] == 1, ms))
  }

  lemma {:induction false} SlotsSize(ms: seq<Member>, n: nat)
    requires n <= |ms| && forall i :: 0 <= i < |ms| ==> |ms[i].pubKey| == PUBKEY_LEN
    ensures |Slots(ms, n)| == SLOT * n
  {
    if n > 0 { SlotsSize(ms, n - 1); }
  }

  lemma {:induction false} SlotsRead(ms: seq<Member>, n: nat, p: Data)
    requires n <= |ms| && forall i :: 0 <= i < |ms| ==> |ms[i].pubKey| == PUBKEY_LEN
    requires 3 + SLOT * n <= |p| && p[3..3 + SLOT * n] == Slots(ms, n)
    ensures ReadSlots(p, n) == Some(ms[..n])
  {
    hide Read16, BigEndian16;
    if n > 0 {
      var off := 3 + SLOT * (n - 1);
      var m := ms[n - 1];
      SlotsSize(ms, n - 1);
      Size16(m.id);
      assert p[3..off + SLOT] == p[3..off] + p[off..off + SLOT];
      SplitEqual(p[3..off], p[off..off + SLOT], Slots(ms, n - 1), BigEndian16(m.id) + m.pubKey);
      SlotsRead(ms, n - 1, p);
      assert p[off..off + SLOT] == p[off..off + 2] + p[off + 2..off + SLOT];
      SplitEqual(p[off..off + 2], p[off + 2..off + SLOT], BigEndian16(m.id), m.pubKey);
      Number16(m.id, p, off);
      assert ms[..n] == ms[..n - 1] + [m];
    }
  }

  /** A payload that ends early: members are read exactly if the last one's id is still
      there, and a key that is cut off comes out shorter than 65 bytes, unnoticed. */
  lemma {:induction false} TruncatedSlots(p: Data, n: nat)
    ensures ReadSlots(p, n).Some? <==> n == 0 || |p| >= 3 + SLOT * (n - 1) + 2
    ensures ReadSlots(p, n).Some? ==> |ReadSlots(p, n).value| == n
    ensures ReadSlots(p, n).Some? ==>
              forall i :: 0 <= i < n ==> SlotCut(p, i, ReadSlots(p, n).value[i])
  {
    hide Read16;
    if n > 0 { TruncatedSlots(p, n - 1); }
  }

  ghost predicate SlotCut(p: Data, i: nat, m: Member) {
    var off := 3 + SLOT * i;
    && off + 2 <= |p| && m.id == Read16(p, off)
    && m.pubKey == (if |p| < off + SLOT then p[off + 2..] else p[off + 2..off + SLOT])
  }

  /** The payload alone reads back as the roster and the creator flag. */
  lemma PayloadReads(info: MemberInfo)
    requires Fits(info)
    ensures var p := InfoPayload(info);
            && |p| >= 3 && Read16(p, 1) == |info.members| && (p[0] == 1 <==> info.creator)
            && ReadSlots(p, |info.members|) == Some(info.members)
  {
    hide Read16, BigEndian16;
    var p, n := InfoPayload(info), |info.members|;
    Size16(n);
    SlotsSize(info.members, n);
    assert p[1..3] == BigEndian16(n) && p[3..3 + SLOT * n] == Slots(info.members, n);
    Number16(n, p, 1);
    SlotsRead(info.members, n, p);
    assert info.members[..n] == info.members;
  }

  lemma InfoHeaderReads(info: MemberInfo, b: Data)
    requires |b| >= 5 && b[..5] == InfoHeader(info)
    ensures b[0] == info.kind && Read16(b, 1) == info.convId && Read16(b, 3) == info.senderId
  {
    hide Read16, BigEndian16;
    Size16(info.convId);
    Size16(info.senderId);
    assert b[0] == b[..5][0];
    assert b[1..3] == b[..5][1..3] == BigEndian16(info.convId);
    assert b[3..5] == b[..5][3..5] == BigEndian16(info.senderId);
    Number16(info.convId, b, 1);
    Number16(info.senderId, b, 3);
  }

  /** Where everything in a MEMBER_INFO is: the cleartext fields, the server's key, the
      nonce, and the sealed payload, which is the creator flag, the count, and for each
      member 67 bytes of id and key; the cleartext is authenticated with it. */
  lemma MemberInfoLayout(c: Sealing, info: MemberInfo, key: Data, nonce: Data)
    requires Fits(info) && |nonce| == NONCE_LEN
    ensures var b, p := EncodeMemberInfo(c, info, key, nonce), InfoPayload(info);
            && |b| >= 82 && b[0] == info.kind && At16(b, 1, info.convId) && At16(b, 3, info.senderId)
            && b[5..70] == info.serverPubKey && b[70..82] == nonce && b[82..] == c.encrypt(key, nonce, b[..82], p)
            && |p| == 3 + 67 * |info.members| && p[0] == (if info.creator then 1 else 0) && At16(p, 1, |info.members|)
            && forall i :: 0 <= i < |info.members| ==> SlotAt(p, 3 + 67 * i, info.members[i])
  {
    hide InfoPayload;
    var header := InfoHeader(info);
    var aad := header + info.serverPubKey + nonce;
    var b := EncodeMemberInfo(c, info, key, nonce);
    assert b[..82] == aad && b[82..] == c.encrypt(key, nonce, aad, InfoPayload(info));
    PayloadLayout(info);
  }

  ghost predicate SlotAt(p: Data, off: nat, m: Member) {
    off + 67 <= |p| && At16(p, off, m.id) && p[off + 2..off + 67] == m.pubKey
  }

  lemma PayloadLayout(info: MemberInfo)
    requires Fits(info)
    ensures var p := InfoPayload(info);
            && |p| == 3 + 67 * |info.members| && p[0] == (if info.creator then 1 else 0) && At16(p, 1, |info.members|)
            && forall i :: 0 <= i < |info.members| ==> SlotAt(p, 3 + 67 * i, info.members[i])
  {
    hide Slots;
    var p, n := InfoPayload(info), |info.members|;
    SlotsSize(info.members, n);
    forall i | 0 <= i < n ensures SlotAt(p, 3 + 67 * i, info.members[i]) {
      SlotLayout(info.members, n, i);
      var slots, at := Slots(info.members, n), 67 * i;
      assert p[3..] == slots;
      assert p[at + 3] == slots[at] && p[at + 4] == slots[at + 1] && p[at + 5..at + 70] == slots[at + 2..at + 67];
    }
  }

  lemma {:induction false} SlotLayout(ms: seq<Member>, n: nat, i: nat)
    requires i < n <= |ms| && forall j :: 0 <= j < |ms| ==> |ms[j].pubKey| == PUBKEY_LEN
    ensures SlotAt(Slots(ms, n), 67 * i, ms[i])
    decreases n
  {
    var off := 67 * i;
    SlotsSize(ms, n);
    SlotsSize(ms, n - 1);
    if i < n - 1 {
      SlotLayout(ms, n - 1, i);
      assert Slots(ms, n)[..67 * (n - 1)] == Slots(ms, n - 1);
      assert Slots(ms, n)[off + 2..off + 67] == Slots(ms, n - 1)[off + 2..off + 67];
    } else {
      assert Slots(ms, n)[off + 2..off + 67] == ms[i].pubKey;
    }
  }

  /** Every roster of 65-byte keys decodes to itself. */
  lemma MemberInfoRoundTrips(c: Sealing, info: MemberInfo, key: Data, nonce: Data)
    requires Sizes(c) && Decrypts(c) && Fits(info) && |nonce| == NONCE_LEN
    ensures DecodeMemberInfo(c, EncodeMemberInfo(c, info, key, nonce), key) == Some(info)
  {
    hide Read16, BigEndian16, InfoPayload, ReadSlots;
    var header, payload := InfoHeader(info), InfoPayload(info);
    var aad := header + info.serverPubKey + nonce;
    var sealed := c.encrypt(key, nonce, aad, payload);
    var b := EncodeMemberInfo(c, info, key, nonce);
    PayloadReads(info);
    Size16(info.convId);
    Size16(info.senderId);
    assert |sealed| == |payload| + TAG_LEN;
    assert b[..5] == header && b[5..70] == info.serverPubKey && b[70..82] == nonce && b[82..] == sealed;
    InfoHeaderReads(info, b);
    assert c.decrypt(key, nonce, aad, sealed) == Some(payload);
  }

  method WriteInfoPayload(info: MemberInfo) returns (payload: array<Octet>)
    requires Fits(info)
    ensures payload[..] == InfoPayload(info)
  {
    hide BigEndian16;
    var count := |info.members|;
    payload := new Octet[3 + SLOT * count];
    Size16(count);
    Put(payload, 0, [if info.creator then 1 else 0]);
    Put(payload, 1, BigEndian16(count));
    var offset := 3;
    ghost var head := [if info.creator then 1 else 0] + BigEndian16(count);
    assert payload[..3] == head + Slots(info.members, 0);
    for i := 0 to count
      invariant offset == 3 + SLOT * i
      invariant payload[..offset] == head + Slots(info.members, i)
    {
      var m := info.members[i];
      Size16(m.id);
      Put(payload, offset, BigEndian16(m.id));
      Put(payload, offset + 2, m.pubKey);
      assert head + Slots(info.members, i) + BigEndian16(m.id) + m.pubKey
          == head + (Slots(info.members, i) + (BigEndian16(m.id) + m.pubKey));
      offset := offset + SLOT;
    }
    assert payload[..] == payload[..offset];
  }

  method ReadMembers(p: Data, count: nat) returns (members: Option<seq<Member>>)
    ensures members == ReadSlots(p, count)
  {
    hide Read16;
    var ms: seq<Member> := [];
    for i := 0 to count
      invariant ReadSlots(p, i) == Some(ms)
    {
      var off := 3 + SLOT * i;
      if |p| < off + 2 {
        NoMoreSlots(p, i + 1, count);
        return None;
      }
      ms := ms + [Member(Word16(p, off), p[Clamp(off + 2, |p|)..Clamp(off + SLOT, |p|)])];
    }
    members := Some(ms);
  }

  lemma {:induction false} NoMoreSlots(p: Data, n: nat, count: nat)
    requires n <= count && ReadSlots(p, n) == None
    ensures ReadSlots(p, count) == None
    decreases count
  {
    if n < count { NoMoreSlots(p, n, count - 1); }
  }
}
