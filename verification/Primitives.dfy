/** Bytes, optional values and the cryptographic and compression primitives the
    protocol is built on.

    The primitives are not implemented here.  A `Suite` collects them as
    arbitrary functions, and `Lawful` lists the only facts about them that the
    rest of the project may rely on. */
module Primitives {
  import opened Sequence

  type Byte = bv8
  type Bytes = seq<Byte>

  datatype Option<T> = None | Some(value: T)

  /** The cleartext prefix of a DATA packet.  The whole prefix is the associated
      data of the AEAD, so it is an argument of `seal` and `open`. */
  datatype Header = Header(num: Seq24, nonce: Bytes, epoch: nat, dictFp: Bytes, idx: nat)

  datatype DataPacket = DataPacket(header: Header, body: Bytes)

  datatype Suite = Suite(
    nextKey: Bytes -> Bytes,
    messageKey: (Bytes, nat) -> Bytes,
    fingerprint: Bytes -> Bytes,
    deflate: (Bytes, Bytes) -> Bytes,
    inflate: (Bytes, Bytes) -> Option<Bytes>,
    seal: (Bytes, Header, Bytes) -> Bytes,
    open: (Bytes, Header, Bytes) -> Option<Bytes>
  )

  /** `inflate` undoes `deflate` under an equal dictionary. */
  ghost predicate DeflateLaw(suite: Suite, p: Bytes, d: Bytes) {
    suite.inflate(suite.deflate(p, d), d) == Some(p)
  }

  /** `open` undoes `seal` under the sealing key and header and fails under any other. */
  ghost predicate SealLaw(suite: Suite, k: Bytes, h: Header, x: Bytes, k': Bytes, h': Header) {
    suite.open(k', h', suite.seal(k, h, x)) == if k' == k && h' == h then Some(x) else None
  }

  ghost predicate Lawful(suite: Suite) {
    && (forall p: Bytes, d: Bytes :: DeflateLaw(suite, p, d))
    && (forall k: Bytes, h: Header, x: Bytes, k': Bytes, h': Header :: SealLaw(suite, k, h, x, k', h'))
  }

  /** A packet damaged in transit: no key opens it. */
  ghost predicate Unopenable(suite: Suite, p: DataPacket) {
    forall k: Bytes :: suite.open(k, p.header, p.body) == None
  }

  ghost predicate NoClash(suite: Suite, a: Bytes, b: Bytes) {
    suite.fingerprint(a) == suite.fingerprint(b) ==> a == b
  }

  /** No two of the dictionaries in `ds` share a fingerprint. */
  ghost predicate CollisionFree(suite: Suite, ds: set<Bytes>) {
    forall a: Bytes, b: Bytes {:trigger NoClash(suite, a, b)} :: a in ds && b in ds ==> NoClash(suite, a, b)
  }
}
