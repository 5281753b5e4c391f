/** The sender and receiver contexts of src/simple_tls/crypto/hpke.py. */
module Hpke {
  import opened Bits
  import opened Wire
  import opened Cbc
  import opened AeadRecords

  /** Nonce of the n-th message: the base nonce combined with the sequence number. */
  function NonceAt(base: bytes, n: nat): (r: bytes)
    requires n < Limit(|base|)
    ensures |r| == |base|
  {
    XorBytes(base, IntToBytes(n, |base|))
  }

  lemma NonceAtInjective(base: bytes, n: nat, m: nat)
    requires n < Limit(|base|) && m < Limit(|base|)
    ensures NonceAt(base, n) == NonceAt(base, m) <==> n == m
  {
    hide IntToBytes, BytesToInt, Limit, XorBytes;
    if NonceAt(base, n) == NonceAt(base, m) {
      var x, y := IntToBytes(n, |base|), IntToBytes(m, |base|);
      XorLeft(base, x);
      XorLeft(base, y);
      BytesOfInt(n, |base|);
      BytesOfInt(m, |base|);
    }
  }

  lemma XorLeft(a: bytes, x: bytes)
    requires |a| == |x|
    ensures XorBytes(XorBytes(a, x), a) == x
  {
    hide XorByte;
    forall i | 0 <= i < |x| ensures XorBytes(XorBytes(a, x), a)[i] == x[i] {
      XorByteSwap(a[i], x[i]);
      XorByteCancel(x[i], a[i]);
    }
  }

  lemma XorByteSwap(x: byte, y: byte)
    ensures XorByte(x, y) == XorByte(y, x)
  {
    XorComm(x, y);
  }

  /** A context; `nonces` is every nonce it ever used. */
  class Context {
    const a: Aead
    const base: bytes
    var next: nat
    ghost var nonces: seq<bytes>

    ghost predicate Valid()
      reads this
    {
      && AeadOk(a) && Limit(8) <= Limit(|base|) && next <= Limit(8)
      && |nonces| == next && forall i :: 0 <= i < next ==> nonces[i] == NonceAt(base, i)
    }

    constructor (a: Aead, base: bytes)
      requires AeadOk(a) && Limit(8) <= Limit(|base|)
      ensures Valid() && this.a == a && this.base == base && next == 0
    {
      this.a, this.base, next, nonces := a, base, 0, [];
    }

    /** _compute_nonce: refused once 2^64 messages have gone by, and never the same twice. */
    method ComputeNonce() returns (r: Option<bytes>)
      requires Valid()
      modifies this`next, this`nonces
      ensures Valid()
      ensures r.None? <==> old(next) == Limit(8)
      ensures r.None? ==> next == old(next)
      ensures r.Some? ==> r.value == NonceAt(base, old(next)) && r.value !in old(nonces) && next == old(next) + 1
    {
      hide Limit, NonceAt;
      if next >= Limit(8) { return None; }
      r := Some(NonceAt(base, next));
      forall i | 0 <= i < next ensures nonces[i] != r.value { NonceAtInjective(base, i, next); }
      nonces := nonces + [r.value];
      next := next + 1;
    }

    /** SenderContext.seal */
    method Seal(p: bytes, aad: bytes) returns (r: Option<bytes>)
      requires Valid()
      modifies this`next, this`nonces
      ensures Valid()
      ensures (r.Some? <==> old(next) < Limit(8)) && (r.None? ==> next == old(next))
      ensures r.Some? ==> r.value == a.enc(NonceAt(base, old(next)), p, aad) && next == old(next) + 1
    {
      hide Limit, NonceAt;
      var n := ComputeNonce();
      if n.None? { return None; }
      return Some(a.enc(n.value, p, aad));
    }

    /** ReceiverContext.open. The number is used up whether or not the message opens, so a
        receiver stays in step with its sender only while everything opens. */
    method Open(c: bytes, aad: bytes) returns (r: Option<bytes>)
      requires Valid()
      modifies this`next, this`nonces
      ensures Valid()
      ensures next == if old(next) < Limit(8) then old(next) + 1 else old(next)
      ensures r == if old(next) < Limit(8) then a.dec(NonceAt(base, old(next)), c, aad) else None
    {
      hide Limit, NonceAt;
      var n := ComputeNonce();
      if n.None? { return None; }
      return a.dec(n.value, c, aad);
    }
  }

  // Setup in base mode

  /** A key encapsulation over a group whose keys are octets, and the key schedule on top of it:
      `expand` is extract_and_expand, `schedule` gives the cipher and the base nonce. */
  datatype KemSuite = KemSuite(
    public: bytes -> bytes, dh: (bytes, bytes) -> bytes, expand: (bytes, bytes) -> bytes,
    schedule: (bytes, bytes) -> (Aead, bytes))

  ghost predicate KemOk(k: KemSuite)
  {
    && (forall a: bytes, b: bytes :: k.dh(a, k.public(b)) == k.dh(b, k.public(a)))
    && (forall x: bytes, i: bytes :: AeadOk(k.schedule(x, i).0) && Limit(8) <= Limit(|k.schedule(x, i).1|))
  }

  /** DHKEM.encap with the ephemeral key `e`: the shared secret and its encapsulation. */
  function Encap(k: KemSuite, e: bytes, peer: bytes): (bytes, bytes)
  {
    (k.expand(k.dh(e, peer), k.public(e) + peer), k.public(e))
  }

  /** DHKEM.decap */
  function Decap(k: KemSuite, enc: bytes, mine: bytes): bytes { k.expand(k.dh(mine, enc), enc + k.public(mine)) }

  lemma DecapEncap(k: KemSuite, e: bytes, mine: bytes)
    requires KemOk(k)
    ensures Decap(k, Encap(k, e, k.public(mine)).1, mine) == Encap(k, e, k.public(mine)).0
  {}

  /** setup_send */
  method SetupSend(k: KemSuite, peer: bytes, info: bytes, e: bytes) returns (enc: bytes, s: Context)
    requires KemOk(k)
    ensures fresh(s) && s.Valid() && s.next == 0 && enc == Encap(k, e, peer).1
    ensures (s.a, s.base) == k.schedule(Encap(k, e, peer).0, info)
  {
    hide Limit;
    var (shared, x) := Encap(k, e, peer);
    s := new Context(k.schedule(shared, info).0, k.schedule(shared, info).1);
    enc := x;
  }

  /** setup_recv */
  method SetupRecv(k: KemSuite, enc: bytes, mine: bytes, info: bytes) returns (r: Context)
    requires KemOk(k)
    ensures fresh(r) && r.Valid() && r.next == 0
    ensures (r.a, r.base) == k.schedule(Decap(k, enc, mine), info)
  {
    hide Limit;
    var shared := Decap(k, enc, mine);
    r := new Context(k.schedule(shared, info).0, k.schedule(shared, info).1);
  }

  /** Sender and receiver are at the same place of the same stream. */
  ghost predicate Matched(s: Context, r: Context)
    reads s, r
  {
    s != r && s.Valid() && r.Valid() && s.a == r.a && s.base == r.base && s.next == r.next
  }

  /** What a receiver sets up from the encapsulation is in step with the sender. */
  method Setup(k: KemSuite, mine: bytes, info: bytes, e: bytes) returns (enc: bytes, s: Context, r: Context)
    requires KemOk(k)
    ensures fresh(s) && fresh(r) && Matched(s, r) && s.next == 0 && enc == k.public(e)
  {
    enc, s := SetupSend(k, k.public(mine), info, e);
    DecapEncap(k, e, mine);
    r := SetupRecv(k, enc, mine, info);
  }

  /** In step, sender and receiver agree on every message. */
  method InStep(s: Context, r: Context, p: bytes, aad: bytes) returns (c: Option<bytes>, q: Option<bytes>)
    requires Matched(s, r)
    modifies s`next, s`nonces, r`next, r`nonces
    ensures Matched(s, r)
    ensures old(s.next) < Limit(8) ==> c.Some? && q == Some(p) && s.next == old(s.next) + 1
  {
    hide Limit, NonceAt;
    c := s.Seal(p, aad);
    if c.None? { return c, None; }
    q := r.Open(c.value, aad);
  }
}
