/** Transcript and KeySchedule of src/simple_tls/tls/utils.py as objects. */
module Transcripts {
  import opened Bits
  import opened Wire
  import Schedules = HandshakeCore

  /** A running hash object: what it has absorbed determines what it finalizes to. */
  class HashObject {
    var absorbed: bytes

    constructor (data: bytes)
      ensures absorbed == data
    {
      absorbed := data;
    }

    method Update(data: bytes)
      modifies this
      ensures absorbed == old(absorbed) + data
    {
      absorbed := absorbed + data;
    }
  }

  /** Hash functions by number, with digests short enough for a three-octet length. */
  ghost predicate HashesOk(h: (nat, bytes) -> bytes)
  {
    forall a: nat, x: bytes :: |h(a, x)| < Limit(3)
  }

  const MESSAGE_HASH: byte := 254

  /** The message that stands for everything before a HelloRetryRequest. */
  function MessageHash(digest: bytes): (r: bytes)
    requires |digest| < Limit(3)
  {
    [MESSAGE_HASH] + IntToBytes(|digest|, 3) + digest
  }

  class Transcript {
    const h: (nat, bytes) -> bytes
    var buffer: bytes
    var hashes: map<nat, HashObject>

    /** Every cached hash object has absorbed the whole buffer, and no two are the same object. */
    ghost predicate Valid()
      reads this, hashes.Values
    {
      && HashesOk(h)
      && (forall a <- hashes :: hashes[a].absorbed == buffer)
      && (forall a <- hashes, b <- hashes :: a != b ==> hashes[a] != hashes[b])
    }

    constructor (h: (nat, bytes) -> bytes)
      requires HashesOk(h)
      ensures Valid() && this.h == h && buffer == [] && hashes == map[]
    {
      this.h, buffer, hashes := h, [], map[];
    }

    method UpdateHash(data: bytes)
      requires Valid()
      modifies this, hashes.Values
      ensures Valid() && buffer == old(buffer) + data && hashes == old(hashes)
    {
      buffer := buffer + data;
      var todo := hashes.Keys;
      while todo != {}
        invariant todo <= hashes.Keys && hashes == old(hashes) && buffer == old(buffer) + data
        invariant forall a <- hashes :: hashes[a].absorbed == if a in todo then old(buffer) else old(buffer) + data
        decreases todo
      {
        var a :| a in todo;
        hashes[a].Update(data);
        todo := todo - {a};
      }
    }

    /** digest: what hashing the whole buffer gives, and nothing changes but the cache. */
    method Digest(a: nat) returns (d: bytes)
      requires Valid()
      modifies this`hashes
      ensures Valid() && d == h(a, buffer)
      ensures forall o <- hashes.Values :: o in old(hashes).Values || fresh(o)
    {
      if a !in hashes {
        var o := new HashObject(buffer);
        hashes := hashes[a := o];
      }
      d := h(a, hashes[a].absorbed);
    }

    /** update_for_hello_retry_request */
    method RetryRewrite(a: nat)
      requires Valid()
      modifies this, hashes.Values
      ensures Valid() && buffer == MessageHash(h(a, old(buffer))) && hashes == map[]
    {
      var d := Digest(a);
      buffer := [];
      hashes := map[];
      UpdateHash(MessageHash(d));
      assert [] + MessageHash(d) == MessageHash(d);
    }

    /** copy: the same digests from then on, and no object in common. */
    method Copy() returns (t: Transcript)
      requires Valid()
      ensures Valid() && fresh(t) && t.Valid() && t.h == h && t.buffer == buffer && t.hashes.Keys == hashes.Keys
      ensures forall o <- t.hashes.Values :: fresh(o)
    {
      t := new Transcript(h);
      t.buffer := buffer;
      var todo := hashes.Keys;
      while todo != {}
        invariant todo <= hashes.Keys && t.hashes.Keys == hashes.Keys - todo && fresh(t) && t.h == h
                  && t.buffer == buffer
        invariant Valid() && t.Valid() && forall o <- t.hashes.Values :: fresh(o)
        decreases todo
      {
        var a :| a in todo;
        var o := new HashObject(hashes[a].absorbed);
        ghost var was := t.hashes;
        t.hashes := t.hashes[a := o];
        todo := todo - {a};
        assert t.hashes.Keys == was.Keys + {a};
        forall b | b in t.hashes ensures t.hashes[b] == o || t.hashes[b] in was.Values {
          if b != a { assert t.hashes[b] == was[b]; }
        }
      }
    }
  }

  /** A copy and its source go their own ways: updating one leaves the digests of the other. */
  method CopyIsIndependent(t: Transcript, data: bytes, a: nat) returns (mine: bytes, other: bytes)
    requires t.Valid()
    modifies t, t.hashes.Values
    ensures mine == t.h(a, old(t.buffer) + data) && other == t.h(a, old(t.buffer))
  {
    var u := t.Copy();
    t.UpdateHash(data);
    other := u.Digest(a);
    mine := t.Digest(a);
  }

  /** KeySchedule over symbolic secrets: the object runs through the schedules of the handshake model. */
  class KeySchedule {
    const hash: nat
    var generation: nat
    var secret: Schedules.Term

    function Value(): Schedules.Schedule reads this { Schedules.Schedule(hash, generation, secret) }

    constructor (hash: nat)
      ensures Value() == Schedules.NewSchedule(hash)
    {
      this.hash, generation, secret := hash, 0, Schedules.Zeros;
    }

    /** extract: from the second time on the secret is first expanded under "derived". */
    method Extract(keyMaterial: Option<Schedules.Term>)
      modifies this
      ensures Value() == Schedules.ExtractKey(old(Value()), keyMaterial)
    {
      var ikm := if keyMaterial.Some? then keyMaterial.value else Schedules.Zeros;
      if generation != 0 {
        secret := Schedules.Expand(hash, secret, Schedules.Derived, Schedules.Digest(hash, []));
      }
      generation := generation + 1;
      secret := Schedules.Extract(hash, secret, ikm);
    }
  }
}
