/** PSK binders: what the client hashes with dummy binders in place, what the server recovers
    by truncating the received hello, and the server's choice of a PSK. */
module PskBinder {
  import opened Bits
  import opened Wire
  import opened Messages
  import opened EchCompression
  import opened EchBuilder

  const CLIENT_HELLO: byte := 1

  /** _pack_message / _pack_handshake, with a length field of `q` octets (3 on the wire). */
  function Pack(q: nat, htype: byte, data: bytes): (r: Option<bytes>)
  {
    Join(Some([htype]), PutBlock(data, q))
  }

  function PackOpt(q: nat, d: Option<bytes>): (r: Option<bytes>)
  {
    if d.Some? then Pack(q, CLIENT_HELLO, d.value) else None
  }

  /** A hello with head `h`, written by any head format `hc`, packed as a handshake message. */
  function PackHello<H>(hc: Codec<H>, h: H, exts: seq<Ext>): (r: Option<bytes>)
  {
    PackOpt(3, SerTailed(hc, ListC(ExtC(), 2), h, exts))
  }

  function IdsC(): Codec<seq<PskIdentity>> { ListC(IdentityC(), 2) }

  function BindersC(): Codec<seq<bytes>> { ListC(NonEmptyC(1, true), 2) }

  /** PSKClientExtension.to_bytes */
  function PskBody(ids: seq<PskIdentity>, binders: seq<bytes>): (r: Option<bytes>)
    ensures r == PskC().ser(PskExtension(ids, binders))
  {
    if Paired(PskExtension(ids, binders)) then Join(IdsC().ser(ids), BindersC().ser(binders)) else None
  }

  /** The pre_shared_key extension is always the last one. */
  function WithPsk(exts: seq<Ext>, body: bytes): seq<Ext>
  {
    exts + [(PRE_SHARED_KEY, body)]
  }

  /** 2 + sum(1 + len(binder)) */
  function BindersLength(binders: seq<bytes>): (n: nat)
    ensures n >= 2
  {
    if binders == [] then 2 else 1 + |binders[0]| + BindersLength(binders[1..])
  }

  /** `data[:-n]` for n > 0. */
  function Truncate(s: bytes, n: nat): (r: bytes)
  {
    if n <= |s| then s[..|s| - n] else []
  }

  lemma {:induction false} BindersSize(binders: seq<bytes>)
    requires SerItems(NonEmptyC(1, true), binders).Some?
    ensures |SerItems(NonEmptyC(1, true), binders).value| + 2 == BindersLength(binders)
  {
    if binders != [] { BindersSize(binders[1..]); }
  }

  lemma {:induction false} ItemsSnoc<T>(c: Codec<T>, vs: seq<T>, v: T)
    ensures SerItems(c, vs + [v]) == Join(SerItems(c, vs), c.ser(v))
  {
    if vs == [] {
      assert (vs + [v])[1..] == [];
      assert c.ser(v).Some? ==> c.ser(v).value + [] == c.ser(v).value == [] + c.ser(v).value;
    } else {
      ItemsSnoc(c, vs[1..], v);
      assert (vs + [v])[1..] == vs[1..] + [v];
      if c.ser(vs[0]).Some? && SerItems(c, vs[1..]).Some? && c.ser(v).Some? {
        var a, b, d := c.ser(vs[0]).value, SerItems(c, vs[1..]).value, c.ser(v).value;
        assert a + (b + d) == a + b + d;
      }
    }
  }

  // A packed hello seen as octets: its head, its other extensions and the PSK body.
  // `p` and `q` are the sizes of the extension and of the message length fields.

  predicate Fits(p: nat, q: nat, head: nat, items: nat, body: nat)
  {
    body < Limit(p) && items + p + p + body < Limit(p) && head + p + items + p + p + body < Limit(q)
  }

  /** Everything before the PSK body, as a function of that body's length; `t` is its type. */
  function Before(p: nat, q: nat, head: bytes, items: bytes, t: bytes, n: nat): (r: bytes)
    requires Fits(p, q, |head|, |items|, n) && |t| == p
    ensures |r| == 1 + q + |head| + p + |items| + p + p
  {
    Assemble(IntToBytes(|head| + p + |items| + p + p + n, q), head,
             IntToBytes(|items| + p + p + n, p), items, t, IntToBytes(n, p))
  }

  function Assemble(y: bytes, h: bytes, x: bytes, i: bytes, t: bytes, l: bytes): (r: bytes)
    ensures |r| == 1 + |y| + |h| + |x| + |i| + |t| + |l|
  {
    [CLIENT_HELLO] + y + (h + x) + (i + t + l)
  }

  lemma TypeFits()
    ensures PRE_SHARED_KEY < Limit(2)
  {
    assert Limit(2) == 256 * Limit(1);
  }

  function PackRaw(p: nat, q: nat, head: Option<bytes>, items: Option<bytes>, t: bytes, body: bytes): (r: Option<bytes>)
    requires |t| == p
  {
    if head.Some? && items.Some? && Fits(p, q, |head.value|, |items.value|, |body|)
    then Some(Before(p, q, head.value, items.value, t, |body|) + body) else None
  }

  lemma ExtSer(body: bytes)
    ensures PRE_SHARED_KEY < Limit(2)
    ensures |body| >= Limit(2) ==> ExtC().ser((PRE_SHARED_KEY, body)) == None
    ensures |body| < Limit(2) ==>
            ExtC().ser((PRE_SHARED_KEY, body)) == Some(PskType() + (IntToBytes(|body|, 2) + body))
  {
    TypeFits();
    assert IntC(2).ser(PRE_SHARED_KEY) == Some(IntToBytes(PRE_SHARED_KEY, 2));
    assert BlobC(2).ser(body) == PutBlock(body, 2);
  }

  lemma Regroup(y: bytes, h: bytes, x: bytes, i: bytes, t: bytes, l: bytes, b: bytes)
    ensures [CLIENT_HELLO] + (y + (h + (x + (i + (t + (l + b)))))) == Assemble(y, h, x, i, t, l) + b
  {
    var c: bytes := [CLIENT_HELLO];
    Assoc(t, l, b); Assoc(i, t + l, b); Assoc(i, t, l);
    var m := i + t + l;
    Assoc(h, x, m + b);
    Assoc(c, y, h + x + (m + b));
    Assoc(c + y, h + x, m + b);
    Assoc(c + y + (h + x), m, b);
  }

  lemma TailedSnoc<H, T>(hc: Codec<H>, item: Codec<T>, p: nat, h: H, vs: seq<T>, v: T)
    ensures hc.ser(h).None? || SerItems(item, vs).None? || item.ser(v).None? ==>
              SerTailed(hc, ListC(item, p), h, vs + [v]) == None
    ensures hc.ser(h).Some? && SerItems(item, vs).Some? && item.ser(v).Some? ==>
              SerTailed(hc, ListC(item, p), h, vs + [v])
              == Join(hc.ser(h), PutBlock(SerItems(item, vs).value + item.ser(v).value, p))
  {
    ItemsSnoc(item, vs, v);
  }

  lemma JoinBlock(p: nat, a: bytes, s: bytes, n: nat)
    requires n == |s|
    ensures Join(Some(a), PutBlock(s, p)) == if n < Limit(p) then Some(a + (IntToBytes(n, p) + s)) else None
  {}

  lemma PackBlock(q: nat, d: bytes, m: nat)
    requires m == |d|
    ensures PackOpt(q, Some(d)) == if m < Limit(q) then Some([CLIENT_HELLO] + (IntToBytes(m, q) + d)) else None
  {
    JoinBlock(q, [CLIENT_HELLO], d, m);
  }

  lemma BeforeLengths(p: nat, q: nat, hs: bytes, i: bytes, t: bytes, n: nat, e: nat, m: nat)
    requires |t| == p && e == |i| + p + p + n && m == |hs| + p + e
    requires Fits(p, q, |hs|, |i|, n)
    ensures n < Limit(p) && e < Limit(p) && m < Limit(q)
    ensures Before(p, q, hs, i, t, n) == Assemble(IntToBytes(m, q), hs, IntToBytes(e, p), i, t, IntToBytes(n, p))
  {}

  /** Nested length fields around a last item: writable when every length fits. */
  lemma PackNested(p: nat, q: nat, hs: bytes, i: bytes, t: bytes, body: bytes)
    requires |t| == p && |body| < Limit(p)
    ensures PackOpt(q, Join(Some(hs), PutBlock(i + (t + (IntToBytes(|body|, p) + body)), p)))
            == PackRaw(p, q, Some(hs), Some(i), t, body)
  {
    hide IntToBytes, Limit, Assemble, Join, Pack, PutBlock, Before;
    var n := |body|;
    var e := |i| + p + p + n;
    var m := |hs| + p + e;
    JoinBlock(p, hs, i + (t + (IntToBytes(n, p) + body)), e);
    if e < Limit(p) {
      PackBlock(q, hs + (IntToBytes(e, p) + (i + (t + (IntToBytes(n, p) + body)))), m);
      if m < Limit(q) {
        BeforeLengths(p, q, hs, i, t, n, e, m);
        Regroup(IntToBytes(m, q), hs, IntToBytes(e, p), i, t, IntToBytes(n, p), body);
      }
    }
  }

  function PskType(): (t: bytes)
    ensures |t| == 2
  {
    TypeFits();
    IntToBytes(PRE_SHARED_KEY, 2)
  }

  /** Writing a hello with a PSK extension at the end. */
  lemma PackShape<H>(hc: Codec<H>, h: H, exts: seq<Ext>, body: bytes)
    ensures PackHello(hc, h, WithPsk(exts, body)) == PackRaw(2, 3, hc.ser(h), SerItems(ExtC(), exts), PskType(), body)
  {
    TailedSnoc(hc, ExtC(), 2, h, exts, (PRE_SHARED_KEY, body));
    ExtSer(body);
    if hc.ser(h).Some? && SerItems(ExtC(), exts).Some? && |body| < Limit(2) {
      var i := SerItems(ExtC(), exts).value;
      PackNested(2, 3, hc.ser(h).value, i, PskType(), body);
    }
  }

  lemma PskBodyShape(ids: seq<PskIdentity>, binders: seq<bytes>)
    requires PskBody(ids, binders).Some?
    ensures IdsC().ser(ids).Some? && BindersC().ser(binders).Some?
    ensures PskBody(ids, binders).value == IdsC().ser(ids).value + BindersC().ser(binders).value
    ensures |BindersC().ser(binders).value| == BindersLength(binders)
  {
    hide IntToBytes, IdentityC;
    BindersSize(binders);
  }

  /** Two packed hellos cut at binders of one length are equal when their identities are. */
  lemma CutAgrees(p: nat, q: nat, h: bytes, x: bytes, t: bytes, i1: bytes, b1: bytes, i2: bytes, b2: bytes)
    requires |b1| == |b2| && |t| == p
    requires PackRaw(p, q, Some(h), Some(x), t, i1 + b1).Some? && PackRaw(p, q, Some(h), Some(x), t, i2 + b2).Some?
    ensures (Truncate(PackRaw(p, q, Some(h), Some(x), t, i1 + b1).value, |b1|)
             == Truncate(PackRaw(p, q, Some(h), Some(x), t, i2 + b2).value, |b2|)) <==> i1 == i2
  {
    var p1, p2 := Before(p, q, h, x, t, |i1 + b1|), Before(p, q, h, x, t, |i2 + b2|);
    CutEnd(p1, i1, b1);
    CutEnd(p2, i2, b2);
    if p1 + i1 == p2 + i2 {
      assert i1 == (p1 + i1)[|p1|..] == (p2 + i2)[|p2|..] == i2;
    }
  }

  lemma CutEnd(p: bytes, i: bytes, b: bytes)
    ensures Truncate(p + (i + b), |b|) == p + i
  {
    assert p + (i + b) == (p + i) + b;
  }

  predicate SameLengths(a: seq<bytes>, b: seq<bytes>)
  {
    |a| == |b| && forall i :: 0 <= i < |a| ==> |a[i]| == |b[i]|
  }

  lemma {:induction false} SameBindersLength(a: seq<bytes>, b: seq<bytes>)
    requires SameLengths(a, b)
    ensures BindersLength(a) == BindersLength(b)
  {
    if a != [] { SameBindersLength(a[1..], b[1..]); }
  }

  /** The hashed prefixes of two hellos that differ only in their PSK extension, with binders
      of equal lengths, are equal exactly when the identities are. */
  lemma PrefixAgreesIff<H>(hc: Codec<H>, h: H, exts: seq<Ext>, ids1: seq<PskIdentity>, b1: seq<bytes>,
                           ids2: seq<PskIdentity>, b2: seq<bytes>)
    requires PskBody(ids1, b1).Some? && PackHello(hc, h, WithPsk(exts, PskBody(ids1, b1).value)).Some?
    requires PskBody(ids2, b2).Some? && PackHello(hc, h, WithPsk(exts, PskBody(ids2, b2).value)).Some?
    requires SameLengths(b1, b2)
    ensures Truncate(PackHello(hc, h, WithPsk(exts, PskBody(ids1, b1).value)).value, BindersLength(b1))
            == Truncate(PackHello(hc, h, WithPsk(exts, PskBody(ids2, b2).value)).value, BindersLength(b2))
            <==> ids1 == ids2
  {
    PackShape(hc, h, exts, PskBody(ids1, b1).value);
    PackShape(hc, h, exts, PskBody(ids2, b2).value);
    SameBindersLength(b1, b2);
    PskBodyShape(ids1, b1);
    PskBodyShape(ids2, b2);
    var i1, i2 := IdsC().ser(ids1).value, IdsC().ser(ids2).value;
    CutAgrees(2, 3, hc.ser(h).value, SerItems(ExtC(), exts).value, PskType(),
              i1, BindersC().ser(b1).value, i2, BindersC().ser(b2).value);
    if i1 == i2 { IdsInjective(ids1, ids2); }
  }

  lemma {:induction false} IdentitiesWf(ids: seq<PskIdentity>)
    requires SerItems(IdentityC(), ids).Some?
    ensures AllWf(IdentityC(), ids)
  {
    if ids != [] { IdentitiesWf(ids[1..]); }
  }

  lemma IdsInjective(a: seq<PskIdentity>, b: seq<PskIdentity>)
    requires IdsC().ser(a).Some? && IdsC().ser(a) == IdsC().ser(b)
    ensures a == b
  {
    IdentityLawful();
    ListLawful(IdentityC(), 2);
    IdentitiesWf(a); IdentitiesWf(b);
    RoundTrip(IdsC(), a, IdsC().ser(a).value);
    RoundTrip(IdsC(), b, IdsC().ser(a).value);
  }

  // Honest binders

  /** One PSK of the client: its digest size and its keyed MAC of a transcript. */
  datatype PreSharedKey = PreSharedKey(identity: PskIdentity, digestSize: nat, mac: bytes -> bytes)

  ghost predicate MacSizes(psks: seq<PreSharedKey>)
  {
    forall i, t :: 0 <= i < |psks| ==> |psks[i].mac(t)| == psks[i].digestSize
  }

  function Identities(psks: seq<PreSharedKey>): (r: seq<PskIdentity>)
    ensures |r| == |psks|
  {
    seq(|psks|, i requires 0 <= i < |psks| => psks[i].identity)
  }

  function DummyBinders(psks: seq<PreSharedKey>): (r: seq<bytes>)
    ensures |r| == |psks|
  {
    seq(|psks|, i requires 0 <= i < |psks| => ZeroBytes(psks[i].digestSize))
  }

  function BindersOver(psks: seq<PreSharedKey>, transcript: bytes): (r: seq<bytes>)
    ensures |r| == |psks|
  {
    seq(|psks|, i requires 0 <= i < |psks| => psks[i].mac(transcript))
  }

  // Which hello the binders are for

  /** The hello whose binders are computed. `confirmed` is `None` for the first hello and says after a
      HelloRetryRequest whether that confirmed ECH. An encrypted hello has them in its inner one; after a
      request that did not confirm ECH there is an outer hello only. */
  function BinderHello(ech: bool, confirmed: Option<bool>): HelloType
  {
    if !ech then Unencrypted else if confirmed == Some(false) then Outer else Inner
  }

  /** Random identities and binders of the lengths of the real ones. */
  predicate GreaseFits(psks: seq<PreSharedKey>, g: PskExtension)
  {
    && |g.identities| == |psks| && SameLengths(g.binders, DummyBinders(psks))
    && forall i :: 0 <= i < |psks| ==> |g.identities[i].identity| == |psks[i].identity.identity|
  }

  predicate AgesFit(psks: seq<PreSharedKey>)
  {
    forall i :: 0 <= i < |psks| ==> psks[i].identity.obfuscatedTicketAge < Limit(4)
  }

  /** The extension as _get_extensions makes it. */
  function DraftPsk(psks: seq<PreSharedKey>, t: HelloType, grease: PskExtension): PskExtension
  {
    if t.Outer? then grease else PskExtension(Identities(psks), DummyBinders(psks))
  }

  function HelloWith<H>(hc: Codec<H>, h: H, exts: seq<Ext>, x: PskExtension): (r: Option<bytes>)
  {
    match PskBody(x.identities, x.binders)
    case None => None
    case Some(b) => PackHello(hc, h, WithPsk(exts, b))
  }

  /** The hello before its binders are known. */
  function Draft<H>(hc: Codec<H>, h: H, exts: seq<Ext>, psks: seq<PreSharedKey>, t: HelloType, grease: PskExtension)
    : (r: Option<bytes>)
  {
    HelloWith(hc, h, exts, DraftPsk(psks, t, grease))
  }

  /** What the client computes its MACs over: the earlier transcript and the draft without binders. */
  function ClientInput(draft: bytes, psks: seq<PreSharedKey>, earlier: bytes): bytes
  {
    earlier + Truncate(draft, BindersLength(DummyBinders(psks)))
  }

  /** _update_binders: the real identities go in, with the MACs. */
  function UpdateBinders(draft: bytes, psks: seq<PreSharedKey>, earlier: bytes): PskExtension
  {
    PskExtension(Identities(psks), BindersOver(psks, ClientInput(draft, psks, earlier)))
  }

  /** What the server computes them over: it cuts the received hello by the binders it parsed. */
  function ServerInput(hello: bytes, x: PskExtension, earlier: bytes): bytes
  {
    earlier + Truncate(hello, BindersLength(x.binders))
  }

  predicate Collides(mac: bytes -> bytes, t: bytes, u: bytes) { t != u && mac(t) == mac(u) }

  lemma {:induction false} SerSameLengths(a: seq<bytes>, b: seq<bytes>)
    requires SameLengths(a, b) && SerItems(NonEmptyC(1, true), a).Some?
    ensures SerItems(NonEmptyC(1, true), b).Some?
    ensures |SerItems(NonEmptyC(1, true), b).value| == |SerItems(NonEmptyC(1, true), a).value|
  {
    if a != [] {
      SerSameLengths(a[1..], b[1..]);
      assert NonEmptyC(1, true).ser(a[0]).Some?;
    }
  }

  predicate SameShapes(a: seq<PskIdentity>, b: seq<PskIdentity>)
  {
    |a| == |b| && forall i :: 0 <= i < |a| ==> |a[i].identity| == |b[i].identity| && b[i].obfuscatedTicketAge < Limit(4)
  }

  lemma OneIdentity(a: PskIdentity, b: PskIdentity)
    requires |a.identity| == |b.identity| && b.obfuscatedTicketAge < Limit(4) && IdentityC().ser(a).Some?
    ensures IdentityC().ser(b).Some? && |IdentityC().ser(b).value| == |IdentityC().ser(a).value|
  {
    hide IntToBytes, Limit;
  }

  lemma {:induction false} SerSameShapes(a: seq<PskIdentity>, b: seq<PskIdentity>)
    requires SameShapes(a, b) && SerItems(IdentityC(), a).Some?
    ensures SerItems(IdentityC(), b).Some? && |SerItems(IdentityC(), b).value| == |SerItems(IdentityC(), a).value|
  {
    hide IdentityC;
    if a != [] {
      SerSameShapes(a[1..], b[1..]);
      OneIdentity(a[0], b[0]);
    }
  }

  /** Identities and binders of equal lengths can be written equally well. */
  lemma PskBodySame(x: seq<PskIdentity>, y: seq<PskIdentity>, b1: seq<bytes>, b2: seq<bytes>)
    requires PskBody(x, b1).Some? && SameLengths(b1, b2) && (x == y || SameShapes(x, y))
    ensures PskBody(y, b2).Some? && |PskBody(y, b2).value| == |PskBody(x, b1).value|
  {
    hide IntToBytes, IdentityC;
    SerSameLengths(b1, b2);
    if x != y { SerSameShapes(x, y); }
  }

  /** The finished hello can be written whenever the draft could. */
  lemma FinalWritable<H>(hc: Codec<H>, h: H, exts: seq<Ext>, body1: bytes, body2: bytes)
    requires PackHello(hc, h, WithPsk(exts, body1)).Some? && |body1| == |body2|
    ensures PackHello(hc, h, WithPsk(exts, body2)).Some?
  {
    PackShape(hc, h, exts, body1);
    PackShape(hc, h, exts, body2);
  }

  /** Client and server hash the same octets exactly if the draft had the real identities. */
  lemma SameInputIff<H>(hc: Codec<H>, h: H, exts: seq<Ext>, psks: seq<PreSharedKey>, t: HelloType, grease: PskExtension,
                        earlier: bytes)
    requires Draft(hc, h, exts, psks, t, grease).Some? && MacSizes(psks) && AgesFit(psks) && GreaseFits(psks, grease)
    ensures var draft := Draft(hc, h, exts, psks, t, grease).value;
            var x := UpdateBinders(draft, psks, earlier);
            && HelloWith(hc, h, exts, x).Some?
            && (ClientInput(draft, psks, earlier) == ServerInput(HelloWith(hc, h, exts, x).value, x, earlier) <==>
                t != Outer || grease.identities == Identities(psks))
  {
    hide PackHello, PskBody, Truncate, BindersLength, PskC, WithPsk;
    var draft, x0 := Draft(hc, h, exts, psks, t, grease).value, DraftPsk(psks, t, grease);
    var x := UpdateBinders(draft, psks, earlier);
    assert SameLengths(x0.binders, x.binders) && SameLengths(x0.binders, DummyBinders(psks));
    assert x0.identities == x.identities || SameShapes(x0.identities, x.identities);
    PskBodySame(x0.identities, x.identities, x0.binders, x.binders);
    FinalWritable(hc, h, exts, PskBody(x0.identities, x0.binders).value, PskBody(x.identities, x.binders).value);
    SameBindersLength(x0.binders, DummyBinders(psks));
    PrefixAgreesIff(hc, h, exts, x0.identities, x0.binders, x.identities, x.binders);
    var a := Truncate(draft, BindersLength(x0.binders));
    var b := Truncate(HelloWith(hc, h, exts, x).value, BindersLength(x.binders));
    if earlier + a == earlier + b { assert a == (earlier + a)[|earlier|..] == (earlier + b)[|earlier|..] == b; }
  }

  /** A binder verifies unless ECH was offered and a HelloRetryRequest did not confirm it: then the
      binder covers the random identities of an outer hello, which _update_binders replaces by the real
      ones, and it verifies only if those happen to be equal or the MAC collides. */
  lemma BinderVerifiesIff<H>(hc: Codec<H>, h: H, exts: seq<Ext>, psks: seq<PreSharedKey>, ech: bool,
                             confirmed: Option<bool>, grease: PskExtension, earlier: bytes, i: nat)
    requires Draft(hc, h, exts, psks, BinderHello(ech, confirmed), grease).Some?
    requires MacSizes(psks) && AgesFit(psks) && GreaseFits(psks, grease) && i < |psks|
    ensures var draft := Draft(hc, h, exts, psks, BinderHello(ech, confirmed), grease).value;
            var x := UpdateBinders(draft, psks, earlier);
            var hello := HelloWith(hc, h, exts, x);
            && hello.Some?
            && var u := ServerInput(hello.value, x, earlier);
               (psks[i].mac(u) == x.binders[i] <==>
                || !(ech && confirmed == Some(false)) || grease.identities == Identities(psks)
                || Collides(psks[i].mac, ClientInput(draft, psks, earlier), u))
  {
    hide Draft, HelloWith, ClientInput, ServerInput;
    SameInputIff(hc, h, exts, psks, BinderHello(ech, confirmed), grease, earlier);
  }

  // One hello for which it does not

  /** Identities of one octet, and a MAC that is that octet. */
  function OctetPsk(x: byte): PreSharedKey
  {
    PreSharedKey(PskIdentity([x], 0), 1, (t: bytes) => if |t| >= 5 then [t[|t| - 5]] else [0])
  }

  function OctetGrease(x: byte): PskExtension { PskExtension([PskIdentity([x], 0)], [[0]]) }

  lemma OctetIds(x: byte)
    ensures var r := IdsC().ser([PskIdentity([x], 0)]); r.Some? && |r.value| >= 5 && r.value[|r.value| - 5] == x
  {
    hide IntToBytes, Limit;
    Limits();
    var id := PskIdentity([x], 0);
    var s := (IntToBytes(1, 2) + [x]) + IntToBytes(0, 4);
    assert IdentityC().ser(id) == Some(s);
    assert [id][1..] == [] && s + [] == s;
  }

  lemma OctetMac(x: byte, p: bytes, earlier: bytes)
    ensures IdsC().ser([PskIdentity([x], 0)]).Some?
    ensures OctetPsk(7).mac(earlier + (p + IdsC().ser([PskIdentity([x], 0)]).value)) == [x]
  {
    hide IdsC;
    OctetIds(x);
  }

  /** Whatever the rest of the hello: real identity 1, random identity 2, and the binder fails. */
  lemma GreasedBinderFails<H>(hc: Codec<H>, h: H, exts: seq<Ext>, earlier: bytes)
    requires Draft(hc, h, exts, [OctetPsk(1)], BinderHello(true, Some(false)), OctetGrease(2)).Some?
    ensures var draft := Draft(hc, h, exts, [OctetPsk(1)], BinderHello(true, Some(false)), OctetGrease(2)).value;
            var x := UpdateBinders(draft, [OctetPsk(1)], earlier);
            var hello := HelloWith(hc, h, exts, x);
            hello.Some? && OctetPsk(1).mac(ServerInput(hello.value, x, earlier)) != x.binders[0]
  {
    hide PackHello, PskBody, Truncate, BindersLength, PskC, WithPsk, IdsC;
    var psks, grease := [OctetPsk(1)], OctetGrease(2);
    var draft := Draft(hc, h, exts, psks, Outer, grease).value;
    var x := UpdateBinders(draft, psks, earlier);
    assert Limit(4) > 0 && GreaseFits(psks, grease) && AgesFit(psks) && MacSizes(psks);
    SameInputIff(hc, h, exts, psks, Outer, grease, earlier);
    assert x.identities == [PskIdentity([1], 0)];
    assert SameLengths(DummyBinders(psks), grease.binders);
    SameBindersLength(DummyBinders(psks), grease.binders);
    var p := CutHello(hc, h, exts, grease);
    OctetMac(2, p, earlier);
    var q := CutHello(hc, h, exts, x);
    OctetMac(1, q, earlier);
  }

  /** A hello cut at its binders ends in its identities. */
  lemma CutHello<H>(hc: Codec<H>, h: H, exts: seq<Ext>, x: PskExtension) returns (p: bytes)
    requires HelloWith(hc, h, exts, x).Some?
    ensures IdsC().ser(x.identities).Some?
    ensures Truncate(HelloWith(hc, h, exts, x).value, BindersLength(x.binders)) == p + IdsC().ser(x.identities).value
  {
    hide PskBody, PskC, IdsC, BindersC, ExtC, Truncate;
    var body := PskBody(x.identities, x.binders).value;
    PackShape(hc, h, exts, body);
    PskBodyShape(x.identities, x.binders);
    p := Before(2, 3, hc.ser(h).value, SerItems(ExtC(), exts).value, PskType(), |body|);
    CutEnd(p, IdsC().ser(x.identities).value, BindersC().ser(x.binders).value);
  }

  lemma PairSize<A, B>(a: Codec<A>, b: Codec<B>, x: A, y: B)
    requires a.ser(x).Some? && b.ser(y).Some?
    ensures var r := PairC(a, b).ser((x, y)); r.Some? && |r.value| == |a.ser(x).value| + |b.ser(y).value|
  {}

  lemma ListSize<T>(c: Codec<T>, p: nat, x: T)
    requires c.ser(x).Some? && |c.ser(x).value| < Limit(p)
    ensures var r := ListC(c, p).ser([x]); r.Some? && |r.value| == p + |c.ser(x).value|
  {
    assert SerItems(c, [x]) == Join(c.ser(x), SerItems(c, [x][1..]));
  }

  function SmallHead(): ClientHead { (771, (ZeroBytes(32), ([], ([4865], [0])))) }

  lemma SmallHeadWrites()
    ensures ClientHeadC().ser(SmallHead()).Some? && |ClientHeadC().ser(SmallHead()).value| == 41
  {
    hide IntToBytes, Limit, PairC, ListC;
    Limits();
    var suites, methods: seq<nat> := [4865], [0];
    ListSize(IntC(2), 2, 4865);
    ListSize(IntC(1), 1, 0);
    var c1 := PairC(IntListC(2, 2), IntListC(1, 1));
    PairSize(IntListC(2, 2), IntListC(1, 1), suites, methods);
    var c2 := PairC(SessionIdC(), c1);
    PairSize(SessionIdC(), c1, [], (suites, methods));
    PairSize(FixedC(32), c2, ZeroBytes(32), ([], (suites, methods)));
    PairSize(IntC(2), PairC(FixedC(32), c2), 771, SmallHead().1);
  }

  lemma OctetIdSize(x: byte)
    ensures var r := IdsC().ser([PskIdentity([x], 0)]); r.Some? && |r.value| == 9
  {
    hide IntToBytes, Limit, PairC, ListC;
    Limits();
    PairSize(NonEmptyC(2, true), IntC(4), [x], 0);
    ListSize(IdentityC(), 2, PskIdentity([x], 0));
  }

  lemma OctetBody(x: byte)
    ensures var r := PskBody([PskIdentity([x], 0)], [[0]]); r.Some? && |r.value| == 13
  {
    hide IntToBytes, Limit, ListC, PskC, IdsC;
    Limits();
    OctetIdSize(x);
    ListSize(NonEmptyC(1, true), 2, [0]);
  }

  /** There are such hellos. */
  lemma GreasedHelloExists()
    ensures Draft(ClientHeadC(), SmallHead(), [], [OctetPsk(1)], BinderHello(true, Some(false)), OctetGrease(2)).Some?
  {
    hide ClientHeadC, PackHello, PskBody, ExtC;
    SmallHeadWrites();
    OctetBody(2);
    var body := PskBody([PskIdentity([2], 0)], [[0]]).value;
    PackShape(ClientHeadC(), SmallHead(), [], body);
    Limits();
  }

  /** For a ClientHello the packed hello is its serialisation behind a handshake header. */
  lemma PackHelloIs(m: ClientHello)
    ensures PackHello(ClientHeadC(), ClientHeadOf(m), m.extensions) == PackOpt(3, SerClientHello(m))
  {
    hide ClientHeadC, ExtC, SerItems, ListC;
  }

  // The server's choice

  datatype Choice = Selected(index: nat) | NoPsk | BinderMismatch

  /** The loop of _do_select_parameters_tls13: the first identity whose ticket opens decides.
      `opens` is ticket decryption, `expected` the binder computed from an opened ticket. */
  method SelectPsk(ids: seq<bytes>, binders: seq<bytes>, opens: bytes -> bool, expected: bytes -> bytes)
    returns (c: Choice)
    requires |ids| == |binders|
    ensures c.NoPsk? <==> forall i :: 0 <= i < |ids| ==> !opens(ids[i])
    ensures c.Selected? ==>
              && c.index < |ids| && opens(ids[c.index]) && binders[c.index] == expected(ids[c.index])
              && forall i :: 0 <= i < c.index ==> !opens(ids[i])
    ensures c.BinderMismatch? ==>
              exists k :: 0 <= k < |ids| && opens(ids[k]) && binders[k] != expected(ids[k])
                          && forall i :: 0 <= i < k ==> !opens(ids[i])
  {
    var k := 0;
    while k < |ids|
      invariant 0 <= k <= |ids|
      invariant forall i :: 0 <= i < k ==> !opens(ids[i])
    {
      if opens(ids[k]) {
        if binders[k] != expected(ids[k]) { return BinderMismatch; }
        return Selected(k);
      }
      k := k + 1;
    }
    return NoPsk;
  }
}
