/** Which extensions the client puts into each kind of hello, and the whole path of an inner
    hello: built, compressed, padded, then recovered by the server. */
module EchBuilder {
  import opened Bits
  import opened Wire
  import opened Messages
  import opened ExtensionLists
  import opened EchCompression

  datatype HelloType = Unencrypted | Inner | Outer

  /** The client state that _get_extensions_internal reads. Bodies are the octets the
      extension classes write; `None` is an extension that is not sent. */
  datatype Params = Params(
    serverName: Option<bytes>, publicName: bytes,
    statusRequest: Option<bytes>, sct: bool, alpn: Option<bytes>,
    supportedGroups: Option<bytes>, signatureAlgorithms: Option<bytes>,
    offersTls12: bool,
    renegotiation: Option<bytes>, npn: Option<bytes>, encryptThenMac: Option<bytes>,
    extendedMasterSecret: Option<bytes>, ecPointFormats: Option<bytes>, sessionTicket: Option<bytes>,
    innerVersions: bytes, outerVersions: bytes, pskModes: Option<bytes>, certCompression: Option<bytes>,
    alps: Option<bytes>, echOuter: Option<bytes>, keyShare: bytes, keyShareRetry: bytes,
    cookie: Option<bytes>, postHandshakeAuth: bool, earlyData: bool,
    permute: Option<nat -> nat>, grease: Option<(nat, nat)>)

  function When(b: bool): Option<bytes> { if b then Some([]) else None }

  /** One slot per extension, in the order the client appends them (maximum version TLS 1.3). */
  function Slots(p: Params, ht: HelloType, hrr: bool): (s: seq<Slot>)
  {
    var legacy := p.offersTls12 && ht != Inner;
    [ Slot(0, if ht == Outer then Some(p.publicName) else p.serverName),
      Slot(5, p.statusRequest),
      Slot(18, When(p.sct)),
      Slot(16, p.alpn),
      Slot(10, p.supportedGroups),
      Slot(13, p.signatureAlgorithms),
      Slot(0xFF01, if legacy then p.renegotiation else None),
      Slot(0x3374, if legacy then p.npn else None),
      Slot(22, if legacy then p.encryptThenMac else None),
      Slot(23, if legacy then p.extendedMasterSecret else None),
      Slot(11, if legacy then p.ecPointFormats else None),
      Slot(35, if legacy then p.sessionTicket else None),
      Slot(SUPPORTED_VERSIONS, Some(if ht == Inner then p.innerVersions else p.outerVersions)),
      Slot(45, p.pskModes),
      Slot(27, p.certCompression),
      Slot(0x44CD, p.alps),
      Slot(ENCRYPTED_CLIENT_HELLO, if ht == Inner then Some([1]) else p.echOuter),
      Slot(51, Some(if hrr then p.keyShareRetry else p.keyShare)),
      Slot(44, p.cookie),
      Slot(49, When(p.postHandshakeAuth)),
      Slot(42, When(p.earlyData && !hrr)) ]
  }

  /** The extensions before GREASE, padding and PSK, sorted when permutation is enabled. */
  function Ordered(p: Params, ht: HelloType, hrr: bool): (s: seq<Ext>)
  {
    var s := Present(Slots(p, ht, hrr));
    if p.permute.Some? then Sort(p.permute.value, s) else s
  }

  function WithGrease(s: seq<Ext>, grease: Option<(nat, nat)>): (r: seq<Ext>)
  {
    if s != [] && grease.Some? then [(grease.value.0, [])] + s + [(grease.value.1, [0])] else s
  }

  /** _get_extensions: padding (never in an inner hello), then the PSK extension last. */
  function WithTail(s: seq<Ext>, padding: nat, psk: Option<bytes>): (r: seq<Ext>)
  {
    var s1 := if padding != 0 then s + [(CLIENT_HELLO_PADDING, ZeroBytes(padding))] else s;
    if psk.Some? then s1 + [(PRE_SHARED_KEY, psk.value)] else s1
  }

  function Extensions(p: Params, ht: HelloType, hrr: bool, padding: nat, psk: Option<bytes>): (s: seq<Ext>)
  {
    WithTail(WithGrease(Ordered(p, ht, hrr), p.grease), if ht == Inner then 0 else padding, psk)
  }

  /** The two GREASE types are distinct entries of the shuffled table. */
  predicate GreaseOk(grease: Option<(nat, nat)>)
  {
    grease.Some? ==> Grease(grease.value.0) && Grease(grease.value.1) && grease.value.0 != grease.value.1
  }

  predicate Known(t: nat)
  {
    t in {0, 5, 18, 16, 10, 13, 0xFF01, 0x3374, 22, 23, 11, 35, 43, 45, 27, 0x44CD, 0xFE0D, 51, 44, 49, 42}
  }

  /** Extensions of known types, each at most once. */
  ghost predicate Plain(s: seq<Ext>)
  {
    UniqueTypes(s) && forall t :: t in TypesOf(s) ==> Known(t)
  }

  lemma SlotsDistinct(p: Params, ht: HelloType, hrr: bool)
    ensures |Slots(p, ht, hrr)| == 21
    ensures forall i, j :: 0 <= i < j < 21 ==> Slots(p, ht, hrr)[i].typ != Slots(p, ht, hrr)[j].typ
    ensures forall i :: 0 <= i < 21 ==> Known(Slots(p, ht, hrr)[i].typ)
  {}

  lemma KnownIsPlain(t: nat)
    requires Known(t)
    ensures !Grease(t) && t != CLIENT_HELLO_PADDING && t != PRE_SHARED_KEY && t != ECH_OUTER_EXTENSIONS
  {}

  lemma OrderedFacts(p: Params, ht: HelloType, hrr: bool)
    ensures Plain(Ordered(p, ht, hrr))
    ensures forall e :: e in Ordered(p, ht, hrr) <==> Slot(e.0, Some(e.1)) in Slots(p, ht, hrr)
  {
    var sl := Slots(p, ht, hrr);
    SlotsDistinct(p, ht, hrr);
    PresentUnique(sl);
    forall e: Ext ensures e in Present(sl) <==> Slot(e.0, Some(e.1)) in sl { PresentMember(sl, e); }
    if p.permute.Some? { SortKeeps(p.permute.value, Present(sl)); }
    forall e | e in Ordered(p, ht, hrr) ensures Known(e.0) {
      assert Slot(e.0, Some(e.1)) in sl;
    }
  }

  lemma GreaseFacts(s: seq<Ext>, grease: Option<(nat, nat)>)
    requires Plain(s) && GreaseOk(grease)
    ensures UniqueTypes(WithGrease(s, grease))
    ensures forall t :: t in TypesOf(WithGrease(s, grease)) ==> Known(t) || Grease(t)
    ensures forall e :: e in s ==> e in WithGrease(s, grease)
    ensures forall e :: e in WithGrease(s, grease) ==>
              || e in s
              || (grease.Some? && (e == (grease.value.0, []) || e == (grease.value.1, [0])))
  {
    if s != [] && grease.Some? {
      var (g1, g4) := grease.value;
      forall t | t in TypesOf(s) ensures t != g1 && t != g4 { KnownIsPlain(t); }
      UniqueSnoc(s, (g1, []));
      UniqueSnoc([(g1, [])] + s, (g4, [0]));
    }
  }

  lemma TailFacts(s: seq<Ext>, padding: nat, psk: Option<bytes>)
    requires UniqueTypes(s) && forall t :: t in TypesOf(s) ==> Known(t) || Grease(t)
    ensures UniqueTypes(WithTail(s, padding, psk))
    ensures ECH_OUTER_EXTENSIONS !in TypesOf(WithTail(s, padding, psk))
    ensures forall e :: e in s ==> e in WithTail(s, padding, psk)
    ensures forall e :: e in WithTail(s, padding, psk) ==>
              e in s || e.0 == PRE_SHARED_KEY || e.0 == CLIENT_HELLO_PADDING
  {
    forall t | t in TypesOf(s)
      ensures t != CLIENT_HELLO_PADDING && t != PRE_SHARED_KEY && t != ECH_OUTER_EXTENSIONS
    {
      if Known(t) { KnownIsPlain(t); }
    }
    UniqueSnoc(s, (CLIENT_HELLO_PADDING, ZeroBytes(padding)));
    var s1 := if padding != 0 then s + [(CLIENT_HELLO_PADDING, ZeroBytes(padding))] else s;
    UniqueSnoc(s1, (PRE_SHARED_KEY, if psk.Some? then psk.value else []));
  }

  lemma SharedSlots(p: Params, hrr: bool)
    ensures forall i :: 0 <= i < 21 && i !in {0, 6, 7, 8, 9, 10, 11, 12, 16} ==>
              Slots(p, Inner, hrr)[i] == Slots(p, Outer, hrr)[i]
    ensures forall i :: 0 <= i < 21 && i in {0, 6, 7, 8, 9, 10, 11, 12, 16} ==>
              Slots(p, Inner, hrr)[i].typ in {0, 0xFF01, 0x3374, 22, 23, 11, 35, 43, 0xFE0D}
  {}

  lemma NotCompressible(t: nat)
    requires t in {0, 0xFF01, 0x3374, 22, 23, 11, 35, 43, 0xFE0D, 41, 21, 0xFD00}
    ensures !Compressible(t)
  {}

  /** The slot tables of the inner and the outer hello agree where compression is allowed. */
  lemma OrderedAgree(p: Params, hrr: bool, e: Ext)
    requires e in Ordered(p, Inner, hrr) && Compressible(e.0)
    ensures e in Ordered(p, Outer, hrr)
  {
    OrderedFacts(p, Inner, hrr);
    OrderedFacts(p, Outer, hrr);
    SharedSlots(p, hrr);
    SlotsDistinct(p, Inner, hrr);
    var a := Slots(p, Inner, hrr);
    var i :| 0 <= i < |a| && a[i] == Slot(e.0, Some(e.1));
    if i in {0, 6, 7, 8, 9, 10, 11, 12, 16} { NotCompressible(a[i].typ); }
  }

  /** Agreement survives GREASE, padding and PSK. */
  lemma TailedAgree(si: seq<Ext>, so: seq<Ext>, grease: Option<(nat, nat)>, padding: nat,
                    pskIn: Option<bytes>, pskOut: Option<bytes>, e: Ext)
    requires Plain(si) && Plain(so) && so != [] && GreaseOk(grease)
    requires forall x :: x in si && Compressible(x.0) ==> x in so
    requires e in WithTail(WithGrease(si, grease), 0, pskIn) && Compressible(e.0)
    ensures Find(WithTail(WithGrease(so, grease), padding, pskOut), e.0) == Some(e.1)
  {
    GreaseFacts(si, grease);
    GreaseFacts(so, grease);
    TailFacts(WithGrease(si, grease), 0, pskIn);
    TailFacts(WithGrease(so, grease), padding, pskOut);
    NotCompressible(PRE_SHARED_KEY);
    NotCompressible(CLIENT_HELLO_PADDING);
    assert e in WithGrease(si, grease);
    assert e in WithGrease(so, grease);
    FindUnique(WithTail(WithGrease(so, grease), padding, pskOut), e);
  }

  /** Inner and outer builders agree on every compressible extension. */
  lemma BuildersAgree(p: Params, hrr: bool, padding: nat, pskIn: Option<bytes>, pskOut: Option<bytes>, e: Ext)
    requires GreaseOk(p.grease)
    requires e in Extensions(p, Inner, hrr, padding, pskIn) && Compressible(e.0)
    ensures Find(Extensions(p, Outer, hrr, padding, pskOut), e.0) == Some(e.1)
  {
    var si, so := Ordered(p, Inner, hrr), Ordered(p, Outer, hrr);
    OrderedFacts(p, Inner, hrr);
    OrderedFacts(p, Outer, hrr);
    AlwaysSent(p, Outer, hrr);
    forall x | x in si && Compressible(x.0) ensures x in so { OrderedAgree(p, hrr, x); }
    TailedAgree(si, so, p.grease, padding, pskIn, pskOut, e);
  }

  lemma AlwaysSent(p: Params, ht: HelloType, hrr: bool)
    ensures (SUPPORTED_VERSIONS, if ht == Inner then p.innerVersions else p.outerVersions) in Ordered(p, ht, hrr)
    ensures ht == Inner ==> (ENCRYPTED_CLIENT_HELLO, [1]) in Ordered(p, ht, hrr)
    ensures Ordered(p, ht, hrr) != []
  {
    hide Ordered, Plain;
    OrderedFacts(p, ht, hrr);
    var s := Slots(p, ht, hrr);
    assert s[12] in s && s[16] in s;
    var e: Ext := (SUPPORTED_VERSIONS, if ht == Inner then p.innerVersions else p.outerVersions);
    assert s[12] == Slot(e.0, Some(e.1));
    assert e in Ordered(p, ht, hrr);
  }

  // Padding of the encoded inner hello

  /** `hostname` is the length of the configured name, if there is one. */
  function PaddingLength(encoded: nat, hostname: Option<nat>, maximumNameLength: nat): (r: nat)
    ensures (encoded + r) % 32 == 0
    ensures hostname.Some? && hostname.value <= maximumNameLength ==> hostname.value + r >= maximumNameLength
    ensures hostname.None? ==> r >= 9 + maximumNameLength
  {
    var n := match hostname
      case Some(l) => if l <= maximumNameLength then maximumNameLength - l else 0
      case None => 9 + maximumNameLength;
    n + (31 - ((encoded + n - 1) % 32))
  }

  // The server's side

  /** The ECHClientExtension of an inner hello is the single octet 1. */
  predicate IsInnerEch(body: bytes) { body == [1] }

  function VersionsC(): Codec<seq<nat>> { IntListC(2, 1) }

  /** _decrypt_ech_payload after decryption; every alert it raises is `None`. */
  function RecoverInner(data: bytes, outer: ClientHello): (r: Option<ClientHello>)
  {
    match ParseClientHello(data)
    case None => None
    case Some((h, trailing)) => CheckEncoded(h, trailing, outer)
  }

  function CheckEncoded(h: ClientHello, trailing: bytes, outer: ClientHello): (r: Option<ClientHello>)
  {
    if exists i :: 0 <= i < |trailing| && trailing[i] != 0 then None
    else if h.sessionId != [] || h.extensions == [] then None
    else
      match Find(h.extensions, ENCRYPTED_CLIENT_HELLO)
      case None => None
      case Some(ech) =>
        if !IsInnerEch(ech) then None else
        match Expand(h.extensions, outer.extensions)
        case None => None
        case Some(exts) => CheckVersions(h.(sessionId := outer.sessionId, extensions := exts))
  }

  function CheckVersions(h: ClientHello): (r: Option<ClientHello>)
  {
    match Find(h.extensions, SUPPORTED_VERSIONS)
    case None => None
    case Some(b) =>
      match FromBytes(VersionsC(), b)
      case None => None
      case Some(vs) =>
        if |b| < 3 || |b| > 255 || (exists i :: 0 <= i < |vs| && vs[i] < TLS13) then None else Some(h)
  }

  /** The versions an inner hello offers: TLS 1.3, with GREASE in front when enabled. */
  predicate InnerVersionsOk(b: bytes)
  {
    && 3 <= |b| <= 255
    && FromBytes(VersionsC(), b).Some?
    && forall i :: 0 <= i < |FromBytes(VersionsC(), b).value| ==> FromBytes(VersionsC(), b).value[i] >= TLS13
  }

  /** Compression neither duplicates a type nor touches a kept extension. */
  lemma EncodedFacts(comp: nat -> bool, inner: seq<Ext>, e: Ext)
    requires UniqueTypes(inner) && ECH_OUTER_EXTENSIONS !in TypesOf(inner) && !comp(ECH_OUTER_EXTENSIONS)
    requires EncodedInner(comp, inner).Some?
    requires e in inner && e.0 != PRE_SHARED_KEY && !comp(e.0)
    ensures UniqueTypes(EncodedInner(comp, inner).value)
    ensures Find(EncodedInner(comp, inner).value, e.0) == Some(e.1)
    ensures UniqueTypes(FullInner(comp, inner))
    ensures Find(FullInner(comp, inner), e.0) == Some(e.1)
  {
    SplitMembers(comp, inner);
    CompressedUnique(comp, inner);
    var k, c, p := Kept(comp, inner), Compressed(comp, inner), Psk(inner);
    assert forall x :: x in p ==> x in inner && x.0 == PRE_SHARED_KEY;
    JoinUnique(k, c);
    JoinUnique(k + c, p);
    FindUnique(k + c + p, e);
    if c == [] {
      assert k + c == k;
    } else {
      var ref: seq<Ext> := [(ECH_OUTER_EXTENSIONS, OuterRefC().ser(Types(c)).value)];
      JoinUnique(k, ref);
      JoinUnique(k + ref, p);
      FindUnique(k + ref + p, e);
    }
  }

  lemma JoinUnique(a: seq<Ext>, b: seq<Ext>)
    requires UniqueTypes(a) && UniqueTypes(b)
    requires forall x, y :: x in a && y in b ==> x.0 != y.0
    ensures UniqueTypes(a + b)
  {
    forall i, j | 0 <= i < j < |a + b| ensures (a + b)[i].0 != (a + b)[j].0 {
      if i < |a| <= j { assert a[i] in a && b[j - |a|] in b; }
    }
  }

  /** The server's checks and expansion on an encoded hello built from any inner list. */
  lemma CheckEncodedAccepts(comp: nat -> bool, inner: seq<Ext>, versions: bytes, hello: ClientHello,
                            outer: ClientHello, pad: nat)
    requires UniqueTypes(inner) && ECH_OUTER_EXTENSIONS !in TypesOf(inner)
    requires !comp(ECH_OUTER_EXTENSIONS) && !comp(ENCRYPTED_CLIENT_HELLO) && !comp(SUPPORTED_VERSIONS)
    requires (ENCRYPTED_CLIENT_HELLO, [1]) in inner && (SUPPORTED_VERSIONS, versions) in inner
    requires InnerVersionsOk(versions)
    requires EncodedInner(comp, inner).Some?
    requires hello.extensions == FullInner(comp, inner) && outer.sessionId == hello.sessionId
    requires forall e :: e in inner && comp(e.0) ==> Find(outer.extensions, e.0) == Some(e.1)
    ensures WfClientHello(EncodedHello(comp, inner, hello))
    ensures EncodedHello(comp, inner, hello).extensions != []
    ensures CheckEncoded(EncodedHello(comp, inner, hello), ZeroBytes(pad), outer) == Some(hello)
  {
    hide EncodedInner, FullInner, Expand, TypesOf, FromBytes, VersionsC;
    EncodedFacts(comp, inner, (ENCRYPTED_CLIENT_HELLO, [1]));
    EncodedFacts(comp, inner, (SUPPORTED_VERSIONS, versions));
    ExpandUndoesCompress(comp, inner, outer.extensions);
  }

  /** The server recovers exactly the inner hello the client hashed, whatever the padding and whatever
      else the outer hello holds, as long as it agrees on what was compressed. */
  lemma InnerRecovered(p: Params, hrr: bool, padding: nat, pskIn: Option<bytes>, hello: ClientHello,
                       outer: ClientHello, pad: nat)
    requires GreaseOk(p.grease) && InnerVersionsOk(p.innerVersions) && outer.sessionId == hello.sessionId
    requires var inner := Extensions(p, Inner, hrr, padding, pskIn);
             && EncodedInner(Compressible, inner).Some?
             && hello.extensions == FullInner(Compressible, inner)
             && SerClientHello(EncodedHello(Compressible, inner, hello)).Some?
             && forall e :: e in inner && Compressible(e.0) ==> Find(outer.extensions, e.0) == Some(e.1)
    ensures var inner := Extensions(p, Inner, hrr, padding, pskIn);
            RecoverInner(SerClientHello(EncodedHello(Compressible, inner, hello)).value + ZeroBytes(pad), outer)
            == Some(hello)
  {
    var inner := Extensions(p, Inner, hrr, padding, pskIn);
    InnerFacts(p, hrr, padding, pskIn);
    NotCompressible(ECH_OUTER_EXTENSIONS);
    NotCompressible(ENCRYPTED_CLIENT_HELLO);
    NotCompressible(SUPPORTED_VERSIONS);
    CheckEncodedAccepts(Compressible, inner, p.innerVersions, hello, outer, pad);
    ClientHelloReads(EncodedHello(Compressible, inner, hello), ZeroBytes(pad));
  }

  /** An outer hello has every type once, and its ECH extension as given. */
  lemma OuterFacts(p: Params, hrr: bool, padding: nat, pskOut: Option<bytes>)
    requires GreaseOk(p.grease)
    ensures var s := Extensions(p, Outer, hrr, padding, pskOut);
            UniqueTypes(s) && s != [] && (p.echOuter.Some? ==> Find(s, ENCRYPTED_CLIENT_HELLO) == p.echOuter)
  {
    hide Slots, Plain, Present;
    var s := Ordered(p, Outer, hrr);
    OrderedFacts(p, Outer, hrr);
    AlwaysSent(p, Outer, hrr);
    GreaseFacts(s, p.grease);
    TailFacts(WithGrease(s, p.grease), padding, pskOut);
    if p.echOuter.Some? {
      OuterEch(p, hrr);
      FindUnique(Extensions(p, Outer, hrr, padding, pskOut), (ENCRYPTED_CLIENT_HELLO, p.echOuter.value));
    }
  }

  lemma OuterEch(p: Params, hrr: bool)
    requires p.echOuter.Some?
    ensures (ENCRYPTED_CLIENT_HELLO, p.echOuter.value) in Ordered(p, Outer, hrr)
  {
    hide Ordered, Plain;
    OrderedFacts(p, Outer, hrr);
    var s, e: Ext := Slots(p, Outer, hrr), (ENCRYPTED_CLIENT_HELLO, p.echOuter.value);
    assert s[16] in s && s[16] == Slot(e.0, Some(e.1));
    assert e in Ordered(p, Outer, hrr);
  }

  lemma InnerFacts(p: Params, hrr: bool, padding: nat, pskIn: Option<bytes>)
    requires GreaseOk(p.grease)
    ensures var inner := Extensions(p, Inner, hrr, padding, pskIn);
            && UniqueTypes(inner) && ECH_OUTER_EXTENSIONS !in TypesOf(inner)
            && (ENCRYPTED_CLIENT_HELLO, [1]) in inner && (SUPPORTED_VERSIONS, p.innerVersions) in inner
  {
    var s := Ordered(p, Inner, hrr);
    OrderedFacts(p, Inner, hrr);
    AlwaysSent(p, Inner, hrr);
    GreaseFacts(s, p.grease);
    TailFacts(WithGrease(s, p.grease), 0, pskIn);
  }

  /** The hello the client encrypts: compressed extensions and no session id. */
  function EncodedHello(comp: nat -> bool, inner: seq<Ext>, hello: ClientHello): ClientHello
    requires EncodedInner(comp, inner).Some?
  {
    hello.(sessionId := [], extensions := EncodedInner(comp, inner).value)
  }
}
