/** A whole exchange with ECH between an honest client and an honest server, octet by octet: the hello
    is built, sealed, opened and recovered, the server confirms in its hellos and the client sees it. */
module EchExchange {
  import opened Bits
  import opened Wire
  import opened Messages
  import opened ExtensionLists
  import opened EchCompression
  import opened Transcripts
  import opened EchAcceptance
  import opened AeadRecords
  import Hpke
  import EchBuilder

  // ECHClientExtension of an outer hello

  datatype EchOuter = EchOuter(kdf: nat, aead: nat, config: nat, enc: bytes, payload: bytes)

  type EchFields = (nat, (nat, (nat, (nat, (bytes, bytes)))))

  function EchFieldsC(): Codec<EchFields>
  {
    PairC(IntC(1), PairC(IntC(2), PairC(IntC(2), PairC(IntC(1), PairC(BlobC(2), BlobC(2))))))
  }

  function FieldsOf(x: EchOuter): EchFields { (0, (x.kdf, (x.aead, (x.config, (x.enc, x.payload))))) }

  function SerEch(x: EchOuter): (r: Option<bytes>) { EchFieldsC().ser(FieldsOf(x)) }

  /** `None` is malformed data or the extension of an inner hello. */
  function ParseEch(s: bytes): (r: Option<EchOuter>)
  {
    match FromBytes(EchFieldsC(), s)
    case None => None
    case Some(f) => if f.0 == 0 then Some(EchOuter(f.1.0, f.1.1.0, f.1.1.1.0, f.1.1.1.1.0, f.1.1.1.1.1)) else None
  }

  lemma EchFieldsLawful()
    ensures Lawful(EchFieldsC()) && forall x: EchFields :: EchFieldsC().wf(x)
  {
    IntLawful(1); IntLawful(2); BlobLawful(2);
    var c1 := PairC(BlobC(2), BlobC(2));
    PairLawful(BlobC(2), BlobC(2));
    var c2 := PairC(IntC(1), c1);
    PairLawful(IntC(1), c1);
    var c3 := PairC(IntC(2), c2);
    PairLawful(IntC(2), c2);
    PairLawful(IntC(2), c3);
    PairLawful(IntC(1), PairC(IntC(2), c3));
  }

  lemma EchRoundTrip(x: EchOuter)
    requires SerEch(x).Some?
    ensures ParseEch(SerEch(x).value) == Some(x)
  {
    hide EchFieldsC;
    EchFieldsLawful();
    RoundTrip(EchFieldsC(), FieldsOf(x), SerEch(x).value);
  }

  /** Whether it can be written, and how long it is, depends on the length of the payload only. */
  lemma EchSameLength(x: EchOuter, b: bytes)
    requires SerEch(x).Some? && |b| == |x.payload|
    ensures SerEch(x.(payload := b)).Some? && |SerEch(x.(payload := b)).value| == |SerEch(x).value|
  {
    hide IntToBytes, Limit;
  }

  // The client's side

  /** What goes into a hello besides its payload. */
  datatype Offer = Offer(
    p: EchBuilder.Params, hrr: bool, padding: nat, pskIn: Option<bytes>, pskOut: Option<bytes>, version: nat,
    random: bytes, innerRandom: bytes, sessionId: bytes, suites: seq<nat>, methods: seq<nat>, pad: nat, ech: EchOuter)

  function InnerExts(o: Offer): seq<Ext> { EchBuilder.Extensions(o.p, EchBuilder.Inner, o.hrr, o.padding, o.pskIn) }

  /** The inner hello, which the client hashes. */
  function InnerHello(o: Offer): ClientHello
  {
    ClientHello(o.version, o.innerRandom, o.sessionId, o.suites, o.methods, FullInner(Compressible, InnerExts(o)))
  }

  /** What it encrypts. */
  function Encoded(o: Offer): (r: Option<bytes>)
  {
    if EncodedInner(Compressible, InnerExts(o)).None? then None else
    Join(SerClientHello(EchBuilder.EncodedHello(Compressible, InnerExts(o), InnerHello(o))), Some(ZeroBytes(o.pad)))
  }

  /** The outer hello around an extension body. */
  function OuterHello(o: Offer, body: bytes): ClientHello
  {
    ClientHello(o.version, o.random, o.sessionId, o.suites, o.methods,
                EchBuilder.Extensions(o.p.(echOuter := Some(body)), EchBuilder.Outer, o.hrr, o.padding, o.pskOut))
  }

  function Blank(o: Offer, n: nat): EchOuter { o.ech.(payload := ZeroBytes(n)) }

  /** The outer hello with `n` zeros for the payload. */
  function BlankHello(o: Offer, n: nat): (r: Option<ClientHello>)
  {
    match SerEch(Blank(o, n)) case None => None case Some(b) => Some(OuterHello(o, b))
  }

  /** That hello with the payload put in. */
  function FullHello(o: Offer, payload: bytes): (r: Option<ClientHello>)
  {
    match BlankHello(o, |payload|)
    case None => None
    case Some(m) => WithEch(m, o.ech.(payload := payload))
  }

  function WithEch(m: ClientHello, x: EchOuter): (r: Option<ClientHello>)
  {
    match SerEch(x)
    case None => None
    case Some(b) =>
      match Replace(m.extensions, ENCRYPTED_CLIENT_HELLO, b)
      case None => None
      case Some(es) => Some(m.(extensions := es))
  }

  function SerOpt(m: Option<ClientHello>): (r: Option<bytes>) { if m.Some? then SerClientHello(m.value) else None }

  /** The client can write all of it. */
  predicate Writable(o: Offer, tag: nat)
  {
    EchBuilder.GreaseOk(o.p.grease) && EchBuilder.InnerVersionsOk(o.p.innerVersions) && |o.sessionId| <= 32
      && Sealable(o, tag)
  }

  predicate Sealable(o: Offer, tag: nat)
  {
    Encoded(o).Some? && SerOpt(BlankHello(o, |Encoded(o).value| + tag)).Some?
  }

  /** A handshake message: type, length, body. */
  function Packed(htype: byte, body: Option<bytes>): (r: bytes)
  {
    if body.Some? && |body.value| < Limit(3) then [htype] + IntToBytes(|body.value|, 3) + body.value else []
  }

  function PackClient(m: ClientHello): bytes { Packed(1, SerClientHello(m)) }

  function PackServer(m: ServerHello): bytes { Packed(2, SerServerHello(m)) }

  /** _build_encrypted_client_hello: the encoded hello is sealed over the blank outer one. */
  method Build(o: Offer, s: Hpke.Context, t: Transcript) returns (sent: bytes)
    requires s.Valid() && s.next < Limit(8) && t.Valid() && t.hashes == map[] && Writable(o, s.a.tag)
    modifies s`next, s`nonces, t
    ensures s.Valid() && s.next == old(s.next) + 1
    ensures t.Valid() && t.hashes == map[] && t.buffer == old(t.buffer) + PackClient(InnerHello(o))
    ensures SentBy(o, s.a, Hpke.NonceAt(s.base, old(s.next)), sent)
  {
    hide Encoded, SerEch, SerClientHello, PackClient, InnerHello, Hpke.NonceAt, Limit, BlankHello, FullHello,
         EchBuilder.InnerVersionsOk, EchBuilder.GreaseOk;
    t.UpdateHash(PackClient(InnerHello(o)));
    var encoded := Encoded(o).value;
    var blank := BlankHello(o, |encoded| + s.a.tag).value;
    var payload := s.Seal(encoded, SerClientHello(blank).value);
    PayloadFits(o, s.a.tag, payload.value);
    sent := SerClientHello(FullHello(o, payload.value).value).value;
  }

  /** The octets of the hello sealed under this nonce. */
  predicate SentBy(o: Offer, a: Aead, nonce: bytes, sent: bytes)
  {
    match Encoded(o)
    case None => false
    case Some(text) =>
      match SerOpt(BlankHello(o, |text| + a.tag))
      case None => false
      case Some(aad) => SerOpt(FullHello(o, a.enc(nonce, text, aad))) == Some(sent)
  }

  lemma {:induction false} FindOther(s: seq<Ext>, t: nat, b: bytes, u: nat)
    requires t in TypesOf(s) && u != t
    ensures Find(Replace(s, t, b).value, u) == Find(s, u)
  {
    if s[0].0 == t { assert ([(t, b)] + s[1..])[1..] == s[1..]; }
    else {
      assert t in TypesOf(s[1..]);
      FindOther(s[1..], t, b, u);
      var x := Replace(s[1..], t, b).value;
      assert ([s[0]] + x)[1..] == x && ([s[0]] + x)[0] == s[0];
    }
  }

  lemma ExtSameLength(t: nat, a: bytes, b: bytes)
    requires |a| == |b| && ExtC().ser((t, a)).Some?
    ensures ExtC().ser((t, b)).Some? && |ExtC().ser((t, b)).value| == |ExtC().ser((t, a)).value|
  {
    hide IntToBytes, Limit;
  }

  /** A body replaced by one of the same length can be written equally well. */
  lemma {:induction false} ReplaceWritable(s: seq<Ext>, t: nat, a: bytes, b: bytes)
    requires Find(s, t) == Some(a) && |a| == |b| && SerItems(ExtC(), s).Some?
    ensures var r := Replace(s, t, b);
            && r.Some? && SerItems(ExtC(), r.value).Some?
            && |SerItems(ExtC(), r.value).value| == |SerItems(ExtC(), s).value|
  {
    hide ExtC;
    if s[0].0 == t {
      ExtSameLength(t, a, b);
      assert ([(t, b)] + s[1..])[1..] == s[1..];
    } else {
      ReplaceWritable(s[1..], t, a, b);
      var x := Replace(s[1..], t, b).value;
      assert ([s[0]] + x)[1..] == x && ([s[0]] + x)[0] == s[0];
    }
  }

  lemma HelloWritable(m: ClientHello, t: nat, a: bytes, b: bytes)
    requires Find(m.extensions, t) == Some(a) && |a| == |b| && SerClientHello(m).Some?
    ensures var r := Replace(m.extensions, t, b);
            r.Some? && r.value != [] && SerClientHello(m.(extensions := r.value)).Some?
  {
    hide ExtC, ClientHeadC, IntToBytes, Limit;
    ReplaceWritable(m.extensions, t, a, b);
  }

  lemma ReplaceUnique(s: seq<Ext>, t: nat, b: bytes)
    requires UniqueTypes(s) && Replace(s, t, b).Some?
    ensures UniqueTypes(Replace(s, t, b).value)
  {
    var r := Replace(s, t, b).value;
    forall i, j | 0 <= i < j < |r| ensures r[i].0 != r[j].0 { assert r[i].0 == s[i].0 && r[j].0 == s[j].0; }
  }

  /** With a payload of the right length the hello can be written, and parses back. */
  lemma PayloadFits(o: Offer, tag: nat, payload: bytes)
    requires Writable(o, tag) && |payload| == |Encoded(o).value| + tag
    ensures BlankHello(o, |payload|).Some? && FullHello(o, payload).Some?
    ensures var blank, full := BlankHello(o, |payload|).value, FullHello(o, payload).value;
            && SerEch(Blank(o, |payload|)).Some? && SerEch(o.ech.(payload := payload)).Some?
            && Find(blank.extensions, ENCRYPTED_CLIENT_HELLO) == SerEch(Blank(o, |payload|))
            && WfClientHello(full) && full.extensions != [] && SerClientHello(full).Some?
  {
    hide SerEch, SerClientHello, Encoded, EchBuilder.Extensions, EchBuilder.InnerVersionsOk, EchBuilder.GreaseOk;
    EchSameLength(Blank(o, |payload|), payload);
    assert Blank(o, |payload|).(payload := payload) == o.ech.(payload := payload);
    var blank, full := SerEch(Blank(o, |payload|)).value, SerEch(o.ech.(payload := payload)).value;
    EchBuilder.OuterFacts(o.p.(echOuter := Some(blank)), o.hrr, o.padding, o.pskOut);
    HelloWritable(OuterHello(o, blank), ENCRYPTED_CLIENT_HELLO, blank, full);
    ReplaceUnique(OuterHello(o, blank).extensions, ENCRYPTED_CLIENT_HELLO, full);
  }

  // The server's side

  /** The outer hello and its ECH extension, if it has one that is not an inner one's. */
  function OuterOf(octets: bytes): (r: Option<(ClientHello, EchOuter)>)
  {
    match ParseClientHello(octets)
    case None => None
    case Some((m, rest)) =>
      if rest != [] then None else
      match Find(m.extensions, ENCRYPTED_CLIENT_HELLO)
      case None => None
      case Some(b) => match ParseEch(b) case None => None case Some(x) => Some((m, x))
  }

  /** _get_ech_aad: the hello with its payload zeroed. */
  function AadOf(m: ClientHello, x: EchOuter): (r: Option<bytes>)
  {
    SerOpt(WithEch(m, x.(payload := ZeroBytes(|x.payload|))))
  }

  /** _decrypt_ech_payload, and the inner hello's way into the transcript. */
  method Receive(m: ClientHello, x: EchOuter, r: Hpke.Context, t: Transcript) returns (inner: Option<ClientHello>)
    requires r.Valid() && t.Valid() && t.hashes == map[]
    modifies r`next, r`nonces, t
    ensures r.Valid() && t.Valid() && t.hashes == map[]
    ensures r.next == if old(r.next) < Limit(8) && AadOf(m, x).Some? then old(r.next) + 1 else old(r.next)
    ensures inner.Some? ==> t.buffer == old(t.buffer) + PackClient(inner.value)
    ensures AadOf(m, x).Some? && old(r.next) < Limit(8) ==>
              var data := r.a.dec(Hpke.NonceAt(r.base, old(r.next)), x.payload, AadOf(m, x).value);
              inner == if data.None? then None else EchBuilder.RecoverInner(data.value, m)
  {
    hide AadOf, Hpke.NonceAt, Limit, EchBuilder.RecoverInner, PackClient;
    var aad := AadOf(m, x);
    if aad.None? { return None; }
    var data := r.Open(x.payload, aad.value);
    if data.None? { return None; }
    inner := EchBuilder.RecoverInner(data.value, m);
    if inner.Some? { t.UpdateHash(PackClient(inner.value)); }
  }

  /** The server reads the sent hello as it was made, and authenticates what the client did. */
  lemma OuterReads(o: Offer, tag: nat, payload: bytes, sent: bytes)
    requires Writable(o, tag) && |payload| == |Encoded(o).value| + tag && SerOpt(FullHello(o, payload)) == Some(sent)
    ensures OuterOf(sent) == Some((FullHello(o, payload).value, o.ech.(payload := payload)))
    ensures AadOf(FullHello(o, payload).value, o.ech.(payload := payload)) == SerOpt(BlankHello(o, |payload|))
  {
    hide SerEch, SerClientHello, ParseEch, ParseClientHello, Encoded, EchBuilder.Extensions, Writable, WfClientHello;
    PayloadFits(o, tag, payload);
    ClientHelloReads(FullHello(o, payload).value, []);
    assert sent + [] == sent;
    EchRoundTrip(o.ech.(payload := payload));
    var blank, full := SerEch(Blank(o, |payload|)).value, SerEch(o.ech.(payload := payload)).value;
    ReplaceTwice(OuterHello(o, blank).extensions, ENCRYPTED_CLIENT_HELLO, full, blank);
    assert o.ech.(payload := payload).(payload := ZeroBytes(|payload|)) == Blank(o, |payload|);
  }

  /** What opens is recovered to the inner hello. */
  lemma InnerComesOut(o: Offer, tag: nat, payload: bytes)
    requires Writable(o, tag) && |payload| == |Encoded(o).value| + tag && FullHello(o, payload).Some?
    ensures EchBuilder.RecoverInner(Encoded(o).value, FullHello(o, payload).value) == Some(InnerHello(o))
  {
    hide SerEch, SerClientHello, EncodedInner, FullInner, EchBuilder.Extensions, EchBuilder.RecoverInner,
         EchBuilder.EncodedHello;
    PayloadFits(o, tag, payload);
    var outer := FullHello(o, payload).value;
    var blank, full := SerEch(Blank(o, |payload|)).value, SerEch(o.ech.(payload := payload)).value;
    forall e | e in InnerExts(o) && Compressible(e.0) ensures Find(outer.extensions, e.0) == Some(e.1) {
      SameInner(o, blank);
      EchBuilder.BuildersAgree(o.p.(echOuter := Some(blank)), o.hrr, o.padding, o.pskIn, o.pskOut, e);
      EchBuilder.NotCompressible(ENCRYPTED_CLIENT_HELLO);
      FindOther(OuterHello(o, blank).extensions, ENCRYPTED_CLIENT_HELLO, full, e.0);
    }
    EchBuilder.InnerRecovered(o.p, o.hrr, o.padding, o.pskIn, InnerHello(o), outer, o.pad);
  }

  /** The inner extensions do not depend on the outer ECH extension. */
  lemma SameInner(o: Offer, body: bytes)
    ensures EchBuilder.Extensions(o.p.(echOuter := Some(body)), EchBuilder.Inner, o.hrr, o.padding, o.pskIn)
            == InnerExts(o)
  {
    assert EchBuilder.Slots(o.p.(echOuter := Some(body)), EchBuilder.Inner, o.hrr)
        == EchBuilder.Slots(o.p, EchBuilder.Inner, o.hrr);
  }

  // One hello

  /** What the server has of it: the additional data, the payload and, once opened, the inner hello. */
  predicate Arrives(o: Offer, a: Aead, nonce: bytes, m: ClientHello, x: EchOuter)
  {
    match Encoded(o)
    case None => false
    case Some(text) =>
      match AadOf(m, x)
      case None => false
      case Some(aad) =>
        x == o.ech.(payload := a.enc(nonce, text, aad)) && EchBuilder.RecoverInner(text, m) == Some(InnerHello(o))
  }

  /** The client sends it and the server parses it. */
  method Transmit(o: Offer, s: Hpke.Context, t: Transcript) returns (m: ClientHello, x: EchOuter)
    requires s.Valid() && s.next < Limit(8) && t.Valid() && t.hashes == map[] && Writable(o, s.a.tag)
    modifies s`next, s`nonces, t
    ensures s.Valid() && s.next == old(s.next) + 1
    ensures t.Valid() && t.hashes == map[] && t.buffer == old(t.buffer) + PackClient(InnerHello(o))
    ensures Arrives(o, s.a, Hpke.NonceAt(s.base, old(s.next)), m, x)
  {
    hide Encoded, SerEch, SerClientHello, PackClient, InnerHello, Hpke.NonceAt, Limit, BlankHello, FullHello, OuterOf,
         AadOf, EchBuilder.InnerVersionsOk, EchBuilder.GreaseOk, EchBuilder.RecoverInner;
    var sent := Build(o, s, t);
    ghost var n := Hpke.NonceAt(s.base, old(s.next));
    ghost var payload := s.a.enc(n, Encoded(o).value, SerOpt(BlankHello(o, |Encoded(o).value| + s.a.tag)).value);
    OuterReads(o, s.a.tag, payload, sent);
    InnerComesOut(o, s.a.tag, payload);
    m, x := OuterOf(sent).value.0, OuterOf(sent).value.1;
  }

  /** A context in step with the client's opens it to the inner hello. */
  lemma ArrivedOpens(o: Offer, a: Aead, nonce: bytes, m: ClientHello, x: EchOuter)
    requires AeadOk(a) && Arrives(o, a, nonce, m, x)
    ensures AadOf(m, x).Some?
    ensures var data := a.dec(nonce, x.payload, AadOf(m, x).value);
            data.Some? && EchBuilder.RecoverInner(data.value, m) == Some(InnerHello(o))
  {
    hide Encoded, AadOf, EchBuilder.RecoverInner, InnerHello;
  }

  // Both hellos

  /** Parties that went through the same hellos: their contexts are in step and their transcripts equal. */
  ghost predicate Together(s: Hpke.Context, r: Hpke.Context, ct: Transcript, st: Transcript)
    reads s, r, ct, st, ct.hashes.Values, st.hashes.Values
  {
    && Hpke.Matched(s, r) && ct != st && ct.Valid() && st.Valid() && ct.h == st.h
    && ct.hashes == map[] && st.hashes == map[] && ct.buffer == st.buffer
  }

  /** "tls ech", a zero octet, and the configuration. */
  function Info(config: EchConfig): bytes
  {
    var c := EchConfigC().ser(config);
    [116, 108, 115, 32, 101, 99, 104, 0] + (if c.Some? then c.value else [])
  }

  /** The first hello for a configuration, with the encapsulated key. */
  function First(o: Offer, config: EchConfig, enc: bytes): Offer
  {
    o.(hrr := false, ech := o.ech.(config := config.configId, enc := enc))
  }

  /** The hello after a HelloRetryRequest goes on with the context, so it has no key in it. */
  function Second(o: Offer, first: Offer): Offer
  {
    o.(hrr := true, version := first.version, innerRandom := first.innerRandom, sessionId := first.sessionId,
       ech := first.ech.(enc := []))
  }

  function CipherOf(k: Hpke.KemSuite, config: EchConfig, e: bytes): Aead
  {
    k.schedule(Hpke.Encap(k, e, config.publicKey).0, Info(config)).0
  }

  /** The first hello: the client encapsulates to the configured key, the server, who holds the private
      one, sets up its context from what it reads. `None` would be ECH not accepted. */
  method OpenFirst(k: Hpke.KemSuite, config: EchConfig, mine: bytes, e: bytes, o: Offer, h: (nat, bytes) -> bytes)
    returns (inner: Option<ClientHello>, s: Hpke.Context, r: Hpke.Context, ct: Transcript, st: Transcript)
    requires Hpke.KemOk(k) && config.publicKey == k.public(mine) && HashesOk(h)
    requires Writable(First(o, config, k.public(e)), CipherOf(k, config, e).tag)
    ensures inner == Some(InnerHello(First(o, config, k.public(e))))
    ensures fresh(s) && fresh(r) && fresh(ct) && fresh(st) && Together(s, r, ct, st) && s.next == 1
    ensures ct.h == h && s.a == CipherOf(k, config, e)
    ensures ct.buffer == PackClient(InnerHello(First(o, config, k.public(e))))
  {
    hide Writable, PackClient, InnerHello, Hpke.NonceAt, AadOf, EchBuilder.RecoverInner, Arrives, Limit, Info;
    ct := new Transcript(h);
    st := new Transcript(h);
    var enc;
    enc, s := Hpke.SetupSend(k, config.publicKey, Info(config), e);
    SomeRoom();
    var m, x := Transmit(First(o, config, enc), s, ct);
    ArrivesWith(First(o, config, enc), s.a, Hpke.NonceAt(s.base, 0), m, x);
    assert x.config == config.configId;
    r := Hpke.SetupRecv(k, x.enc, mine, Info(config));
    Hpke.DecapEncap(k, e, mine);
    ArrivedOpens(First(o, config, enc), s.a, Hpke.NonceAt(s.base, 0), m, x);
    inner := Receive(m, x, r, st);
    assert forall b: bytes :: [] + b == b;
  }

  lemma SomeRoom()
    ensures 1 < Limit(8)
  {}

  lemma ArrivesWith(o: Offer, a: Aead, nonce: bytes, m: ClientHello, x: EchOuter)
    requires Arrives(o, a, nonce, m, x)
    ensures x == o.ech.(payload := x.payload)
  {
    hide Encoded, AadOf, EchBuilder.RecoverInner, InnerHello;
  }

  /** The second hello: the server insists on the same configuration and suite, on no new key, and on
      the same random and session id. */
  method OpenSecond(o: Offer, first: Offer, s: Hpke.Context, r: Hpke.Context, ct: Transcript, st: Transcript)
    returns (inner: Option<ClientHello>)
    requires Together(s, r, ct, st) && s.next < Limit(8) && Writable(Second(o, first), s.a.tag)
    modifies s`next, s`nonces, r`next, r`nonces, ct, st
    ensures inner == Some(InnerHello(Second(o, first))) && Together(s, r, ct, st)
    ensures ct.buffer == old(ct.buffer) + PackClient(InnerHello(Second(o, first)))
  {
    hide Writable, PackClient, Hpke.NonceAt, AadOf, EchBuilder.RecoverInner, Arrives, Limit, FullInner, InnerExts;
    var m, x := Transmit(Second(o, first), s, ct);
    ArrivesWith(Second(o, first), s.a, Hpke.NonceAt(s.base, old(s.next)), m, x);
    if x.config != first.ech.config || x.aead != first.ech.aead || x.kdf != first.ech.kdf || x.enc != [] {
      return None;
    }
    ArrivedOpens(Second(o, first), s.a, Hpke.NonceAt(s.base, old(s.next)), m, x);
    inner := Receive(m, x, r, st);
    if inner.Some? && (inner.value.random != first.innerRandom || inner.value.sessionId != first.sessionId) {
      return None;
    }
  }

  // The server's hellos

  /** ech_accept_confirmation: keyed by the inner random. */
  function ConfirmationBy(kdf: (bytes, bool, bytes) -> bytes, random: bytes): Confirmation
  {
    Confirmation((hrr: bool, t: bytes) => kdf(random, hrr, t), PackServer)
  }

  ghost predicate KdfOk(kdf: (bytes, bool, bytes) -> bytes)
  {
    forall r: bytes, b: bool, t: bytes :: |kdf(r, b, t)| == 8
  }

  /** The transcripts as a hello of the server finds them. */
  function Before(h: (nat, bytes) -> bytes, a: nat, hrr: bool, t: bytes): bytes
    requires |h(a, t)| < Limit(3)
  {
    if hrr then MessageHash(h(a, t)) else t
  }

  predicate Answerable(m: ServerHello, hrr: bool)
  {
    |m.random| == 32 && (hrr ==> ENCRYPTED_CLIENT_HELLO !in TypesOf(m.extensions))
  }

  /** The server confirms in a hello, with the random of the inner hello it recovered; the client parses
      it and checks it with its own. Both transcripts take it in, rewritten before if it asks to retry. */
  method Answer(m: ServerHello, hrr: bool, a: nat, kdf: (bytes, bool, bytes) -> bytes, mine: bytes, theirs: bytes,
                ct: Transcript, st: Transcript) returns (ok: Option<bool>, ghost sent: ServerHello)
    requires KdfOk(kdf) && Answerable(m, hrr) && (forall v: bytes :: |v| == 8 ==> CanCarry(m, hrr, v))
    requires ct != st && ct.Valid() && st.Valid() && ct.h == st.h && ct.hashes == map[] && st.hashes == map[]
    requires ct.buffer == st.buffer && mine == theirs
    modifies ct, st
    ensures ok == Some(true) && ct.Valid() && st.Valid() && ct.hashes == map[] && st.hashes == map[]
    ensures |sent.random| == 32 && Confirms(ConfirmationBy(kdf, mine), Before(ct.h, a, hrr, old(ct.buffer)), hrr, sent)
    ensures ct.buffer == st.buffer == Before(ct.h, a, hrr, old(ct.buffer)) + PackServer(sent)
  {
    hide SerServerHello, ParseServerHello, WfServerHello, CanCarry, MessageHash, Confirms, Packed;
    if hrr { ct.RetryRewrite(a); st.RetryRewrite(a); }
    var server := new HelloObject(m);
    server.Apply(ConfirmationBy(kdf, theirs), st.buffer, hrr);
    sent := server.Value();
    Applied(m, sent, hrr, ConfirmationBy(kdf, theirs), st.buffer);
    var octets := SerServerHello(server.Value()).value;
    st.UpdateHash(Packed(2, Some(octets)));
    ServerHelloRoundTrip(sent, octets);
    var client := new HelloObject(ParseServerHello(octets).value);
    ok := client.Check(ConfirmationBy(kdf, mine), ct.buffer, hrr);
    ct.UpdateHash(Packed(2, Some(octets)));
  }

  lemma Applied(m: ServerHello, sent: ServerHello, hrr: bool, f: Confirmation, t: bytes)
    requires |m.random| == |sent.random| == 32 && (forall v: bytes :: |v| == 8 ==> CanCarry(m, hrr, v))
             && ConfirmationOk(f)
    requires sent == m.(random := sent.random, extensions := sent.extensions) && Confirms(f, t, hrr, sent)
    requires !hrr ==> sent.random[..24] == m.random[..24] && sent.extensions == m.extensions
    requires hrr ==> sent.random == m.random && |sent.extensions| == |m.extensions| + 1
                     && sent.extensions[..|m.extensions|] == m.extensions
                     && ENCRYPTED_CLIENT_HELLO !in TypesOf(m.extensions)
    ensures WfServerHello(sent) && SerServerHello(sent).Some?
    ensures hrr ==> Place(sent, true).Some? && |Place(sent, true).value| == 8
  {
    hide WfServerHello, SerServerHello, CanCarry;
    Sent(m, sent, hrr);
  }

  /** The whole exchange. A client that offers ECH to a server that holds the key, through a HelloRetryRequest
      or not: each check of the confirmation succeeds, and in the end both have the same transcript, which is
      that of the inner hellos. */
  method Exchange(k: Hpke.KemSuite, config: EchConfig, mine: bytes, e: bytes, o: Offer,
                  retry: Option<(ServerHello, Offer)>,
                  final: ServerHello, h: (nat, bytes) -> bytes, a: nat, kdf: (bytes, bool, bytes) -> bytes)
    returns (confirmed: Option<bool>, accepted: Option<bool>, client: Transcript, server: Transcript,
             ghost request: Option<ServerHello>, ghost sent: ServerHello)
    requires Hpke.KemOk(k) && config.publicKey == k.public(mine) && HashesOk(h) && KdfOk(kdf)
    requires Writable(First(o, config, k.public(e)), CipherOf(k, config, e).tag)
    requires retry.Some? ==>
               && Writable(Second(retry.value.1, First(o, config, k.public(e))), CipherOf(k, config, e).tag)
               && Answerable(retry.value.0, true) && (forall v: bytes :: |v| == 8 ==> CanCarry(retry.value.0, true, v))
    requires Answerable(final, false) && (forall v: bytes :: |v| == 8 ==> CanCarry(final, false, v))
    ensures retry.Some? ==> confirmed == Some(true)
    ensures accepted == Some(true) && client.buffer == server.buffer
    ensures request.Some? == retry.Some?
    ensures var first := First(o, config, k.public(e));
            var t := PackClient(InnerHello(first));
            client.buffer ==
              (if retry.None? then t
               else Before(h, a, true, t) + PackServer(request.value)
                    + PackClient(InnerHello(Second(retry.value.1, first))))
              + PackServer(sent)
  {
    hide Writable, PackClient, PackServer, CanCarry, Answerable, InnerHello, Confirms, Limit, CipherOf;
    var first := First(o, config, k.public(e));
    var inner, s, r;
    inner, s, r, client, server := OpenFirst(k, config, mine, e, o, h);
    InnerRandom(first);
    confirmed, request := None, None;
    if retry.Some? {
      ghost var asked;
      confirmed, asked := Answer(retry.value.0, true, a, kdf, first.innerRandom, inner.value.random, client, server);
      request := Some(asked);
      SomeRoom();
      inner := OpenSecond(retry.value.1, first, s, r, client, server);
      InnerRandom(Second(retry.value.1, first));
    }
    accepted, sent := Answer(final, false, a, kdf, first.innerRandom, inner.value.random, client, server);
  }

  lemma InnerRandom(o: Offer)
    ensures InnerHello(o).random == o.innerRandom
  {}
}
