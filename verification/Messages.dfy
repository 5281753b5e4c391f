/** Message formats of src/simple_tls/tls/extensions.py and src/simple_tls/tls/messages.py. */
module Messages {
  import opened Bits
  import opened Wire

  /** One raw extension: its type and its body. */
  type Ext = (nat, bytes)

  datatype ClientHello = ClientHello(
    version: nat, random: bytes, sessionId: bytes,
    cipherSuites: seq<nat>, compressionMethods: seq<nat>, extensions: seq<Ext>)

  datatype ServerHello = ServerHello(
    version: nat, random: bytes, sessionId: bytes,
    cipherSuite: nat, compressionMethod: nat, extensions: seq<Ext>)

  datatype CertificateEntry = CertificateEntry(certificate: bytes, extensions: seq<Ext>)
  datatype CertificateTls13 = CertificateTls13(context: bytes, entries: seq<CertificateEntry>)

  datatype PskIdentity = PskIdentity(identity: bytes, obfuscatedTicketAge: nat)
  datatype PskExtension = PskExtension(identities: seq<PskIdentity>, binders: seq<bytes>)

  datatype EchConfig = EchConfig(
    configId: nat, kemId: nat, publicKey: bytes, cipherSuites: seq<(nat, nat)>,
    maximumNameLength: nat, publicName: bytes, extensions: seq<Ext>)

  // Extension lists

  predicate UniqueTypes(exts: seq<Ext>)
  {
    forall i, j :: 0 <= i < j < |exts| ==> exts[i].0 != exts[j].0
  }

  function ExtC(): Codec<Ext> { PairC(IntC(2), BlobC(2)) }

  /** Extensions.parse rejects a repeated type; Extensions.write does not look. */
  function ExtensionsC(): Codec<seq<Ext>> { CheckC(ListC(ExtC(), 2), UniqueTypes, false) }

  lemma ExtLawful()
    ensures Lawful(ExtC()) && Productive(ExtC())
  {
    IntLawful(2); BlobLawful(2);
    PairLawful(IntC(2), BlobC(2));
  }

  lemma ExtensionsLawful()
    ensures Lawful(ExtensionsC()) && Productive(ExtensionsC())
  {
    ExtLawful();
    ListLawful(ExtC(), 2);
    CheckLawful(ListC(ExtC(), 2), UniqueTypes, false);
  }

  // Hellos: a fixed head, then extensions only when something follows

  function IntListC(itemSize: nat, prefix: nat): Codec<seq<nat>> { ListC(IntC(itemSize), prefix) }

  function SessionIdC(): Codec<bytes> { CheckC(BlobC(1), (b: bytes) => |b| <= 32, true) }

  type ClientHead = (nat, (bytes, (bytes, (seq<nat>, seq<nat>))))
  type ServerHead = (nat, (bytes, (bytes, (nat, nat))))

  function ClientHeadC(): Codec<ClientHead>
  {
    PairC(IntC(2), PairC(FixedC(32), PairC(SessionIdC(), PairC(IntListC(2, 2), IntListC(1, 1)))))
  }

  function ServerHeadC(): Codec<ServerHead>
  {
    PairC(IntC(2), PairC(FixedC(32), PairC(SessionIdC(), PairC(IntC(2), IntC(1)))))
  }

  lemma SessionIdLawful()
    ensures Lawful(SessionIdC()) && Productive(SessionIdC())
  {
    BlobLawful(1);
    CheckLawful(BlobC(1), (b: bytes) => |b| <= 32, true);
  }

  lemma ClientHeadLawful()
    ensures Lawful(ClientHeadC())
  {
    IntLawful(2); IntLawful(1); FixedLawful(32); SessionIdLawful();
    ListLawful(IntC(2), 2); ListLawful(IntC(1), 1);
    PairLawful(IntListC(2, 2), IntListC(1, 1));
    PairLawful(SessionIdC(), PairC(IntListC(2, 2), IntListC(1, 1)));
    PairLawful(FixedC(32), PairC(SessionIdC(), PairC(IntListC(2, 2), IntListC(1, 1))));
    PairLawful(IntC(2), PairC(FixedC(32), PairC(SessionIdC(), PairC(IntListC(2, 2), IntListC(1, 1)))));
  }

  lemma ServerHeadLawful()
    ensures Lawful(ServerHeadC())
  {
    IntLawful(2); IntLawful(1); FixedLawful(32); SessionIdLawful();
    PairLawful(IntC(2), IntC(1));
    PairLawful(SessionIdC(), PairC(IntC(2), IntC(1)));
    PairLawful(FixedC(32), PairC(SessionIdC(), PairC(IntC(2), IntC(1))));
    PairLawful(IntC(2), PairC(FixedC(32), PairC(SessionIdC(), PairC(IntC(2), IntC(1)))));
  }

  /** A head followed by a block `e` of items that is left out when there are none. */
  function ParseTailed<H, T>(head: Codec<H>, e: Codec<seq<T>>, s: bytes): (r: Option<((H, seq<T>), bytes)>)
  {
    match head.parse(s)
    case None => None
    case Some((h, s1)) =>
      if s1 == [] then Some(((h, []), s1)) else
      match e.parse(s1)
      case None => None
      case Some((items, s2)) => Some(((h, items), s2))
  }

  function SerTailed<H, T>(head: Codec<H>, e: Codec<seq<T>>, h: H, items: seq<T>): (r: Option<bytes>)
  {
    Join(head.ser(h), if |items| > 0 then e.ser(items) else Some([]))
  }

  lemma TailedReads<H(!new), T(!new)>(head: Codec<H>, e: Codec<seq<T>>, h: H, items: seq<T>, rest: bytes)
    requires Lawful(head) && head.wf(h) && Lawful(e) && Productive(e) && e.wf(items)
    requires SerTailed(head, e, h, items).Some?
    requires items != [] || rest == []
    ensures ParseTailed(head, e, SerTailed(head, e, h, items).value + rest) == Some(((h, items), rest))
  {
    var sh := head.ser(h).value;
    if items == [] {
      assert sh + [] + rest == sh + rest;
      assert Reads(head, h, rest);
    } else {
      var se := e.ser(items).value;
      assert sh + se + rest == sh + (se + rest);
      assert Reads(head, h, se + rest) && Reads(e, items, rest);
    }
  }

  /** Accepted octets are re-serialised to themselves, except that an explicit empty block is dropped. */
  lemma TailedWrites<H(!new), T(!new)>(head: Codec<H>, e: Codec<seq<T>>, s: bytes)
    requires Lawful(head) && Lawful(e) && ParseTailed(head, e, s).Some?
    ensures var ((h, items), rest) := ParseTailed(head, e, s).value;
            && head.wf(h) && (items != [] ==> e.wf(items)) && SerTailed(head, e, h, items).Some?
            && (|| s == SerTailed(head, e, h, items).value + rest
                || (items == [] && e.ser([]).Some?
                    && s == SerTailed(head, e, h, items).value + e.ser([]).value + rest))
  {
    var (h, s1) := head.parse(s).value;
    assert Writes(head, s);
    var sh := head.ser(h).value;
    assert sh + [] == sh;
    if s1 != [] {
      var (items, s2) := e.parse(s1).value;
      assert Writes(e, s1);
      assert sh + (e.ser(items).value + s2) == sh + e.ser(items).value + s2;
    }
  }

  function ParseHello<H>(head: Codec<H>, s: bytes): (r: Option<((H, seq<Ext>), bytes)>)
  {
    ParseTailed(head, ExtensionsC(), s)
  }

  function SerHello<H>(head: Codec<H>, h: H, exts: seq<Ext>): (r: Option<bytes>)
  {
    SerTailed(head, ExtensionsC(), h, exts)
  }

  lemma HelloReads<H(!new)>(head: Codec<H>, h: H, exts: seq<Ext>, rest: bytes)
    requires Lawful(head) && head.wf(h) && ExtensionsC().wf(exts)
    requires SerHello(head, h, exts).Some?
    requires exts != [] || rest == []
    ensures ParseHello(head, SerHello(head, h, exts).value + rest) == Some(((h, exts), rest))
  {
    ExtensionsLawful();
    TailedReads(head, ExtensionsC(), h, exts, rest);
  }

  lemma EmptyBlock()
    ensures ExtensionsC().ser([]) == Some([0, 0]) && ExtensionsC().wf([])
  {
    assert IntToBytes(0, 2) == IntToBytes(0, 1) + [0];
    assert IntToBytes(0, 1) == IntToBytes(0, 0) + [0];
    assert SerItems(ExtC(), []) == Some([]);
    assert IntToBytes(0, 2) == [0, 0];
    assert ListC(ExtC(), 2).ser([]) == PutBlock([], 2) == Some(IntToBytes(0, 2) + []);
    assert IntToBytes(0, 2) + [] == [0, 0];
  }

  lemma HelloWrites<H(!new)>(head: Codec<H>, s: bytes)
    requires Lawful(head) && ParseHello(head, s).Some?
    ensures var ((h, exts), rest) := ParseHello(head, s).value;
            && head.wf(h) && ExtensionsC().wf(exts) && SerHello(head, h, exts).Some?
            && (s == SerHello(head, h, exts).value + rest
                || (exts == [] && s == SerHello(head, h, exts).value + [0, 0] + rest))
  {
    ExtensionsLawful(); EmptyBlock();
    TailedWrites(head, ExtensionsC(), s);
  }

  function ClientHeadOf(m: ClientHello): ClientHead
  {
    (m.version, (m.random, (m.sessionId, (m.cipherSuites, m.compressionMethods))))
  }

  function ParseClientHello(s: bytes): (r: Option<(ClientHello, bytes)>)
  {
    match ParseHello(ClientHeadC(), s)
    case None => None
    case Some((((v, (r, (sid, (cs, cm)))), exts), rest)) => Some((ClientHello(v, r, sid, cs, cm, exts), rest))
  }

  function SerClientHello(m: ClientHello): (r: Option<bytes>)
  {
    SerHello(ClientHeadC(), ClientHeadOf(m), m.extensions)
  }

  /** What a parsed hello always satisfies. */
  predicate WfClientHello(m: ClientHello)
  {
    UniqueTypes(m.extensions) && |m.sessionId| <= 32
  }

  lemma {:induction false} ExtsWf(exts: seq<Ext>)
    ensures AllWf(ExtC(), exts)
  {
    if exts != [] { ExtsWf(exts[1..]); }
  }

  lemma {:induction false} IntsWf(size: nat, s: seq<nat>)
    ensures AllWf(IntC(size), s)
  {
    if s != [] { IntsWf(size, s[1..]); }
  }

  lemma ClientHelloWf(m: ClientHello)
    ensures WfClientHello(m) <==> ClientHeadC().wf(ClientHeadOf(m)) && ExtensionsC().wf(m.extensions)
  {
    ExtsWf(m.extensions);
    IntsWf(2, m.cipherSuites); IntsWf(1, m.compressionMethods);
    var c1 := PairC(IntListC(2, 2), IntListC(1, 1));
    assert c1.wf((m.cipherSuites, m.compressionMethods));
    var c2 := PairC(SessionIdC(), c1);
    assert c2.wf((m.sessionId, (m.cipherSuites, m.compressionMethods))) <==> |m.sessionId| <= 32;
    var c3 := PairC(FixedC(32), c2);
    assert c3.wf((m.random, (m.sessionId, (m.cipherSuites, m.compressionMethods)))) <==> |m.sessionId| <= 32;
    assert ClientHeadC() == PairC(IntC(2), c3);
    assert ExtensionsC().wf(m.extensions) <==> UniqueTypes(m.extensions);
  }

  lemma ClientHelloReads(m: ClientHello, rest: bytes)
    requires WfClientHello(m) && SerClientHello(m).Some?
    requires m.extensions != [] || rest == []
    ensures ParseClientHello(SerClientHello(m).value + rest) == Some((m, rest))
  {
    ClientHeadLawful(); ClientHelloWf(m);
    HelloReads(ClientHeadC(), ClientHeadOf(m), m.extensions, rest);
  }

  lemma ClientHelloWrites(s: bytes)
    requires ParseClientHello(s).Some?
    ensures var (m, rest) := ParseClientHello(s).value;
            && WfClientHello(m) && SerClientHello(m).Some?
            && (s == SerClientHello(m).value + rest
                || (m.extensions == [] && s == SerClientHello(m).value + [0, 0] + rest))
  {
    ClientHeadLawful();
    HelloWrites(ClientHeadC(), s);
    ClientHelloWf(ParseClientHello(s).value.0);
  }

  function ServerHeadOf(m: ServerHello): ServerHead
  {
    (m.version, (m.random, (m.sessionId, (m.cipherSuite, m.compressionMethod))))
  }

  function ParseServerHello(s: bytes): (r: Option<ServerHello>)
  {
    match ParseHello(ServerHeadC(), s)
    case None => None
    case Some((((v, (r, (sid, (c, m)))), exts), rest)) =>
      if rest == [] then Some(ServerHello(v, r, sid, c, m, exts)) else None
  }

  function SerServerHello(m: ServerHello): (r: Option<bytes>)
  {
    SerHello(ServerHeadC(), ServerHeadOf(m), m.extensions)
  }

  predicate WfServerHello(m: ServerHello)
  {
    ServerHeadC().wf(ServerHeadOf(m)) && ExtensionsC().wf(m.extensions)
  }

  lemma ServerHelloRoundTrip(m: ServerHello, s: bytes)
    ensures WfServerHello(m) && SerServerHello(m) == Some(s) ==> ParseServerHello(s) == Some(m)
    ensures ParseServerHello(s) == Some(m) ==>
              && WfServerHello(m) && SerServerHello(m).Some?
              && (s == SerServerHello(m).value || (m.extensions == [] && s == SerServerHello(m).value + [0, 0]))
  {
    hide ServerHeadC, ExtensionsC, ParseTailed, SerTailed;
    ServerHeadLawful();
    if WfServerHello(m) && SerServerHello(m) == Some(s) {
      HelloReads(ServerHeadC(), ServerHeadOf(m), m.extensions, []);
      assert s + [] == s;
    }
    if ParseServerHello(s) == Some(m) {
      HelloWrites(ServerHeadC(), s);
      var ((h, exts), rest) := ParseHello(ServerHeadC(), s).value;
      assert SerHello(ServerHeadC(), h, exts).value + [] == SerHello(ServerHeadC(), h, exts).value;
      assert SerHello(ServerHeadC(), h, exts).value + [0, 0] + [] == SerHello(ServerHeadC(), h, exts).value + [0, 0];
    }
  }

  // TLS 1.3 certificates

  function EntryC(): Codec<CertificateEntry>
  {
    MapC(PairC(BlobC(3), ExtensionsC()),
         (p: (bytes, seq<Ext>)) => CertificateEntry(p.0, p.1),
         (e: CertificateEntry) => (e.certificate, e.extensions))
  }

  function CertificateC(): Codec<CertificateTls13>
  {
    MapC(PairC(BlobC(1), ListC(EntryC(), 3)),
         (p: (bytes, seq<CertificateEntry>)) => CertificateTls13(p.0, p.1),
         (m: CertificateTls13) => (m.context, m.entries))
  }

  lemma EntryLawful()
    ensures Lawful(EntryC()) && Productive(EntryC())
  {
    BlobLawful(3); ExtensionsLawful();
    PairLawful(BlobC(3), ExtensionsC());
    MapLawful(PairC(BlobC(3), ExtensionsC()),
              (p: (bytes, seq<Ext>)) => CertificateEntry(p.0, p.1),
              (e: CertificateEntry) => (e.certificate, e.extensions));
  }

  lemma CertificateLawful()
    ensures Lawful(CertificateC())
  {
    BlobLawful(1); EntryLawful(); ListLawful(EntryC(), 3);
    PairLawful(BlobC(1), ListC(EntryC(), 3));
    MapLawful(PairC(BlobC(1), ListC(EntryC(), 3)),
              (p: (bytes, seq<CertificateEntry>)) => CertificateTls13(p.0, p.1),
              (m: CertificateTls13) => (m.context, m.entries));
  }

  // Pre-shared keys

  function NonEmptyC(prefix: nat, writerChecks: bool): Codec<bytes>
  {
    CheckC(BlobC(prefix), (b: bytes) => b != [], writerChecks)
  }

  function IdentityC(): Codec<PskIdentity>
  {
    MapC(PairC(NonEmptyC(2, true), IntC(4)),
         (p: (bytes, nat)) => PskIdentity(p.0, p.1),
         (i: PskIdentity) => (i.identity, i.obfuscatedTicketAge))
  }

  predicate Paired(p: PskExtension) { |p.identities| == |p.binders| && p.identities != [] }

  function PskRawC(): Codec<PskExtension>
  {
    MapC(PairC(ListC(IdentityC(), 2), ListC(NonEmptyC(1, true), 2)),
         (p: (seq<PskIdentity>, seq<bytes>)) => PskExtension(p.0, p.1),
         (x: PskExtension) => (x.identities, x.binders))
  }

  function PskC(): Codec<PskExtension> { CheckC(PskRawC(), Paired, true) }

  lemma NonEmptyLawful(prefix: nat, writerChecks: bool)
    requires prefix > 0
    ensures Lawful(NonEmptyC(prefix, writerChecks)) && Productive(NonEmptyC(prefix, writerChecks))
  {
    BlobLawful(prefix);
    CheckLawful(BlobC(prefix), (b: bytes) => b != [], writerChecks);
  }

  lemma IdentityLawful()
    ensures Lawful(IdentityC()) && Productive(IdentityC())
  {
    NonEmptyLawful(2, true); IntLawful(4);
    PairLawful(NonEmptyC(2, true), IntC(4));
    MapLawful(PairC(NonEmptyC(2, true), IntC(4)),
              (p: (bytes, nat)) => PskIdentity(p.0, p.1),
              (i: PskIdentity) => (i.identity, i.obfuscatedTicketAge));
  }

  lemma PskLawful()
    ensures Lawful(PskC())
  {
    IdentityLawful(); NonEmptyLawful(1, true);
    ListLawful(IdentityC(), 2); ListLawful(NonEmptyC(1, true), 2);
    PairLawful(ListC(IdentityC(), 2), ListC(NonEmptyC(1, true), 2));
    MapLawful(PairC(ListC(IdentityC(), 2), ListC(NonEmptyC(1, true), 2)),
              (p: (seq<PskIdentity>, seq<bytes>)) => PskExtension(p.0, p.1),
              (x: PskExtension) => (x.identities, x.binders));
    CheckLawful(PskRawC(), Paired, true);
  }

  // ECH configurations

  const ECH_VERSION := 65037

  type EchBody = (nat, (nat, (bytes, (seq<(nat, nat)>, (nat, (bytes, seq<Ext>))))))

  function EchBodyC(): Codec<EchBody>
  {
    PairC(IntC(1), PairC(IntC(2), PairC(NonEmptyC(2, false), PairC(EchSuitesC(),
      PairC(IntC(1), PairC(NonEmptyC(1, false), ExtensionsC()))))))
  }

  function EchSuitesC(): Codec<seq<(nat, nat)>>
  {
    CheckC(ListC(PairC(IntC(2), IntC(2)), 2), (s: seq<(nat, nat)>) => s != [], false)
  }

  function EchConfigC(): Codec<EchConfig>
  {
    MapC(CheckC(PairC(IntC(2), BlockC(EchBodyC(), 2)), (p: (nat, EchBody)) => p.0 == ECH_VERSION, false),
         (p: (nat, EchBody)) => EchOf(p.1),
         (c: EchConfig) => (ECH_VERSION, BodyOf(c)))
  }

  function EchOf(b: EchBody): EchConfig
  {
    EchConfig(b.0, b.1.0, b.1.1.0, b.1.1.1.0, b.1.1.1.1.0, b.1.1.1.1.1.0, b.1.1.1.1.1.1)
  }

  function BodyOf(c: EchConfig): EchBody
  {
    (c.configId, (c.kemId, (c.publicKey, (c.cipherSuites, (c.maximumNameLength, (c.publicName, c.extensions))))))
  }

  lemma EchBodyLawful()
    ensures Lawful(EchBodyC())
  {
    IntLawful(1); IntLawful(2); NonEmptyLawful(2, false); NonEmptyLawful(1, false); ExtensionsLawful();
    PairLawful(IntC(2), IntC(2));
    ListLawful(PairC(IntC(2), IntC(2)), 2);
    CheckLawful(ListC(PairC(IntC(2), IntC(2)), 2), (s: seq<(nat, nat)>) => s != [], false);
    var c1 := PairC(NonEmptyC(1, false), ExtensionsC());
    PairLawful(NonEmptyC(1, false), ExtensionsC());
    var c2 := PairC(IntC(1), c1);
    PairLawful(IntC(1), c1);
    var c3 := PairC(EchSuitesC(), c2);
    PairLawful(EchSuitesC(), c2);
    var c4 := PairC(NonEmptyC(2, false), c3);
    PairLawful(NonEmptyC(2, false), c3);
    PairLawful(IntC(2), c4);
    PairLawful(IntC(1), PairC(IntC(2), c4));
  }

  lemma EchConfigLawful()
    ensures Lawful(EchConfigC())
  {
    hide EchBodyC, IntC, ParseBlock, ParsePair, PutBlock, Join;
    EchBodyLawful(); BlockLawful(EchBodyC(), 2); IntLawful(2);
    var p := PairC(IntC(2), BlockC(EchBodyC(), 2));
    PairLawful(IntC(2), BlockC(EchBodyC(), 2));
    var k := CheckC(p, (p: (nat, EchBody)) => p.0 == ECH_VERSION, false);
    CheckLawful(p, (p: (nat, EchBody)) => p.0 == ECH_VERSION, false);
    var m := EchConfigC();
    forall c: EchConfig, rest: bytes | m.wf(c) && m.ser(c).Some? ensures Reads(m, c, rest) {
      assert Reads(k, (ECH_VERSION, BodyOf(c)), rest);
    }
    forall s: bytes | m.parse(s).Some? ensures Writes(m, s) {
      assert Writes(k, s);
      var (v, rest) := k.parse(s).value;
      assert v == (ECH_VERSION, BodyOf(EchOf(v.1)));
    }
  }
}
