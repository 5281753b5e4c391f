/** Every handler of the client keeps the invariant. */
module ClientProofs {
  import opened Wire
  import opened HandshakeCore
  import opened ClientMachine
  import opened ClientInv

  function Count(c: Client): nat { if c.f.retried then 1 else 0 }

  lemma FailKeeps(g: Config, c: Client)
    requires At(g, c)
    ensures HandlerInv(g, Fail(c))
  {
    hide Live, Log, NoncesOk;
  }

  /** Consuming a message that is hashed in every version. */
  lemma NextLog(c: Client)
    requires c.k.io.cache.Some? && Log(c.k.io, ViewOf(c), Count(c))
    ensures var m, w := c.k.io.cache.value, Next(c).io.wire;
            !IsRetry(m) && Hashed(m, c.f.version13) && !m.ClientHello? ==>
              && Log(Next(c).io, ViewOf(c), Count(c)) && Finals(w) == Finals(c.k.io.wire)
              && Ups(w, Sent) == Ups(c.k.io.wire, Sent) && Ups(w, Received) == Ups(c.k.io.wire, Received)
  {
    hide Log, Finals, Ups, IsRetry;
    var m := c.k.io.cache.value;
    if !IsRetry(m) && Hashed(m, c.f.version13) && !m.ClientHello? { ConsumeLog(c.k.io, m, true, ViewOf(c), Count(c)); }
  }

  // Hellos

  /** Before a server message the version does not matter to the transcript. */
  lemma HelloOnly(io: Io)
    requires HellosOnly(io.wire, false, Sent) && Log(io, View(false, false), 0)
    ensures Log(io, View(true, false), 0)
  {
    assert io.wire[..0] == [] && TranscriptOf([], View(true, false)) == TranscriptOf([], View(false, false));
    assert TranscriptOf(io.wire, View(true, false)) == Absorb([], io.wire[0].m, View(true, false));
  }

  lemma StartKeeps(g: Config, c: Client, o: Oracle)
    requires At(g, c) && c.state.StartConnect?
    ensures HandlerInv(g, DoStartConnect(g, c, o))
  {
    hide Descends, LiveFirst;
    assert c == NewClient();
    StartLive(g, o);
    hide Live, Opening, Log;
    AddLog(c.k.io, FirstHello(g, o), true, ViewOf(c), 0);
    LiveAt(g, DoStartConnect(g, c, o));
  }

  lemma StartLive(g: Config, o: Oracle)
    ensures LiveFirst(g, DoStartConnect(g, NewClient(), o))
  {
    hide Descends;
    WireSnoc([], Event(Sent, FirstHello(g, o)));
  }

  lemma EnterEarlyKeeps(g: Config, c: Client)
    requires At(g, c) && c.state.EnterEarlyData?
    ensures HandlerInv(g, DoEnterEarlyData(g, c))
  {
    hide Descends, Live, Log, TranscriptOf, Finals, NoncesOk, HellosOnly, Own, Ups;
    LiveAt(g, c);
    LiveAt(g, DoEnterEarlyData(g, c));
    if g.earlyData {
      var k := c.k.(keys := EarlyKeys(g, c, c.psk.value));
      InstallNonces(k, Lookup(k.keys.enc, ZeroRtt));
    }
  }

  lemma ServerHelloKeeps(g: Config, c: Client, m: Message, o: Oracle)
    requires At(g, c) && c.state.ReadServerHello? && c.k.io.cache == Some(m)
    ensures HandlerInv(g, OnServerHello(g, c, m, o))
  {
    hide Descends, Live, Log, TranscriptOf, Finals, NoncesOk, KeyTop, HellosOnly, Own, Ups, OldAnswer;
    LiveAt(g, c);
    LiveAt(g, OnServerHello(g, c, m, o));
    if !m.ServerHello? || !o.ok || (m.tls13 && !g.tls13) || (!m.tls13 && g.earlyData) { FailKeeps(g, c); }
    else if m.tls13 { HelloOnly(c.k.io); }
    else { NextLog(c); OldStart(c.k.io.wire, m); LegacyAt(g, OnServerHello(g, c, m, o)); }
  }

  lemma OldStart(w: seq<Event>, m: Message)
    requires HellosOnly(w, false, Sent) && m.ServerHello? && !m.tls13
    ensures OldAnswer(w + [Event(Received, m)])
  {}

  lemma CompatKeeps(g: Config, c: Client)
    requires At(g, c) && c.state.CompatCcs13?
    ensures HandlerInv(g, DoCompatCcs13(g, c))
  {
    hide Descends, Live, Log, TranscriptOf, Finals, NoncesOk, KeyTop, HellosOnly, Own, Ups;
    LiveAt(g, c);
    LiveAt(g, DoCompatCcs13(g, c));
  }

  lemma OwnMore(g: Config, random: nat, w: seq<Event>, e: Event)
    requires Own(g, random, w)
    ensures Own(g, random, w + [e])
  {}

  /** The retry is confirmed for the client exactly when the log says so. */
  lemma RetrySeen(g: Config, c: Client, m: Message)
    requires HellosOnly(c.k.io.wire, false, Sent) && Own(g, c.x.random, c.k.io.wire) && IsRetry(m)
    requires g.ech ==> c.inner == TranscriptOf(c.k.io.wire, View(true, true))
    ensures var w := c.k.io.wire + [Event(Received, m)];
            && AskedAgain(w, Sent) && |w| == 2 && w[0] == c.k.io.wire[0]
            && (RetryConfirmed(w) <==> g.ech && Confirms(c.x.random, Retry(c.inner, m.hash), m))
  {
    hide TranscriptOf, Confirms;
    var w := c.k.io.wire + [Event(Received, m)];
    assert w[..1] == c.k.io.wire;
  }

  lemma RetriedKeeps(g: Config, c: Client, m: Message, fresh_: nat)
    requires At(g, c) && c.state.ReadHrr13? && c.k.io.cache == Some(m) && m.ServerHello? && m.hrr
    ensures HandlerInv(g, Retried(g, WithSchedule(c, m.hash), m, fresh_))
  {
    hide Descends, Live, Log, TranscriptOf, Finals, NoncesOk, Ups, HellosOnly, Own, Confirms, RetryConfirmed,
         AskedAgain;
    LiveAt(g, c);
    LiveAt(g, Retried(g, WithSchedule(c, m.hash), m, fresh_));
    RetryLog(c.k.io, ViewOf(c), 0);
    WireSnoc(c.k.io.wire, Event(Received, m));
    RetrySeen(g, c, m);
    OwnMore(g, c.x.random, c.k.io.wire, Event(Received, m));
    var k := c.k.(io := Consume(Rewrite(c.k.io, m.hash), m, true));
    if c.f.inEarly { InstallNonces(WithSchedule(c, m.hash).k.(io := k.io), None); }
  }

  lemma HrrKeeps(g: Config, c: Client, m: Message, o: Oracle)
    requires At(g, c) && c.state.ReadHrr13? && c.k.io.cache == Some(m)
    ensures HandlerInv(g, OnHrr13(g, c, m, o))
  {
    hide Descends, Live, Log, TranscriptOf, Finals, NoncesOk, KeyTop, Retried, HellosOnly, Own, Ups, IsRetry,
         RetryConfirmed;
    LiveAt(g, c);
    LiveAt(g, OnHrr13(g, c, m, o));
    if !m.ServerHello? || Unprocessed(c.k.io) || !o.ok { FailKeeps(g, c); }
    else if m.hrr { RetriedKeeps(g, c, m, o.secret); }
    else { HelloFlight(c.k.io.wire, false, Sent); FlightTypes(c.k.io.wire, false, Sent); }
  }

  /** The second hello offers what the client holds. */
  lemma SecondSeen(w: seq<Event>, kex: map<nat, nat>, e: Event)
    requires AskedFor(w, kex) && Hello(e, Sent) && e.m.shares == kex
    ensures HellosOnly(w + [e], true, Sent) && TypesOk(w + [e], true) && Offered(w + [e], true) == kex
    ensures RetryConfirmed(w + [e]) <==> RetryConfirmed(w)
  {
    hide HellosOnly, Confirms;
    HellosMore(w, Sent, e);
    assert (w + [e])[..1] == w[..1];
  }

  lemma SecondHelloKeeps(g: Config, c: Client, o: Oracle)
    requires At(g, c) && c.state.SendSecondClientHello13?
    ensures HandlerInv(g, DoSendSecondClientHello13(g, c, o))
  {
    hide Descends, Live, Log, TranscriptOf, Finals, NoncesOk, KeyTop, Ups, HellosOnly, AskedFor, Own, RetryConfirmed,
         TypesOk, Offered;
    LiveAt(g, c);
    LiveAt(g, DoSendSecondClientHello13(g, c, o));
    var hello := SecondHello(g, c, o);
    AddLog(c.k.io, hello, true, ViewOf(c), Count(c));
    WireSnoc(c.k.io.wire, Event(Sent, hello));
    SecondSeen(c.k.io.wire, c.x.kex, Event(Sent, hello));
    OwnMore(g, c.x.random, c.k.io.wire, Event(Sent, hello));
  }

  lemma AgreedKeys(g: Config, c: Client, m: Message, share: Option<Term>, t: Transcript)
    requires ConfigOk(g) && Scheduled(g, c) && c.psk == g.psk && m.ServerHello? && ChooseSchedule(c, m).Some?
    requires c.k.keys.schedule.value.hash == m.hash
    ensures ProtectedKeys(g, m.psk, HandshakeKeys(c.k.keys, ExtractKey(ChooseSchedule(c, m).value, share), t))
  {
    if m.psk {} else {}
  }

  lemma EnterKeeps(k: Core, early: bool)
    requires Handshake in k.keys.enc && Handshake in k.keys.dec && KeyRank(k.keys.enc[Handshake]) == 2
    requires KeyTop(k.rec, 1) && NoncesOk(k.rec) && Drained(k.io) && k.io.outgoing == []
    ensures var r := EnterHandshake(k, early);
            && r.io == k.io && r.keys == k.keys && HandshakeRecords(k.keys, r.rec, early) && NoncesOk(r.rec)
            && r.rec.fault == k.rec.fault && r.rec.straddled == k.rec.straddled
  {
    InstallNonces(SetupRead(k, Handshake), Some(k.keys.enc[Handshake]));
  }

  /** What is known when the ServerHello in the cache has decided about ECH. */
  predicate Deciding(g: Config, c: Client, m: Message)
  {
    && ConfigOk(g) && c.end.Running? && Sane(c) && Starting(g, c) && Scheduled(g, c) && c.k.io.outgoing == []
    && c.k.io.cache == Some(m) && m.ServerHello? && !m.hrr && !Unprocessed(c.k.io) && (c.f.retried || m.tls13)
    && HellosOnly(c.k.io.wire, c.f.retried, Sent) && TypesOk(c.k.io.wire, c.f.retried)
    && c.x.kex == Offered(c.k.io.wire, c.f.retried)
    && (c.f.innerOn <==> Confirmed(c.k.io.wire + [Event(Received, m)], c.f.retried))
    && (g.ech && c.f.ech != Rejected ==> c.f.innerOn)
  }

  lemma ProceedKeeps(g: Config, c: Client, m: Message, s: Schedule)
    requires Deciding(g, c, m) && ProtectedKeys(g, m.psk, HandshakeKeys(c.k.keys, s, Next(c).io.transcript))
    requires m.psk ==> c.f.ech != Rejected
    requires Settled(c.k.io.wire + [Event(Received, m)], c.f.retried, DeriveSecret(s, ServerHs, Next(c).io.transcript),
                     ViewOf(c), m.psk)
    ensures HandlerInv(g, Proceed(c, s, m.psk, g.earlyData))
  {
    hide Live, Log, TranscriptOf, Finals, NoncesOk, EnterHandshake, RankedBy, StartedFrom, HellosOnly, Answering, Ups,
         Own, Settled, Confirmed, TypesOk, Offered;
    LiveAt(g, Proceed(c, s, m.psk, g.earlyData));
    NextLog(c);
    AnsweringStart(c.k.io.wire, c.f.retried, Sent, DeriveSecret(s, ServerHs, Next(c).io.transcript), ViewOf(c), m.psk,
                   Event(Received, m));
    OwnMore(g, c.x.random, c.k.io.wire, Event(Received, m));
    var k := Next(c);
    EnterKeeps(k.(keys := HandshakeKeys(k.keys, s, k.io.transcript)), g.earlyData);
  }

  /** The secrets the client derives are those its log amounts to. */
  lemma ClientSettles(g: Config, c: Client, m: Message, base: Schedule)
    requires Deciding(g, c, m) && base.hash == m.hash && KeyExchange(c, m).Some?
    ensures Settled(c.k.io.wire + [Event(Received, m)], c.f.retried,
                    DeriveSecret(ExtractKey(base, KeyExchange(c, m).value), ServerHs, Next(c).io.transcript),
                    ViewOf(c), m.psk)
  {
    hide Log, TranscriptOf, Finals, NoncesOk, KeyTop, HellosOnly, Ups, Own, Confirmed;
    NextLog(c);
    LogFaithful(Next(c).io, ViewOf(c), Count(c));
    var w := c.k.io.wire + [Event(Received, m)];
    HelloLength(c.k.io.wire, c.f.retried, Sent);
    assert Offered(w, c.f.retried) == Offered(c.k.io.wire, c.f.retried);
  }

  lemma HelloFlight(w: seq<Event>, retried: bool, mine: Direction)
    requires HellosOnly(w, retried, mine)
    ensures ServerFlight(w, retried, mine)
  {}

  lemma HelloLength(w: seq<Event>, retried: bool, mine: Direction)
    requires HellosOnly(w, retried, mine)
    ensures |w| == OpeningLength(retried)
  {}

  lemma AgreedKeeps(g: Config, c: Client, m: Message)
    requires Deciding(g, c, m)
    ensures HandlerInv(g, Agreed(g, c, m))
  {
    hide Log, NoncesOk, KeyTop, Finals, Live, ExtractKey, Proceed, ProtectedKeys, Next, HellosOnly, Settled, Confirmed,
         Own, Ups, TypesOk, Offered;
    if c.k.keys.schedule.value.hash == m.hash && ChooseSchedule(c, m).Some? && KeyExchange(c, m).Some? {
      ChosenHash(c, m);
      ClientSettles(g, c, m, ChooseSchedule(c, m).value);
      AgreedKeys(g, c, m, KeyExchange(c, m).value, Next(c).io.transcript);
      ProceedKeeps(g, c, m, ExtractKey(ChooseSchedule(c, m).value, KeyExchange(c, m).value));
    }
  }

  lemma ChosenHash(c: Client, m: Message)
    requires m.ServerHello? && ChooseSchedule(c, m).Some? && c.k.keys.schedule.Some?
             && c.k.keys.schedule.value.hash == m.hash
    ensures ChooseSchedule(c, m).value.hash == m.hash
  {}

  lemma LogFaithful(io: Io, v: View, n: nat)
    requires Log(io, v, n)
    ensures io.transcript == TranscriptOf(io.wire, v)
  {}

  /** The check of the confirmation decides as the log does. */
  lemma HelloSeen(g: Config, c: Client, m: Message)
    requires Answerable(c) && Own(g, c.x.random, c.k.io.wire) && m.ServerHello?
    requires g.ech && c.f.ech != Rejected ==> c.inner == TranscriptOf(c.k.io.wire, View(true, true))
    requires g.ech && c.f.retried ==> c.f.ech != Undecided
    ensures Confirmed(c.k.io.wire + [Event(Received, m)], c.f.retried) <==>
            g.ech && c.f.ech != Rejected && Confirms(c.x.random, c.inner, m)
  {
    hide TranscriptOf, Confirms;
    HelloLength(c.k.io.wire, c.f.retried, Sent);
    var w := c.k.io.wire + [Event(Received, m)];
    var n := OpeningLength(c.f.retried);
    assert w[..n] == c.k.io.wire && w[..1] == c.k.io.wire[..1];
  }

  /** The inner transcript takes over: it is what the wire says in the inner view. */
  lemma ServerHello13Keeps(g: Config, c: Client, m: Message, o: Oracle)
    requires At(g, c) && c.state.ReadServerHello13? && c.k.io.cache == Some(m)
    ensures HandlerInv(g, OnServerHello13(g, c, m, o))
  {
    hide Descends, Live, NoncesOk, TranscriptOf, Finals, Retries, Of, Agreed, KeyTop, HellosOnly, Confirmed, Confirms,
         Own, Ups, TypesOk, Offered, RetryConfirmed;
    LiveAt(g, c);
    if !m.ServerHello? || Unprocessed(c.k.io) || m.hrr || !o.ok || ConfirmEch(g, c, m).None? { FailKeeps(g, c); }
    else {
      HelloSeen(g, c, m);
      AgreedKeeps(g, ConfirmEch(g, c, m).value, m);
    }
  }

  // The server's flight

  lemma ProtectedMore(g: Config, c: Client)
    requires c.k.io.cache.Some? && Handshake in c.k.keys.dec
    requires Answering(c.k.io.wire, c.f.retried, Sent, c.k.keys.dec[Handshake], ViewOf(c), c.f.reused)
    requires Own(g, c.x.random, c.k.io.wire)
    ensures Own(g, c.x.random, Next(c).io.wire)
    ensures !c.k.io.cache.value.FinishedMsg? && !IsRetry(c.k.io.cache.value) ==>
              Answering(Next(c).io.wire, c.f.retried, Sent, c.k.keys.dec[Handshake], ViewOf(c), c.f.reused)
  {
    hide Answering, Own;
    var e := Event(Received, c.k.io.cache.value);
    OwnMore(g, c.x.random, c.k.io.wire, e);
    if !e.m.FinishedMsg? && !IsRetry(e.m) {
      AnsweringMore(c.k.io.wire, c.f.retried, Sent, c.k.keys.dec[Handshake], ViewOf(c), c.f.reused, e);
    }
  }

  predicate InFlight(m: Message)
  {
    m.EncryptedExtensions? || m.CertificateRequest? || m.Certificate? || m.CertificateVerify?
  }

  /** What every handler of the server's flight has in common: one message is consumed, nothing but the early-data
      answer, the checks and the write key changes. */
  lemma FlightKeeps(g: Config, c: Client, m: Message, d: Client)
    requires At(g, c) && InProtected(c.state) && c.k.io.cache == Some(m) && InFlight(m)
    requires InProtected(d.state) && !d.state.ReadEncryptedExtensions13? && d.f == c.f.(early := d.f.early)
    requires d.end.Running? && d.status == Ok && d.x == c.x
    requires d.k.io == Next(c).io && d.k.keys == c.k.keys && NoncesOk(d.k.rec) && !d.k.rec.fault && !d.k.rec.straddled
    requires Checking(g, d) && EarlyFlags(g, d.f) && Handshake in d.k.keys.enc && Handshake in d.k.keys.dec
    requires HandshakeRecords(d.k.keys, d.k.rec, d.f.early == Accepted)
    ensures HandlerInv(g, d)
  {
    hide Answering, Own, Ups, Live, Log, TranscriptOf, Finals, NoncesOk, HandshakeRecords, HandshakeShape, StartedFrom,
         Checking, EarlyFlags;
    LiveAt(g, c);
    LiveAt(g, d);
    NextLog(c);
    ProtectedMore(g, c);
  }

  lemma NextOnly(c: Client)
    requires c.k.io.cache.Some?
    ensures Next(c).keys == c.k.keys && Next(c).rec == c.k.rec && Next(c).io.outgoing == c.k.io.outgoing
  {}

  lemma NextAsked(c: Client, m: Message)
    requires c.k.io.cache.Some?
    ensures Next(Asked(c, m)) == Next(c)
  {}

  /** The handshake key takes over from the early one. */
  lemma HandshakeWrites(k: Core)
    requires Handshake in k.keys.enc && Handshake in k.keys.dec && HandshakeRecords(k.keys, k.rec, true)
    requires NoncesOk(k.rec) && KeyRank(k.keys.enc[Handshake]) == 2 && k.io.outgoing == []
    ensures var r := SetupWrite(k, Handshake);
            && r.io == k.io && r.keys == k.keys && HandshakeRecords(r.keys, r.rec, false) && NoncesOk(r.rec)
            && r.rec.fault == k.rec.fault && r.rec.straddled == k.rec.straddled
  {
    hide NoncesOk;
    InstallNonces(k, Lookup(k.keys.enc, Handshake));
  }

  /** What the handlers of that flight find. */
  lemma FlightAt(g: Config, c: Client)
    requires At(g, c) && InProtected(c.state)
    ensures NoncesOk(c.k.rec) && !c.k.rec.fault && !c.k.rec.straddled && EarlyFlags(g, c.f) && Checking(g, c)
    ensures Handshake in c.k.keys.enc && Handshake in c.k.keys.dec
    ensures c.state.ReadEncryptedExtensions13? ==>
              c.f.early == Undecided && HandshakeRecords(c.k.keys, c.k.rec, g.earlyData)
    ensures !c.state.ReadEncryptedExtensions13? ==> HandshakeRecords(c.k.keys, c.k.rec, c.f.early == Accepted)
    ensures c.end.Running? && KeyRank(c.k.keys.enc[Handshake]) == 2 && c.k.io.outgoing == []
    ensures c.k.keys.schedule.Some? && c.k.keys.schedule.value.generation == 2
  {
    hide Answering, Own, Ups, Live, Log, Finals, NoncesOk, HandshakeRecords, StartedFrom, Checking;
    LiveAt(g, c);
  }

  function EarlyRejected(c: Client): Client
    requires c.k.io.cache.Some?
  {
    GoWith(c.(f := c.f.(early := Rejected)), SetupWrite(Next(c), Handshake), ReadCertificateRequest13, Ok)
  }

  lemma EarlyRejectedKeeps(g: Config, c: Client, m: Message)
    requires At(g, c) && c.state.ReadEncryptedExtensions13? && c.k.io.cache == Some(m)
    requires m.EncryptedExtensions? && g.earlyData
    ensures HandlerInv(g, EarlyRejected(c))
  {
    hide At, HandlerInv, NoncesOk, Next, HandshakeRecords, SetupWrite;
    FlightAt(g, c);
    NextOnly(c);
    HandshakeWrites(Next(c));
    FlightKeeps(g, c, m, EarlyRejected(c));
  }

  lemma EncryptedExtensionsKeeps(g: Config, c: Client, m: Message, o: Oracle)
    requires At(g, c) && c.state.ReadEncryptedExtensions13? && c.k.io.cache == Some(m)
    ensures HandlerInv(g, OnEncryptedExtensions13(g, c, m, o))
  {
    hide Descends, HandlerInv, NoncesOk, HandshakeRecords, Next, SetupWrite;
    FlightAt(g, c);
    NextOnly(c);
    if !m.EncryptedExtensions? || !o.ok || (m.early && (!g.earlyData || c.f.retried)) {
      FailKeeps(g, c);
    } else if m.early && !c.f.reused {
      CrashKeeps(g, c);
    } else if m.early && c.f.ech == Rejected {
      FailKeeps(g, c);
    } else if m.early || !g.earlyData {
      FlightKeeps(g, c, m, OnEncryptedExtensions13(g, c, m, o));
    } else {
      EarlyRejectedKeeps(g, c, m);
    }
  }

  lemma CrashKeeps(g: Config, c: Client)
    requires At(g, c) && CrashCase(g, c)
    ensures HandlerInv(g, Crash(c))
  {
    hide Live, Log, NoncesOk;
  }

  lemma NotAskedKeeps(g: Config, c: Client, m: Message)
    requires At(g, c) && c.state.ReadCertificateRequest13? && c.k.io.cache == Some(m) && !c.f.reused
    ensures HandlerInv(g, Go(Asked(c, m), ReadServerCertificate13, Ok))
  {
    hide Answering, Own, Ups, Live, Log, Finals, NoncesOk, ProtectedKeys, HandshakeRecords;
    LiveAt(g, c);
    LiveAt(g, Go(Asked(c, m), ReadServerCertificate13, Ok));
  }

  lemma AskedFails(g: Config, c: Client, m: Message)
    requires At(g, c)
    ensures HandlerInv(g, Fail(Asked(c, m)))
  {
    hide Live, Log, NoncesOk;
  }

  lemma CertificateRequestKeeps(g: Config, c: Client, m: Message, ok: bool)
    requires At(g, c) && c.state.ReadCertificateRequest13? && c.k.io.cache == Some(m) && !c.f.reused
    ensures HandlerInv(g, Optionally(Asked(c, m), m.CertificateRequest?, ok, ReadServerCertificate13))
  {
    hide At, HandlerInv, NoncesOk, HandshakeRecords, Next, EarlyFlags;
    if !m.CertificateRequest? { NotAskedKeeps(g, c, m); }
    else if ok {
      FlightAt(g, c);
      NextOnly(Asked(c, m));
      NextAsked(c, m);
      FlightKeeps(g, c, m, Optionally(Asked(c, m), true, true, ReadServerCertificate13));
    }
    else { AskedFails(g, c, m); }
  }

  lemma CertificateKeeps(g: Config, c: Client, m: Message, o: Oracle)
    requires At(g, c) && c.state.ReadServerCertificate13? && c.k.io.cache == Some(m)
    ensures HandlerInv(g, OnServerCertificate13(g, c, m, o))
  {
    hide At, Descends, HandlerInv, NoncesOk, HandshakeRecords, Next, EarlyFlags, Rank, Awaits;
    FlightAt(g, c);
    NextOnly(c);
    if !m.Certificate? || !o.ok || (g.verify && !o.chainOk) { FailKeeps(g, c); }
    else { FlightKeeps(g, c, m, OnServerCertificate13(g, c, m, o)); }
  }

  lemma CertificateVerifyKeeps(g: Config, c: Client, m: Message, o: Oracle)
    requires At(g, c) && c.state.ReadServerCertificateVerify13? && c.k.io.cache == Some(m)
    ensures HandlerInv(g, OnServerCertificateVerify13(c, m, o))
  {
    hide At, Descends, HandlerInv, NoncesOk, HandshakeRecords, Next, EarlyFlags;
    FlightAt(g, c);
    NextOnly(c);
    if !m.CertificateVerify? || !o.ok || !o.signatureOk { FailKeeps(g, c); }
    else { FlightKeeps(g, c, m, OnServerCertificateVerify13(c, m, o)); }
  }

  lemma FinishedKeys(g: Config, reused: bool, k: Keys, at: Transcript, m: Message)
    requires ProtectedKeys(g, reused, k) && m == FinishedMsg(VerifyData(k.schedule.value.hash, k.dec[Handshake], at))
    ensures AppKeys(g, reused, ApplicationKeys(k, ExtractKey(k.schedule.value, None), at + [Msg(m)]), at, 0, 0)
  {
  }

  /** The server's Finished was accepted. */
  function FinishedTaken(c: Client): Client
    requires c.k.io.cache.Some? && c.k.keys.schedule.Some?
  {
    var k := Next(c);
    GoWith(c.(h := History(c.h.checks + [FinishedVerified], c.k.io.transcript, [], |c.k.io.wire|, 0)),
           k.(keys := ApplicationKeys(k.keys, ExtractKey(c.k.keys.schedule.value, None), k.io.transcript)),
           SendEndOfEarlyData13, Ok)
  }

  /** The log from there on: it ends in the Finished, which was over the transcript before it. */
  lemma FinishedShape(c: Client, m: Message, hs: Term)
    requires c.k.io.cache == Some(m) && Log(c.k.io, ViewOf(c), Count(c)) && hs.Expand?
    requires Answering(c.k.io.wire, c.f.retried, Sent, hs, ViewOf(c), c.f.reused)
    requires m == FinishedMsg(VerifyData(hs.hash, hs, c.k.io.transcript))
    ensures var w := Next(c).io.wire;
            && Marked(w, |c.k.io.wire|, c.k.io.transcript, c.f.retried, Sent, hs, ViewOf(c), c.f.reused)
            && Replied(w, |c.k.io.wire|, Sent) && Event(Received, m) in w
  {
    hide Marked, Answering, Log, TranscriptOf, VerifyData;
    LogFaithful(c.k.io, ViewOf(c), Count(c));
    MarkedStart(c.k.io.wire, |c.k.io.wire|, c.k.io.transcript, c.f.retried, Sent, hs, ViewOf(c), c.f.reused,
                Event(Received, m));
  }

  lemma RecordsStay(k: Keys, s: Schedule, t: Transcript, r: Rec, early: bool)
    requires Handshake in k.enc && Handshake in k.dec && HandshakeRecords(k, r, early)
    ensures var a := ApplicationKeys(k, s, t);
            && Handshake in a.enc && Handshake in a.dec && HandshakeRecords(a, r, early)
            && a.enc[Handshake] == k.enc[Handshake] && a.dec[Handshake] == k.dec[Handshake]
  {
    hide KeyTop;
  }

  lemma FlightLive(g: Config, c: Client)
    requires InProtected(c.state)
    ensures Live(g, c) <==> LiveProtected(g, c)
  {
    hide LiveProtected;
    LiveAt(g, c);
  }

  lemma ClosingLive(g: Config, c: Client)
    requires InClosing(c.state)
    ensures Live(g, c) <==> LiveClosing(g, c)
  {
    hide LiveClosing;
    LiveAt(g, c);
  }

  /** The client then has application secrets and the log shows why. */
  lemma FinishedTakenShape(g: Config, c: Client, m: Message)
    requires c.k.io.cache == Some(m) && Log(c.k.io, ViewOf(c), Count(c)) && NoUps(c.k.io.wire)
    requires ProtectedKeys(g, c.f.reused, c.k.keys) && Finals(c.k.io.wire) == []
    requires Answering(c.k.io.wire, c.f.retried, Sent, c.k.keys.dec[Handshake], ViewOf(c), c.f.reused)
    requires m == FinishedMsg(VerifyData(c.k.keys.schedule.value.hash, c.k.keys.dec[Handshake], c.k.io.transcript))
    ensures var d := FinishedTaken(c);
            && Log(d.k.io, ViewOf(d), Count(d)) && NoUps(d.k.io.wire) && Finals(d.k.io.wire) == []
            && AppKeys(g, d.f.reused, d.k.keys, d.h.at, 0, 0) && Accepts(d) && Passed(d)
            && Replied(d.k.io.wire, d.h.mark, Sent)
  {
    hide Marked, Replied, Answering, Ups, Log, Finals, StartedFrom, AppKeys, ExtractKey, VerifyData;
    NextLog(c);
    FinishedKeys(g, c.f.reused, c.k.keys, c.k.io.transcript, m);
    FinishedShape(c, m, c.k.keys.dec[Handshake]);
  }

  lemma FinishedTakenKeeps(g: Config, c: Client, m: Message)
    requires At(g, c) && c.state.ReadServerFinished13? && c.k.io.cache == Some(m) && !Unprocessed(c.k.io)
    requires c.k.keys.schedule.Some? && Handshake in c.k.keys.dec
    requires m == FinishedMsg(VerifyData(c.k.keys.schedule.value.hash, c.k.keys.dec[Handshake], c.k.io.transcript))
    ensures HandlerInv(g, FinishedTaken(c))
  {
    hide Replied, Answering, Own, NoUps, Live, Log, Finals, NoncesOk, AppKeys, ExtractKey, VerifyData,
         HandshakeRecords, ApplicationKeys, EarlyFlags, PeerChecks, Passed, Accepts, ProtectedKeys, Finishes, Shut;
    FlightLive(g, c);
    ClosingLive(g, FinishedTaken(c));
    FinishedTakenShape(g, c, m);
    FlightAt(g, c);
    RecordsStay(c.k.keys, ExtractKey(c.k.keys.schedule.value, None), Next(c).io.transcript, c.k.rec,
                c.f.early == Accepted);
  }

  lemma ServerFinishedKeeps(g: Config, c: Client, m: Message)
    requires At(g, c) && c.state.ReadServerFinished13? && c.k.io.cache == Some(m)
    ensures HandlerInv(g, OnServerFinished13(c, m))
  {
    hide At, Descends, HandlerInv, Next, VerifyData, ApplicationKeys, ExtractKey, HandshakeRecords, Checking, NoncesOk;
    FlightAt(g, c);
    if !m.FinishedMsg? || Unprocessed(c.k.io)
       || m.verify != VerifyData(c.k.keys.schedule.value.hash, c.k.keys.dec[Handshake], c.k.io.transcript) {
      FailKeeps(g, c);
    } else { FinishedTakenKeeps(g, c, m); }
  }

  // The second flight

  /** A longer log of a client with the same handshake secrets has the same beginning. */
  lemma PassedMore(c: Client, d: Client)
    requires Passed(c) && c.k.io.wire <= d.k.io.wire && ViewOf(d) == ViewOf(c) && d.f.retried == c.f.retried
    requires d.f.reused == c.f.reused && d.h.mark == c.h.mark && d.h.at == c.h.at
    requires Handshake in d.k.keys.dec && d.k.keys.dec[Handshake] == c.k.keys.dec[Handshake]
    ensures Passed(d)
  {
    hide Marked;
    MarkedLonger(c.k.io.wire, c.h.mark, c.h.at, c.f.retried, Sent, c.k.keys.dec[Handshake], ViewOf(c), c.f.reused,
                 d.k.io.wire);
  }

  lemma PassedLength(c: Client)
    requires Passed(c)
    ensures c.h.mark < |c.k.io.wire|
  {}

  lemma ShutMore(c: Client, d: Client)
    requires Shut(c) && c.k.io.wire <= d.k.io.wire && ViewOf(d) == ViewOf(c) && d.f.retried == c.f.retried
    requires d.f.reused == c.f.reused && d.h == c.h
    requires Handshake in d.k.keys.dec && d.k.keys.dec[Handshake] == c.k.keys.dec[Handshake]
    requires Handshake in d.k.keys.enc && d.k.keys.enc[Handshake] == c.k.keys.enc[Handshake]
    ensures Shut(d)
  {
    hide Passed, Closed;
    PassedMore(c, d);
    ClosedMore(c.k.io.wire, c.h.mark, c.h.last, c.h.closed, c.k.keys.enc[Handshake], ViewOf(c), d.k.io.wire);
  }

  /** One more message of the client's reply. */
  lemma ReplyMore(c: Client, e: Event)
    requires Passed(c) && Replied(c.k.io.wire, c.h.mark, Sent) && e.direction.Sent? && !e.m.FinishedMsg?
    ensures Marked(c.k.io.wire + [e], c.h.mark, c.h.at, c.f.retried, Sent, c.k.keys.dec[Handshake], ViewOf(c),
            c.f.reused)
    ensures Replied(c.k.io.wire + [e], c.h.mark, Sent)
  {
    hide Marked;
    MarkedMore(c.k.io.wire, c.h.mark, c.h.at, c.f.retried, Sent, c.k.keys.dec[Handshake], ViewOf(c), c.f.reused, e);
  }

  lemma ClosedStart(w: seq<Event>, mark: nat, closed: Transcript, hs: Term, v: View)
    requires mark < |w| && Replied(w, mark, Sent) && hs.Expand? && closed == TranscriptOf(w, v)
    ensures Closed(w + [Event(Sent, FinishedMsg(VerifyData(hs.hash, hs, closed)))], mark, |w|, closed, hs, v)
  {
    hide TranscriptOf, VerifyData;
    assert (w + [Event(Sent, FinishedMsg(VerifyData(hs.hash, hs, closed)))])[..|w|] == w;
  }

  lemma EndOfEarlyDataKeeps(g: Config, c: Client)
    requires At(g, c) && c.state.SendEndOfEarlyData13?
    ensures HandlerInv(g, DoSendEndOfEarlyData13(c))
  {
    hide Marked, Closed, Replied, Descends, Live, Log, NoncesOk, KeyTop, AppKeys, VerifyData, Ups;
    LiveAt(g, c);
    LiveAt(g, DoSendEndOfEarlyData13(c));
    AddLog(c.k.io, EndOfEarlyData, true, ViewOf(c), Count(c));
    ReplyMore(c, Event(Sent, EndOfEarlyData));
  }

  lemma AcceptedExtensionsKeeps(g: Config, c: Client, o: Oracle)
    requires At(g, c) && c.state.SendClientEncryptedExtensions13? && c.f.early == Accepted
    ensures HandlerInv(g, DoSendClientEncryptedExtensions13(c, o))
  {
    hide Marked, Closed, Replied, TranscriptOf, Finals, Of, Retries, Descends, Live, Log, NoncesOk, StartedFrom,
         VerifyData, AppSecret, Ups, Generation;
    LiveAt(g, c);
    LiveAt(g, DoSendClientEncryptedExtensions13(c, o));
    InstallNonces(c.k, Lookup(c.k.keys.enc, Handshake));
  }

  lemma ClientExtensionsKeeps(g: Config, c: Client, o: Oracle)
    requires At(g, c) && c.state.SendClientEncryptedExtensions13?
    ensures HandlerInv(g, DoSendClientEncryptedExtensions13(c, o))
  {
    hide Marked, Closed, Replied, TranscriptOf, Finals, Of, Retries, Descends, Live, Log, NoncesOk, VerifyData, AppKeys,
         Ups;
    if c.f.early == Accepted { AcceptedExtensionsKeeps(g, c, o); }
    else {
      LiveAt(g, c);
      LiveAt(g, DoSendClientEncryptedExtensions13(c, o));
      AddLog(c.k.io, EncryptedExtensions(o.data, false), true, ViewOf(c), Count(c));
      ReplyMore(c, Event(Sent, EncryptedExtensions(o.data, false)));
    }
  }

  /** The messages of a client certificate enter the log like all others. */
  lemma SendCertificateLog(c: Client, k: Core, o: Oracle)
    requires Log(k.io, ViewOf(c), Count(c))
    ensures var r := SendCertificate(k, o);
            && Ups(r.io.wire, Sent) == Ups(k.io.wire, Sent) && Ups(r.io.wire, Received) == Ups(k.io.wire, Received)
            && Log(r.io, ViewOf(c), Count(c)) && (forall e <- k.io.wire :: e in r.io.wire)
            && k.io.wire <= r.io.wire && (forall mark :: Replied(k.io.wire, mark, Sent) ==>
               Replied(r.io.wire, mark, Sent))
            && r == k.(io := r.io) && Finals(r.io.wire) == Finals(k.io.wire)
            && r.io.cache == k.io.cache && r.io.incoming == k.io.incoming && r.io.partial == k.io.partial
  {
    hide TranscriptOf, Log, Finals, Ups;
    AddLog(k.io, Certificate(o.data), true, ViewOf(c), Count(c));
    AddLog(Put(k, Certificate(o.data)).io, CertificateVerify(o.data), true, ViewOf(c), Count(c));
  }

  lemma ClientCertificateKeeps(g: Config, c: Client, o: Oracle)
    requires At(g, c) && c.state.SendClientCertificate13?
    ensures HandlerInv(g, DoSendClientCertificate13(c, o))
  {
    hide Marked, Closed, Replied, Descends, Live, Log, NoncesOk, KeyTop, AppKeys, VerifyData, SendCertificate, Finals,
         Ups;
    LiveAt(g, c);
    LiveAt(g, DoSendClientCertificate13(c, o));
    SendCertificateLog(c, c.k, o);
    PassedMore(c, DoSendClientCertificate13(c, o));
  }

  function FinishedSent(c: Client): Client
    requires c.k.keys.schedule.Some? && Handshake in c.k.keys.enc
  {
    var v := VerifyData(c.k.keys.schedule.value.hash, c.k.keys.enc[Handshake], c.k.io.transcript);
    GoWith(c.(h := c.h.(closed := c.k.io.transcript, last := |c.k.io.wire|)), Put(c.k, FinishedMsg(v)),
           CompleteSecondFlight13, FlushHandshake)
  }

  /** The client's Finished is over the transcript before it. */
  lemma FinishedSentShape(g: Config, c: Client)
    requires c.k.keys.schedule.Some? && Handshake in c.k.keys.enc && Log(c.k.io, ViewOf(c), Count(c))
    requires AppKeys(g, c.f.reused, c.k.keys, c.h.at, 0, 0) && Passed(c) && Replied(c.k.io.wire, c.h.mark, Sent)
    requires Finals(c.k.io.wire) == []
    ensures var d := FinishedSent(c); Log(d.k.io, ViewOf(d), Count(d)) && Finishes(d) && Shut(d)
    ensures Ups(FinishedSent(c).k.io.wire, Sent) == Ups(c.k.io.wire, Sent)
    ensures Ups(FinishedSent(c).k.io.wire, Received) == Ups(c.k.io.wire, Received)
    ensures forall e <- c.k.io.wire :: e in FinishedSent(c).k.io.wire
  {
    hide Marked, Closed, Replied, Log, StartedFrom, VerifyData, AppSecret, Ups, Generation, Finals;
    var v := VerifyData(c.k.keys.schedule.value.hash, c.k.keys.enc[Handshake], c.k.io.transcript);
    AddLog(c.k.io, FinishedMsg(v), true, ViewOf(c), Count(c));
    LogFaithful(c.k.io, ViewOf(c), Count(c));
    PassedMore(c, FinishedSent(c));
    PassedLength(c);
    ClosedStart(c.k.io.wire, c.h.mark, c.k.io.transcript, c.k.keys.enc[Handshake], ViewOf(c));
  }

  lemma ClientFinishedKeeps(g: Config, c: Client)
    requires At(g, c) && c.state.SendClientFinished13?
    ensures HandlerInv(g, DoSendClientFinished13(c))
  {
    hide Marked, Closed, Replied, Descends, Live, Log, NoncesOk, KeyTop, StartedFrom, VerifyData, AppSecret, Ups,
         Generation, Finals, Finishes, Shut, Passed;
    ClosingLive(g, c);
    ClosingLive(g, FinishedSent(c));
    FinishedSentShape(g, c);
  }

  lemma CompleteKeeps(g: Config, c: Client)
    requires At(g, c) && c.state.CompleteSecondFlight13?
    ensures HandlerInv(g, DoCompleteSecondFlight13(c))
  {
    hide Marked, Closed, Replied, Descends, Live, Log, NoncesOk, StartedFrom, VerifyData, Ups;
    LiveAt(g, c);
    LiveAt(g, DoCompleteSecondFlight13(c));
    ReadNonces(c.k, Lookup(c.k.keys.dec, ApplicationData));
    InstallNonces(SetupRead(c.k, ApplicationData), Lookup(c.k.keys.enc, ApplicationData));
  }

  lemma FinishKeeps(g: Config, c: Client)
    requires At(g, c) && c.state.FinishClientHandshake?
    ensures HandlerInv(g, DoFinishClientHandshake(c))
  {
    hide Marked, Closed, Replied, Descends, Live, Log, NoncesOk, AppKeys, VerifyData, Ups;
    LiveAt(g, c);
    LiveAt(g, DoFinishClientHandshake(c));
  }

  // After the handshake

  lemma AppRank(g: Config, reused: bool, k: Keys, at: Transcript, sent: nat, received: nat)
    requires AppKeys(g, reused, k, at, sent, received)
    ensures KeyRank(k.enc[ApplicationData]) == 3 + sent
    ensures k.enc[ApplicationData].Expand?
    ensures k.enc[ApplicationData].tag == ClientAp || k.enc[ApplicationData].tag == TrafficUpd
  {
    hide StartedFrom;
    GenerationRank(k.schedule.value.hash, AppSecret(k.dec[Handshake], ClientAp, at), sent);
  }

  lemma UpdateWriteKeeps(g: Config, reused: bool, k: Core, at: Transcript, sent: nat, received: nat)
    requires AppKeys(g, reused, k.keys, at, sent, received) && FinalRecords(k.keys, k.rec) && NoncesOk(k.rec)
    requires k.io.outgoing == []
    ensures var r := UpdateWrite(k);
            && AppKeys(g, reused, r.keys, at, sent + 1, received) && FinalRecords(r.keys, r.rec) && NoncesOk(r.rec)
            && r.rec.fault == k.rec.fault && r.rec.straddled == k.rec.straddled
            && r.keys.enc == k.keys.enc[ApplicationData := r.keys.enc[ApplicationData]] && r.keys.dec == k.keys.dec
  {
    hide NoncesOk, AppSecret, StartedFrom;
    var key := UpdSecret(k.keys.schedule.value.hash, k.keys.enc[ApplicationData]);
    AppRank(g, reused, k.keys, at, sent, received);
    InstallNonces(k.(keys := k.keys.(enc := k.keys.enc[ApplicationData := key])), Some(key));
  }

  lemma UpdateReadKeeps(g: Config, reused: bool, k: Core, at: Transcript, sent: nat, received: nat)
    requires AppKeys(g, reused, k.keys, at, sent, received) && FinalRecords(k.keys, k.rec) && NoncesOk(k.rec)
             && Drained(k.io)
    ensures var r := UpdateRead(k);
            && AppKeys(g, reused, r.keys, at, sent, received + 1) && FinalRecords(r.keys, r.rec) && NoncesOk(r.rec)
            && r.rec.fault == k.rec.fault && r.rec.straddled == k.rec.straddled
            && r.keys.dec == k.keys.dec[ApplicationData := r.keys.dec[ApplicationData]] && r.keys.enc == k.keys.enc
  {
    hide AppSecret, StartedFrom;
  }

  lemma CompleteUpdateKeeps(g: Config, c: Client)
    requires At(g, c) && c.state.CompleteUpdateTraffic?
    ensures HandlerInv(g, DoCompleteUpdateTraffic(c))
  {
    hide Marked, Closed, Replied, Descends, Live, Log, NoncesOk, VerifyData, AppSecret, StartedFrom, Generation,
         FinalRecords, Ups;
    LiveAt(g, c);
    LiveAt(g, DoCompleteUpdateTraffic(c));
    UpdateWriteKeeps(g, c.f.reused, c.k, c.h.at, Ups(c.k.io.wire, Sent) - 1, Ups(c.k.io.wire, Received));
  }

  lemma AnswerLog(c: Client, o: Oracle)
    requires c.k.io.cache.Some? && c.k.io.cache.value.CertificateRequest? && c.k.keys.schedule.Some?
    requires ApplicationData in c.k.keys.enc && Log(c.k.io, ViewOf(c), Count(c))
    ensures var r := AnswerRequest(c, o);
            && c.k.io.wire <= r.io.wire && Log(r.io, ViewOf(c), Count(c)) && r == c.k.(io := r.io)
            && (forall e <- c.k.io.wire :: e in r.io.wire)
            && Ups(r.io.wire, Sent) == Ups(c.k.io.wire, Sent) && Ups(r.io.wire, Received) == Ups(c.k.io.wire, Received)
            && exists t :: Finals(r.io.wire) ==
                 Finals(c.k.io.wire) + [VerifyData(c.k.keys.schedule.value.hash, c.k.keys.enc[ApplicationData], t)]
  {
    hide Replied, Log, VerifyData, SendCertificate, Ups;
    NextLog(c);
    SendCertificateLog(c, Next(c), o);
    var k := SendCertificate(Next(c), o);
    var v := VerifyData(k.keys.schedule.value.hash, k.keys.enc[ApplicationData], k.io.transcript);
    AddLog(k.io, FinishedMsg(v), true, ViewOf(c), Count(c));
  }

  lemma AnswerFinals(g: Config, c: Client, o: Oracle, sent: nat, received: nat)
    requires c.k.io.cache.Some? && c.k.io.cache.value.CertificateRequest? && Log(c.k.io, ViewOf(c), Count(c))
    requires AppKeys(g, c.f.reused, c.k.keys, c.h.at, sent, received) && Finishes(c)
    ensures Finishes(c.(k := AnswerRequest(c, o)))
  {
    hide Log, SendCertificate, AnswerRequest, Finals, StartedFrom, DeriveSecret, AppSecret, Ups, Generation;
    AnswerLog(c, o);
    var r := AnswerRequest(c, o);
    var t :| Finals(r.io.wire) ==
             Finals(c.k.io.wire) + [VerifyData(c.k.keys.schedule.value.hash, c.k.keys.enc[ApplicationData], t)];
    AppRank(g, c.f.reused, c.k.keys, c.h.at, sent, received);
  }

  /** A key update or a ticket is consumed without being hashed. */
  lemma UnhashedLog(c: Client)
    requires c.k.io.cache.Some? && (c.k.io.cache.value.KeyUpdate? || c.k.io.cache.value.SessionTicket?) && c.f.version13
    requires Log(c.k.io, ViewOf(c), Count(c))
    ensures var w := NextUnhashed(c).io.wire;
            && Log(NextUnhashed(c).io, ViewOf(c), Count(c)) && Finals(w) == Finals(c.k.io.wire)
            && Ups(w, Sent) == Ups(c.k.io.wire, Sent)
            && Ups(w, Received) == Ups(c.k.io.wire, Received) + (if c.k.io.cache.value.KeyUpdate? then 1 else 0)
  {
    hide Log, Finals, Ups;
    ConsumeLog(c.k.io, c.k.io.cache.value, false, ViewOf(c), Count(c));
  }

  /** The new reading key is in use. */
  function UpdateTaken(c: Client): Client
    requires c.k.io.cache.Some? && c.k.keys.schedule.Some? && ApplicationData in c.k.keys.dec
  {
    GoWith(c, UpdateRead(NextUnhashed(c)), ReadPostHandshake, Ok)
  }

  lemma UpdateTakenKeeps(g: Config, c: Client, m: Message)
    requires At(g, c) && c.state.ReadPostHandshake? && c.k.io.cache == Some(m) && c.f.version13 && m.KeyUpdate?
    requires !Unprocessed(c.k.io)
    ensures c.k.keys.schedule.Some? && ApplicationData in c.k.keys.dec && HandlerInv(g, UpdateTaken(c))
  {
    hide Shut, HandshakeShape, TranscriptOf, Of, Retries, Live, Log, NoncesOk, VerifyData, AppSecret, StartedFrom,
         FinalRecords, Finals, Ups, Generation;
    LiveAt(g, c);
    LiveAt(g, UpdateTaken(c));
    UnhashedLog(c);
    UpdateReadKeeps(g, c.f.reused, NextUnhashed(c), c.h.at, Ups(c.k.io.wire, Sent), Ups(c.k.io.wire, Received));
    ShutMore(c, UpdateTaken(c));
  }

  /** An answer is queued, to leave under the old writing key. */
  function UpdateAnswered(c: Client): Client
  {
    GoWith(c, WriteKeyUpdate(c.k, false), CompleteUpdateTraffic, PackFlight)
  }

  lemma UpdateAnsweredKeeps(g: Config, c: Client)
    requires HandlerInv(g, c) && c.end.Running? && c.state.ReadPostHandshake? && c.f.version13
    ensures HandlerInv(g, UpdateAnswered(c))
  {
    hide Shut, AppKeys, TranscriptOf, Of, Retries, Live, Log, NoncesOk, VerifyData, FinalRecords, Finals, Ups;
    LiveAt(g, c);
    LiveAt(g, UpdateAnswered(c));
    AddLog(c.k.io, KeyUpdate(false), false, ViewOf(c), Count(c));
    ShutMore(c, UpdateAnswered(c));
  }

  lemma KeyUpdateKeeps(g: Config, c: Client, m: Message, o: Oracle)
    requires At(g, c) && c.state.ReadPostHandshake? && c.k.io.cache == Some(m) && c.f.version13 && m.KeyUpdate?
    ensures HandlerInv(g, OnPostHandshake(g, c, m, o))
  {
    hide At, HandlerInv, NextUnhashed, UpdateRead, WriteKeyUpdate;
    FinalKeys(g, c);
    if Unprocessed(c.k.io) { FailKeeps(g, c); }
    else {
      UpdateTakenKeeps(g, c, m);
      if m.requested { UpdateAnsweredKeeps(g, UpdateTaken(c)); }
    }
  }

  lemma FinalKeys(g: Config, c: Client)
    requires At(g, c) && c.state.ReadPostHandshake? && c.f.version13
    ensures c.end.Running? && c.k.keys.schedule.Some? && c.k.keys.schedule.value.generation == 3
    ensures ApplicationData in c.k.keys.enc && ApplicationData in c.k.keys.dec
  {
    hide Live, Log, NoncesOk, VerifyData, AppSecret, StartedFrom, FinalRecords, Finals, Ups, Generation, Marked, Closed;
    LiveAt(g, c);
  }

  lemma PostHandshakeKeeps(g: Config, c: Client, m: Message, o: Oracle)
    requires At(g, c) && c.state.ReadPostHandshake? && c.k.io.cache == Some(m)
    ensures HandlerInv(g, OnPostHandshake(g, c, m, o))
  {
    hide Shut, Live, Log, NoncesOk, VerifyData, AppSecret, StartedFrom, FinalRecords, AnswerRequest, UpdateRead, Finals,
         Ups, Generation;
    LiveAt(g, c);
    LiveAt(g, OnPostHandshake(g, c, m, o));
    if c.f.version13 && m.KeyUpdate? { KeyUpdateKeeps(g, c, m, o); }
    else if c.f.version13 && m.SessionTicket? && o.ok {
      UnhashedLog(c);
      ShutMore(c, OnPostHandshake(g, c, m, o));
    }
    else if c.f.version13 && m.CertificateRequest? && g.pha && o.ok {
      AnswerLog(c, o);
      AnswerFinals(g, c, o, Ups(c.k.io.wire, Sent), Ups(c.k.io.wire, Received));
      ShutMore(c, OnPostHandshake(g, c, m, o));
    }
    else { FailKeeps(g, c); }
  }
}
