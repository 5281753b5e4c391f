/** The client's dispatch loop, and what holds over its whole runs. */
module ClientRuns {
  import opened Wire
  import opened HandshakeCore
  import opened ClientMachine
  import opened ClientInv
  import opened ClientProofs

  // TLS 1.2 handlers: they only pass messages on until keys are installed

  lemma ExpectKeeps(g: Config, c: Client, ok: bool, next: ClientState, st: Status)
    requires At(g, c) && InLegacy(c.state) && c.k.io.cache.Some?
    requires ok ==> !IsRetry(c.k.io.cache.value) && Hashed(c.k.io.cache.value, false)
    requires ok ==> !c.k.io.cache.value.ClientHello?
    requires ok && InLegacy(next) ==> LiveLegacy(c.(state := next, status := st))
    requires ok ==> InLegacy(next) || next.FinishClientHandshake?
    requires !MayPend(c.state) && st != EarlyReturn
    ensures HandlerInv(g, Expect(c, ok, next, st))
  {
    hide Live, Log, NoncesOk;
    NextLog(c);
    LegacyAt(g, c);
    if ok && InLegacy(next) { LegacyAt(g, Expect(c, ok, next, st)); }
    else if ok { LiveAt(g, Expect(c, ok, next, st)); }
  }

  lemma LegacyMessageKeeps(g: Config, c: Client, m: Message, o: Oracle)
    requires At(g, c) && Awaits(g, c) && InLegacy(c.state) && c.k.io.cache == Some(m)
    ensures HandlerInv(g, OnMessage12(g, c, m, o))
  {
    hide Live, Log, NoncesOk, Descends, Expect;
    LegacyAt(g, c);
    match c.state {
      case ReadServerKeyExchange => ExpectKeeps(g, c, m.ServerKeyExchange? && o.ok, ReadCertificateRequest, Ok);
      case ReadServerHelloDone => ExpectKeeps(g, c, m.ServerHelloDone? && o.ok, SendClientCertificate, Ok);
      case ReadSessionTicket =>
        ExpectKeeps(g, c, m.SessionTicket? && o.ok, ProcessChangeCipherSpec, ReadChangeCipherSpec);
      case ReadServerFinished =>
        ExpectKeeps(g, c, m.FinishedMsg? && o.ok,
                    if c.f.reused then SendChangeCipherSpec else FinishClientHandshake, Ok);
      case ReadServerCertificate => LegacyCertificateKeeps(g, c, m, o);
      case ReadCertificateStatus => LegacyOptionalKeeps(g, c, c, m.CertificateStatus?, o.ok, ReadServerKeyExchange);
      case ReadCertificateRequest =>
        LegacyOptionalKeeps(g, c, Asked(c, m), m.CertificateRequest?, o.ok, ReadServerHelloDone);
      case _ =>
    }
  }

  lemma LegacyCertificateKeeps(g: Config, c: Client, m: Message, o: Oracle)
    requires At(g, c) && c.state.ReadServerCertificate? && c.k.io.cache == Some(m)
    ensures HandlerInv(g, OnServerCertificate(g, c, m, o))
  {
    hide Live, Log, NoncesOk, Descends, Ups, Finals;
    LegacyAt(g, c);
    if !m.Certificate? || !o.ok || (g.verify && !o.chainOk) {}
    else {
      NextLog(c);
      LegacyAt(g, OnServerCertificate(g, c, m, o));
    }
  }

  lemma LegacyOptionalKeeps(g: Config, c: Client, p: Client, present: bool, ok: bool, next: ClientState)
    requires At(g, c) && c.k.io.cache.Some? && !MayPend(c.state)
    requires (c.state.ReadCertificateStatus? && next.ReadServerKeyExchange?)
             || (c.state.ReadCertificateRequest? && next.ReadServerHelloDone?)
    requires p == c.(l := p.l) && p.l.traffic == c.l.traffic
    requires present ==> c.k.io.cache.value.CertificateStatus? || c.k.io.cache.value.CertificateRequest?
    ensures HandlerInv(g, Optionally(p, present, ok, next))
  {
    hide At, HandlerInv, Next;
    AwareKeeps(g, c, p);
    if !present { LegacyGo(g, p, next, Ok); }
    else if !ok { FailKeeps(g, p); }
    else { LegacyTaken(g, p, next); }
  }

  /** Notes about the peer do not matter to the invariant. */
  lemma AwareKeeps(g: Config, c: Client, p: Client)
    requires At(g, c) && InLegacy(c.state) && p == c.(l := p.l) && p.l.traffic == c.l.traffic
    ensures At(g, p)
  {
    hide Live, Log, NoncesOk, Finals;
    LegacyAt(g, c);
    LegacyAt(g, p);
  }

  lemma LegacyTaken(g: Config, c: Client, next: ClientState)
    requires At(g, c) && c.k.io.cache.Some? && !MayPend(c.state)
    requires (c.state.ReadCertificateStatus? && next.ReadServerKeyExchange?)
             || (c.state.ReadCertificateRequest? && next.ReadServerHelloDone?)
    requires c.k.io.cache.value.CertificateStatus? || c.k.io.cache.value.CertificateRequest?
    ensures HandlerInv(g, GoWith(c, Next(c), next, Ok))
  {
    hide Live, Log, NoncesOk, Finals;
    LegacyAt(g, c);
    NextLog(c);
    LegacyAt(g, GoWith(c, Next(c), next, Ok));
  }

  lemma LegacyCertificateSent(g: Config, c: Client, o: Oracle)
    requires At(g, c) && c.state.SendClientCertificate?
    ensures HandlerInv(g, DoSendClientCertificate(c, o))
  {
    hide Live, Log, NoncesOk, Descends, Ups, Finals;
    LegacyAt(g, c);
    LegacyAt(g, DoSendClientCertificate(c, o));
    AddLog(c.k.io, Certificate(o.data), true, ViewOf(c), Count(c));
  }

  lemma LegacyExchangeSent(g: Config, c: Client, o: Oracle)
    requires At(g, c) && c.state.SendClientKeyExchange?
    ensures HandlerInv(g, DoSendClientKeyExchange(c, o))
  {
    hide Live, Log, NoncesOk, Descends, Ups, Finals;
    LegacyAt(g, c);
    if o.ok {
      LegacyAt(g, DoSendClientKeyExchange(c, o));
      AddLog(c.k.io, ClientKeyExchange(o.data), true, ViewOf(c), Count(c));
    }
  }

  lemma LegacyVerifySent(g: Config, c: Client, o: Oracle)
    requires At(g, c) && c.state.SendClientCertificateVerify?
    ensures HandlerInv(g, DoSendClientCertificateVerify(c, o))
  {
    hide Live, Log, NoncesOk, Descends, Ups, Finals;
    LegacyAt(g, c);
    LegacyAt(g, DoSendClientCertificateVerify(c, o));
    AddLog(c.k.io, CertificateVerify(o.data), true, ViewOf(c), Count(c));
  }

  /** The write key is installed twice, but nothing was sealed before either time. */
  lemma LegacyWriteKey(g: Config, c: Client)
    requires At(g, c) && c.state.SendChangeCipherSpec?
    ensures HandlerInv(g, DoSendChangeCipherSpec(c))
  {
    hide Live, Log, NoncesOk, Descends, Ups, Finals;
    LegacyAt(g, c);
    LegacyAt(g, DoSendChangeCipherSpec(c));
    InstallNonces(c.k, Some(c.l.traffic.value.0));
  }

  lemma LegacyFinishedSent(g: Config, c: Client, o: Oracle)
    requires At(g, c) && c.state.SendClientFinished?
    ensures HandlerInv(g, DoSendClientFinished(c, o))
  {
    hide Live, Log, NoncesOk, Descends, Ups, Finals;
    LegacyAt(g, c);
    LegacyAt(g, DoSendClientFinished(c, o));
    var k := InstallWrite(c.k, Some(c.l.traffic.value.0));
    InstallNonces(c.k, Some(c.l.traffic.value.0));
    AddLog(k.io, NextProtocol(o.data), true, ViewOf(c), Count(c));
    var k1 := if o.optional then Put(k, NextProtocol(o.data)) else k;
    AddLog(k1.io, FinishedMsg(Atom(o.secret)), true, ViewOf(c), Count(c));
  }

  lemma LegacyReadKey(g: Config, c: Client)
    requires At(g, c) && c.state.ProcessChangeCipherSpec?
    ensures HandlerInv(g, DoProcessChangeCipherSpec(c))
  {
    hide Live, Log, NoncesOk, Descends, Ups, Finals;
    LegacyAt(g, c);
    LegacyAt(g, DoProcessChangeCipherSpec(c));
    ReadNonces(c.k, Some(c.l.traffic.value.1));
  }

  lemma LegacyFlight(g: Config, c: Client)
    requires At(g, c) && c.state.FinishFlight?
    ensures HandlerInv(g, DoFinishFlight(c))
  {
    hide Live, Log, NoncesOk, Descends, Ups, Finals;
    LegacyAt(g, c);
    if c.f.reused { LiveAt(g, DoFinishFlight(c)); } else { LegacyAt(g, DoFinishFlight(c)); }
  }

  // Dispatch

  /** The handlers that skip their message. */
  predicate Skips(s: ClientState)
  {
    || s.EnterEarlyDataCompat? || s.ReadServerCertificate? || s.ReadCertificateStatus? || s.ReadServerKeyExchange?
    || s.ReadCertificateRequest? || s.ReadSessionTicket? || s.ReadCertificateRequest13? || s.ProcessUpdateTraffic?
  }

  /** A TLS 1.2 handler that only goes on. */
  lemma LegacyGo(g: Config, c: Client, next: ClientState, st: Status)
    requires At(g, c) && InLegacy(c.state) && InLegacy(next) && !MayPend(c.state) && st != EarlyReturn
    requires Unsealed(next, c.f.reused) ==> Unsealed(c.state, c.f.reused)
    requires !c.state.SendClientFinished? && !next.SendClientFinished?
    requires HasTraffic(next) ==> HasTraffic(c.state) || c.f.reused
    ensures HandlerInv(g, Go(c, next, st))
  {
    hide Live, Log, NoncesOk, Finals;
    LegacyAt(g, c);
    LegacyAt(g, Go(c, next, st));
  }

  lemma SkipLegacy(g: Config, c: Client, o: Oracle)
    requires At(g, c) && !Awaits(g, c) && Skips(c.state) && InLegacy(c.state)
    ensures HandlerInv(g, OnQuiet(g, c, o)) && Descends(c, OnQuiet(g, c, o))
  {
    hide At, HandlerInv, OnQuiet, Descends;
    SkipGoes(g, c, o);
    match c.state
    case ReadServerCertificate =>
      LegacyGo(g, c, if c.f.reused then ReadSessionTicket else ReadServerKeyExchange, Ok);
    case ReadCertificateStatus => LegacyGo(g, c, ReadServerKeyExchange, Ok);
    case ReadServerKeyExchange => LegacyGo(g, c, ReadCertificateRequest, Ok);
    case ReadCertificateRequest => LegacyGo(g, c, ReadServerHelloDone, Ok);
    case _ => LegacyGo(g, c, ProcessChangeCipherSpec, ReadChangeCipherSpec);
  }

  lemma SkipGoes(g: Config, c: Client, o: Oracle)
    requires !Awaits(g, c) && Skips(c.state) && InLegacy(c.state)
    ensures OnQuiet(g, c, o) ==
            match c.state
            case ReadServerCertificate => Go(c, if c.f.reused then ReadSessionTicket else ReadServerKeyExchange, Ok)
            case ReadCertificateStatus => Go(c, ReadServerKeyExchange, Ok)
            case ReadServerKeyExchange => Go(c, ReadCertificateRequest, Ok)
            case ReadCertificateRequest => Go(c, ReadServerHelloDone, Ok)
            case _ => Go(c, ProcessChangeCipherSpec, ReadChangeCipherSpec)
    ensures Descends(c, OnQuiet(g, c, o))
  {
    hide Unread, DoSendClientCertificate;
  }

  lemma SkipFinal(g: Config, c: Client, o: Oracle)
    requires At(g, c) && c.state.ProcessUpdateTraffic?
    ensures HandlerInv(g, OnQuiet(g, c, o)) && Descends(c, OnQuiet(g, c, o))
  {
    hide Marked, Closed, Live, Log, NoncesOk, Finals, AppKeys, FinalRecords, Unread, VerifyData, OwnFinals;
    LiveAt(g, c);
    LiveAt(g, OnQuiet(g, c, o));
  }

  lemma SkipKeeps(g: Config, c: Client, o: Oracle)
    requires At(g, c) && !Awaits(g, c) && Skips(c.state) && !InLegacy(c.state) && !InFinal(c.state)
    ensures HandlerInv(g, OnQuiet(g, c, o)) && Descends(c, OnQuiet(g, c, o))
  {
    hide Marked, Closed, Replied, HellosOnly, Answering, AskedAgain, AskedFor, TypesOk, Offered, Own, Ups,
         RetryConfirmed, Live, Log, NoncesOk, KeyTop, Finals, TranscriptOf, ProtectedKeys, Unread;
    LiveAt(g, c);
    LiveAt(g, OnQuiet(g, c, o));
    match c.state
    case EnterEarlyDataCompat =>
    case _ =>
  }

  lemma QuietKeeps(g: Config, c: Client, o: Oracle)
    requires At(g, c) && HasHandler(c.state) && !Awaits(g, c)
    ensures HandlerInv(g, OnQuiet(g, c, o)) && Descends(c, OnQuiet(g, c, o))
  {
    hide At, HandlerInv, Descends, DoStartConnect, DoEnterEarlyData, DoSendClientCertificate, DoSendClientKeyExchange,
         DoSendClientCertificateVerify, DoSendChangeCipherSpec, DoSendClientFinished, DoFinishFlight,
         DoProcessChangeCipherSpec, DoCompatCcs13, DoSendSecondClientHello13, DoSendEndOfEarlyData13,
         DoSendClientEncryptedExtensions13, DoSendClientCertificate13, DoSendClientFinished13, DoCompleteSecondFlight13,
         DoFinishClientHandshake, DoCompleteUpdateTraffic;
    if Skips(c.state) && InLegacy(c.state) { SkipLegacy(g, c, o); }
    else if c.state.ProcessUpdateTraffic? { SkipFinal(g, c, o); }
    else if Skips(c.state) { SkipKeeps(g, c, o); }
    else {
      match c.state
      case StartConnect => StartKeeps(g, c, o);
      case EnterEarlyData => EnterEarlyKeeps(g, c);
      case SendClientCertificate => LegacyCertificateSent(g, c, o);
      case SendClientKeyExchange => LegacyExchangeSent(g, c, o);
      case SendClientCertificateVerify => LegacyVerifySent(g, c, o);
      case SendChangeCipherSpec => LegacyWriteKey(g, c);
      case SendClientFinished => LegacyFinishedSent(g, c, o);
      case FinishFlight => LegacyFlight(g, c);
      case ProcessChangeCipherSpec => LegacyReadKey(g, c);
      case CompatCcs13 => CompatKeeps(g, c);
      case SendSecondClientHello13 => SecondHelloKeeps(g, c, o);
      case SendEndOfEarlyData13 => EndOfEarlyDataKeeps(g, c);
      case SendClientEncryptedExtensions13 => ClientExtensionsKeeps(g, c, o);
      case SendClientCertificate13 => ClientCertificateKeeps(g, c, o);
      case SendClientFinished13 => ClientFinishedKeeps(g, c);
      case CompleteSecondFlight13 => CompleteKeeps(g, c);
      case FinishClientHandshake => FinishKeeps(g, c);
      case _ => CompleteUpdateKeeps(g, c);
    }
  }

  lemma MessageKeeps(g: Config, c: Client, m: Message, o: Oracle)
    requires At(g, c) && Awaits(g, c) && Awaits13(c.state) && c.k.io.cache == Some(m)
    ensures HandlerInv(g, OnMessage13(g, c, m, o)) && Descends(c, OnMessage13(g, c, m, o))
  {
    hide At, HandlerInv, Descends, OnServerHello, OnHrr13, OnServerHello13, OnEncryptedExtensions13,
         OnServerCertificate13, OnServerCertificateVerify13, OnServerFinished13, OnPostHandshake, Optionally;
    match c.state
    case ReadServerHello => ServerHelloKeeps(g, c, m, o);
    case ReadHrr13 => HrrKeeps(g, c, m, o); HrrDescends(g, c, m, o);
    case ReadServerHello13 => ServerHello13Keeps(g, c, m, o); ServerHello13Descends(g, c, m, o);
    case ReadEncryptedExtensions13 => EncryptedExtensionsKeeps(g, c, m, o);
    case ReadCertificateRequest13 => CertificateRequestKeeps(g, c, m, o.ok); CertificateRequestDescends(g, c, m, o.ok);
    case ReadServerCertificate13 => CertificateKeeps(g, c, m, o);
    case ReadServerCertificateVerify13 => CertificateVerifyKeeps(g, c, m, o);
    case ReadServerFinished13 => ServerFinishedKeeps(g, c, m);
    case _ => PostHandshakeKeeps(g, c, m, o); PostHandshakeDescends(g, c, m, o);
  }

  lemma CertificateRequestDescends(g: Config, c: Client, m: Message, ok: bool)
    requires c.state.ReadCertificateRequest13? && c.k.io.cache == Some(m)
    ensures Descends(c, Optionally(Asked(c, m), m.CertificateRequest?, ok, ReadServerCertificate13))
  {
    hide Unread, Consume;
  }

  lemma LegacyDescends(g: Config, c: Client, m: Message, o: Oracle)
    requires Awaits(g, c) && !Awaits13(c.state) && c.k.io.cache == Some(m)
    ensures Descends(c, OnMessage12(g, c, m, o))
  {
    hide Unread, Consume, OnServerCertificate;
  }

  lemma HrrDescends(g: Config, c: Client, m: Message, o: Oracle)
    requires c.state.ReadHrr13? && c.k.io.cache == Some(m)
    ensures Descends(c, OnHrr13(g, c, m, o))
  {
    hide Retried, Unread;
  }

  lemma ServerHello13Descends(g: Config, c: Client, m: Message, o: Oracle)
    requires c.state.ReadServerHello13? && c.k.io.cache == Some(m)
    ensures Descends(c, OnServerHello13(g, c, m, o))
  {
    hide Agreed, Unread, ConfirmEch;
  }

  lemma PostHandshakeDescends(g: Config, c: Client, m: Message, o: Oracle)
    requires c.state.ReadPostHandshake? && c.k.io.cache == Some(m)
    ensures Descends(c, OnPostHandshake(g, c, m, o))
  {
    hide UpdateRead, VerifyData, Consume;
  }

  /** Looking at the next message changes nothing the invariant speaks of. */
  lemma PeekKeeps(g: Config, c: Client)
    requires At(g, c) && Awaits(g, c)
    ensures At(g, Peeked(c)) && Awaits(g, Peeked(c))
  {
    hide Marked, Closed, Replied, HellosOnly, Answering, AskedAgain, AskedFor, TypesOk, Offered, Own, Ups,
         RetryConfirmed, Live, Log, NoncesOk, KeyTop, Finals, TranscriptOf, ProtectedKeys, AppKeys, FinalRecords,
         VerifyData, OwnFinals;
    PeekLog(c.k.io, ViewOf(c), Count(c));
    var d := Peeked(c);
    if InLegacy(c.state) { LegacyAt(g, c); LegacyAt(g, d); } else { LiveAt(g, c); LiveAt(g, d); }
  }

  /** Every handler call keeps the invariant, whatever the peer sent and whatever the foreign
      checks answer, and unless it waits it lowers the rank or uses up a message. */
  lemma StepKeeps(g: Config, c: Client, o: Oracle)
    requires At(g, c) && HasHandler(c.state)
    ensures HandlerInv(g, Step(g, c, o)) && Descends(c, Step(g, c, o))
  {
    hide OnQuiet, OnMessage12, OnMessage13, At, HandlerInv, Descends, Peeked;
    if !Awaits(g, c) { QuietKeeps(g, c, o); }
    else {
      PeekKeeps(g, c);
      var p := Peeked(c);
      PeekSame(c);
      if p.k.io.cache.None? { WaitKeeps(g, p); WaitDescends(g, c, p); }
      else if Awaits13(p.state) {
        MessageKeeps(g, p, p.k.io.cache.value, o);
        DescendsFrom(c, p, OnMessage13(g, p, p.k.io.cache.value, o));
      } else {
        AwaitsLegacy(g, p);
        LegacyMessageKeeps(g, p, p.k.io.cache.value, o);
        LegacyDescends(g, p, p.k.io.cache.value, o);
        DescendsFrom(c, p, OnMessage12(g, p, p.k.io.cache.value, o));
      }
    }
  }

  lemma AwaitsLegacy(g: Config, c: Client)
    requires Awaits(g, c) && !Awaits13(c.state)
    ensures InLegacy(c.state)
  {}

  lemma PeekSame(c: Client)
    ensures Peeked(c).state == c.state && Peeked(c).f == c.f && Unread(Peeked(c).k.io) == Unread(c.k.io)
  {}

  lemma DescendsFrom(c: Client, p: Client, d: Client)
    requires Descends(p, d) && p.state == c.state && p.f == c.f && Unread(p.k.io) == Unread(c.k.io)
    ensures Descends(c, d)
  {
    hide Rank, Unread;
  }

  function Waits(p: Client): Client
  {
    if p.state.ReadPostHandshake? then Go(p, Done, Ok) else Go(p, p.state, ReadHandshake)
  }

  lemma WaitKeeps(g: Config, p: Client)
    requires At(g, p) && Awaits(g, p)
    ensures HandlerInv(g, Waits(p))
  {
    hide Marked, Closed, Replied, HellosOnly, Answering, Own, Ups, Finals, Live, Log, NoncesOk, Unread, AppKeys, KeyTop;
    if p.state.ReadPostHandshake? { QuietDone(g, p); }
    else if InLegacy(p.state) { LegacyAt(g, p); LegacyAt(g, Go(p, p.state, ReadHandshake)); }
    else { StatusLive(g, p, ReadHandshake); }
  }

  lemma WaitDescends(g: Config, c: Client, p: Client)
    requires p.state == c.state && p.f == c.f && Unread(p.k.io) == Unread(c.k.io) && Awaits(g, p)
    ensures Descends(c, Waits(p))
  {
    hide Unread;
  }

  lemma QuietDone(g: Config, c: Client)
    requires Live(g, c) && c.state.ReadPostHandshake?
    ensures Live(g, Go(c, Done, Ok))
  {
    hide Live, AppKeys, FinalRecords, VerifyData, OwnFinals, Finals;
    LiveAt(g, c);
    LiveAt(g, Go(c, Done, Ok));
  }

  /** Outside the second flight and TLS 1.2 the status is not part of the invariant. */
  lemma StatusLive(g: Config, c: Client, st: Status)
    requires Live(g, c) && !InLegacy(c.state) && !InClosing(c.state) && !c.state.StartConnect?
    ensures Live(g, Go(c, c.state, st))
  {
    hide Marked, Closed, Replied, HellosOnly, Answering, AskedAgain, AskedFor, TypesOk, Offered, Own, Ups,
         RetryConfirmed, Live, AppKeys, FinalRecords, ProtectedKeys, HandshakeRecords, VerifyData, OwnFinals, Finals,
         TranscriptOf, KeyTop;
    LiveAt(g, c);
    LiveAt(g, Go(c, c.state, st));
  }

  // Actions

  /** Records sealed under the current key touch nothing but the nonces. */
  lemma SealedLive(g: Config, c: Client, k: Core)
    requires Live(g, c) && !c.state.SendClientFinished? && !c.state.StartConnect?
    requires k.io == c.k.io.(outgoing := []) && k.keys == c.k.keys && Sealed(c.k.rec, k.rec)
    ensures Live(g, c.(k := k))
  {
    hide Marked, Closed, Replied, HellosOnly, Answering, AskedAgain, AskedFor, TypesOk, Offered, Own, Ups,
         RetryConfirmed, Live, NoncesOk, Finals, TranscriptOf, ProtectedKeys, AppKeys, VerifyData, OwnFinals, RankedBy;
    var d := c.(k := k);
    if InLegacy(c.state) { LegacyAt(g, c); LegacyAt(g, d); }
    else { LiveAt(g, c); LiveAt(g, d); }
  }

  lemma SealedKeeps(g: Config, c: Client, k: Core)
    requires HandlerInv(g, c) && !c.state.SendClientFinished? && !c.state.StartConnect?
    requires k.io == c.k.io.(outgoing := []) && k.keys == c.k.keys && Sealed(c.k.rec, k.rec)
    ensures Inv(g, c.(k := k))
  {
    hide Live, NoncesOk, KeyTop, TranscriptOf, Retries, Of;
    if c.end.Running? { SealedLive(g, c, k); }
  }

  /** Acting on the status keeps the invariant and leaves nothing pending. */
  lemma SettleKeeps(g: Config, d: Client, records: nat)
    requires HandlerInv(g, d) && !(d.end.Running? && d.state.StartConnect?)
    ensures Inv(g, Settle(d, records))
  {
    hide Live, Log, NoncesOk, Pack, SendAlert, Sealed;
    if d.end.Running? && (d.status == PackFlight || d.status == FlushHandshake) {
      if d.state.SendClientFinished? { LegacyAt(g, d); } else { SealedKeeps(g, d, Pack(d.k, records)); }
    } else if d.end.Alerted? { AlertKeeps(g, d, records); }
  }

  lemma AlertKeeps(g: Config, d: Client, records: nat)
    requires HandlerInv(g, d) && d.end.Alerted?
    ensures Inv(g, d.(k := SendAlert(d.k, records)))
  {
    hide Live, NoncesOk, KeyTop, TranscriptOf, Retries, Of, SendAlert;
  }

  lemma FeedKeeps(g: Config, c: Client, ms: seq<Message>, partial: bool)
    requires At(g, c) && Enabled(c, Deliver(ms, partial))
    ensures Inv(g, Apply(g, c, Deliver(ms, partial)))
  {
    hide Live, Log, NoncesOk;
    FeedLog(c.k.io, ms, partial, ViewOf(c), Count(c));
    FeedLive(g, c, Apply(g, c, Deliver(ms, partial)));
  }

  lemma FeedLive(g: Config, c: Client, d: Client)
    requires Live(g, c) && (c.status == ReadHandshake || c.state.Done?)
    requires d.k == c.k.(io := d.k.io) && d.k.io.wire == c.k.io.wire && d.k.io.cache == c.k.io.cache
    requires d == c.(k := d.k, status := Ok, state := if c.state.Done? then ReadPostHandshake else c.state)
    ensures Live(g, d)
  {
    hide Marked, Closed, Replied, HellosOnly, Answering, AskedAgain, AskedFor, TypesOk, Offered, Own, Ups,
         RetryConfirmed, Live, NoncesOk, Finals, TranscriptOf, ProtectedKeys, AppKeys, VerifyData, OwnFinals, KeyTop,
         Drained;
    if c.state.StartConnect? { NotWaiting(g, c); }
    else if InLegacy(c.state) { LegacyAt(g, c); LegacyAt(g, d); }
    else { LiveAt(g, c); LiveAt(g, d); }
  }

  lemma NotWaiting(g: Config, c: Client)
    requires Live(g, c) && c.state.StartConnect?
    ensures c.status == Ok && c == NewClient()
  {}

  lemma SendKeeps(g: Config, c: Client, n: nat)
    requires At(g, c) && Idle(c)
    ensures Inv(g, c.(k := SendAlert(c.k, n)))
  {
    hide Live, Log, NoncesOk, SendAlert, Sealed;
    if c.state.StartConnect? {
      NotWaiting(g, c);
      NothingToSend(n);
    } else if c.state.SendClientFinished? { LegacyAt(g, c); }
    else { SealedKeeps(g, c, SendAlert(c.k, n)); }
  }

  lemma NothingToSend(n: nat)
    ensures SendAlert(NewCore(), n) == NewCore()
  {}

  lemma RequestKeeps(g: Config, c: Client, r: bool)
    requires Enabled(c, RequestUpdate(r)) && At(g, c)
    ensures Inv(g, Apply(g, c, RequestUpdate(r)))
  {
    hide Shut, Live, Log, NoncesOk, Finals, TranscriptOf, AppKeys, VerifyData, KeyTop, LiveFirst, LiveDecide,
         LiveSecond, LiveProtected, LiveClosing;
    LiveAt(g, c);
    AddLog(c.k.io, KeyUpdate(r), false, ViewOf(c), Count(c));
    ShutMore(c, Apply(g, c, RequestUpdate(r)));
    LiveAt(g, Apply(g, c, RequestUpdate(r)));
  }

  lemma CcsKeeps(g: Config, c: Client)
    requires At(g, c) && c.status == ReadChangeCipherSpec
    ensures Inv(g, c.(status := Ok))
  {
    hide Live, Log, NoncesOk;
    if c.state.StartConnect? { NotWaiting(g, c); }
    else if InLegacy(c.state) { LegacyAt(g, c); LegacyAt(g, c.(status := Ok)); }
    else {
      LiveAt(g, c);
      if InClosing(c.state) { LiveAt(g, c.(status := Ok)); }
      else { StatusLive(g, c, Ok); assert Go(c, c.state, Ok) == c.(status := Ok); }
    }
  }

  /** The invariant is inductive: every action of the connection keeps it. */
  lemma ApplyKeeps(g: Config, c: Client, a: Action)
    requires At(g, c) && Enabled(c, a)
    ensures Inv(g, Apply(g, c, a))
  {
    hide At, Inv, Step, Settle;
    match a
    case Handle(o) =>
      StepKeeps(g, c, o);
      StartsOnce(g, c, o);
      SettleKeeps(g, Step(g, c, o), o.records);
    case Deliver(ms, partial) => FeedKeeps(g, c, ms, partial);
    case DeliverCcs => CcsKeeps(g, c);
    case Send(n) => SendKeeps(g, c, n);
    case RequestUpdate(r) => RequestKeeps(g, c, r);
  }

  lemma StartsOnce(g: Config, c: Client, o: Oracle)
    requires HasHandler(c.state) && Descends(c, Step(g, c, o))
    ensures !(Step(g, c, o).end.Running? && Step(g, c, o).state.StartConnect?)
  {
    hide OnQuiet, OnMessage12, OnMessage13;
  }

  /** Whatever the peer sends: every state of every run satisfies the invariant. */
  lemma {:induction false} ReachableInv(g: Config, c: Client, n: nat)
    requires ConfigOk(g) && Reachable(g, c, n)
    ensures Inv(g, c)
    decreases n
  {
    hide Inv, Apply, Enabled, HandlerInv;
    if n == 0 { StartInv(g); }
    else {
      var b, a :| Reachable(g, b, n - 1) && Enabled(b, a) && c == Apply(g, b, a);
      ReachableInv(g, b, n - 1);
      EnabledRuns(b, a);
      ApplyKeeps(g, b, a);
    }
  }

  lemma EnabledRuns(c: Client, a: Action)
    requires Enabled(c, a)
    ensures c.end.Running?
  {}

  lemma StartInv(g: Config)
    requires ConfigOk(g)
    ensures Inv(g, NewClient())
  {
    hide LiveFirst, LiveDecide, LiveSecond, LiveProtected, LiveClosing, LiveFinal, LiveLegacy, NoncesOk, Log;
    StartLog();
  }

  lemma StartLog()
    ensures Log(NewCore().io, View(false, false), 0) && NoncesOk(NewCore().rec)
  {}
}
