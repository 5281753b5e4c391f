/** The server's dispatch loop, and the invariant over its whole runs. */
module ServerRuns {
  import opened Wire
  import opened HandshakeCore
  import opened ServerMachine
  import opened ServerInv
  import opened ServerProofs

  // TLS 1.2 handlers: they only pass messages on until keys are installed

  lemma ExpectKeeps(g: Config, c: Server, ok: bool, next: ServerState, st: Status)
    requires At(g, c) && InLegacy(c.state) && c.k.io.cache.Some?
    requires ok ==> !IsRetry(c.k.io.cache.value) && Hashed(c.k.io.cache.value, false)
    requires ok && InLegacy(next) ==> LiveLegacy(c.(state := next, status := st))
    requires ok ==> InLegacy(next) || next.FinishServerHandshake?
    requires !MayPend(c.state) && !c.state.SendServerHello?
    ensures HandlerInv(g, Expect(c, ok, next, st))
  {
    hide Live, Log, NoncesOk, Finals, Ups;
    NextLog(c);
    LegacyAt(g, c);
    if ok && InLegacy(next) { LegacyAt(g, Expect(c, ok, next, st)); }
    else if ok { LiveAt(g, Expect(c, ok, next, st)); }
  }

  lemma SelectLegacyKeeps(g: Config, c: Server, m: Message, o: Oracle)
    requires At(g, c) && c.state.SelectParameters? && c.k.io.cache == Some(m)
    ensures HandlerInv(g, OnSelectParameters(g, c, m, o))
  {
    hide Live, Log, NoncesOk, Descends, Finals, Ups;
    LiveAt(g, c);
    if !o.ok { FailKeeps(g, c); }
    else {
      NextLog(c);
      NoFinals(c.k.io.wire);
      LegacyAt(g, OnSelectParameters(g, c, m, o));
    }
  }

  lemma LegacyCertificateKeeps(g: Config, c: Server, m: Message, o: Oracle)
    requires At(g, c) && c.state.ReadClientCertificate? && c.k.io.cache == Some(m)
    ensures HandlerInv(g, OnClientCertificate(g, c, m, o))
  {
    hide Live, Log, NoncesOk, Descends, Finals, Ups;
    LegacyAt(g, c);
    if !m.Certificate? || !o.ok || (g.auth.Required? && !o.present) {}
    else {
      NextLog(c);
      LegacyAt(g, OnClientCertificate(g, c, m, o));
    }
  }

  lemma LegacyExchangeKeeps(g: Config, c: Server, m: Message, o: Oracle)
    requires At(g, c) && c.state.ReadClientKeyExchange? && c.k.io.cache == Some(m)
    ensures HandlerInv(g, OnClientKeyExchange(c, m, o))
  {
    hide Live, Log, NoncesOk, Descends, Finals, Ups;
    LegacyAt(g, c);
    if !m.ClientKeyExchange? || !o.ok {}
    else {
      NextLog(c);
      LegacyAt(g, OnClientKeyExchange(c, m, o));
    }
  }

  lemma LegacyMessageKeeps(g: Config, c: Server, m: Message, o: Oracle)
    requires At(g, c) && Awaits(c) && Awaits12(c.state) && c.k.io.cache == Some(m)
    ensures HandlerInv(g, OnMessage12(g, c, m, o))
  {
    hide Live, Log, NoncesOk, Descends, Expect, OnSelectParameters, OnClientCertificate, OnClientKeyExchange;
    if c.state.SelectParameters? { SelectLegacyKeeps(g, c, m, o); }
    else {
      LegacyAt(g, c);
      match c.state
      case ReadClientCertificate => LegacyCertificateKeeps(g, c, m, o);
      case ReadClientKeyExchange => LegacyExchangeKeeps(g, c, m, o);
      case ReadClientCertificateVerify =>
        ExpectKeeps(g, c, m.CertificateVerify? && o.ok && o.signatureOk, AwaitChangeCipherSpec, Ok);
      case ReadNextProto => ExpectKeeps(g, c, m.NextProtocol? && o.ok, ReadClientFinished, Ok);
      case _ =>
        ExpectKeeps(g, c, m.FinishedMsg? && o.ok, if c.f.reused then FinishServerHandshake else SendSessionTicket, Ok);
    }
  }

  lemma LegacyHelloSent(g: Config, c: Server, o: Oracle)
    requires At(g, c) && c.state.SendServerHello?
    ensures HandlerInv(g, DoSendServerHello(c, o))
  {
    hide Live, Log, NoncesOk, Descends, Finals, Ups;
    LegacyAt(g, c);
    LegacyAt(g, DoSendServerHello(c, o));
    AddLog(c.k.io, ServerHello(o.data, false, false, 0, false, None, None), true, ViewOf(c), Count(c));
  }

  lemma LegacyCertificateSent(g: Config, c: Server, o: Oracle)
    requires At(g, c) && c.state.SendServerCertificate?
    ensures HandlerInv(g, DoSendServerCertificate(c, o))
  {
    hide Live, Log, NoncesOk, Descends, Finals, Ups;
    LegacyAt(g, c);
    LegacyAt(g, DoSendServerCertificate(c, o));
    AddLog(c.k.io, Certificate(o.data), true, ViewOf(c), Count(c));
  }

  lemma LegacyExchangeSent(g: Config, c: Server, o: Oracle)
    requires At(g, c) && c.state.SendServerKeyExchange?
    ensures HandlerInv(g, DoSendServerKeyExchange(c, o))
  {
    hide Live, Log, NoncesOk, Descends, Finals, Ups;
    LegacyAt(g, c);
    LegacyAt(g, DoSendServerKeyExchange(c, o));
    AddLog(c.k.io, ServerKeyExchange(o.data), true, ViewOf(c), Count(c));
  }

  lemma LegacyHelloDoneSent(g: Config, c: Server, o: Oracle)
    requires At(g, c) && c.state.SendServerHelloDone?
    ensures HandlerInv(g, DoSendServerHelloDone(c, o))
  {
    hide Live, Log, NoncesOk, Descends, Finals, Ups;
    LegacyAt(g, c);
    if o.ok {
      LegacyAt(g, DoSendServerHelloDone(c, o));
      if c.x.certRequested {
        AddLog(c.k.io, CertificateRequest(o.data), true, ViewOf(c), Count(c));
        AddLog(Put(c.k, CertificateRequest(o.data)).io, ServerHelloDone, true, ViewOf(c), Count(c));
      } else {
        AddLog(c.k.io, ServerHelloDone, true, ViewOf(c), Count(c));
      }
    }
  }

  lemma LegacyTicketSent(g: Config, c: Server, o: Oracle)
    requires At(g, c) && c.state.SendSessionTicket?
    ensures HandlerInv(g, DoSendSessionTicket(c, o))
  {
    hide Live, Log, NoncesOk, Descends, Finals, Ups;
    LegacyAt(g, c);
    LegacyAt(g, DoSendSessionTicket(c, o));
    AddLog(c.k.io, SessionTicket(o.data), true, ViewOf(c), Count(c));
  }

  lemma LegacyFinishedSent(g: Config, c: Server, o: Oracle)
    requires At(g, c) && c.state.SendServerFinished?
    ensures HandlerInv(g, DoSendServerFinished(c, o))
  {
    hide Live, Log, NoncesOk, Descends, Finals, Ups;
    LegacyAt(g, c);
    InstallNonces(c.k, Some(c.x.traffic.value.0));
    AddLog(c.k.io, FinishedMsg(Atom(o.secret)), true, ViewOf(c), Count(c));
    var d := DoSendServerFinished(c, o);
    if c.f.reused { LegacyAt(g, d); } else { LiveAt(g, d); }
  }

  lemma LegacyReadKey(g: Config, c: Server)
    requires At(g, c) && c.state.ProcessChangeCipherSpec?
    ensures HandlerInv(g, DoProcessChangeCipherSpec(c))
  {
    hide Live, Log, NoncesOk, Descends, Finals, Ups;
    LegacyAt(g, c);
    LegacyAt(g, DoProcessChangeCipherSpec(c));
    ReadNonces(c.k, Some(c.x.traffic.value.1));
  }

  // Dispatch

  /** The handlers that only change the state. */
  predicate Skips(s: ServerState)
  {
    || s.HrrCompatCcs13? || s.ServerHelloCompatCcs13? || s.ReadClientEncryptedExtensions13?
    || s.ReadClientCertificate13?
    || s.ReadClientCertificateVerify13? || s.FinishServerHandshake? || s.ProcessUpdateTraffic?
  }

  predicate SkipsLegacy(s: ServerState)
  {
    || s.ReadClientCertificate? || s.VerifyClientCertificate? || s.ReadClientCertificateVerify?
    || s.AwaitChangeCipherSpec?
    || s.ReadNextProto? || s.SendChangeCipherSpec?
  }

  lemma SkipLegacy(g: Config, c: Server, o: Oracle)
    requires At(g, c) && !Awaits(c) && SkipsLegacy(c.state)
    ensures HandlerInv(g, OnQuiet(g, c, o)) && Descends(c, OnQuiet(g, c, o))
  {
    hide Live, Log, NoncesOk, Unread, Finals;
    LegacyAt(g, c);
    LegacyAt(g, OnQuiet(g, c, o));
  }

  lemma SkipReply(g: Config, c: Server, o: Oracle)
    requires At(g, c) && !Awaits(c) && Skips(c.state) && InReply(c.state)
    ensures HandlerInv(g, OnQuiet(g, c, o)) && Descends(c, OnQuiet(g, c, o))
  {
    hide HellosOnly, AskedAgain, Answering, Marked, Replied, TypesOk, Offered, RetryConfirmed, Follows, FromTicket,
         TookFrom, Ups, OldHello, Live, Log, NoncesOk, Finals, AppKeys, AppRecords, Unread, VerifyData;
    LiveAt(g, c);
    LiveAt(g, OnQuiet(g, c, o));
  }

  lemma SkipFinal(g: Config, c: Server, o: Oracle)
    requires At(g, c) && !Awaits(c) && Skips(c.state) && InFinal(c.state)
    ensures HandlerInv(g, OnQuiet(g, c, o)) && Descends(c, OnQuiet(g, c, o))
  {
    hide HellosOnly, AskedAgain, Answering, Marked, Replied, TypesOk, Offered, RetryConfirmed, Follows, FromTicket,
         TookFrom, Ups, OldHello, Live, Log, NoncesOk, Finals, AppKeys, AppRecords, Unread, VerifyData;
    LiveAt(g, c);
    LiveAt(g, OnQuiet(g, c, o));
  }

  lemma SkipKeeps(g: Config, c: Server, o: Oracle)
    requires At(g, c) && !Awaits(c) && Skips(c.state) && (InParams(c.state) || InFlight(c.state))
    ensures HandlerInv(g, OnQuiet(g, c, o)) && Descends(c, OnQuiet(g, c, o))
  {
    hide HellosOnly, AskedAgain, Answering, Marked, Replied, TypesOk, Offered, RetryConfirmed, Follows, FromTicket,
         TookFrom, Ups, OldHello, Live, Log, NoncesOk, Finals, ProtectedKeys, Unread, ExtractKey;
    LiveAt(g, c);
    LiveAt(g, OnQuiet(g, c, o));
  }

  lemma StartKeeps(g: Config, c: Server)
    requires At(g, c) && c.state.StartAccept?
    ensures HandlerInv(g, Go(c, ReadClientHello, Ok)) && Descends(c, Go(c, ReadClientHello, Ok))
  {
    hide NoncesOk, Log;
  }

  lemma QuietKeeps(g: Config, c: Server, o: Oracle)
    requires At(g, c) && HasHandler(c.state) && !Awaits(c)
    ensures HandlerInv(g, OnQuiet(g, c, o)) && Descends(c, OnQuiet(g, c, o))
  {
    hide At, HandlerInv, Descends, DoSendServerHello, DoSendServerCertificate, DoSendServerKeyExchange,
         DoSendServerHelloDone, DoProcessChangeCipherSpec, DoSendSessionTicket, DoSendServerFinished,
         DoSendHelloRetryRequest13, DoSendServerHello13, DoSendEncryptedExtensions13, DoSendServerFinished13,
         DoReadSecondClientFlight13, DoSendNewSessionTicket13, DoCompleteUpdateTraffic;
    if SkipsLegacy(c.state) { SkipLegacy(g, c, o); }
    else if Skips(c.state) && InReply(c.state) { SkipReply(g, c, o); }
    else if Skips(c.state) && InFinal(c.state) { SkipFinal(g, c, o); }
    else if Skips(c.state) { SkipKeeps(g, c, o); }
    else {
      match c.state
      case StartAccept => StartKeeps(g, c);
      case SendServerHello => LegacyHelloSent(g, c, o);
      case SendServerCertificate => LegacyCertificateSent(g, c, o);
      case SendServerKeyExchange => LegacyExchangeSent(g, c, o);
      case SendServerHelloDone => LegacyHelloDoneSent(g, c, o);
      case ProcessChangeCipherSpec => LegacyReadKey(g, c);
      case SendSessionTicket => LegacyTicketSent(g, c, o);
      case SendServerFinished => LegacyFinishedSent(g, c, o);
      case SendHelloRetryRequest13 => RetryKeeps(g, c, o);
      case SendServerHello13 => ServerHelloKeeps(g, c, o);
      case SendEncryptedExtensions13 => ExtensionsKeeps(g, c, o);
      case SendServerFinished13 => ServerFinishedKeeps(g, c);
      case ReadSecondClientFlight13 => SecondFlightKeeps(g, c);
      case ProcessEndOfEarlyData13 => NoEarlyDataKeeps(g, c); NoEarlyDescends(c);
      case SendNewSessionTicket13 => TicketKeeps(g, c, o);
      case _ => CompleteUpdateKeeps(g, c);
    }
  }

  lemma NoEarlyDescends(c: Server)
    requires c.state.ProcessEndOfEarlyData13?
    ensures Descends(c, GoWith(c, SetupRead(c.k, Handshake), ReadClientEncryptedExtensions13, Ok))
  {
    hide SetupRead, Unread;
  }

  lemma MessageKeeps(g: Config, c: Server, m: Message, o: Oracle)
    requires At(g, c) && Awaits(c) && !Awaits12(c.state) && c.k.io.cache == Some(m)
    ensures HandlerInv(g, OnMessage13(g, c, m, o)) && Descends(c, OnMessage13(g, c, m, o))
  {
    hide At, HandlerInv, Descends, OnClientHello, OnSelectParameters13, OnSecondClientHello13, OnEndOfEarlyData13,
         OnClientCertificate13, OnClientCertificateVerify13, OnClientFinished13, OnPostHandshake, Expect;
    match c.state
    case ReadClientHello => ClientHelloKeeps(g, c, m, o);
    case SelectParameters13 => SelectKeeps(g, c, m, o);
    case ReadSecondClientHello13 => SecondHelloKeeps(g, c, m, o);
    case ProcessEndOfEarlyData13 => EndOfEarlyDataKeeps(g, c, m);
    case ReadClientEncryptedExtensions13 => ClientExtensionsKeeps(g, c, m, o); ExtensionsDescend(c, m, o);
    case ReadClientCertificate13 => CertificateKeeps(g, c, m, o);
    case ReadClientCertificateVerify13 => CertificateVerifyKeeps(g, c, m, o);
    case ReadClientFinished13 => ClientFinishedKeeps(g, c, m);
    case _ => PostHandshakeKeeps(g, c, m); PostHandshakeDescends(c, m);
  }

  lemma ExtensionsDescend(c: Server, m: Message, o: Oracle)
    requires c.state.ReadClientEncryptedExtensions13? && c.k.io.cache == Some(m)
    ensures Descends(c, Expect(c, m.EncryptedExtensions? && o.ok, ReadClientCertificate13, Ok))
  {
    hide Unread, Consume;
  }

  lemma PostHandshakeDescends(c: Server, m: Message)
    requires c.state.ReadPostHandshake? && c.k.io.cache == Some(m)
    ensures Descends(c, OnPostHandshake(c, m))
  {
    hide UpdateRead, Consume;
  }

  lemma LegacyDescends(g: Config, c: Server, m: Message, o: Oracle)
    requires Awaits(c) && Awaits12(c.state) && c.k.io.cache == Some(m)
    ensures Descends(c, OnMessage12(g, c, m, o))
  {
    hide Unread, Consume, OnSelectParameters, OnClientCertificate, OnClientKeyExchange;
  }

  /** Looking at the next message changes nothing the invariant speaks of. */
  lemma PeekKeeps(g: Config, c: Server)
    requires At(g, c) && Awaits(c)
    ensures At(g, Peeked(c)) && Awaits(Peeked(c))
  {
    hide HellosOnly, AskedAgain, Answering, Marked, Replied, TypesOk, Offered, RetryConfirmed, Follows, FromTicket,
         TookFrom, Ups, OldHello, Live, Log, NoncesOk, KeyTop, Finals, ProtectedKeys, AppKeys, AppRecords, VerifyData,
         ExtractKey;
    PeekLog(c.k.io, ViewOf(c), Count(c));
    var d := Peeked(c);
    if InLegacy(c.state) { LegacyAt(g, c); LegacyAt(g, d); } else { LiveAt(g, c); LiveAt(g, d); }
  }

  lemma PeekSame(c: Server)
    ensures Peeked(c).state == c.state && Peeked(c).f == c.f && Unread(Peeked(c).k.io) == Unread(c.k.io)
  {}

  lemma DescendsFrom(c: Server, p: Server, d: Server)
    requires Descends(p, d) && p.state == c.state && p.f == c.f && Unread(p.k.io) == Unread(c.k.io)
    ensures Descends(c, d)
  {
    hide Rank, Unread;
  }

  function Waits(p: Server): Server
  {
    if p.state.ReadPostHandshake? then Go(p, Done, Ok) else Go(p, p.state, ReadHandshake)
  }

  /** Outside the busy states the status is not part of the invariant. */
  lemma WaitKeeps(g: Config, p: Server)
    requires At(g, p) && Awaits(p)
    ensures HandlerInv(g, Waits(p))
  {
    hide HellosOnly, AskedAgain, Answering, Marked, Replied, TypesOk, Offered, RetryConfirmed, Follows, FromTicket,
         TookFrom, Ups, OldHello, Live, Log, NoncesOk, KeyTop, Finals, ProtectedKeys, AppKeys, AppRecords, Unread,
         VerifyData, ExtractKey;
    if InLegacy(p.state) { LegacyAt(g, p); LegacyAt(g, Waits(p)); } else { LiveAt(g, p); LiveAt(g, Waits(p)); }
  }

  lemma WaitDescends(c: Server, p: Server)
    requires p.state == c.state && p.f == c.f && Awaits(p)
    ensures Descends(c, Waits(p))
  {
    hide Unread;
  }

  /** Every handler call keeps the invariant, whatever the peer sent and whatever the foreign
      checks answer, and unless it waits it lowers the rank or uses up a message. */
  lemma StepKeeps(g: Config, c: Server, o: Oracle)
    requires At(g, c) && HasHandler(c.state)
    ensures HandlerInv(g, Step(g, c, o)) && Descends(c, Step(g, c, o))
  {
    hide OnQuiet, OnMessage12, OnMessage13, At, HandlerInv, Descends, Peeked;
    if !Awaits(c) { QuietKeeps(g, c, o); }
    else {
      PeekKeeps(g, c);
      var p := Peeked(c);
      PeekSame(c);
      if p.k.io.cache.None? { WaitKeeps(g, p); WaitDescends(c, p); }
      else if Awaits12(p.state) {
        LegacyMessageKeeps(g, p, p.k.io.cache.value, o);
        LegacyDescends(g, p, p.k.io.cache.value, o);
        DescendsFrom(c, p, OnMessage12(g, p, p.k.io.cache.value, o));
      } else {
        MessageKeeps(g, p, p.k.io.cache.value, o);
        DescendsFrom(c, p, OnMessage13(g, p, p.k.io.cache.value, o));
      }
    }
  }

  // Actions

  /** Records sealed under the current key touch nothing but the nonces. */
  lemma SealedLive(g: Config, c: Server, k: Core)
    requires Live(g, c) && !c.state.StartAccept?
    requires k.io == c.k.io.(outgoing := []) && k.keys == c.k.keys && Sealed(c.k.rec, k.rec)
    ensures Live(g, c.(k := k))
  {
    hide HellosOnly, AskedAgain, Answering, Marked, Replied, TypesOk, Offered, RetryConfirmed, Follows, FromTicket,
         TookFrom, Ups, OldHello, Live, NoncesOk, Finals, ProtectedKeys, AppKeys, VerifyData, RankedBy, ExtractKey;
    var d := c.(k := k);
    if InLegacy(c.state) { LegacyAt(g, c); LegacyAt(g, d); }
    else { LiveAt(g, c); LiveAt(g, d); }
  }

  lemma SealedKeeps(g: Config, c: Server, k: Core)
    requires HandlerInv(g, c) && !c.state.StartAccept?
    requires k.io == c.k.io.(outgoing := []) && k.keys == c.k.keys && Sealed(c.k.rec, k.rec)
    ensures Inv(g, c.(k := k))
  {
    hide Live, NoncesOk, KeyTop, TranscriptOf, Retries, Of;
    if c.end.Running? { SealedLive(g, c, k); }
  }

  /** Acting on the status keeps the invariant and leaves nothing pending. */
  lemma SettleKeeps(g: Config, d: Server, records: nat)
    requires HandlerInv(g, d) && !(d.end.Running? && d.state.StartAccept?)
    ensures Inv(g, Settle(d, records))
  {
    hide Live, Log, NoncesOk, Pack, SendAlert, Sealed;
    if d.end.Running? && (d.status == PackFlight || d.status == FlushHandshake) {
      SealedKeeps(g, d, Pack(d.k, records));
    }
    else if d.end.Alerted? { AlertKeeps(g, d, records); }
  }

  lemma AlertKeeps(g: Config, d: Server, records: nat)
    requires HandlerInv(g, d) && d.end.Alerted?
    ensures Inv(g, d.(k := SendAlert(d.k, records)))
  {
    hide Live, NoncesOk, KeyTop, TranscriptOf, Retries, Of, SendAlert;
  }

  lemma FeedKeeps(g: Config, c: Server, ms: seq<Message>, partial: bool)
    requires At(g, c) && Enabled(c, Deliver(ms, partial))
    ensures Inv(g, Apply(g, c, Deliver(ms, partial)))
  {
    hide Live, Log, NoncesOk, Finals, Ups;
    NotRewriting(g, c);
    FeedLog(c.k.io, ms, partial, ViewOf(c), Count(c));
    FeedLive(g, c, Apply(g, c, Deliver(ms, partial)));
  }

  /** Nothing is read between the rewrite of the transcript and the retry request. */
  lemma NotRewriting(g: Config, c: Server)
    requires Live(g, c) && Waiting(c)
    ensures !c.state.SendHelloRetryRequest13?
  {
    hide Live, Finals, Ups, ExtractKey;
    LiveAt(g, c);
  }

  lemma FeedLive(g: Config, c: Server, d: Server)
    requires Live(g, c) && Waiting(c)
    requires d.k == c.k.(io := d.k.io) && d.k.io.wire == c.k.io.wire && d.k.io.cache == c.k.io.cache
    requires d.k.io.transcript == c.k.io.transcript
    requires d == c.(k := d.k, status := Ok, state := if c.state.Done? then ReadPostHandshake else c.state)
    ensures Live(g, d)
  {
    hide HellosOnly, AskedAgain, Answering, Marked, Replied, TypesOk, Offered, RetryConfirmed, Follows, FromTicket,
         TookFrom, Ups, OldHello, Live, NoncesOk, Finals, ProtectedKeys, AppKeys, VerifyData, KeyTop, Drained,
         ExtractKey, AppRecords;
    if c.state.StartAccept? { NotWaiting(g, c); }
    else if InLegacy(c.state) { LegacyAt(g, c); LegacyAt(g, d); }
    else { LiveAt(g, c); LiveAt(g, d); }
  }

  lemma NotWaiting(g: Config, c: Server)
    requires Live(g, c) && c.state.StartAccept?
    ensures c.status == Ok && c == NewServer()
  {}

  lemma SendKeeps(g: Config, c: Server, n: nat)
    requires At(g, c) && Idle(c)
    ensures Inv(g, c.(k := SendAlert(c.k, n)))
  {
    hide Live, Log, NoncesOk, SendAlert, Sealed;
    if c.state.StartAccept? {
      NotWaiting(g, c);
      NothingToSend(n);
    } else { SealedKeeps(g, c, SendAlert(c.k, n)); }
  }

  lemma NothingToSend(n: nat)
    ensures SendAlert(NewCore(), n) == NewCore()
  {}

  lemma RequestKeeps(g: Config, c: Server, r: bool)
    requires Enabled(c, RequestUpdate(r)) && At(g, c)
    ensures Inv(g, Apply(g, c, RequestUpdate(r)))
  {
    hide HellosOnly, AskedAgain, Answering, Marked, Replied, TypesOk, Offered, RetryConfirmed, Follows, FromTicket,
         TookFrom, Ups, OldHello, Live, Log, NoncesOk, Finals, AppKeys, VerifyData, KeyTop;
    LiveAt(g, c);
    AddLog(c.k.io, KeyUpdate(r), false, ViewOf(c), Count(c));
    LiveAt(g, Apply(g, c, RequestUpdate(r)));
    FinishesMore(c, Event(Sent, KeyUpdate(r)));
  }

  lemma CcsKeeps(g: Config, c: Server)
    requires At(g, c) && c.status == ReadChangeCipherSpec
    ensures Inv(g, c.(status := Ok))
  {
    hide HellosOnly, AskedAgain, Answering, Marked, Replied, TypesOk, Offered, RetryConfirmed, Follows, FromTicket,
         TookFrom, Ups, OldHello, Live, Log, NoncesOk, Finals, ProtectedKeys, AppKeys, VerifyData, KeyTop, Drained,
         ExtractKey, AppRecords;
    if c.state.StartAccept? { NotWaiting(g, c); }
    else if InLegacy(c.state) { LegacyAt(g, c); LegacyAt(g, c.(status := Ok)); }
    else { LiveAt(g, c); LiveAt(g, c.(status := Ok)); }
  }

  /** The invariant is inductive: every action of the connection keeps it. */
  lemma ApplyKeeps(g: Config, c: Server, a: Action)
    requires At(g, c) && Enabled(c, a)
    ensures Inv(g, Apply(g, c, a))
  {
    hide At, Inv, Step, Settle;
    match a
    case Handle(o) =>
      StepKeeps(g, c, o);
      StartsOnce(g, c, o);
      SettleKeeps(g, Step(g, c, o), o.records);
    case Deliver(ms, partial) => FeedKeeps(g, c, ms, partial);
    case DeliverCcs => CcsKeeps(g, c);
    case Send(n) => SendKeeps(g, c, n);
    case RequestUpdate(r) => RequestKeeps(g, c, r);
  }

  lemma StartsOnce(g: Config, c: Server, o: Oracle)
    requires HasHandler(c.state) && Descends(c, Step(g, c, o))
    ensures !(Step(g, c, o).end.Running? && Step(g, c, o).state.StartAccept?)
  {
    hide OnQuiet, OnMessage12, OnMessage13;
  }

  /** Whatever the peer sends: every state of every run satisfies the invariant. */
  lemma {:induction false} ReachableInv(g: Config, c: Server, n: nat)
    requires Reachable(g, c, n)
    ensures Inv(g, c)
    decreases n
  {
    hide Inv, Apply, Enabled, HandlerInv;
    if n == 0 { StartInv(g); }
    else {
      var b, a :| Reachable(g, b, n - 1) && Enabled(b, a) && c == Apply(g, b, a);
      ReachableInv(g, b, n - 1);
      EnabledRuns(b, a);
      ApplyKeeps(g, b, a);
    }
  }

  lemma EnabledRuns(c: Server, a: Action)
    requires Enabled(c, a)
    ensures c.end.Running?
  {}

  lemma StartInv(g: Config)
    ensures Inv(g, NewServer())
  {}
}
