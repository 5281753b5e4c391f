/** Every handler of the server keeps the invariant. */
module ServerProofs {
  import opened Wire
  import opened HandshakeCore
  import opened ServerMachine
  import opened ServerInv

  lemma FailKeeps(g: Config, c: Server)
    requires At(g, c)
    ensures HandlerInv(g, Fail(c))
  {
    hide Live, Log, NoncesOk;
  }

  lemma LogFaithful(io: Io, v: View, n: nat)
    requires Log(io, v, n)
    ensures io.transcript == TranscriptOf(io.wire, v)
  {}

  /** What is sent or received after the server's Finished leaves what was before it. */
  lemma FinishesMore(c: Server, e: Event)
    requires Finishes(c)
    ensures Marked(c.k.io.wire + [e], c.h.mark, c.h.at, c.f.retried, Received, c.k.keys.enc[Handshake], ViewOf(c),
            c.f.reused)
  {
    hide Marked;
    MarkedMore(c.k.io.wire, c.h.mark, c.h.at, c.f.retried, Received, c.k.keys.enc[Handshake], ViewOf(c), c.f.reused, e);
  }

  /** Consuming a message that is hashed in every version, in the view of this server. */
  lemma NextLog(c: Server)
    requires c.k.io.cache.Some? && Log(c.k.io, ViewOf(c), Count(c))
    ensures var m, w := c.k.io.cache.value, Next(c).io.wire;
            !IsRetry(m) && Hashed(m, c.f.version13) ==>
              && Log(Next(c).io, ViewOf(c), Count(c)) && Finals(w) == Finals(c.k.io.wire)
              && Ups(w, Sent) == Ups(c.k.io.wire, Sent) && Ups(w, Received) == Ups(c.k.io.wire, Received)
  {
    hide Log, Finals, Ups, IsRetry, Seen;
    var m := c.k.io.cache.value;
    if !IsRetry(m) && Hashed(m, c.f.version13) { ConsumeLog(c.k.io, Seen(m, c.f.innerOn), true, ViewOf(c), Count(c)); }
  }

  /** What is sent or received later does not change where a session came from. */
  lemma OriginMore(g: Config, c: Server, d: Server, e: Event)
    requires Origin(g, c) && d.k.io.wire == c.k.io.wire + [e] && d.f.innerOn == c.f.innerOn && d.t.random == c.t.random
    requires d.psk == c.psk
    ensures Origin(g, d)
  {
    hide FromTicket, Follows;
  }

  // Hellos

  /** Nothing has been hashed: the view may still be chosen. */
  lemma AnyView(io: Io, v: View, w: View)
    requires io.wire == [] && Log(io, v, 0)
    ensures Log(io, w, 0)
  {}

  lemma ClientHelloKeeps(g: Config, c: Server, m: Message, o: Oracle)
    requires At(g, c) && c.state.ReadClientHello? && c.k.io.cache == Some(m)
    ensures HandlerInv(g, OnClientHello(g, c, m, o))
  {
    hide Descends, Live, Log, NoncesOk;
    LiveAt(g, c);
    var d := OnClientHello(g, c, m, o);
    LiveAt(g, d);
    AnyView(c.k.io, ViewOf(c), ViewOf(d));
  }

  lemma NoFinals(w: seq<Event>)
    requires w == []
    ensures Finals(w) == [] && NoUps(w)
  {}

  lemma FirstHello(e: Event)
    requires Hello(e, Received)
    ensures HellosOnly([e], false, Received) && TypesOk([e], false) && Offered([e], false) == e.m.shares
  {}

  /** The rewrite, done before there is a request to hash. */
  lemma RewriteLog(io: Io, v: View, n: nat, hash: nat)
    requires Log(io, v, n)
    ensures Rewritten(Rewrite(io, hash), v, n, hash)
  {}

  lemma SelectKeeps(g: Config, c: Server, m: Message, o: Oracle)
    requires At(g, c) && c.state.SelectParameters13? && c.k.io.cache == Some(m)
    ensures HandlerInv(g, OnSelectParameters13(g, c, m, o))
  {
    hide HellosOnly, TypesOk, Offered, Descends, Live, Log, Rewritten, NoncesOk, Finals, DeriveSecret, Ups, ExtractKey;
    LiveAt(g, c);
    if Unprocessed(c.k.io) || !o.ok { FailKeeps(g, c); }
    else {
      var d := OnSelectParameters13(g, c, m, o);
      LiveAt(g, d);
      NextLog(c);
      NoFinals(c.k.io.wire);
      var e := Event(Received, m);
      FirstHello(e);
      assert c.k.io.wire + [e] == [e];
      RewriteLog(Next(c).io, ViewOf(c), 0, o.hash);
      SelectFacts(g, c, m, o);
    }
  }

  /** What the server takes from the first hello is in it. */
  lemma SelectFacts(g: Config, c: Server, m: Message, o: Oracle)
    requires m.ClientHello?
    ensures TookFrom(Take(Seen(m, c.f.innerOn), o, Resumed(g, Seen(m, c.f.innerOn), o).Some?).0, m.shares)
    ensures var psk := Resumed(g, Seen(m, c.f.innerOn), o);
            psk.Some? ==> FromTicket(g, FirstSchedule(o.hash, psk), Seen(m, c.f.innerOn))
    ensures Resumed(g, Seen(m, c.f.innerOn), o).None? ==>
              FirstSchedule(o.hash, None) == ExtractKey(NewSchedule(o.hash), None)
  {}

  /** The request is confirmed in the log exactly if ECH is on. */
  lemma RetrySends(c: Server, hash: nat, data: nat)
    requires HellosOnly(c.k.io.wire, false, Received) && Rewritten(c.k.io, ViewOf(c), 0, hash) && c.f.version13
    requires Follows(c.f.innerOn, c.t.random, c.k.io.wire[0].m)
    ensures var m := RetryRequest(c, hash, data);
            var w := c.k.io.wire + [Event(Sent, m)];
            && IsRetry(m) && m.hash == hash && AskedAgain(w, Received) && |w| == 2 && w[0] == c.k.io.wire[0]
            && (c.f.innerOn <==> RetryConfirmed(w))
  {
    hide TranscriptOf, Conserved, Retries, Confirmation;
    var w := c.k.io.wire + [Event(Sent, RetryRequest(c, hash, data))];
    assert w[..1] == c.k.io.wire;
    var m0 := RetryRequest(c, hash, data).(confirm := None);
    Unconfirmed(c.t.random, c.k.io.transcript, m0);
  }

  /** The value does not depend on what stands in its place. */
  lemma Unconfirmed(random: nat, t: Transcript, m: Message)
    requires m.ServerHello? && m.confirm.None?
    ensures forall x :: Confirmation(random, t, m.(confirm := x)) == Confirmation(random, t, m)
  {}

  lemma RetryKeeps(g: Config, c: Server, o: Oracle)
    requires At(g, c) && c.state.SendHelloRetryRequest13?
    ensures HandlerInv(g, DoSendHelloRetryRequest13(c, o))
  {
    hide HellosOnly, AskedAgain, RetryConfirmed, Descends, Live, Log, Rewritten, NoncesOk, Finals, ExtractKey, Ups,
         TypesOk, Offered, Follows, FromTicket, TookFrom, Confirmation;
    LiveAt(g, c);
    var d := DoSendHelloRetryRequest13(c, o);
    LiveAt(g, d);
    var m := RetryRequest(c, c.k.keys.schedule.value.hash, o.data);
    RetrySends(c, c.k.keys.schedule.value.hash, o.data);
    AddRetryLog(c.k.io, m, ViewOf(c), 0);
    OriginMore(g, c, d, Event(Sent, m));
  }

  /** The second hello offers what was asked for, or what the first one did. */
  lemma SecondTakes(c: Server, m: Message)
    requires RetrySent(c) && m.ClientHello? && RightShares(c.t.regroup, m)
    ensures var w := c.k.io.wire + [Event(Received, m)];
            var peer := if c.t.regroup.Some? then Some((c.t.regroup.value, m.shares[c.t.regroup.value])) else c.t.peer;
            && HellosOnly(w, true, Received) && TypesOk(w, true) && TookFrom(peer, Offered(w, true))
            && (c.f.innerOn <==> RetryConfirmed(w))
  {
    hide HellosOnly, Confirms;
    var e := Event(Received, m);
    HellosMore(c.k.io.wire, Received, e);
    assert (c.k.io.wire + [e])[..1] == c.k.io.wire[..1];
    if c.t.regroup.Some? { assert c.t.regroup.value in m.shares.Keys; }
  }

  lemma SecondHelloKeeps(g: Config, c: Server, m: Message, o: Oracle)
    requires At(g, c) && c.state.ReadSecondClientHello13? && c.k.io.cache == Some(m)
    ensures HandlerInv(g, OnSecondClientHello13(c, m, o))
  {
    hide HellosOnly, AskedAgain, RetryConfirmed, Descends, Live, Log, NoncesOk, Finals, ExtractKey, Ups, TypesOk,
         Offered, Follows, FromTicket, TookFrom;
    LiveAt(g, c);
    if !m.ClientHello? || Unprocessed(c.k.io) || !o.ok || (c.f.innerOn && m.inner.None?)
      || !RightShares(c.t.regroup, m) {
      FailKeeps(g, c);
    } else {
      var d := OnSecondClientHello13(c, m, o);
      LiveAt(g, d);
      NextLog(c);
      SecondTakes(c, m);
      OriginMore(g, c, d, Event(Received, m));
    }
  }

  // The server's flight

  lemma HelloKeys(g: Config, c: Server, share: Option<Term>, t: Transcript)
    requires LiveParams(g, c)
    ensures ProtectedKeys(c.psk, HandshakeKeys(c.k.keys, ExtractKey(c.k.keys.schedule.value, share), t))
  {
    hide Finals, Busy, HellosOnly, AskedAgain, RetrySent, Origin, TookFrom, Ups;
  }

  /** The secrets the server derives are those its log amounts to. */
  lemma ServerSettles(g: Config, c: Server, data: nat, y: nat)
    requires LiveParams(g, c) && c.state.SendServerHello13? && Log(c.k.io, ViewOf(c), Count(c))
    ensures var s := c.k.keys.schedule.value;
            var m := ServerHello13(c, s.hash, data, y);
            && |c.k.io.wire| == OpeningLength(c.f.retried)
            && Settled(c.k.io.wire + [Event(Sent, m)], c.f.retried,
                       DeriveSecret(ExtractKey(s, KeyExchange(c, y)), ServerHs, Put(c.k, m).io.transcript), ViewOf(c),
                       c.f.reused)
  {
    hide TranscriptOf, Conserved, Retries, Finals, Busy, FromTicket, Ups, Confirmation;
    var s := c.k.keys.schedule.value;
    var m := ServerHello13(c, s.hash, data, y);
    var w := c.k.io.wire + [Event(Sent, m)];
    assert |c.k.io.wire| == OpeningLength(c.f.retried);
    WireSnoc(c.k.io.wire, Event(Sent, m));
    assert w[..|c.k.io.wire|] == c.k.io.wire;
    Unconfirmed(c.t.random, c.k.io.transcript, m.(confirm := None));
    assert Offered(w, c.f.retried) == Offered(c.k.io.wire, c.f.retried);
    if c.f.retried { assert w[..1] == c.k.io.wire[..1]; }
  }

  lemma ServerHelloKeeps(g: Config, c: Server, o: Oracle)
    requires At(g, c) && c.state.SendServerHello13?
    ensures HandlerInv(g, DoSendServerHello13(c, o))
  {
    hide HellosOnly, AskedAgain, Answering, Settled, Descends, Live, Log, NoncesOk, Finals, ExtractKey, StartedFrom,
         TranscriptOf, Ups, TypesOk, Offered, Follows, FromTicket, TookFrom, RetryConfirmed, Confirmation;
    LiveAt(g, c);
    var s := c.k.keys.schedule.value;
    if !o.ok { FailKeeps(g, c); }
    else {
      var m := ServerHello13(c, s.hash, o.data, o.secret);
      var d := DoSendServerHello13(c, o);
      LiveAt(g, d);
      AddLog(c.k.io, m, true, ViewOf(c), Count(c));
      ServerSettles(g, c, o.data, o.secret);
      var t := Put(c.k, m).io.transcript;
      AnsweringStart(c.k.io.wire, c.f.retried, Received,
                     DeriveSecret(ExtractKey(s, KeyExchange(c, o.secret)), ServerHs, t),
                     ViewOf(c), c.f.reused, Event(Sent, m));
      HelloKeys(g, c, KeyExchange(c, o.secret), t);
      KeptEarly(c.k.keys, ExtractKey(s, KeyExchange(c, o.secret)), t);
      OriginMore(g, c, d, Event(Sent, m));
    }
  }

  lemma KeptEarly(keys: Keys, s: Schedule, t: Transcript)
    ensures ZeroRtt in keys.dec ==> ZeroRtt in HandshakeKeys(keys, s, t).dec
  {}

  /** The certificate messages enter the log like all others. */
  lemma CertificatesLog(g: Config, c: Server, k: Core, o: Oracle)
    requires Log(k.io, ViewOf(c), Count(c))
    ensures var r := SendCertificates(g, k, o);
            && Log(r.io, ViewOf(c), Count(c)) && r == k.(io := r.io) && Finals(r.io.wire) == Finals(k.io.wire)
            && Ups(r.io.wire, Sent) == Ups(k.io.wire, Sent) && Ups(r.io.wire, Received) == Ups(k.io.wire, Received)
            && (k.io.wire != [] ==> r.io.wire != [] && r.io.wire[0] == k.io.wire[0])
            && r.io.cache == k.io.cache && r.io.incoming == k.io.incoming && r.io.partial == k.io.partial
            && (forall hs :: Answering(k.io.wire, c.f.retried, Received, hs, ViewOf(c), c.f.reused) ==>
                  Answering(r.io.wire, c.f.retried, Received, hs, ViewOf(c), c.f.reused))
  {
    hide Log, Finals, Answering, Ups;
    forall hs | Answering(k.io.wire, c.f.retried, Received, hs, ViewOf(c), c.f.reused)
      ensures Answering(SendCertificates(g, k, o).io.wire, c.f.retried, Received, hs, ViewOf(c), c.f.reused)
    {
      var v := ViewOf(c);
      var w0 := k.io.wire;
      AnsweringMore(w0, c.f.retried, Received, hs, v, c.f.reused, Event(Sent, CertificateRequest(o.data)));
      var w1 := if g.auth.NotAsked? then w0 else w0 + [Event(Sent, CertificateRequest(o.data))];
      AnsweringMore(w1, c.f.retried, Received, hs, v, c.f.reused, Event(Sent, Certificate(o.data)));
      AnsweringMore(w1 + [Event(Sent, Certificate(o.data))], c.f.retried, Received, hs, v, c.f.reused,
                    Event(Sent, CertificateVerify(o.data)));
    }
    AddLog(k.io, CertificateRequest(o.data), true, ViewOf(c), Count(c));
    var k1 := if g.auth.NotAsked? then k else Put(k, CertificateRequest(o.data));
    AddLog(k1.io, Certificate(o.data), true, ViewOf(c), Count(c));
    AddLog(Put(k1, Certificate(o.data)).io, CertificateVerify(o.data), true, ViewOf(c), Count(c));
  }

  lemma ExtensionsKeeps(g: Config, c: Server, o: Oracle)
    requires At(g, c) && c.state.SendEncryptedExtensions13?
    ensures HandlerInv(g, DoSendEncryptedExtensions13(g, c, o))
  {
    hide Answering, Ups, FromTicket, Follows, Descends, Live, Log, NoncesOk, Finals, StartedFrom, SendCertificates;
    LiveAt(g, c);
    LiveAt(g, DoSendEncryptedExtensions13(g, c, o));
    InstallNonces(c.k, Lookup(c.k.keys.enc, Handshake));
    var m := EncryptedExtensions(o.data, c.f.early == Accepted);
    AddLog(c.k.io, m, true, ViewOf(c), Count(c));
    AnsweringMore(c.k.io.wire, c.f.retried, Received, c.k.keys.enc[Handshake], ViewOf(c), c.f.reused, Event(Sent, m));
    CertificatesLog(g, c, Put(SetupWrite(c.k, Handshake), m), o);
    if c.f.reused {} else {}
  }

  lemma FinishedKeys(psk: Option<Schedule>, k: Keys, at: Transcript, m: Message)
    requires ProtectedKeys(psk, k) && m == FinishedMsg(VerifyData(k.schedule.value.hash, k.enc[Handshake], at))
    ensures AppKeys(psk, ApplicationKeys(k, ExtractKey(k.schedule.value, None), at + [Msg(m)]), at, 0, 0)
  {}

  lemma ServerFinishedKeeps(g: Config, c: Server)
    requires At(g, c) && c.state.SendServerFinished13?
    ensures HandlerInv(g, DoSendServerFinished13(c))
  {
    hide Answering, Ups, FromTicket, Follows, Marked, TranscriptOf, Descends, Live, Log, NoncesOk, Finals, StartedFrom,
         ExtractKey, AppKeys, VerifyData, KeyTop;
    LiveAt(g, c);
    LiveAt(g, DoSendServerFinished13(c));
    var m := FinishedMsg(VerifyData(c.k.keys.schedule.value.hash, c.k.keys.enc[Handshake], c.k.io.transcript));
    AddLog(c.k.io, m, true, ViewOf(c), Count(c));
    FinishedKeys(c.psk, c.k.keys, c.k.io.transcript, m);
    LogFaithful(c.k.io, ViewOf(c), Count(c));
    MarkedStart(c.k.io.wire, |c.k.io.wire|, c.k.io.transcript, c.f.retried, Received, c.k.keys.enc[Handshake],
                ViewOf(c), c.f.reused, Event(Sent, m));
    OriginMore(g, c, DoSendServerFinished13(c), Event(Sent, m));
  }

  // The client's flight

  lemma SecondFlightKeeps(g: Config, c: Server)
    requires At(g, c) && c.state.ReadSecondClientFlight13?
    ensures HandlerInv(g, DoReadSecondClientFlight13(c))
  {
    hide Replied, Marked, Ups, FromTicket, Follows, Descends, Live, Log, NoncesOk, Finals, StartedFrom, VerifyData;
    LiveAt(g, c);
    LiveAt(g, DoReadSecondClientFlight13(c));
    InstallNonces(c.k, Lookup(c.k.keys.enc, ApplicationData));
    ReadNonces(SetupWrite(c.k, ApplicationData), Lookup(c.k.keys.dec, ZeroRtt));
  }

  lemma EndOfEarlyDataKeeps(g: Config, c: Server, m: Message)
    requires At(g, c) && c.state.ProcessEndOfEarlyData13? && c.k.io.cache == Some(m) && c.f.early == Accepted
    ensures HandlerInv(g, OnEndOfEarlyData13(c, m))
  {
    hide Replied, Marked, Ups, FromTicket, Follows, Generation, Descends, Live, Log, NoncesOk, Finals, VerifyData,
         StartedFrom, AppSecret;
    LiveAt(g, c);
    if !m.EndOfEarlyData? || Unprocessed(c.k.io) { FailKeeps(g, c); }
    else {
      LiveAt(g, OnEndOfEarlyData13(c, m));
      NextLog(c);
      FinishesMore(c, Event(Received, m));
      RepliedMore(c.k.io.wire, c.h.mark, Received, Event(Received, m));
      OriginMore(g, c, OnEndOfEarlyData13(c, m), Event(Received, m));
      ReadNonces(Next(c), Lookup(c.k.keys.dec, Handshake));
    }
  }

  lemma NoEarlyDataKeeps(g: Config, c: Server)
    requires At(g, c) && c.state.ProcessEndOfEarlyData13? && c.f.early != Accepted
    ensures HandlerInv(g, GoWith(c, SetupRead(c.k, Handshake), ReadClientEncryptedExtensions13, Ok))
  {
    hide Replied, Marked, Ups, FromTicket, Follows, Live, Log, NoncesOk, Finals, VerifyData, StartedFrom;
    LiveAt(g, c);
    LiveAt(g, GoWith(c, SetupRead(c.k, Handshake), ReadClientEncryptedExtensions13, Ok));
    ReadNonces(c.k, Lookup(c.k.keys.dec, Handshake));
  }

  lemma ClientExtensionsKeeps(g: Config, c: Server, m: Message, o: Oracle)
    requires At(g, c) && c.state.ReadClientEncryptedExtensions13? && c.k.io.cache == Some(m)
    ensures HandlerInv(g, Expect(c, m.EncryptedExtensions? && o.ok, ReadClientCertificate13, Ok))
  {
    hide Replied, Marked, Ups, FromTicket, Follows, Generation, Live, Log, NoncesOk, Finals, VerifyData, AppKeys,
         AppRecords;
    LiveAt(g, c);
    if !m.EncryptedExtensions? || !o.ok { FailKeeps(g, c); }
    else {
      LiveAt(g, Expect(c, m.EncryptedExtensions? && o.ok, ReadClientCertificate13, Ok));
      NextLog(c);
      FinishesMore(c, Event(Received, m));
      RepliedMore(c.k.io.wire, c.h.mark, Received, Event(Received, m));
      OriginMore(g, c, Expect(c, m.EncryptedExtensions? && o.ok, ReadClientCertificate13, Ok), Event(Received, m));
    }
  }

  lemma CertificateKeeps(g: Config, c: Server, m: Message, o: Oracle)
    requires At(g, c) && c.state.ReadClientCertificate13? && c.k.io.cache == Some(m) && c.x.certRequested
    ensures HandlerInv(g, OnClientCertificate13(g, c, m, o))
  {
    hide Replied, Marked, Ups, FromTicket, Follows, Generation, Descends, Live, Log, NoncesOk, Finals, VerifyData,
         AppKeys, AppRecords;
    LiveAt(g, c);
    if !m.Certificate? || !o.ok || (g.auth.Required? && !o.present) || (o.present && !o.chainOk) { FailKeeps(g, c); }
    else {
      LiveAt(g, OnClientCertificate13(g, c, m, o));
      NextLog(c);
      FinishesMore(c, Event(Received, m));
      RepliedMore(c.k.io.wire, c.h.mark, Received, Event(Received, m));
      OriginMore(g, c, OnClientCertificate13(g, c, m, o), Event(Received, m));
    }
  }

  lemma CertificateVerifyKeeps(g: Config, c: Server, m: Message, o: Oracle)
    requires At(g, c) && c.state.ReadClientCertificateVerify13? && c.k.io.cache == Some(m) && c.x.hasCert
    ensures HandlerInv(g, OnClientCertificateVerify13(c, m, o))
  {
    hide Replied, Marked, Ups, FromTicket, Follows, Generation, Descends, Live, Log, NoncesOk, Finals, VerifyData,
         AppKeys, AppRecords;
    LiveAt(g, c);
    if !m.CertificateVerify? || !o.ok || !o.signatureOk { FailKeeps(g, c); }
    else {
      LiveAt(g, OnClientCertificateVerify13(c, m, o));
      NextLog(c);
      FinishesMore(c, Event(Received, m));
      RepliedMore(c.k.io.wire, c.h.mark, Received, Event(Received, m));
      OriginMore(g, c, OnClientCertificateVerify13(c, m, o), Event(Received, m));
    }
  }

  lemma ClientFinishedKeeps(g: Config, c: Server, m: Message)
    requires At(g, c) && c.state.ReadClientFinished13? && c.k.io.cache == Some(m)
    ensures HandlerInv(g, OnClientFinished13(c, m))
  {
    hide Replied, Marked, Ups, FromTicket, Follows, Generation, Descends, Live, Log, NoncesOk, Finals, VerifyData,
         StartedFrom, AppSecret;
    LiveAt(g, c);
    if !m.FinishedMsg? || Unprocessed(c.k.io)
       || m.verify != VerifyData(c.k.keys.schedule.value.hash, c.k.keys.dec[Handshake], c.k.io.transcript) {
      FailKeeps(g, c);
    } else {
      LiveAt(g, OnClientFinished13(c, m));
      NextLog(c);
      FinishesMore(c, Event(Received, m));
      OriginMore(g, c, OnClientFinished13(c, m), Event(Received, m));
      ReadNonces(Next(c), Lookup(c.k.keys.dec, ApplicationData));
    }
  }

  // After the handshake

  /** Tickets go out without being hashed. */
  lemma TicketLog(c: Server, k: Core, data: nat)
    requires Log(k.io, ViewOf(c), Count(c)) && c.f.version13
    ensures var w := PutTicket(k, data).io.wire;
            && Log(PutTicket(k, data).io, ViewOf(c), Count(c)) && Finals(w) == Finals(k.io.wire)
            && Ups(w, Sent) == Ups(k.io.wire, Sent) && Ups(w, Received) == Ups(k.io.wire, Received)
  {
    hide Log, Finals, Ups;
    AddLog(k.io, SessionTicket(data), false, ViewOf(c), Count(c));
  }

  lemma TicketKeeps(g: Config, c: Server, o: Oracle)
    requires At(g, c) && c.state.SendNewSessionTicket13?
    ensures HandlerInv(g, DoSendNewSessionTicket13(g, c, o))
  {
    hide Marked, Ups, FromTicket, Follows, Generation, Descends, Live, Log, NoncesOk, Finals, VerifyData, StartedFrom,
         AppSecret, AppRecords;
    LiveAt(g, c);
    LiveAt(g, DoSendNewSessionTicket13(g, c, o));
    TicketLog(c, c.k, o.data);
    TicketLog(c, PutTicket(c.k, o.data), o.secret);
    FinishesMore(c, Event(Sent, SessionTicket(o.data)));
    MarkedMore(c.k.io.wire + [Event(Sent, SessionTicket(o.data))], c.h.mark, c.h.at, c.f.retried, Received,
               c.k.keys.enc[Handshake], ViewOf(c), c.f.reused, Event(Sent, SessionTicket(o.secret)));
  }

  lemma AppRank(psk: Option<Schedule>, k: Keys, at: Transcript, sent: nat, received: nat)
    requires AppKeys(psk, k, at, sent, received)
    ensures KeyRank(k.enc[ApplicationData]) == 3 + sent
  {
    hide StartedFrom;
    GenerationRank(k.schedule.value.hash, AppSecret(k.enc[Handshake], ServerAp, at), sent);
  }

  lemma UpdateWriteKeeps(psk: Option<Schedule>, k: Core, at: Transcript, sent: nat, received: nat)
    requires AppKeys(psk, k.keys, at, sent, received) && AppRecords(k.keys, k.rec) && NoncesOk(k.rec)
             && k.io.outgoing == []
    ensures var r := UpdateWrite(k);
            && AppKeys(psk, r.keys, at, sent + 1, received) && AppRecords(r.keys, r.rec) && NoncesOk(r.rec)
            && r.rec.fault == k.rec.fault && r.rec.straddled == k.rec.straddled && r.rec.readKey == k.rec.readKey
            && r.keys == k.keys.(enc := k.keys.enc[ApplicationData := r.keys.enc[ApplicationData]])
  {
    hide NoncesOk, AppSecret, StartedFrom;
    var key := UpdSecret(k.keys.schedule.value.hash, k.keys.enc[ApplicationData]);
    InstallNonces(k.(keys := k.keys.(enc := k.keys.enc[ApplicationData := key])), Some(key));
  }

  lemma UpdateReadKeeps(psk: Option<Schedule>, k: Core, at: Transcript, sent: nat, received: nat)
    requires AppKeys(psk, k.keys, at, sent, received) && AppRecords(k.keys, k.rec) && NoncesOk(k.rec) && Drained(k.io)
    ensures var r := UpdateRead(k);
            && AppKeys(psk, r.keys, at, sent, received + 1) && AppRecords(r.keys, r.rec) && NoncesOk(r.rec)
            && r.rec.fault == k.rec.fault && r.rec.straddled == k.rec.straddled
            && r.rec.readKey == Some(r.keys.dec[ApplicationData])
            && r.keys == k.keys.(dec := k.keys.dec[ApplicationData := r.keys.dec[ApplicationData]])
  {
    hide AppSecret, StartedFrom;
  }

  lemma CompleteUpdateKeeps(g: Config, c: Server)
    requires At(g, c) && c.state.CompleteUpdateTraffic?
    ensures HandlerInv(g, DoCompleteUpdateTraffic(c))
  {
    hide Marked, Ups, FromTicket, Follows, Generation, Descends, Live, Log, NoncesOk, VerifyData, AppSecret,
         StartedFrom, AppRecords, Finals;
    LiveAt(g, c);
    LiveAt(g, DoCompleteUpdateTraffic(c));
    UpdateWriteKeeps(c.psk, c.k, c.h.at, Ups(c.k.io.wire, Sent) - 1, Ups(c.k.io.wire, Received));
  }

  lemma KeyUpdateLog(c: Server, m: Message)
    requires c.k.io.cache == Some(m) && m.KeyUpdate? && Log(c.k.io, ViewOf(c), Count(c))
    ensures var w := NextUnhashed(c).io.wire;
            && Log(NextUnhashed(c).io, ViewOf(c), Count(c)) && Finals(w) == Finals(c.k.io.wire)
            && Ups(w, Sent) == Ups(c.k.io.wire, Sent) && Ups(w, Received) == Ups(c.k.io.wire, Received) + 1
  {
    hide Log, Finals, Ups;
    ConsumeLog(c.k.io, m, false, ViewOf(c), Count(c));
  }

  lemma PostHandshakeKeeps(g: Config, c: Server, m: Message)
    requires At(g, c) && c.state.ReadPostHandshake? && c.k.io.cache == Some(m)
    ensures HandlerInv(g, OnPostHandshake(c, m))
  {
    hide Marked, Ups, FromTicket, Follows, Generation, Live, Log, NoncesOk, VerifyData, AppSecret, StartedFrom,
         AppRecords, Finals;
    LiveAt(g, c);
    if !c.f.version13 || !m.KeyUpdate? || Unprocessed(c.k.io) { FailKeeps(g, c); }
    else {
      LiveAt(g, OnPostHandshake(c, m));
      KeyUpdateLog(c, m);
      UpdateReadKeeps(c.psk, NextUnhashed(c), c.h.at, Ups(c.k.io.wire, Sent), Ups(c.k.io.wire, Received));
      FinishesMore(c, Event(Received, m));
      MarkedMore(c.k.io.wire + [Event(Received, m)], c.h.mark, c.h.at, c.f.retried, Received, c.k.keys.enc[Handshake],
                 ViewOf(c), c.f.reused, Event(Sent, KeyUpdate(false)));
      AddLog(UpdateRead(NextUnhashed(c)).io, KeyUpdate(false), false, ViewOf(c), Count(c));
    }
  }
}
