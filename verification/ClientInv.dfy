/** What holds after every action of every run of the client, whatever its peer sends. */
module ClientInv {
  import opened Wire
  import opened HandshakeCore
  import opened ClientMachine

  /** Holds in every state. An alert leaves the state as it was before the handler that raised it,
      but for its own record. */
  predicate Sane(c: Client)
  {
    && Log(c.k.io, ViewOf(c), if c.f.retried then 1 else 0)
    && !c.k.rec.fault && (c.f.version13 ==> !c.k.rec.straddled)
    && NoncesOk(c.k.rec)
  }

  // Up to the ServerHello that decides

  predicate Unkeyed(r: Rec) { r.used == [] && r.writeKey.None? }

  /** The first hello carries the client's own ticket and inner random in the right place. */
  predicate Own(g: Config, random: nat, w: seq<Event>)
  {
    && |w| > 0 && w[0].m.ClientHello? && (w[0].m.inner.Some? <==> g.ech)
    && (g.ech ==> w[0].m.inner.value.random == random) && Seen(w[0].m, g.ech).ticket == TicketOf(g)
  }

  predicate Starting(g: Config, c: Client)
  {
    && !c.f.reused && c.f.early == Undecided && (!g.ech ==> c.f.ech == Undecided)
    && c.psk == g.psk && c.h.checks == []
    && Finals(c.k.io.wire) == [] && NoUps(c.k.io.wire) && Own(g, c.x.random, c.k.io.wire)
    && KeyTop(c.k.rec, 1) && Initial !in c.k.keys.enc && (!g.earlyData ==> Unkeyed(c.k.rec))
  }

  /** The inner transcript follows the wire as long as ECH may still be accepted. */
  predicate Opening(g: Config, c: Client)
  {
    && Starting(g, c) && !c.f.innerOn
    && (g.ech && c.f.ech != Rejected ==> c.inner == TranscriptOf(c.k.io.wire, View(true, true)))
  }

  /** The first hello is out: EnterEarlyData, EnterEarlyDataCompat, ReadServerHello. */
  predicate LiveFirst(g: Config, c: Client)
  {
    && Opening(g, c) && !c.f.version13 && !c.k.rec.straddled && !c.f.retried && c.f.ech == Undecided
    && HellosOnly(c.k.io.wire, false, Sent) && c.x.kex == c.k.io.wire[0].m.shares
    && (if c.state.EnterEarlyData? then !c.f.inEarly && Unkeyed(c.k.rec) else c.f.inEarly == g.earlyData)
  }

  /** A TLS 1.3 ServerHello is being looked at: CompatCcs13, ReadHrr13. */
  predicate LiveDecide(g: Config, c: Client)
  {
    && Opening(g, c) && c.f.version13 && !c.f.retried && c.f.ech == Undecided
    && c.f.inEarly == g.earlyData && HellosOnly(c.k.io.wire, false, Sent) && c.x.kex == c.k.io.wire[0].m.shares
    && LooksAt13(c.k.io.cache)
  }

  /** SendSecondClientHello13 and ReadServerHello13. */
  predicate LiveSecond(g: Config, c: Client)
  {
    && Opening(g, c) && Scheduled(g, c)
    && (c.f.retried && g.ech ==> c.f.ech != Undecided)
    && (if c.state.SendSecondClientHello13?
        then && c.f.retried && AskedFor(c.k.io.wire, c.x.kex)
             && (c.f.ech == Accepted <==> RetryConfirmed(c.k.io.wire))
        else Answerable(c))
  }

  predicate AskedFor(w: seq<Event>, kex: map<nat, nat>)
  {
    AskedAgain(w, Sent) && (w[1].m.share.None? ==> kex == w[0].m.shares)
  }

  /** The hellos are out, with the key shares at hand, and ECH has been decided if there was a retry. */
  predicate Answerable(c: Client)
  {
    && HellosOnly(c.k.io.wire, c.f.retried, Sent) && TypesOk(c.k.io.wire, c.f.retried)
    && c.x.kex == Offered(c.k.io.wire, c.f.retried)
    && (c.f.retried ==> (c.f.ech == Accepted <==> RetryConfirmed(c.k.io.wire)))
    && (!c.f.retried ==> c.f.ech == Undecided && LooksAt13(c.k.io.cache))
  }

  /** A TLS 1.3 ServerHello is being looked at. */
  predicate LooksAt13(m: Option<Message>) { m.Some? && m.value.ServerHello? && m.value.tls13 }

  predicate Scheduled(g: Config, c: Client)
  {
    && c.f.version13 && c.f.inEarly == (g.earlyData && !c.f.retried)
    && c.k.keys.schedule.Some? && c.k.keys.schedule.value == NewSchedule(c.k.keys.schedule.value.hash)
  }

  // Under the handshake keys

  predicate SharedKeys(g: Config, reused: bool, k: Keys)
  {
    && k.schedule.Some? && Handshake in k.enc && Handshake in k.dec
    && HandshakeShape(k.schedule.value, k.enc[Handshake], k.dec[Handshake])
    && (reused ==> g.psk.Some?)
    && StartedFrom(k.dec[Handshake], if reused then g.psk else None)
  }

  predicate ProtectedKeys(g: Config, reused: bool, k: Keys)
  {
    SharedKeys(g, reused, k) && k.schedule.value == Schedule(k.schedule.value.hash, 2, k.dec[Handshake].secret)
  }

  /** `early`: the handshake key is not yet used for writing. */
  predicate HandshakeRecords(k: Keys, r: Rec, early: bool)
    requires Handshake in k.enc && Handshake in k.dec
  {
    && r.readKey == Some(k.dec[Handshake])
    && (if early then KeyTop(r, 1) else KeyTop(r, 2) && r.writeKey == Some(k.enc[Handshake]))
  }

  function ChainCheck(g: Config, f: Flags): seq<Check> { if g.verify then [ChainVerified(HostFor(g, f))] else [] }

  function PeerChecks(g: Config, f: Flags): seq<Check>
  {
    if f.reused then [] else ChainCheck(g, f) + [SignatureVerified]
  }

  /** The checks that must have passed, and no others, while the server's flight is read. */
  predicate Checking(g: Config, c: Client)
  {
    match c.state
    case ReadEncryptedExtensions13 => c.h.checks == []
    case ReadCertificateRequest13 => c.h.checks == []
    case ReadServerCertificate13 => c.h.checks == [] && !c.f.reused
    case ReadServerCertificateVerify13 => c.h.checks == ChainCheck(g, c.f) && !c.f.reused
    case _ => c.h.checks == PeerChecks(g, c.f)
  }

  predicate EarlyFlags(g: Config, f: Flags)
  {
    && (f.early == Accepted ==> g.earlyData && !f.retried && f.reused && f.ech != Rejected)
    && (!g.ech ==> f.ech == Undecided)
  }

  /** ReadEncryptedExtensions13 to ReadServerFinished13. */
  predicate LiveProtected(g: Config, c: Client)
  {
    && c.f.version13 && EarlyFlags(g, c.f) && c.f.inEarly == (g.earlyData && !c.f.retried)
    && (c.state.ReadEncryptedExtensions13? ==> c.f.early == Undecided)
    && Checking(g, c)
    && Finals(c.k.io.wire) == []
    && ProtectedKeys(g, c.f.reused, c.k.keys)
    && Answering(c.k.io.wire, c.f.retried, Sent, c.k.keys.dec[Handshake], ViewOf(c), c.f.reused)
    && Own(g, c.x.random, c.k.io.wire) && (c.f.reused && g.ech ==> c.f.innerOn) && NoUps(c.k.io.wire)
    && HandshakeRecords(c.k.keys, c.k.rec,
                        if c.state.ReadEncryptedExtensions13? then g.earlyData else c.f.early == Accepted)
  }

  // After the server's Finished

  /** `sent` and `received` count the key updates of each direction. */
  predicate AppKeys(g: Config, reused: bool, k: Keys, at: Transcript, sent: nat, received: nat)
  {
    && SharedKeys(g, reused, k) && k.schedule.value.generation == 3
    && ApplicationData in k.enc && ApplicationData in k.dec
    && k.enc[ApplicationData] == Generation(k.schedule.value.hash, AppSecret(k.dec[Handshake], ClientAp, at), sent)
    && k.dec[ApplicationData] == Generation(k.schedule.value.hash, AppSecret(k.dec[Handshake], ServerAp, at), received)
  }

  /** A KeyUpdate that is on the wire while its key is not yet in use. */
  function Pending(s: ClientState): nat { if s.ProcessUpdateTraffic? || s.CompleteUpdateTraffic? then 1 else 0 }

  predicate Updated(g: Config, c: Client)
  {
    && Ups(c.k.io.wire, Sent) >= Pending(c.state)
    && AppKeys(g, c.f.reused, c.k.keys, c.h.at, Ups(c.k.io.wire, Sent) - Pending(c.state), Ups(c.k.io.wire, Received))
  }

  /** The Finished message that was accepted is on the wire. */
  predicate Accepts(c: Client)
  {
    && Handshake in c.k.keys.dec && c.k.keys.dec[Handshake].Expand?
    && var hs := c.k.keys.dec[Handshake];
       Event(Received, FinishedMsg(VerifyData(hs.hash, hs, c.h.at))) in c.k.io.wire
  }

  /** Verify data of a post-handshake Finished. */
  predicate LateFinal(t: Term)
  {
    t.Mac? && t.key.Expand? && t.key.secret.Expand? && (t.key.secret.tag == ClientAp || t.key.secret.tag == TrafficUpd)
  }

  /** The first Finished sent is the one of the handshake. */
  predicate OwnFinals(fs: seq<Term>, first: Term)
  {
    |fs| >= 1 && fs[0] == first && forall i :: 1 <= i < |fs| ==> LateFinal(fs[i])
  }

  predicate Finishes(c: Client)
  {
    && Handshake in c.k.keys.enc && c.k.keys.enc[Handshake].Expand?
    && OwnFinals(Finals(c.k.io.wire), VerifyData(c.k.keys.enc[Handshake].hash, c.k.keys.enc[Handshake], c.h.closed))
  }

  /** The log through the server's Finished, which was accepted. */
  predicate Passed(c: Client)
  {
    && Handshake in c.k.keys.dec
    && Marked(c.k.io.wire, c.h.mark, c.h.at, c.f.retried, Sent, c.k.keys.dec[Handshake], ViewOf(c), c.f.reused)
  }

  /** And through the client's own. */
  predicate Shut(c: Client)
  {
    && Passed(c) && Handshake in c.k.keys.enc
    && Closed(c.k.io.wire, c.h.mark, c.h.last, c.h.closed, c.k.keys.enc[Handshake], ViewOf(c))
  }

  /** The second flight, which runs without reading: SendEndOfEarlyData13 to CompleteSecondFlight13. */
  predicate LiveClosing(g: Config, c: Client)
  {
    && c.f.version13 && EarlyFlags(g, c.f)
    && (c.state.SendEndOfEarlyData13? ==> c.f.inEarly == (g.earlyData && !c.f.retried))
    && c.h.checks == PeerChecks(g, c.f) + [FinishedVerified]
    && AppKeys(g, c.f.reused, c.k.keys, c.h.at, 0, 0) && NoUps(c.k.io.wire) && Accepts(c)
    && HandshakeRecords(c.k.keys, c.k.rec,
                        && c.f.early == Accepted
                        && (c.state.SendEndOfEarlyData13? || c.state.SendClientEncryptedExtensions13?))
    && (if c.state.CompleteSecondFlight13? then Finishes(c) && Shut(c)
        else Finals(c.k.io.wire) == [] && Passed(c) && Replied(c.k.io.wire, c.h.mark, Sent))
    && Drained(c.k.io)
    && (c.status == Ok || c.status == PackFlight || c.status == FlushHandshake)
  }

  predicate FinalRecords(k: Keys, r: Rec)
    requires ApplicationData in k.enc && ApplicationData in k.dec
  {
    && r.readKey == Some(k.dec[ApplicationData])
    && r.writeKey == Some(k.enc[ApplicationData])
    && KeyTop(r, KeyRank(k.enc[ApplicationData]))
  }

  /** FinishClientHandshake, Done and the states after it. */
  predicate LiveFinal(g: Config, c: Client)
  {
    && (c.f.version13 ==>
         && c.h.checks == PeerChecks(g, c.f) + [FinishedVerified]
         && Updated(g, c) && Accepts(c) && Finishes(c) && Shut(c)
         && FinalRecords(c.k.keys, c.k.rec))
    && (!c.f.version13 ==> OldAnswer(c.k.io.wire))
    && (c.f.ech == Rejected ==> c.state.FinishClientHandshake?)
    && (c.state.ProcessUpdateTraffic? || c.state.CompleteUpdateTraffic? ==> c.f.version13)
  }

  // TLS 1.2

  /** Nothing has been sealed yet in a TLS 1.2 handshake. */
  predicate Unsealed(s: ClientState, reused: bool)
  {
    !s.FinishFlight? && (s.ReadSessionTicket? || s.ProcessChangeCipherSpec? || s.ReadServerFinished? ==> reused)
  }

  predicate HasTraffic(s: ClientState)
  {
    || s.SendClientCertificateVerify? || s.SendChangeCipherSpec? || s.SendClientFinished?
    || s.FinishFlight? || s.ReadSessionTicket? || s.ProcessChangeCipherSpec? || s.ReadServerFinished?
  }

  /** The server answered with an older version. */
  predicate OldAnswer(w: seq<Event>)
  {
    |w| > 1 && w[0].direction.Sent? && w[1].direction.Received? && w[1].m.ServerHello? && !w[1].m.tls13
  }

  predicate LiveLegacy(c: Client)
  {
    && !c.f.version13 && OldAnswer(c.k.io.wire)
    && (Unsealed(c.state, c.f.reused) ==>
         && c.k.rec.used == []
         && (if c.state.SendClientFinished? then c.status == WriteChangeCipherSpec else c.k.rec.writeKey.None?))
    && (c.f.reused || HasTraffic(c.state) ==> c.l.traffic.Some?)
  }

  // Together

  /** Messages may wait for a later flight only here. */
  predicate MayPend(s: ClientState)
  {
    || s.SendClientKeyExchange? || s.SendClientCertificateVerify? || s.SendClientCertificate13?
    || s.SendClientFinished13?
    || s.ProcessUpdateTraffic?
  }

  predicate InFirst(s: ClientState) { s.EnterEarlyData? || s.EnterEarlyDataCompat? || s.ReadServerHello? }

  predicate InDecide(s: ClientState) { s.CompatCcs13? || s.ReadHrr13? }

  predicate InSecond(s: ClientState) { s.SendSecondClientHello13? || s.ReadServerHello13? }

  predicate InProtected(s: ClientState)
  {
    || s.ReadEncryptedExtensions13? || s.ReadCertificateRequest13? || s.ReadServerCertificate13?
    || s.ReadServerCertificateVerify13? || s.ReadServerFinished13?
  }

  predicate InClosing(s: ClientState)
  {
    || s.SendEndOfEarlyData13? || s.SendClientEncryptedExtensions13? || s.SendClientCertificate13?
    || s.SendClientFinished13? || s.CompleteSecondFlight13?
  }

  predicate InFinal(s: ClientState)
  {
    s.FinishClientHandshake? || s.Done? || s.ReadPostHandshake? || s.ProcessUpdateTraffic? || s.CompleteUpdateTraffic?
  }

  predicate InLegacy(s: ClientState)
  {
    || s.ReadServerCertificate? || s.ReadCertificateStatus? || s.ReadServerKeyExchange? || s.ReadCertificateRequest?
    || s.ReadServerHelloDone? || s.SendClientCertificate? || s.SendClientKeyExchange? || s.SendClientCertificateVerify?
    || s.SendChangeCipherSpec? || s.SendClientFinished? || s.FinishFlight? || s.ReadSessionTicket?
    || s.ProcessChangeCipherSpec? || s.ReadServerFinished?
  }

  predicate Live(g: Config, c: Client)
  {
    && !c.state.VerifyServerCertificate?
    && (c.state.StartConnect? ==> c == NewClient())
    && (InFirst(c.state) ==> LiveFirst(g, c))
    && (InDecide(c.state) ==> LiveDecide(g, c))
    && (InSecond(c.state) ==> LiveSecond(g, c))
    && (InProtected(c.state) ==> LiveProtected(g, c))
    && (InClosing(c.state) ==> LiveClosing(g, c))
    && (InFinal(c.state) ==> LiveFinal(g, c))
    && (InLegacy(c.state) ==> LiveLegacy(c))
  }

  lemma LiveAt(g: Config, c: Client)
    ensures Live(g, c) ==> !c.state.VerifyServerCertificate?
    ensures InFirst(c.state) ==> (Live(g, c) <==> LiveFirst(g, c))
    ensures InDecide(c.state) ==> (Live(g, c) <==> LiveDecide(g, c))
    ensures InSecond(c.state) ==> (Live(g, c) <==> LiveSecond(g, c))
    ensures InProtected(c.state) ==> (Live(g, c) <==> LiveProtected(g, c))
    ensures InClosing(c.state) ==> (Live(g, c) <==> LiveClosing(g, c))
    ensures InFinal(c.state) ==> (Live(g, c) <==> LiveFinal(g, c))
  {
    hide LiveFirst, LiveDecide, LiveSecond, LiveProtected, LiveClosing, LiveFinal, LiveLegacy;
  }

  lemma LegacyAt(g: Config, c: Client)
    requires InLegacy(c.state)
    ensures Live(g, c) <==> LiveLegacy(c)
  {
    hide LiveLegacy;
  }

  /** The one assertion a peer can make fail: early data accepted for a session that was not resumed. */
  predicate CrashCase(g: Config, c: Client)
  {
    && c.state.ReadEncryptedExtensions13? && g.earlyData && !c.f.retried && !c.f.reused
    && c.k.io.cache.Some? && c.k.io.cache.value.EncryptedExtensions? && c.k.io.cache.value.early
  }

  /** After a handler, before its status is acted upon. */
  predicate HandlerInv(g: Config, c: Client)
  {
    && Sane(c)
    && (c.end.Running? ==>
         && Live(g, c) && (c.status == EarlyReturn ==> InFirst(c.state))
         && (MayPend(c.state) || c.status == PackFlight || c.status == FlushHandshake || c.k.io.outgoing == []))
    && (c.end.Crashed? ==> CrashCase(g, c))
  }

  predicate Inv(g: Config, c: Client)
  {
    && HandlerInv(g, c)
    && (c.end.Running? ==> MayPend(c.state) || c.k.io.outgoing == [])
  }

  /** What a handler may rely on. */
  predicate At(g: Config, c: Client)
  {
    ConfigOk(g) && c.end.Running? && Inv(g, c)
  }
}
