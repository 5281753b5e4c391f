/** What holds after every action of every run of the server, whatever its peer sends. */
module ServerInv {
  import opened Wire
  import opened HandshakeCore
  import opened ServerMachine

  /** Holds in every state. An alert leaves the state as it was before the handler that raised it,
      but for its own record. */
  predicate Sane(c: Server)
  {
    && Logged(c)
    && !c.k.rec.fault && (c.f.version13 ==> !c.k.rec.straddled)
    && NoncesOk(c.k.rec)
  }

  /** The transcript follows the wire, but for the moment between its rewrite and the retry request. */
  predicate Logged(c: Server)
  {
    if c.state.SendHelloRetryRequest13?
    then c.k.keys.schedule.Some? && Rewritten(c.k.io, ViewOf(c), 0, c.k.keys.schedule.value.hash)
    else Log(c.k.io, ViewOf(c), Count(c))
  }

  function Count(c: Server): nat { if c.f.retried then 1 else 0 }

  predicate Unkeyed(r: Rec) { r.used == [] && r.writeKey.None? }

  /** The states that run without reading. */
  predicate Busy(c: Server)
  {
    Drained(c.k.io) && (c.status == Ok || c.status == PackFlight || c.status == FlushHandshake
      || c.status == WriteChangeCipherSpec)
  }

  // Up to the ServerHello

  /** Nothing was consumed yet: ReadClientHello, SelectParameters, SelectParameters13. */
  predicate LiveHello(c: Server)
  {
    && c.k.io.wire == [] && c.k.io.transcript == [] && Unkeyed(c.k.rec) && !c.k.rec.straddled
    && !c.f.retried && !c.f.reused && !c.f.inEarly && c.h.checks == [] && !c.x.hasCert && !c.x.certRequested
    && c.f.version13 == c.state.SelectParameters13?
    && (c.state.ReadClientHello? || c.state.SelectParameters? ==> !c.f.innerOn)
    && (c.state.SelectParameters13? || c.state.SelectParameters? ==>
       c.k.io.cache.Some? && c.k.io.cache.value.ClientHello?)
    && (c.state.SelectParameters13? ==> Follows(c.f.innerOn, c.t.random, c.k.io.cache.value))
  }

  /** The hello that the server goes by: an inner one only if there is one. */
  predicate Follows(inner: bool, random: nat, m: Message)
  {
    m.ClientHello? && (inner ==> m.inner.Some?) && Seen(m, inner).random == random
  }

  /** A resumed session comes from the ticket of the first hello. */
  predicate FromTicket(g: Config, psk: Schedule, m: Message)
  {
    && m.ClientHello? && m.ticket.Some? && g.open(m.ticket.value).Some?
    && psk == FirstSchedule(psk.hash, g.open(m.ticket.value))
  }

  predicate Origin(g: Config, c: Server)
  {
    && |c.k.io.wire| > 0 && Follows(c.f.innerOn, c.t.random, c.k.io.wire[0].m)
    && (c.psk.Some? ==> FromTicket(g, c.psk.value, Seen(c.k.io.wire[0].m, c.f.innerOn)))
  }

  /** The share in use is one that was offered for it. */
  predicate TookFrom(peer: Option<(nat, nat)>, offered: map<nat, nat>)
  {
    peer.Some? ==> peer.value.0 in offered && offered[peer.value.0] == peer.value.1
  }

  predicate ServerFlags(c: Server)
  {
    && c.f.version13 && c.f.reused == c.psk.Some?
    && (c.f.early == Accepted ==> c.f.reused && !c.f.retried && ZeroRtt in c.k.keys.dec)
  }

  /** A HelloRetryRequest is out: for the group it names, with a confirmation exactly if ECH is on. */
  predicate RetrySent(c: Server)
  {
    && AskedAgain(c.k.io.wire, Received) && (c.f.innerOn <==> RetryConfirmed(c.k.io.wire))
    && (c.k.io.wire[1].m.share.Some? <==> c.t.regroup.Some?)
    && (c.t.regroup.None? ==> TookFrom(c.t.peer, c.k.io.wire[0].m.shares))
  }

  /** SendHelloRetryRequest13 to SendServerHello13. */
  predicate LiveParams(g: Config, c: Server)
  {
    && ServerFlags(c) && Origin(g, c) && NoUps(c.k.io.wire) && !c.f.inEarly && Unkeyed(c.k.rec)
    && Finals(c.k.io.wire) == [] && c.h.checks == []
    && !c.x.hasCert && !c.x.certRequested
    && c.k.keys.schedule.Some? && c.k.keys.schedule.value.generation == 1
    && c.k.keys.schedule.value == (if c.psk.Some? then c.psk.value
       else ExtractKey(NewSchedule(c.k.keys.schedule.value.hash), None))
    && (c.state.SendHelloRetryRequest13? ==> !c.f.retried)
    && (if c.state.HrrCompatCcs13? || c.state.ReadSecondClientHello13? then c.f.retried && RetrySent(c)
        else HellosOnly(c.k.io.wire, c.f.retried, Received) && TypesOk(c.k.io.wire, c.f.retried))
    && (c.state.SendHelloRetryRequest13? ==> TookFrom(c.t.peer, c.k.io.wire[0].m.shares))
    && (c.state.SendServerHello13? ==>
         && TookFrom(c.t.peer, Offered(c.k.io.wire, c.f.retried))
         && (c.f.retried ==> (c.f.innerOn <==> RetryConfirmed(c.k.io.wire))))
    && (!c.state.SendServerHello13? ==> c.f.early != Accepted)
    && (!c.state.ReadSecondClientHello13? ==> Busy(c))
  }

  // The server's flight

  predicate SharedKeys(psk: Option<Schedule>, k: Keys)
  {
    && k.schedule.Some? && Handshake in k.enc && Handshake in k.dec
    && HandshakeShape(k.schedule.value, k.dec[Handshake], k.enc[Handshake])
    && StartedFrom(k.enc[Handshake], psk)
  }

  predicate ProtectedKeys(psk: Option<Schedule>, k: Keys)
  {
    SharedKeys(psk, k) && k.schedule.value == Schedule(k.schedule.value.hash, 2, k.enc[Handshake].secret)
  }

  /** ServerHelloCompatCcs13 to SendServerFinished13. */
  predicate LiveFlight(g: Config, c: Server)
  {
    && ServerFlags(c) && !c.f.inEarly && Finals(c.k.io.wire) == [] && c.h.checks == []
    && ProtectedKeys(c.psk, c.k.keys) && Busy(c) && !c.x.hasCert
    && Answering(c.k.io.wire, c.f.retried, Received, c.k.keys.enc[Handshake], ViewOf(c), c.f.reused)
    && Origin(g, c) && NoUps(c.k.io.wire)
    && (if c.state.SendServerFinished13?
        then KeyTop(c.k.rec, 2) && c.k.rec.writeKey == Some(c.k.keys.enc[Handshake]) && Asking(g, c)
        else Unkeyed(c.k.rec) && !c.x.certRequested)
  }

  predicate Asking(g: Config, c: Server) { c.x.certRequested == (!c.f.reused && !g.auth.NotAsked?) }

  // The client's flight

  /** `sent` and `received` count the key updates of each direction. */
  predicate AppKeys(psk: Option<Schedule>, k: Keys, at: Transcript, sent: nat, received: nat)
  {
    && SharedKeys(psk, k) && k.schedule.value.generation == 3
    && ApplicationData in k.enc && ApplicationData in k.dec
    && k.enc[ApplicationData] == Generation(k.schedule.value.hash, AppSecret(k.enc[Handshake], ServerAp, at), sent)
    && k.dec[ApplicationData] == Generation(k.schedule.value.hash, AppSecret(k.enc[Handshake], ClientAp, at), received)
  }

  /** A KeyUpdate that is on the wire while its key is not yet in use. */
  function Pending(s: ServerState): nat { if s.ProcessUpdateTraffic? || s.CompleteUpdateTraffic? then 1 else 0 }

  predicate Updated(c: Server)
  {
    && Ups(c.k.io.wire, Sent) >= Pending(c.state)
    && AppKeys(c.psk, c.k.keys, c.h.at, Ups(c.k.io.wire, Sent) - Pending(c.state), Ups(c.k.io.wire, Received))
  }

  /** Exactly one Finished message was sent, and it covers `at`. */
  predicate Finishes(c: Server)
  {
    && Handshake in c.k.keys.enc && c.k.keys.enc[Handshake].Expand?
    && Finals(c.k.io.wire) == [VerifyData(c.k.keys.enc[Handshake].hash, c.k.keys.enc[Handshake], c.h.at)]
    && Marked(c.k.io.wire, c.h.mark, c.h.at, c.f.retried, Received, c.k.keys.enc[Handshake], ViewOf(c), c.f.reused)
  }

  predicate AppRecords(k: Keys, r: Rec)
    requires ApplicationData in k.enc
  {
    KeyTop(r, KeyRank(k.enc[ApplicationData])) && r.writeKey == Some(k.enc[ApplicationData])
  }

  /** The checks of a client certificate. */
  function PeerChecks(c: Server): seq<Check> { if c.x.hasCert then [ChainVerified(0), SignatureVerified] else [] }

  predicate Checking(g: Config, c: Server)
  {
    match c.state
    case ReadClientCertificateVerify13 =>
      c.x.certRequested && c.h.checks == (if c.x.hasCert then [ChainVerified(0)] else [])
        && (g.auth.Required? ==> c.x.hasCert)
    case ReadClientFinished13 =>
      c.h.checks == PeerChecks(c) && (c.x.certRequested && g.auth.Required? ==> c.x.hasCert)
    case _ => c.h.checks == [] && !c.x.hasCert
  }

  /** ReadSecondClientFlight13 to ReadClientFinished13. */
  predicate LiveReply(g: Config, c: Server)
  {
    && ServerFlags(c) && Asking(g, c) && Checking(g, c)
    && AppKeys(c.psk, c.k.keys, c.h.at, 0, 0) && NoUps(c.k.io.wire) && Finishes(c) && Origin(g, c)
    && Replied(c.k.io.wire, c.h.mark, Received)
    && c.f.inEarly == (c.f.early == Accepted && c.state.ProcessEndOfEarlyData13?)
    && (if c.state.ReadSecondClientFlight13?
        then KeyTop(c.k.rec, 2) && c.k.rec.writeKey == Some(c.k.keys.enc[Handshake])
        else AppRecords(c.k.keys, c.k.rec))
    && (c.state.ReadSecondClientFlight13? || (c.state.ProcessEndOfEarlyData13? && c.f.early != Accepted) ==> Busy(c))
    && (c.state.ReadSecondClientFlight13? || c.state.ProcessEndOfEarlyData13?
        || c.k.rec.readKey == Some(c.k.keys.dec[Handshake]))
  }

  /** The client's Finished that was accepted is on the wire. */
  predicate Accepts(c: Server)
  {
    && Handshake in c.k.keys.dec && c.k.keys.dec[Handshake].Expand?
    && var hs := c.k.keys.dec[Handshake];
       Event(Received, FinishedMsg(VerifyData(hs.hash, hs, c.h.closed))) in c.k.io.wire
  }

  /** SendNewSessionTicket13, FinishServerHandshake, Done and the states after it. */
  predicate LiveFinal(g: Config, c: Server)
  {
    && (c.f.version13 ==>
         && ServerFlags(c) && Asking(g, c)
         && c.h.checks == PeerChecks(c) + [FinishedVerified] && (c.x.certRequested && g.auth.Required? ==> c.x.hasCert)
         && Updated(c) && Finishes(c) && Accepts(c) && Origin(g, c)
         && AppRecords(c.k.keys, c.k.rec) && c.k.rec.readKey == Some(c.k.keys.dec[ApplicationData]))
    && (!c.f.version13 ==> OldFinals(Finals(c.k.io.wire)) && OldHello(c.k.io.wire, true))
    && (c.state.SendNewSessionTicket13? || c.state.ProcessUpdateTraffic? || c.state.CompleteUpdateTraffic? ==>
       c.f.version13)
  }

  // TLS 1.2

  /** The server's Finished, and with it the write key, is still to come. */
  predicate Unsealed(s: ServerState, reused: bool)
  {
    s.AwaitChangeCipherSpec? || s.ProcessChangeCipherSpec? || s.ReadNextProto? || s.ReadClientFinished? ==> !reused
  }

  predicate HasTraffic(s: ServerState)
  {
    || s.ReadClientCertificateVerify? || s.AwaitChangeCipherSpec? || s.ProcessChangeCipherSpec? || s.ReadNextProto?
    || s.ReadClientFinished? || s.SendSessionTicket? || s.SendChangeCipherSpec? || s.SendServerFinished?
  }

  /** TLS 1.2 verify data comes from another function. */
  predicate OldFinals(fs: seq<Term>) { forall i :: 0 <= i < |fs| ==> fs[i].Atom? }

  /** The first message of the server says so. */
  predicate OldHello(w: seq<Event>, out: bool)
  {
    && |w| > 0 && w[0].direction.Received?
    && (if out then |w| > 1 && w[1].direction.Sent? && w[1].m.ServerHello? && !w[1].m.tls13 else |w| == 1)
  }

  predicate LiveLegacy(c: Server)
  {
    && !c.f.version13 && OldFinals(Finals(c.k.io.wire)) && OldHello(c.k.io.wire, !c.state.SendServerHello?)
    && (Unsealed(c.state, c.f.reused) ==> Unkeyed(c.k.rec))
    && (c.f.reused || HasTraffic(c.state) ==> c.x.traffic.Some?)
  }

  // Together

  /** Messages may wait for a later flight only here. */
  predicate MayPend(s: ServerState)
  {
    || s.SendServerCertificate? || s.SendServerKeyExchange? || s.SendServerHelloDone? || s.SendSessionTicket?
    || s.SendServerFinished13? || s.ProcessUpdateTraffic?
  }

  predicate InHello(s: ServerState) { s.ReadClientHello? || s.SelectParameters? || s.SelectParameters13? }

  predicate InParams(s: ServerState)
  {
    s.SendHelloRetryRequest13? || s.HrrCompatCcs13? || s.ReadSecondClientHello13? || s.SendServerHello13?
  }

  predicate InFlight(s: ServerState)
  {
    s.ServerHelloCompatCcs13? || s.SendEncryptedExtensions13? || s.SendServerFinished13?
  }

  predicate InReply(s: ServerState)
  {
    || s.ReadSecondClientFlight13? || s.ProcessEndOfEarlyData13? || s.ReadClientEncryptedExtensions13?
    || s.ReadClientCertificate13? || s.ReadClientCertificateVerify13? || s.ReadClientFinished13?
  }

  predicate InFinal(s: ServerState)
  {
    || s.SendNewSessionTicket13? || s.FinishServerHandshake? || s.Done? || s.ReadPostHandshake?
    || s.ProcessUpdateTraffic?
    || s.CompleteUpdateTraffic?
  }

  predicate InLegacy(s: ServerState)
  {
    || s.SendServerHello? || s.SendServerCertificate? || s.SendServerKeyExchange? || s.SendServerHelloDone?
    || s.ReadClientCertificate? || s.VerifyClientCertificate? || s.ReadClientKeyExchange?
    || s.ReadClientCertificateVerify?
    || s.AwaitChangeCipherSpec? || s.ProcessChangeCipherSpec? || s.ReadNextProto? || s.ReadClientFinished?
    || s.SendSessionTicket? || s.SendChangeCipherSpec? || s.SendServerFinished?
  }

  predicate Live(g: Config, c: Server)
  {
    && (c.state.StartAccept? ==> c == NewServer())
    && (InHello(c.state) ==> LiveHello(c))
    && (InParams(c.state) ==> LiveParams(g, c))
    && (InFlight(c.state) ==> LiveFlight(g, c))
    && (InReply(c.state) ==> LiveReply(g, c))
    && (InFinal(c.state) ==> LiveFinal(g, c))
    && (InLegacy(c.state) ==> LiveLegacy(c))
  }

  lemma LiveAt(g: Config, c: Server)
    ensures InHello(c.state) ==> (Live(g, c) <==> LiveHello(c))
    ensures InParams(c.state) ==> (Live(g, c) <==> LiveParams(g, c))
    ensures InFlight(c.state) ==> (Live(g, c) <==> LiveFlight(g, c))
    ensures InReply(c.state) ==> (Live(g, c) <==> LiveReply(g, c))
    ensures InFinal(c.state) ==> (Live(g, c) <==> LiveFinal(g, c))
  {
    hide LiveHello, LiveParams, LiveFlight, LiveReply, LiveFinal, LiveLegacy;
  }

  lemma LegacyAt(g: Config, c: Server)
    requires InLegacy(c.state)
    ensures Live(g, c) <==> LiveLegacy(c)
  {
    hide LiveLegacy;
  }

  /** After a handler, before its status is acted upon. No assertion fails in any run. */
  predicate HandlerInv(g: Config, c: Server)
  {
    && Sane(c) && !c.end.Crashed?
    && (c.end.Running? ==>
         && Live(g, c)
         && (MayPend(c.state) || c.status == PackFlight || c.status == FlushHandshake || c.k.io.outgoing == []))
  }

  predicate Inv(g: Config, c: Server)
  {
    && HandlerInv(g, c)
    && (c.end.Running? ==> MayPend(c.state) || c.k.io.outgoing == [])
  }

  /** What a handler may rely on. */
  predicate At(g: Config, c: Server) { c.end.Running? && Inv(g, c) }
}
